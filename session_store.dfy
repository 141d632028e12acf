/**
 * The one `sessionStorage` key the client uses, 'templateTopic': the
 * trending-topics page writes a topic into it and the awareness-templates
 * page reads it once.
 */
module SessionStore {
  import opened Wrappers

  class Session {
    /** The value under 'templateTopic', if any. */
    var templateTopic: Option<string>

    constructor ()
      ensures templateTopic == None
    {
      templateTopic := None;
    }
  }
}

/**
 * The trending-topics page: one fetch when the page opens, the list or a
 * message, and the hand-off of a topic to the awareness-templates page.
 */
module Trending {
  import opened Wrappers
  import opened JsStrings
  import TopicParser
  import GeminiService
  import SessionStore
  import Types
  import App

  const NoTopics := "No trending topics could be fetched at this time."
  const TemplatesPage := "dashboard/templates"

  class TrendingTopicsPage {
    var topics: seq<TopicParser.Topic>
    var isLoading: bool
    var error: Option<string>

    /** At most five topics are ever listed. */
    predicate Valid()
      reads this
    {
      |topics| <= 5
    }

    constructor ()
      ensures Valid() && topics == [] && isLoading && error == None
    {
      topics := [];
      isLoading := true;
      error := None;
    }

    /** The start of the fetch. */
    method FetchStarted()
      modifies this`isLoading, this`error
      ensures isLoading && error == None
    {
      isLoading := true;
      error := None;
    }

    /** The end of the fetch: a non-empty list is stored as it came, an
        empty one sets the message; loading ends either way. The adapter
        gives an empty list exactly for an empty reply. */
    method TopicsArrived(reply: GeminiService.Reply)
      requires Valid()
      modifies this`topics, this`error, this`isLoading
      ensures Valid() && !isLoading
      ensures reply == GeminiService.Text("") ==> error == Some(NoTopics)
      ensures reply != GeminiService.Text("") ==> topics == GeminiService.GetTrendingTopics(reply) && error == old(error)
      ensures reply == GeminiService.Text("") ==> topics == old(topics)
    {
      var fetched := GeminiService.GetTrendingTopics(reply);
      if |fetched| > 0 {
        topics := fetched;
      } else {
        error := Some(NoTopics);
      }
      isLoading := false;
    }

    /** `handleCreateTemplate`: the topic is stored under 'templateTopic'
        and the templates page requested. */
    method CreateTemplate(topic: string, store: SessionStore.Session) returns (page: string)
      modifies store
      ensures store.templateTopic == Some(topic)
      ensures page == TemplatesPage
    {
      store.templateTopic := Some(topic);
      page := TemplatesPage;
    }
  }

  /** A signed-in user who is sent to the templates page sees it. */
  lemma TemplatesPageShown(page: string, a: App.AuthPage, u: Option<Types.User>)
    requires page == TemplatesPage
    ensures App.RenderPage(true, a, page, u) == App.AwarenessTemplatesView
  {
    ShownTool(page, "templates", a, u);
  }

  lemma ShownTool(page: string, seg: string, a: App.AuthPage, u: Option<Types.User>)
    requires seg == "templates" && page == App.DashboardPrefix + seg
    ensures App.RenderPage(true, a, page, u) == App.AwarenessTemplatesView
  {
    App.DashboardDispatch(true, a, seg, "", u);
    assert App.DashboardPrefix + seg + "" == page;
    TemplatesTool(seg);
  }

  lemma TemplatesTool(seg: string)
    requires seg == "templates"
    ensures App.ToolView(seg) == App.AwarenessTemplatesView
  {
  }
}

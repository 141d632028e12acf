/**
 * The SMS page: no service is called. After a fixed delay the verdict is
 * given from the sender type alone.
 */
module Sms {
  import opened Wrappers
  import opened JsStrings

  const SmsEmpty := "SMS message cannot be empty."

  /** The sender types the selector offers. */
  const Alphanumeric := "alphanumeric"
  const Alphabetic := "alphabetic"
  const Numeric := "numeric"
  const Otp := "otp"

  datatype Verdict = Safe | Fraud

  /** The rule applied when the delay ends: an alphanumeric sender is
      fraud, every other sender is safe. */
  function VerdictFor(senderType: string): (v: Verdict)
    ensures v.Fraud? <==> senderType == Alphanumeric
    ensures v.Safe? <==> senderType != Alphanumeric
  {
    if senderType == Alphanumeric then Fraud else Safe
  }

  /** The other three choices of the selector are all safe. */
  lemma OtherSendersSafe(senderType: string)
    requires senderType in {Alphabetic, Numeric, Otp}
    ensures VerdictFor(senderType) == Safe
  {
  }

  class SmsFraudDetectionPage {
    var smsText: string
    var messageType: string
    var isLoading: bool
    var result: Option<Verdict>
    var error: Option<string>

    constructor ()
      ensures smsText == "" && messageType == Alphanumeric
      ensures !isLoading && result == None && error == None
    {
      smsText := "";
      messageType := Alphanumeric;
      isLoading := false;
      result := None;
      error := None;
    }

    /** Typing in the text box. */
    method Edit(value: string)
      modifies this`smsText
      ensures smsText == value
    {
      smsText := value;
    }

    /** Choosing a sender type. */
    method ChooseType(value: string)
      modifies this`messageType
      ensures messageType == value
    {
      messageType := value;
    }

    /** `handleAnalyze`, up to the timer: a blank message sets the message
        and starts nothing; otherwise loading starts with result and
        message cleared, and the timer is armed with the sender type of
        this moment. */
    method Analyze() returns (armed: Option<string>)
      modifies this`isLoading, this`result, this`error
      ensures armed.None? <==> Trim(smsText) == ""
      ensures armed.None? ==> error == Some(SmsEmpty) && isLoading == old(isLoading) && result == old(result)
      ensures armed.Some? ==> armed.value == messageType && isLoading && result == None && error == None
    {
      if Trim(smsText) == "" {
        error := Some(SmsEmpty);
        return None;
      }
      isLoading := true;
      result := None;
      error := None;
      armed := Some(messageType);
    }

    /** The timer fires with the sender type it was armed with. */
    method VerdictDelivered(senderType: string)
      modifies this`result, this`isLoading
      ensures result == Some(VerdictFor(senderType)) && !isLoading
    {
      result := Some(VerdictFor(senderType));
      isLoading := false;
    }
  }

  /** One analysis: the verdict follows the sender type chosen when the
      button was pressed, even if the choice changes during the delay, and
      the text matters only in being blank or not. */
  method AnalyzeFlow(text: string, senderType: string, laterType: string)
    returns (verdict: Option<Verdict>, error: Option<string>, loading: bool)
    ensures Trim(text) == "" ==> verdict.None? && error == Some(SmsEmpty)
    ensures Trim(text) != "" ==> verdict == Some(VerdictFor(senderType)) && error == None
    ensures !loading
  {
    var page := new SmsFraudDetectionPage();
    page.Edit(text);
    page.ChooseType(senderType);
    var armed := page.Analyze();
    page.ChooseType(laterType);
    if armed.Some? {
      page.VerdictDelivered(armed.value);
    }
    verdict, error, loading := page.result, page.error, page.isLoading;
  }
}

/**
 * The call-fraud page: an audio file is checked for fraud, and the
 * reporting block (helpline and portal) is shown for a fraudulent call.
 */
module CallFraud {
  import opened Wrappers
  import opened Types
  import GeminiService
  import opened AudioUpload

  /** `isFraud`: the assessment is exactly 'Fraudulent Call'. It also
      decides whether the reporting block is shown. */
  predicate IsFraud(r: CallFraudAnalysisResult) {
    r.fraudAssessment == "Fraudulent Call"
  }

  /** A result is fraud exactly when its assessment is the fraudulent label
      of the closed set. */
  lemma IsFraudMeansFraudulentLabel(r: CallFraudAnalysisResult)
    ensures IsFraud(r) <==> FraudAssessmentOf(r.fraudAssessment) == Some(FraudulentCall)
    ensures IsFraud(r) ==> r.fraudAssessment == FraudulentCall.Label()
  {
  }

  /** The reporting block is never shown for a failed analysis: only a
      reply whose text parses can be a fraudulent call. */
  lemma FraudOnlyFromParsedReply(reply: GeminiService.Reply, parse: string -> Option<CallFraudAnalysisResult>)
    ensures IsFraud(GeminiService.AnalyzeCallForFraud(reply, parse))
      ==> reply.Text? && parse(GeminiService.StripFences(reply.text)) == Some(GeminiService.AnalyzeCallForFraud(reply, parse))
  {
    assert !IsFraud(GeminiService.CallFallback);
  }

  /** One detection from picking the file to storing the result: the
      payload sent is the file's base64 data, its MIME type goes with it,
      and the stored result is the analysis of the service's reply. */
  method DetectFlow(file: AudioFile, mediatype: string, payload: string,
                    reply: GeminiService.Reply, parse: string -> Option<CallFraudAnalysisResult>)
    returns (request: Option<AudioRequest>, result: Option<CallFraudAnalysisResult>, error: Option<string>, loading: bool)
    requires Accepted(file) && ',' !in mediatype && IsBase64(payload)
    ensures request == Some(AudioRequest(Some(payload), file.mimeType))
    ensures result == Some(GeminiService.AnalyzeCallForFraud(reply, parse))
    ensures error == None && !loading
  {
    var page := new AudioPage<CallFraudAnalysisResult>();
    page.ChooseFile(Some(file));
    var reading := page.Detect();
    DataUrlRoundTrip(mediatype, payload);
    request := page.FileRead(reading.value, Some(DataUrl(mediatype, payload)));
    page.AnalysisArrived(GeminiService.AnalyzeCallForFraud(reply, parse));
    result, error, loading := page.result, page.error, page.isLoading;
  }

  /** A file over the limit is refused: the message is set, nothing is
      selected, and detection does nothing. */
  method OversizedFlow(file: AudioFile) returns (reading: Option<AudioFile>, result: Option<CallFraudAnalysisResult>, error: Option<string>, loading: bool)
    requires !Accepted(file)
    ensures reading.None? && result.None? && error == Some(TooLarge) && !loading
  {
    var page := new AudioPage<CallFraudAnalysisResult>();
    page.ChooseFile(Some(file));
    reading := page.Detect();
    result, error, loading := page.result, page.error, page.isLoading;
  }
}

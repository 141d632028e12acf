/**
 * The AI-voice page: an audio file is classified as AI-generated or
 * human, with a confidence bar coloured by band.
 */
module AiVoice {
  import opened Wrappers
  import opened Types
  import GeminiService
  import opened AudioUpload

  const GreenBar := "bg-green-500"
  const YellowBar := "bg-yellow-500"
  const RedBar := "bg-red-500"

  /** `getConfidenceColor`: above 75 green, above 40 and at most 75
      yellow, at most 40 red. The confidence is whatever number the parsed
      reply holds, fractions included. */
  function ConfidenceColor(confidence: real): (c: string)
    ensures c == GreenBar <==> confidence > 75.0
    ensures c == YellowBar <==> 40.0 < confidence <= 75.0
    ensures c == RedBar <==> confidence <= 40.0
  {
    if confidence > 75.0 then GreenBar
    else if confidence > 40.0 then YellowBar
    else RedBar
  }

  /** The bands never go back: a higher confidence is never shown in a
      worse colour. */
  lemma ConfidenceColorMonotone(a: real, b: real)
    requires a <= b
    ensures ConfidenceColor(a) == GreenBar ==> ConfidenceColor(b) == GreenBar
    ensures ConfidenceColor(b) == RedBar ==> ConfidenceColor(a) == RedBar
  {
  }

  /** The band edges fall between whole numbers and their fractional
      neighbours: 40.5 is yellow and 75.5 green, while 40 and 75 stay in the
      band below. */
  lemma ConfidenceBandEdges(x: real)
    requires 40.0 < x <= 41.0 || 75.0 < x <= 76.0
    ensures 40.0 < x <= 41.0 ==> ConfidenceColor(x) == YellowBar && ConfidenceColor(40.0) == RedBar
    ensures 75.0 < x <= 76.0 ==> ConfidenceColor(x) == GreenBar && ConfidenceColor(75.0) == YellowBar
  {
  }

  /** `isAI`: the classification is exactly 'AI-Generated Voice'. */
  predicate IsAI(r: AiVoiceDetectionResult) {
    r.classification == "AI-Generated Voice"
  }

  /** A result is shown as AI exactly when its classification is the AI
      label of the closed set. */
  lemma IsAIMeansAiLabel(r: AiVoiceDetectionResult)
    ensures IsAI(r) <==> VoiceClassOf(r.classification) == Some(AiGeneratedVoice)
  {
  }

  /** A failed analysis is never shown as AI, and its bar is red. */
  lemma FallbackShownAsFailed(reply: GeminiService.Reply, parse: string -> Option<AiVoiceDetectionResult>)
    ensures IsAI(GeminiService.AnalyzeVoiceForAI(reply, parse)) ==> reply.Text?
    ensures !reply.Text? ==> ConfidenceColor(GeminiService.AnalyzeVoiceForAI(reply, parse).confidence) == RedBar
  {
    assert !IsAI(GeminiService.VoiceFallback);
  }

  /** One detection from picking the file to storing the result. */
  method DetectFlow(file: AudioFile, mediatype: string, payload: string,
                    reply: GeminiService.Reply, parse: string -> Option<AiVoiceDetectionResult>)
    returns (request: Option<AudioRequest>, result: Option<AiVoiceDetectionResult>, error: Option<string>, loading: bool)
    requires Accepted(file) && ',' !in mediatype && IsBase64(payload)
    ensures request == Some(AudioRequest(Some(payload), file.mimeType))
    ensures result == Some(GeminiService.AnalyzeVoiceForAI(reply, parse))
    ensures error == None && !loading
  {
    var page := new AudioPage<AiVoiceDetectionResult>();
    page.ChooseFile(Some(file));
    var reading := page.Detect();
    DataUrlRoundTrip(mediatype, payload);
    request := page.FileRead(reading.value, Some(DataUrl(mediatype, payload)));
    page.AnalysisArrived(GeminiService.AnalyzeVoiceForAI(reply, parse));
    result, error, loading := page.result, page.error, page.isLoading;
  }

  /** A reader failure ends the detection with the failure message and no
      result, and loading is over. */
  method ReadFailureFlow(file: AudioFile) returns (request: Option<AudioRequest>, result: Option<AiVoiceDetectionResult>, error: Option<string>, loading: bool)
    requires Accepted(file)
    ensures request.None? && result.None? && error == Some(AnalysisFailed) && !loading
  {
    var page := new AudioPage<AiVoiceDetectionResult>();
    page.ChooseFile(Some(file));
    var reading := page.Detect();
    request := page.FileRead(reading.value, None);
    result, error, loading := page.result, page.error, page.isLoading;
  }
}

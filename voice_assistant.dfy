/**
 * The floating voice assistant: four flags (open, listening, thinking,
 * speaking), the last transcript and the last response. Speech recognition
 * and speech synthesis are browser services: the model receives their
 * callbacks as events and returns the requests it makes of them.
 */
module Assistant {
  import GeminiService
  const ListeningText := "Listening..."
  const ThinkingText := "Thinking..."
  const PromptText := "Tap the mic and ask a question."
  const NoSpeechText := "I didn't hear anything. Please tap the mic to try again."
  const NotUnderstoodText := "Sorry, I couldn't understand. Please try again."

  /** What the assistant asks of the recogniser. */
  datatype RecognitionRequest = StartRecognition | StopRecognition | AbortRecognition | NoRequest

  /** `getStatusText`: listening, then thinking, then speaking (the
      response), then a quoted transcript, then a response, then the
      prompt. */
  function StatusText(isListening: bool, isThinking: bool, isSpeaking: bool, transcript: string, response: string): (r: string)
    ensures isListening ==> r == ListeningText
    ensures !isListening && isThinking ==> r == ThinkingText
    ensures !isListening && !isThinking && isSpeaking ==> r == response
    ensures !isListening && !isThinking && !isSpeaking && transcript != ""
      ==> r == "\"" + transcript + "\"" && |r| == |transcript| + 2
    ensures !isListening && !isThinking && !isSpeaking && transcript == "" && response != "" ==> r == response
    ensures !isListening && !isThinking && !isSpeaking && transcript == "" && response == "" ==> r == PromptText
  {
    if isListening then ListeningText
    else if isThinking then ThinkingText
    else if isSpeaking then response
    else if transcript != "" then "\"" + transcript + "\""
    else if response != "" then response
    else PromptText
  }

  /** The status line is blank only while an empty response is being
      spoken. */
  lemma StatusBlank(isListening: bool, isThinking: bool, isSpeaking: bool, transcript: string, response: string)
    ensures StatusText(isListening, isThinking, isSpeaking, transcript, response) == ""
      <==> !isListening && !isThinking && isSpeaking && response == ""
  {
  }

  class VoiceAssistant {
    var isOpen: bool
    var isListening: bool
    var isThinking: bool
    var isSpeaking: bool
    var transcript: string
    var response: string

    constructor ()
      ensures !isOpen && !isListening && !isThinking && !isSpeaking
      ensures transcript == "" && response == ""
      ensures Status() == PromptText
    {
      isOpen, isListening, isThinking, isSpeaking := false, false, false, false;
      transcript, response := "", "";
    }

    function Status(): string
      reads this
    {
      StatusText(isListening, isThinking, isSpeaking, transcript, response)
    }

    /** `toggleListen`: the panel opens; listening is stopped, or, when
        the assistant is idle, the old exchange is cleared and listening
        requested. */
    method ToggleListen() returns (req: RecognitionRequest)
      modifies this`isOpen, this`transcript, this`response
      ensures isOpen
      ensures req == StopRecognition <==> isListening
      ensures req == StartRecognition <==> !isListening && !isSpeaking && !isThinking
      ensures req == StartRecognition ==> transcript == "" && response == "" && Status() == PromptText
      ensures req != StartRecognition ==> transcript == old(transcript) && response == old(response)
    {
      isOpen := true;
      if isListening {
        req := StopRecognition;
      } else if !isSpeaking && !isThinking {
        response := "";
        transcript := "";
        req := StartRecognition;
      } else {
        req := NoRequest;
      }
    }

    /** The recogniser's `onstart`. */
    method RecognitionStarted()
      modifies this`isListening, this`transcript, this`response
      ensures isListening && transcript == "" && response == ""
      ensures Status() == ListeningText
    {
      isListening := true;
      transcript := "";
      response := "";
    }

    /** The recogniser's `onresult` followed by the first half of
        `handleAiResponse`: the phrase is kept and the assistant turns from
        listening to thinking; the phrase is what is sent to the model. */
    method RecognitionResult(phrase: string) returns (query: string)
      modifies this`transcript, this`isListening, this`isThinking
      ensures transcript == phrase && query == phrase
      ensures !isListening && isThinking
      ensures Status() == ThinkingText
    {
      transcript := phrase;
      isListening := false;
      isThinking := true;
      query := phrase;
    }

    /** The second half of `handleAiResponse`: the adapter's answer to the
        model's reply becomes the response, thinking ends, and the answer
        is spoken unless it is empty. */
    method ReplyArrived(reply: GeminiService.Reply) returns (speak: bool)
      modifies this`response, this`isThinking
      ensures response == GeminiService.GetVoiceAssistantResponse(reply) && !isThinking
      ensures speak <==> response != ""
      ensures reply.Threw? ==> speak && response == GeminiService.VoiceApology
    {
      response := GeminiService.GetVoiceAssistantResponse(reply);
      isThinking := false;
      speak := response != "";
    }

    /** The recogniser's `onerror`: 'no-speech' and any error other than
        'aborted' set their message; every error ends listening and
        thinking. */
    method RecognitionFailed(error: string)
      modifies this`response, this`isListening, this`isThinking
      ensures !isListening && !isThinking
      ensures error == "no-speech" ==> response == NoSpeechText
      ensures error == "aborted" ==> response == old(response)
      ensures error != "no-speech" && error != "aborted" ==> response == NotUnderstoodText
    {
      if error == "no-speech" {
        response := NoSpeechText;
      } else if error != "aborted" {
        response := NotUnderstoodText;
      }
      isListening := false;
      isThinking := false;
    }

    /** The recogniser's `onend`. */
    method RecognitionEnded()
      modifies this`isListening
      ensures !isListening
    {
      isListening := false;
    }

    /** The utterance's `onstart`. */
    method SpeechStarted()
      modifies this`isSpeaking
      ensures isSpeaking
    {
      isSpeaking := true;
    }

    /** The utterance's `onend`: speaking ends and the panel closes. */
    method SpeechEnded()
      modifies this`isSpeaking, this`isOpen
      ensures !isSpeaking && !isOpen
    {
      isSpeaking := false;
      isOpen := false;
    }

    /** The utterance's `onerror`: speaking ends, the panel stays. */
    method SpeechFailed()
      modifies this`isSpeaking
      ensures !isSpeaking
    {
      isSpeaking := false;
    }

    /** `closeAssistant`: recognition is aborted, speech cancelled, and all
        four flags cleared. The two requests are returned: the abort for the
        recogniser and `cancelSpeech` for the speech synthesiser. */
    method Close() returns (req: RecognitionRequest, cancelSpeech: bool)
      modifies this`isListening, this`isThinking, this`isSpeaking, this`isOpen
      ensures req == AbortRecognition && cancelSpeech
      ensures !isListening && !isThinking && !isSpeaking && !isOpen
    {
      req, cancelSpeech := AbortRecognition, true;
      isListening := false;
      isThinking := false;
      isSpeaking := false;
      isOpen := false;
    }
  }
}

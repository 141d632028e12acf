/**
 * The adapter between the client and the generative-model service. The
 * service itself is not modelled: what it sends back is an input (`Reply`),
 * and `JSON.parse` is an abstract partial function handed in by the caller.
 * Every adapter catches whatever goes wrong and returns a fixed fallback
 * value, so none of them fails.
 */
module GeminiService {
  import opened JsStrings
  import opened Wrappers
  import opened Types
  import opened TopicParser

  /** What a request to the service comes back with: the reply text, a
      reply whose `text` is undefined, or a request that threw. */
  datatype Reply = Text(text: string) | NoText | Threw

  // ---------------------------------------------------------------------
  // Code-fence stripping (cleanAndParseJson)
  // ---------------------------------------------------------------------

  const JsonFence := "```json"
  const Fence := "```"

  /** The text handed to `JSON.parse`: the trimmed reply, with its first
      seven characters and its last three removed when it starts with a
      json fence, its first three and last three when it starts with a bare
      fence, and trimmed again in those two cases. The closing fence is not
      looked at. */
  function StripFences(text: string): (r: string)
    ensures !StartsWith(Trim(text), Fence) ==> r == Trim(text)
    ensures IsTrimmed(r)
  {
    var cleaned := Trim(text);
    if StartsWith(cleaned, JsonFence) then Trim(Substring(cleaned, 7, |cleaned| - 3))
    else if StartsWith(cleaned, Fence) then Trim(Substring(cleaned, 3, |cleaned| - 3))
    else cleaned
  }

  /** A trimmed body inside a json fence, with any whitespace around it, is
      read back exactly. */
  lemma JsonFenceRoundTrip(w1: string, body: string, w2: string)
    requires AllWhitespace(w1) && AllWhitespace(w2) && IsTrimmed(body)
    ensures StripFences(JsonFence + w1 + body + w2 + Fence) == body
  {
    var t := JsonFence + w1 + body + w2 + Fence;
    assert t[0] == '`' && t[|t| - 1] == '`';
    TrimIdempotent(t);
    assert t[..7] == JsonFence;
    assert Substring(t, 7, |t| - 3) == w1 + body + w2 by {
      assert t[7..|t| - 3] == w1 + body + w2;
    }
    TrimPadded(w1, body, w2);
  }

  /** The same for a bare fence, whenever the text after the fence does not
      start with "json" (which would make it a json fence): with no
      whitespace at all, as in "```{...}```", or with a line break. */
  lemma BareFenceRoundTrip(w1: string, body: string, w2: string)
    requires AllWhitespace(w1) && AllWhitespace(w2) && IsTrimmed(body)
    requires !StartsWith(w1 + body + w2 + Fence, "json")
    ensures StripFences(Fence + w1 + body + w2 + Fence) == body
  {
    var rest := w1 + body + w2 + Fence;
    assert Fence + rest == Fence + w1 + body + w2 + Fence;
    assert rest[|rest| - 1] == '`';
    BareFenced(rest);
    BareFenceDropsLastThree(rest);
    assert rest[..|rest| - 3] == w1 + body + w2;
    TrimPadded(w1, body, w2);
  }

  /** A bare fence followed by text that does not start with "json" and
      ends in a fence is trimmed and is not a json fence. */
  lemma BareFenced(rest: string)
    requires rest != [] && rest[|rest| - 1] == '`' && !StartsWith(rest, "json")
    ensures IsTrimmed(Fence + rest) && !StartsWith(Fence + rest, JsonFence)
  {
    var t := Fence + rest;
    assert t[0] == '`' && t[|t| - 1] == rest[|rest| - 1];
    NotJsonFence(rest);
  }

  lemma NotJsonFence(rest: string)
    requires !StartsWith(rest, "json")
    ensures !StartsWith(Fence + rest, JsonFence)
  {
    assert JsonFence[3..] == "json";
    if |rest| >= 4 {
      assert (Fence + rest)[..7][3..] == rest[..4];
    }
  }

  /** The closing fence is never checked: after a json fence the last three
      characters go whatever they are. */
  lemma JsonFenceDropsLastThree(rest: string)
    requires |rest| >= 3 && IsTrimmed(JsonFence + rest)
    ensures StripFences(JsonFence + rest) == Trim(rest[..|rest| - 3])
  {
    var t := JsonFence + rest;
    TrimIdempotent(t);
    assert t[..7] == JsonFence;
    assert t[7..|t| - 3] == rest[..|rest| - 3];
  }

  /** Likewise after a bare fence: whatever the last three characters are,
      they go, and what lies between is trimmed. */
  lemma BareFenceDropsLastThree(rest: string)
    requires |rest| >= 3 && IsTrimmed(Fence + rest) && !StartsWith(Fence + rest, JsonFence)
    ensures StripFences(Fence + rest) == Trim(rest[..|rest| - 3])
  {
    var t := Fence + rest;
    TrimIdempotent(t);
    assert t[..3] == Fence;
    assert t[3..|t| - 3] == rest[..|rest| - 3];
  }

  /** A compact reply with no line breaks around its body is parsed from
      the body. */
  lemma CompactBareFence()
    ensures StripFences("```{}```") == "{}"
  {
    assert "```{}```" == Fence + [] + "{}" + [] + Fence;
    assert !StartsWith([] + "{}" + [] + Fence, "json") by {
      assert ([] + "{}" + [] + Fence)[..4][0] == '{';
    }
    BareFenceRoundTrip([], "{}", []);
  }

  /** A reply that is only a bare fence is shorter than the three plus
      three characters dropped; the bounds swap and the fence itself is
      parsed. */
  lemma LoneBareFence()
    ensures StripFences(Fence) == Fence
  {
    TrimIdempotent(Fence);
    assert StartsWith(Fence, Fence) && !StartsWith(Fence, JsonFence);
    assert Substring(Fence, 3, 0) == Fence;
  }

  /** A reply of a lone json fence is shorter than the seven plus three
      characters dropped, and `substring` then swaps its bounds: what is
      parsed is "son". */
  lemma LoneJsonFence()
    ensures StripFences(JsonFence) == "son"
  {
    assert StartsWith(JsonFence, JsonFence);
    assert Substring(JsonFence, 7, 4) == "son";
    TrimIdempotent("son");
  }

  // ---------------------------------------------------------------------
  // The guarded JSON adapters
  // ---------------------------------------------------------------------

  /** `try { return cleanAndParseJson(response.text) } catch { return
      fallback }`: an undefined text makes `trim` throw, and `parse`
      returning `None` stands for `JSON.parse` throwing. */
  function Guarded<T>(reply: Reply, parse: string -> Option<T>, fallback: T): (r: T)
    ensures r != fallback ==> reply.Text? && parse(StripFences(reply.text)) == Some(r)
    ensures reply.Text? && parse(StripFences(reply.text)).Some? ==> r == parse(StripFences(reply.text)).value
    ensures !reply.Text? ==> r == fallback
  {
    match reply
    case Text(t) => parse(StripFences(t)).GetOr(fallback)
    case _ => fallback
  }

  /** A fenced reply is parsed from its body. */
  lemma GuardedFencedReply<T>(w1: string, body: string, w2: string, parse: string -> Option<T>, fallback: T)
    requires AllWhitespace(w1) && AllWhitespace(w2) && IsTrimmed(body)
    requires parse(body).Some?
    ensures Guarded(Text(JsonFence + w1 + body + w2 + Fence), parse, fallback) == parse(body).value
  {
    JsonFenceRoundTrip(w1, body, w2);
  }

  const ImageFallback := ImageDetectionResult("Uncertain", 0.0, "An error occurred during analysis.")
  const VoiceFallback := AiVoiceDetectionResult("Uncertain", 0.0, "An error occurred during voice analysis.")
  const CallFallback := CallFraudAnalysisResult("Uncertain", [], "Uncertain", 0.0, "An error occurred during call analysis.")
  const ArticleFallback := ArticleAnalysisResult("High", 0.0, [], "Error during analysis.", [])

  /** The infographic content the template tool asks for. */
  datatype TemplateContent = TemplateContent(title: string, highlights: seq<string>, tips: seq<string>)

  const TemplateFallback := TemplateContent("Error", ["Could not generate content."], [])

  const TrendingFallback := [Topic("Error fetching topics.", "High", 0)]

  /** The fallback records keep to the closed label sets of their types,
      and each says that nothing was found. */
  lemma FallbacksWellTyped()
    ensures ImageFallback.WellTyped() && ImageClassOf(ImageFallback.classification) == Some(ImageUncertain)
    ensures VoiceFallback.WellTyped() && VoiceClassOf(VoiceFallback.classification) == Some(VoiceUncertain)
    ensures CallFallback.WellTyped() && FraudAssessmentOf(CallFallback.fraudAssessment) == Some(FraudUncertain)
    ensures ArticleFallback.WellTyped() && RiskLevelOf(ArticleFallback.riskLevel) == Some(High)
  {
  }

  /** `analyzeImageForAI` */
  function AnalyzeImageForAI(reply: Reply, parse: string -> Option<ImageDetectionResult>): (r: ImageDetectionResult)
    ensures !reply.Text? ==> r == ImageFallback
    ensures reply.Text? && parse(StripFences(reply.text)).None? ==> r == ImageFallback
  {
    Guarded(reply, parse, ImageFallback)
  }

  /** `analyzeVoiceForAI` */
  function AnalyzeVoiceForAI(reply: Reply, parse: string -> Option<AiVoiceDetectionResult>): (r: AiVoiceDetectionResult)
    ensures !reply.Text? ==> r == VoiceFallback
    ensures reply.Text? && parse(StripFences(reply.text)).None? ==> r == VoiceFallback
  {
    Guarded(reply, parse, VoiceFallback)
  }

  /** `analyzeCallForFraud` */
  function AnalyzeCallForFraud(reply: Reply, parse: string -> Option<CallFraudAnalysisResult>): (r: CallFraudAnalysisResult)
    ensures !reply.Text? ==> r == CallFallback
    ensures reply.Text? && parse(StripFences(reply.text)).None? ==> r == CallFallback
  {
    Guarded(reply, parse, CallFallback)
  }

  /** `analyzeArticleContent` */
  function AnalyzeArticleContent(reply: Reply, parse: string -> Option<ArticleAnalysisResult>): (r: ArticleAnalysisResult)
    ensures !reply.Text? ==> r == ArticleFallback
    ensures reply.Text? && parse(StripFences(reply.text)).None? ==> r == ArticleFallback
  {
    Guarded(reply, parse, ArticleFallback)
  }

  /** `generateAwarenessTemplateText` */
  function GenerateAwarenessTemplateText(reply: Reply, parse: string -> Option<TemplateContent>): (r: TemplateContent)
    ensures !reply.Text? ==> r == TemplateFallback
    ensures reply.Text? && parse(StripFences(reply.text)).None? ==> r == TemplateFallback
  {
    Guarded(reply, parse, TemplateFallback)
  }

  /** `getTrendingTopics`: the parse of the reply text; an undefined text
      makes `split` throw, which gives the error entry like any other
      failure. */
  function GetTrendingTopics(reply: Reply): (r: seq<Topic>)
    ensures |r| <= 5
    ensures |r| == 0 <==> reply == Text("")
    ensures !reply.Text? ==> r == TrendingFallback
    ensures reply.Text? ==> r == ParseTrending(reply.text)
  {
    match reply
    case Text(t) => ParseTrending(t)
    case _ => TrendingFallback
  }

  const ChatApology := "Sorry, I'm having trouble connecting. Please try again later."
  const VoiceApology := "Sorry, I couldn't process that. Please try again."

  /** A text reply passed through as it is; an undefined text stands as the
      empty string, and a failed request as the apology. */
  function TextReply(reply: Reply, apology: string): (r: string)
    ensures reply.Text? ==> r == reply.text
    ensures reply.NoText? ==> r == ""
    ensures reply.Threw? ==> r == apology
  {
    match reply
    case Text(t) => t
    case NoText => ""
    case Threw => apology
  }

  /** `getChatbotResponse` */
  function GetChatbotResponse(reply: Reply): (r: string)
    ensures reply.Text? ==> r == reply.text
    ensures reply.Threw? ==> r == ChatApology
  {
    TextReply(reply, ChatApology)
  }

  /** `getVoiceAssistantResponse` */
  function GetVoiceAssistantResponse(reply: Reply): (r: string)
    ensures reply.Text? ==> r == reply.text
    ensures reply.Threw? ==> r == VoiceApology
  {
    TextReply(reply, VoiceApology)
  }

  // ---------------------------------------------------------------------
  // Prompts that carry the user's text
  // ---------------------------------------------------------------------

  const ArticlePromptHead := "Perform a deep, critical analysis of the following article content. Break it down into its core claims. Meticulously fact-check each individual claim against multiple reliable, independent sources. For your findings, provide source attribution. Conclude with an overall misinformation risk level ('Low', 'Medium', 'High'), a credibility score (0-100), a list of relevant topic tags, and a concise, neutral summary of the content. Article content: \""
  const ArticlePromptTail := "\""

  const TemplatePromptHead := "Generate content for an awareness infographic based on this topic: \""
  const TemplatePromptTail := "\". Provide a catchy title, 3-4 key bullet points explaining why the content is misleading, and 1-2 safety tips or verified sources. Make it concise and easy to share."

  const VoicePromptHead := "You are a helpful voice assistant for CodeHustlers. Respond to the following user query concisely, as if you were speaking. Do not provide links or act like a search engine. Give a direct answer. Query: \""
  const VoicePromptTail := "\""

  /** A user text placed between a fixed head and a fixed tail. */
  function Embed(head: string, text: string, tail: string): (r: string)
    ensures |r| == |head| + |text| + |tail|
    ensures r[..|head|] == head && r[|head|..|head| + |text|] == text && r[|head| + |text|..] == tail
  {
    head + text + tail
  }

  /** The user text is recovered from the prompt: it is what lies between
      the head and the tail. */
  function Embedded(head: string, prompt: string, tail: string): (r: Option<string>)
    ensures r.Some? ==> Embed(head, r.value, tail) == prompt
  {
    if |head| + |tail| <= |prompt| && prompt[..|head|] == head && prompt[|prompt| - |tail|..] == tail then
      var text := prompt[|head|..|prompt| - |tail|];
      assert prompt == head + text + tail by {
        assert prompt == prompt[..|head|] + prompt[|head|..|prompt| - |tail|] + prompt[|prompt| - |tail|..];
      }
      Some(text)
    else None
  }

  /** Embedding and recovery are inverse: every prompt of the template
      gives back its text, so two different texts never share a prompt. */
  lemma EmbedRoundTrip(head: string, text: string, tail: string)
    ensures Embedded(head, Embed(head, text, tail), tail) == Some(text)
  {
    var p := Embed(head, text, tail);
    assert p[|head|..|p| - |tail|] == text;
  }

  function ArticlePrompt(content: string): (r: string)
    ensures Embedded(ArticlePromptHead, r, ArticlePromptTail) == Some(content)
  {
    EmbedRoundTrip(ArticlePromptHead, content, ArticlePromptTail);
    Embed(ArticlePromptHead, content, ArticlePromptTail)
  }

  function TemplatePrompt(topic: string): (r: string)
    ensures Embedded(TemplatePromptHead, r, TemplatePromptTail) == Some(topic)
  {
    EmbedRoundTrip(TemplatePromptHead, topic, TemplatePromptTail);
    Embed(TemplatePromptHead, topic, TemplatePromptTail)
  }

  function VoicePrompt(query: string): (r: string)
    ensures Embedded(VoicePromptHead, r, VoicePromptTail) == Some(query)
  {
    EmbedRoundTrip(VoicePromptHead, query, VoicePromptTail);
    Embed(VoicePromptHead, query, VoicePromptTail)
  }

  /** Different texts give different prompts. */
  lemma PromptsInjective(a: string, b: string)
    requires a != b
    ensures ArticlePrompt(a) != ArticlePrompt(b)
    ensures TemplatePrompt(a) != TemplatePrompt(b)
    ensures VoicePrompt(a) != VoicePrompt(b)
  {
  }
}

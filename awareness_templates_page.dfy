/**
 * The awareness-templates page: a prompt (possibly handed over from the
 * trending-topics page), the generated infographic content, and its
 * copied and downloaded forms.
 */
module Templates {
  import opened Wrappers
  import opened JsStrings
  import TopicParser
  import GeminiService
  import SessionStore
  import Trending

  // ---------------------------------------------------------------------
  // File names
  // ---------------------------------------------------------------------

  /** A character `[a-z0-9]` with the `i` flag matches. */
  predicate IsAsciiAlnum(c: char) {
    'a' <= c <= 'z' || 'A' <= c <= 'Z' || IsDigit(c)
  }

  /** A character a safe title may hold. */
  predicate IsSafeChar(c: char) {
    'a' <= c <= 'z' || IsDigit(c) || c == '_'
  }

  /** `replace(/[^a-z0-9]/gi, '_')` */
  function ReplaceUnsafe(t: string): (r: string)
    ensures |r| == |t|
    ensures forall i :: 0 <= i < |t| ==> r[i] == if IsAsciiAlnum(t[i]) then t[i] else '_'
  {
    seq(|t|, i requires 0 <= i < |t| => if IsAsciiAlnum(t[i]) then t[i] else '_')
  }

  /** The safe title: unsafe characters replaced by '_', then the first 30
      kept, then lower-cased. Each character of the result comes from the
      same position of the title. */
  function SafeTitle(title: string): (r: string)
    ensures |r| == if |title| < 30 then |title| else 30
    ensures forall i :: 0 <= i < |r| ==> IsSafeChar(r[i])
    ensures forall i :: 0 <= i < |r| ==> r[i] == if IsAsciiAlnum(title[i]) then LowerChar(title[i]) else '_'
  {
    ToLower(Substring(ReplaceUnsafe(title), 0, 30))
  }

  /** A safe title is its own safe title. */
  lemma SafeTitleIdempotent(title: string)
    ensures SafeTitle(SafeTitle(title)) == SafeTitle(title)
  {
    var s := SafeTitle(title);
    forall i | 0 <= i < |s| ensures SafeTitle(s)[i] == s[i] {
      assert IsSafeChar(s[i]);
    }
  }

  const FilePrefix := "codehustlers_template_"

  /** `codehustlers_template_${safeTitle}` followed by the extension. */
  function FileName(title: string, ext: string): (name: string)
    ensures |name| == |FilePrefix| + |SafeTitle(title)| + |ext|
    ensures StartsWith(name, FilePrefix)
    ensures name[|FilePrefix|..|FilePrefix| + |SafeTitle(title)|] == SafeTitle(title)
    ensures name[|FilePrefix| + |SafeTitle(title)|..] == ext
  {
    FilePrefix + SafeTitle(title) + ext
  }

  /** The text and the picture of one result are saved under the same
      name, up to the extension. */
  lemma DownloadNamesAgree(title: string)
    ensures FileName(title, ".txt")[..|FileName(title, ".txt")| - 4] == FileName(title, ".png")[..|FileName(title, ".png")| - 4]
  {
    var base := FilePrefix + SafeTitle(title);
    assert FileName(title, ".txt")[..|base|] == base;
    assert FileName(title, ".png")[..|base|] == base;
  }

  // ---------------------------------------------------------------------
  // Copied and downloaded text
  // ---------------------------------------------------------------------

  /** One line per item, each behind the same marker. */
  function Bullets(marker: string, items: seq<string>): (lines: seq<string>)
    ensures |lines| == |items|
    ensures forall i :: 0 <= i < |items| ==> lines[i] == marker + items[i]
  {
    seq(|items|, i requires 0 <= i < |items| => marker + items[i])
  }

  /** The copied text up to the tips heading. */
  function CopyHead(c: GeminiService.TemplateContent): string {
    "Title: " + c.title + "\n\nKey Points:\n" + Join(Bullets("- ", c.highlights), "\n") + "\n\nTips & Sources:"
  }

  /** The copied text before trimming, without the padding. */
  function CopyLayout(c: GeminiService.TemplateContent): string {
    CopyHead(c) + "\n" + Join(Bullets("- ", c.tips), "\n")
  }

  /** The text `handleCopyToClipboard` copies: the layout padded with a
      line break in front and a line break and indentation behind, then
      trimmed. The result keeps the whole layout up to the tips heading and
      loses only trailing whitespace. */
  function CopyText(c: GeminiService.TemplateContent): (r: string)
    ensures IsTrimmed(r)
    ensures |CopyHead(c)| <= |r| && r[..|CopyHead(c)|] == CopyHead(c)
    ensures |r| <= |CopyLayout(c)| && CopyLayout(c)[..|r|] == r
    ensures AllWhitespace(CopyLayout(c)[|r|..])
  {
    var head := CopyHead(c);
    var layout := CopyLayout(c);
    assert layout[0] == 'T';
    assert head[|head| - 1] == ':';
    assert layout[..|head|] == head;
    TrimKeepsHead("\n", layout, "\n        ", |head|);
    var r := Trim("\n" + layout + "\n        ");
    assert r[..|head|] == layout[..|r|][..|head|];
    r
  }

  /** With no tips, the copied text ends at the tips heading. */
  lemma CopyTextWithoutTips(c: GeminiService.TemplateContent)
    requires c.tips == []
    ensures CopyText(c) == CopyHead(c)
  {
    var head := CopyHead(c);
    var r := CopyText(c);
    assert CopyLayout(c) == head + "\n";
  }

  const Rule := "-------------------------------------"

  const Banner := "AWARENESS TEMPLATE from CodeHustlers \U{2728}\n"
  const Footer := "\n\n" + Rule + "\nBe smart, stay safe."

  /** The downloaded text, without the padding. */
  function DownloadLayout(c: GeminiService.TemplateContent): string {
    Banner + DownloadBody(c) + Footer
  }

  function DownloadBody(c: GeminiService.TemplateContent): string {
    Rule + "\n\nTitle: " + c.title
    + "\n\n\U{1F914} Why it might be misleading:\n" + Join(Bullets("  \U{2022} ", c.highlights), "\n")
    + "\n\n\U{1F4A1} How to stay safe:\n" + Join(Bullets("  \U{2022} ", c.tips), "\n")
  }

  /** The text `handleDownloadText` saves: it begins and ends with fixed
      lines, so trimming the padding leaves the layout whole. */
  function DownloadText(c: GeminiService.TemplateContent): (r: string)
    ensures r == DownloadLayout(c)
  {
    var layout := DownloadLayout(c);
    assert layout[0] == Banner[0];
    assert layout[|layout| - 1] == Footer[|Footer| - 1];
    TrimPadded("\n", layout, "\n        ");
    Trim("\n" + layout + "\n        ")
  }

  /** A saved text file. */
  datatype TextFile = TextFile(name: string, content: string)

  const PromptEmpty := "Prompt cannot be empty."
  const ImageFailed := "Sorry, there was an issue creating the image. Please try again."

  class AwarenessTemplatesPage {
    var prompt: string
    var isLoading: bool
    var result: Option<GeminiService.TemplateContent>
    var error: Option<string>
    var isCopied: bool
    var trendingTopics: seq<TopicParser.Topic>
    var isTopicsLoading: bool

    constructor ()
      ensures prompt == "" && !isLoading && result == None && error == None && !isCopied
      ensures trendingTopics == [] && isTopicsLoading
    {
      prompt := "";
      isLoading := false;
      result := None;
      error := None;
      isCopied := false;
      trendingTopics := [];
      isTopicsLoading := true;
    }

    /** The mount effect, first part: a non-empty topic under
        'templateTopic' becomes the prompt and the key is removed, so it is
        read once; an empty or missing one changes nothing. */
    method Mount(store: SessionStore.Session)
      modifies this`prompt, store
      ensures old(store.templateTopic).Some? && old(store.templateTopic).value != ""
        ==> prompt == old(store.templateTopic).value && store.templateTopic == None
      ensures !(old(store.templateTopic).Some? && old(store.templateTopic).value != "")
        ==> prompt == old(prompt) && store.templateTopic == old(store.templateTopic)
    {
      var topicFromNav := store.templateTopic;
      if topicFromNav.Some? && topicFromNav.value != "" {
        prompt := topicFromNav.value;
        store.templateTopic := None;
      }
    }

    /** The mount effect, second part: the topics for the picker arrive. */
    method TopicsArrived(reply: GeminiService.Reply)
      modifies this`trendingTopics, this`isTopicsLoading
      ensures trendingTopics == GeminiService.GetTrendingTopics(reply) && !isTopicsLoading
      ensures |trendingTopics| <= 5
    {
      trendingTopics := GeminiService.GetTrendingTopics(reply);
      isTopicsLoading := false;
    }

    /** `handleGenerate`, up to the request: a blank prompt sets the
        message and requests nothing; otherwise loading starts with result
        and message cleared, and the prompt is what is sent. */
    method Generate() returns (request: Option<string>)
      modifies this`isLoading, this`result, this`error
      ensures request.None? <==> Trim(prompt) == ""
      ensures request.None? ==> error == Some(PromptEmpty) && isLoading == old(isLoading) && result == old(result)
      ensures request.Some? ==> request.value == prompt && isLoading && result == None && error == None
    {
      if Trim(prompt) == "" {
        error := Some(PromptEmpty);
        return None;
      }
      isLoading := true;
      result := None;
      error := None;
      request := Some(prompt);
    }

    /** `handleGenerate`, after the request: the adapter's content is
        stored, fallback included, and loading ends. */
    method GenerateDone(reply: GeminiService.Reply, parse: string -> Option<GeminiService.TemplateContent>)
      modifies this`result, this`isLoading
      ensures result == Some(GeminiService.GenerateAwarenessTemplateText(reply, parse)) && !isLoading
      ensures !reply.Text? ==> result == Some(GeminiService.TemplateFallback)
    {
      result := Some(GeminiService.GenerateAwarenessTemplateText(reply, parse));
      isLoading := false;
    }

    /** `handleCopyToClipboard`: nothing without a result; otherwise the
        copied text, and the "copied" mark shown. */
    method Copy() returns (text: Option<string>)
      modifies this`isCopied
      ensures result.None? ==> text.None? && isCopied == old(isCopied)
      ensures result.Some? ==> text == Some(CopyText(result.value)) && isCopied
    {
      if result.None? {
        return None;
      }
      text := Some(CopyText(result.value));
      isCopied := true;
    }

    /** The timer that clears the "copied" mark. */
    method CopiedExpired()
      modifies this`isCopied
      ensures !isCopied
    {
      isCopied := false;
    }

    /** `handleDownloadText`: nothing without a result; otherwise the text
        file and its name. */
    method DownloadTextFile() returns (file: Option<TextFile>)
      ensures result.None? ==> file.None?
      ensures result.Some? ==> file == Some(TextFile(FileName(result.value.title, ".txt"), DownloadText(result.value)))
    {
      if result.None? {
        return None;
      }
      file := Some(TextFile(FileName(result.value.title, ".txt"), DownloadText(result.value)));
    }

    /** `handleDownloadImage`: nothing without a result; a failed
        rendering sets the message; otherwise the picture's file name. */
    method DownloadImage(rendered: bool) returns (name: Option<string>)
      modifies this`error
      ensures result.None? ==> name.None? && error == old(error)
      ensures result.Some? && !rendered ==> name.None? && error == Some(ImageFailed)
      ensures result.Some? && rendered ==> name == Some(FileName(result.value.title, ".png")) && error == old(error)
    {
      if result.None? {
        return None;
      }
      if !rendered {
        error := Some(ImageFailed);
        return None;
      }
      name := Some(FileName(result.value.title, ".png"));
    }

    /** `handleTopicSelect` */
    method SelectTopic(topic: string)
      modifies this`prompt
      ensures prompt == topic
    {
      prompt := topic;
    }

    /** Typing in the prompt box. */
    method EditPrompt(value: string)
      modifies this`prompt
      ensures prompt == value
    {
      prompt := value;
    }
  }

  /** The hand-off from the trending-topics page: the topic becomes the
      prompt of the templates page that opens next and the key is gone, so
      a templates page opened after that starts blank. An empty topic is
      not taken and stays stored. */
  method TopicHandOff(topic: string) returns (prompt: string, laterPrompt: string, left: Option<string>)
    ensures prompt == topic
    ensures topic != "" ==> laterPrompt == "" && left == None
    ensures topic == "" ==> laterPrompt == "" && left == Some("")
  {
    var store := new SessionStore.Session();
    var trending := new Trending.TrendingTopicsPage();
    var page := trending.CreateTemplate(topic, store);
    var first := new AwarenessTemplatesPage();
    first.Mount(store);
    var later := new AwarenessTemplatesPage();
    later.Mount(store);
    prompt, laterPrompt, left := first.prompt, later.prompt, store.templateTopic;
  }
}

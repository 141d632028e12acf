/**
 * The article page: pasted text is sent for fact-checking, and the risk
 * level of the result is coloured.
 */
module Article {
  import opened Wrappers
  import opened JsStrings
  import opened Types
  import GeminiService
  import RiskColors

  const ArticleEmpty := "Article content cannot be empty."

  class ArticleAnalysisPage {
    var articleText: string
    var isLoading: bool
    var result: Option<ArticleAnalysisResult>
    var error: Option<string>

    constructor ()
      ensures articleText == "" && !isLoading && result == None && error == None
    {
      articleText := "";
      isLoading := false;
      result := None;
      error := None;
    }

    /** Typing in the text box. */
    method Edit(value: string)
      modifies this`articleText
      ensures articleText == value
    {
      articleText := value;
    }

    /** `handleAnalyze`, up to the request: a blank text sets the message
        and sends nothing; otherwise loading starts with result and message
        cleared, and the text, untrimmed, is handed to the adapter, which
        embeds it in its prompt. */
    method Analyze() returns (content: Option<string>)
      modifies this`isLoading, this`result, this`error
      ensures content.None? <==> Trim(articleText) == ""
      ensures content.None? ==> error == Some(ArticleEmpty) && isLoading == old(isLoading) && result == old(result)
      ensures content.Some? ==> content.value == articleText && isLoading && result == None && error == None
    {
      if Trim(articleText) == "" {
        error := Some(ArticleEmpty);
        return None;
      }
      isLoading := true;
      result := None;
      error := None;
      content := Some(articleText);
    }

    /** `handleAnalyze`, after the request: the adapter's record, fallback
        included, is stored and loading ends. */
    method AnalysisArrived(reply: GeminiService.Reply, parse: string -> Option<ArticleAnalysisResult>)
      modifies this`result, this`isLoading
      ensures result == Some(GeminiService.AnalyzeArticleContent(reply, parse)) && !isLoading
    {
      result := Some(GeminiService.AnalyzeArticleContent(reply, parse));
      isLoading := false;
    }

    /** The colour of the stored result's risk level. */
    function ResultColor(): (c: Option<string>)
      reads this
      ensures result.None? <==> c.None?
      ensures result.Some? && RiskLevelOf(result.value.riskLevel).Some? ==> c.Some? && c.value != RiskColors.Gray
    {
      if result.None? then None
      else
        RiskLabelColor(result.value.riskLevel);
        Some(RiskColors.RiskColor(result.value.riskLevel))
    }
  }

  /** A label of the closed risk set is never grey. */
  lemma RiskLabelColor(risk: string)
    ensures RiskLevelOf(risk).Some? ==> RiskColors.RiskColor(risk) != RiskColors.Gray
  {
    if RiskLevelOf(risk).Some? {
      RiskColors.RiskLabelColors(RiskLevelOf(risk).value);
    }
  }

  /** One analysis of a non-blank text: the text goes to the adapter
      verbatim, and the stored result is the analysis of the reply; a
      failed request shows the high-risk fallback in red. */
  method AnalyzeFlow(text: string, reply: GeminiService.Reply, parse: string -> Option<ArticleAnalysisResult>)
    returns (content: Option<string>, result: Option<ArticleAnalysisResult>, error: Option<string>, loading: bool)
    requires Trim(text) != ""
    ensures content == Some(text)
    ensures result == Some(GeminiService.AnalyzeArticleContent(reply, parse))
    ensures !reply.Text? ==> result.value.riskLevel == "High" && RiskColors.RiskColor(result.value.riskLevel) == RiskColors.Red
    ensures error == None && !loading
  {
    var page := new ArticleAnalysisPage();
    page.Edit(text);
    content := page.Analyze();
    page.AnalysisArrived(reply, parse);
    if !reply.Text? {
      RiskColors.RiskLabelColors(High);
    }
    result, error, loading := page.result, page.error, page.isLoading;
  }

  /** A blank text only sets the message. */
  method BlankFlow(text: string) returns (content: Option<string>, result: Option<ArticleAnalysisResult>, error: Option<string>, loading: bool)
    requires Trim(text) == ""
    ensures content.None? && result.None? && error == Some(ArticleEmpty) && !loading
  {
    var page := new ArticleAnalysisPage();
    page.Edit(text);
    content := page.Analyze();
    result, error, loading := page.result, page.error, page.isLoading;
  }
}

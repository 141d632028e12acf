/**
 * The result and user records of the client, with the closed label sets its
 * type declarations give them. The records hold the labels as strings,
 * because the service adapter passes the parsed reply on without checking
 * it against those sets; each set is a datatype with its spelling
 * (`Label`) and the partial inverse (`...Of`), and `WellTyped` says that a
 * record keeps to its sets.
 */
module Types {
  import opened Wrappers

  /** 'AI-generated' | 'Authentic' | 'Uncertain' */
  datatype ImageClass = AiGenerated | Authentic | ImageUncertain {
    function Label(): string {
      match this
      case AiGenerated => "AI-generated"
      case Authentic => "Authentic"
      case ImageUncertain => "Uncertain"
    }
  }

  function ImageClassOf(s: string): (r: Option<ImageClass>)
    ensures r.Some? <==> s in {"AI-generated", "Authentic", "Uncertain"}
    ensures r.Some? ==> r.value.Label() == s
  {
    if s == "AI-generated" then Some(AiGenerated)
    else if s == "Authentic" then Some(Authentic)
    else if s == "Uncertain" then Some(ImageUncertain)
    else None
  }

  /** 'AI-Generated Voice' | 'Human Voice' | 'Uncertain', shared by the call
      fraud result and the AI voice result. */
  datatype VoiceClass = AiGeneratedVoice | HumanVoice | VoiceUncertain {
    function Label(): string {
      match this
      case AiGeneratedVoice => "AI-Generated Voice"
      case HumanVoice => "Human Voice"
      case VoiceUncertain => "Uncertain"
    }
  }

  function VoiceClassOf(s: string): (r: Option<VoiceClass>)
    ensures r.Some? <==> s in {"AI-Generated Voice", "Human Voice", "Uncertain"}
    ensures r.Some? ==> r.value.Label() == s
  {
    if s == "AI-Generated Voice" then Some(AiGeneratedVoice)
    else if s == "Human Voice" then Some(HumanVoice)
    else if s == "Uncertain" then Some(VoiceUncertain)
    else None
  }

  /** 'Fraudulent Call' | 'Safe Call' | 'Uncertain' */
  datatype FraudAssessment = FraudulentCall | SafeCall | FraudUncertain {
    function Label(): string {
      match this
      case FraudulentCall => "Fraudulent Call"
      case SafeCall => "Safe Call"
      case FraudUncertain => "Uncertain"
    }
  }

  function FraudAssessmentOf(s: string): (r: Option<FraudAssessment>)
    ensures r.Some? <==> s in {"Fraudulent Call", "Safe Call", "Uncertain"}
    ensures r.Some? ==> r.value.Label() == s
  {
    if s == "Fraudulent Call" then Some(FraudulentCall)
    else if s == "Safe Call" then Some(SafeCall)
    else if s == "Uncertain" then Some(FraudUncertain)
    else None
  }

  /** 'Low' | 'Medium' | 'High' */
  datatype RiskLevel = Low | Medium | High {
    function Label(): string {
      match this
      case Low => "Low"
      case Medium => "Medium"
      case High => "High"
    }
  }

  function RiskLevelOf(s: string): (r: Option<RiskLevel>)
    ensures r.Some? <==> s in {"Low", "Medium", "High"}
    ensures r.Some? ==> r.value.Label() == s
  {
    if s == "Low" then Some(Low)
    else if s == "Medium" then Some(Medium)
    else if s == "High" then Some(High)
    else None
  }

  /** 'image' | 'article' | 'voice' | 'sms' | 'aivoice' */
  datatype HistoryKind = ImageKind | ArticleKind | VoiceKind | SmsKind | AiVoiceKind {
    function Label(): string {
      match this
      case ImageKind => "image"
      case ArticleKind => "article"
      case VoiceKind => "voice"
      case SmsKind => "sms"
      case AiVoiceKind => "aivoice"
    }
  }

  function HistoryKindOf(s: string): (r: Option<HistoryKind>)
    ensures r.Some? <==> s in {"image", "article", "voice", "sms", "aivoice"}
    ensures r.Some? ==> r.value.Label() == s
  {
    if s == "image" then Some(ImageKind)
    else if s == "article" then Some(ArticleKind)
    else if s == "voice" then Some(VoiceKind)
    else if s == "sms" then Some(SmsKind)
    else if s == "aivoice" then Some(AiVoiceKind)
    else None
  }

  /** Every label reads back as itself: the spellings of each closed set are
      pairwise distinct, so a label determines its member. */
  lemma LabelsRoundTrip(i: ImageClass, v: VoiceClass, f: FraudAssessment, r: RiskLevel, h: HistoryKind)
    ensures ImageClassOf(i.Label()) == Some(i)
    ensures VoiceClassOf(v.Label()) == Some(v)
    ensures FraudAssessmentOf(f.Label()) == Some(f)
    ensures RiskLevelOf(r.Label()) == Some(r)
    ensures HistoryKindOf(h.Label()) == Some(h)
  {
  }

  datatype ImageDetectionResult = ImageDetectionResult(classification: string, confidence: real, explanation: string) {
    predicate WellTyped() {
      ImageClassOf(classification).Some?
    }
  }

  datatype CallFraudAnalysisResult = CallFraudAnalysisResult(
    classification: string,
    keywordsFound: seq<string>,
    fraudAssessment: string,
    confidence: real,
    explanation: string)
  {
    predicate WellTyped() {
      VoiceClassOf(classification).Some? && FraudAssessmentOf(fraudAssessment).Some?
    }
  }

  datatype AiVoiceDetectionResult = AiVoiceDetectionResult(classification: string, confidence: real, explanation: string) {
    predicate WellTyped() {
      VoiceClassOf(classification).Some?
    }
  }

  datatype Claim = Claim(claim: string, verification: string)

  datatype ArticleAnalysisResult = ArticleAnalysisResult(
    riskLevel: string,
    credibilityScore: real,
    tags: seq<string>,
    summary: string,
    claims: seq<Claim>)
  {
    predicate WellTyped() {
      RiskLevelOf(riskLevel).Some?
    }
  }

  datatype UserHistoryItem = UserHistoryItem(id: string, kind: string, query: string, result: string, timestamp: string) {
    predicate WellTyped() {
      HistoryKindOf(kind).Some?
    }
  }

  /** A signed-in user; `profileImageUrl` is a string or null. */
  datatype User = User(name: string, email: string, profileImageUrl: Option<string>)
}

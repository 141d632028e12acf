/**
 * The text colour for a risk label, as the trending-topics list and the
 * article analysis show it: the label is compared case-insensitively with
 * 'high', 'medium' and 'low', and anything else is grey.
 */
module RiskColors {
  import opened JsStrings
  import Types

  const Red := "text-red-500"
  const Yellow := "text-yellow-500"
  const Green := "text-green-500"
  const Gray := "text-gray-500"

  /** `getRiskColor` / `getRiskTextColor` */
  function RiskColor(risk: string): (c: string)
    ensures c == Red <==> ToLower(risk) == "high"
    ensures c == Yellow <==> ToLower(risk) == "medium"
    ensures c == Green <==> ToLower(risk) == "low"
    ensures c == Gray <==> ToLower(risk) !in {"high", "medium", "low"}
  {
    match ToLower(risk)
    case "high" => Red
    case "medium" => Yellow
    case "low" => Green
    case _ => Gray
  }

  /** Lower-casing twice is lower-casing once. */
  lemma ToLowerIdempotent(s: string)
    ensures ToLower(ToLower(s)) == ToLower(s)
  {
  }

  /** Only the letters' case is ignored: a label and its lower-case form
      get the same colour. */
  lemma RiskColorCaseBlind(risk: string)
    ensures RiskColor(ToLower(risk)) == RiskColor(risk)
  {
    ToLowerIdempotent(risk);
  }

  /** The three labels of the closed risk set get the three colours, and
      no label of the set is grey. */
  lemma RiskLabelColors(level: Types.RiskLevel)
    ensures level == Types.High ==> RiskColor(level.Label()) == Red
    ensures level == Types.Medium ==> RiskColor(level.Label()) == Yellow
    ensures level == Types.Low ==> RiskColor(level.Label()) == Green
    ensures RiskColor(level.Label()) != Gray
  {
    match level
    case High => assert ToLower("High") == "high";
    case Medium => assert ToLower("Medium") == "medium";
    case Low => assert ToLower("Low") == "low";
  }
}

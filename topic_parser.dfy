/**
 * The line-oriented reader of the trending-topics reply. Each line is
 * searched for the pattern
 *
 *     (?:\d+\.\s*)?(.*?)\s*-\s*Risk:\s*(.*?)\s*-\s*Credibility:\s*(\d+)
 *
 * (unanchored, so the search tries every start position from the left),
 * and a line that matches gives one topic: the first group trimmed and
 * stripped of one leading and one trailing double quote, the second group
 * trimmed, and the decimal value of the third.
 *
 * The matcher below is the first match in the backtracking order of that
 * pattern, written out: at a start position, the optional numeral prefix is
 * taken when a digit run there is followed by '.', and its trailing `\s*`
 * takes all the whitespace; each lazy group then tries its ends from the
 * shortest, and each `\s*` in front of a literal takes all the whitespace
 * (a shorter run would leave a whitespace character where the literal must
 * stand). A lazy group cannot extend over a line terminator, because `.`
 * does not match one.
 */
module TopicParser {
  import opened JsStrings
  import opened Wrappers

  /** A trending-topic entry. */
  datatype Topic = Topic(topic: string, risk: string, score: nat)

  /** What the three groups of the pattern captured. */
  datatype Captures = Captures(title: string, level: string, digits: string)

  /** A match of the credibility tail: where the lazy level group ended and
      the digit run. */
  datatype LevelMatch = LevelMatch(end: nat, digits: string)

  /** The separators the model is asked to write between the three fields. */
  const RiskSeparator := " - Risk: "
  const CredibilitySeparator := " - Credibility: "

  /** Shown when the reply had text but no line matched. */
  const CouldNotParse := Topic("Could not parse trending topics.", "Medium", 50)

  predicate HasAt(s: string, i: nat, w: string) {
    i + |w| <= |s| && s[i..i + |w|] == w
  }

  /** The end of the longest digit run that starts at `i`. */
  function DigitRunEnd(s: string, i: nat): (j: nat)
    requires i <= |s|
    ensures i <= j <= |s|
    ensures forall k :: i <= k < j ==> IsDigit(s[k])
    ensures j < |s| ==> !IsDigit(s[j])
    decreases |s| - i
  {
    if i < |s| && IsDigit(s[i]) then DigitRunEnd(s, i + 1) else i
  }

  /** `\s*-\s*Credibility:\s*(\d+)` at position `f`: the digit run. */
  function CredibilityTail(s: string, f: nat): (r: Option<string>)
    requires f <= |s|
    ensures r.Some? ==> |r.value| > 0 && AllDigits(r.value)
  {
    var h := SkipWhitespace(s, f);
    if h < |s| && s[h] == '-' then
      var i := SkipWhitespace(s, h + 1);
      if HasAt(s, i, "Credibility:") then
        var j := SkipWhitespace(s, i + 12);
        var m := DigitRunEnd(s, j);
        if j < m then Some(s[j..m]) else None
      else None
    else None
  }

  /** The lazy level group `(.*?)`, trying the ends `f, f + 1, ...` in turn. */
  function LazyLevel(s: string, f: nat): (r: Option<LevelMatch>)
    requires f <= |s|
    ensures r.Some? ==> f <= r.value.end <= |s| && |r.value.digits| > 0 && AllDigits(r.value.digits)
    decreases |s| - f
  {
    match CredibilityTail(s, f)
    case Some(d) => Some(LevelMatch(f, d))
    case None => if f < |s| && !IsLineTerminator(s[f]) then LazyLevel(s, f + 1) else None
  }

  /** `\s*-\s*Risk:\s*(.*?)\s*-\s*Credibility:\s*(\d+)` at position `e`: the
      level group and the digit run. */
  function RiskTail(s: string, e: nat): (r: Option<(string, string)>)
    requires e <= |s|
    ensures r.Some? ==> |r.value.1| > 0 && AllDigits(r.value.1)
  {
    var b := SkipWhitespace(s, e);
    if b < |s| && s[b] == '-' then
      var c := SkipWhitespace(s, b + 1);
      if HasAt(s, c, "Risk:") then
        var k := SkipWhitespace(s, c + 5);
        match LazyLevel(s, k)
        case Some(m) => Some((s[k..m.end], m.digits))
        case None => None
      else None
    else None
  }

  /** The lazy title group `(.*?)` that started at `g`, trying the ends
      `e, e + 1, ...` in turn. */
  function LazyTitle(s: string, g: nat, e: nat): (r: Option<Captures>)
    requires g <= e <= |s|
    ensures r.Some? ==> |r.value.digits| > 0 && AllDigits(r.value.digits)
    decreases |s| - e
  {
    match RiskTail(s, e)
    case Some(t) => Some(Captures(s[g..e], t.0, t.1))
    case None => if e < |s| && !IsLineTerminator(s[e]) then LazyTitle(s, g, e + 1) else None
  }

  /** No line terminator: what `.` can run over. */
  predicate SingleLine(t: string) {
    forall i :: 0 <= i < |t| ==> !IsLineTerminator(t[i])
  }

  /** The match that starts at position `p`, if any. */
  function MatchAt(s: string, p: nat): (r: Option<Captures>)
    requires p <= |s|
    ensures r.Some? ==> |r.value.digits| > 0 && AllDigits(r.value.digits)
  {
    var q := DigitRunEnd(s, p);
    if p < q && q < |s| && s[q] == '.' then
      var a := SkipWhitespace(s, q + 1);
      LazyTitle(s, a, a)
    else
      LazyTitle(s, p, p)
  }

  /** The lazy title group is the text from where it started, at least as
      far as the end tried first, and it runs over no line terminator that
      the part already tried did not hold. */
  lemma {:induction false} LazyTitleSpan(s: string, g: nat, e: nat)
    requires g <= e <= |s| && LazyTitle(s, g, e).Some?
    ensures HasAt(s, g, LazyTitle(s, g, e).value.title) && e <= g + |LazyTitle(s, g, e).value.title|
    ensures SingleLine(s[g..e]) ==> SingleLine(LazyTitle(s, g, e).value.title)
    decreases |s| - e
  {
    if RiskTail(s, e).None? {
      assert s[g..e + 1] == s[g..e] + [s[e]];
      LazyTitleSpan(s, g, e + 1);
    }
  }

  /** The title a match at `p` captures lies on one line, and without a
      numeral at `p` it is the text starting at `p`. */
  lemma MatchAtTitle(s: string, p: nat)
    requires p <= |s| && MatchAt(s, p).Some?
    ensures SingleLine(MatchAt(s, p).value.title)
    ensures (p == |s| || !IsDigit(s[p])) ==> HasAt(s, p, MatchAt(s, p).value.title)
  {
    var q := DigitRunEnd(s, p);
    if p < q && q < |s| && s[q] == '.' {
      var a := SkipWhitespace(s, q + 1);
      LazyTitleSpan(s, a, a);
    } else {
      LazyTitleSpan(s, p, p);
    }
  }

  /** `line.match(pattern)`: the match at the leftmost start position that
      has one, searching from `p`. */
  function MatchFrom(s: string, p: nat): (r: Option<Captures>)
    requires p <= |s|
    ensures r.Some? ==> |r.value.digits| > 0 && AllDigits(r.value.digits)
    decreases |s| - p
  {
    match MatchAt(s, p)
    case Some(c) => Some(c)
    case None => if p < |s| then MatchFrom(s, p + 1) else None
  }

  /** `.replace(/^"|"$/g, '')`: one leading and one trailing double quote
      removed. */
  function StripQuotes(t: string): (r: string)
    ensures |t| >= 2 && t[0] == '"' && t[|t| - 1] == '"' ==> r == t[1..|t| - 1]
    ensures (t == [] || t[0] != '"') && (t == [] || t[|t| - 1] != '"') ==> r == t
  {
    var t1 := if |t| > 0 && t[0] == '"' then t[1..] else t;
    if |t1| > 0 && t1[|t1| - 1] == '"' then t1[..|t1| - 1] else t1
  }

  /** The map step of the pipeline: the topic one line gives, if it matches. */
  function ParseTopicLine(line: string): (r: Option<Topic>)
    ensures r.Some? <==> MatchFrom(line, 0).Some?
    ensures r.Some? ==> r.value.topic == StripQuotes(Trim(MatchFrom(line, 0).value.title))
    ensures r.Some? ==> r.value.risk == Trim(MatchFrom(line, 0).value.level)
    ensures r.Some? ==> r.value.score == DecimalValue(MatchFrom(line, 0).value.digits)
  {
    match MatchFrom(line, 0)
    case Some(c) => Some(Topic(StripQuotes(Trim(c.title)), Trim(c.level), DecimalValue(c.digits)))
    case None => None
  }

  /** `xs.map(f).filter(Boolean)` with the `null` results dropped. */
  function FilterMap<T, U>(xs: seq<T>, f: T -> Option<U>): (r: seq<U>)
    ensures |r| <= |xs|
    ensures r == [] <==> forall i :: 0 <= i < |xs| ==> f(xs[i]).None?
  {
    if xs == [] then []
    else if f(xs[0]).Some? then [f(xs[0]).value] + FilterMap(xs[1..], f)
    else FilterMap(xs[1..], f)
  }

  /** The map and filter steps: the topics of the matching lines, in line
      order. */
  function MatchedTopics(lines: seq<string>): (r: seq<Topic>)
    ensures |r| <= |lines|
    ensures r == [] <==> forall i :: 0 <= i < |lines| ==> ParseTopicLine(lines[i]).None?
  {
    FilterMap(lines, ParseTopicLine)
  }

  function Min(a: int, b: int): int {
    if a < b then a else b
  }

  /** The parse of the reply text: the topics of the first five matching
      lines; the could-not-parse entry when the text is non-empty and no
      line matches; nothing for empty text. */
  function ParseTrending(text: string): (r: seq<Topic>)
    ensures |r| <= 5
    ensures |r| == 0 <==> text == ""
    ensures MatchedTopics(Split(text, '\n')) != [] ==>
      |r| == Min(5, |MatchedTopics(Split(text, '\n'))|) && r == MatchedTopics(Split(text, '\n'))[..|r|]
    ensures MatchedTopics(Split(text, '\n')) == [] && text != "" ==> r == [CouldNotParse]
  {
    var topics := MatchedTopics(Split(text, '\n'));
    EmptyTextHasNoMatch(text);
    if |topics| > 0 then topics[..Min(5, |topics|)]
    else if text != "" then [CouldNotParse]
    else []
  }

  lemma EmptyTextHasNoMatch(text: string)
    ensures text == "" ==> MatchedTopics(Split(text, '\n')) == []
  {
    if text == "" {
      assert Split(text, '\n') == [""];
      assert MatchFrom("", 0) == None;
    }
  }

  // ---------------------------------------------------------------------
  // The pipeline keeps line order and drops what does not match
  // ---------------------------------------------------------------------

  /** Filtering distributes over concatenation of the line list, so kept
      entries appear in the order of their lines. */
  lemma {:induction false} FilterMapAppend<T, U>(a: seq<T>, b: seq<T>, f: T -> Option<U>)
    ensures FilterMap(a + b, f) == FilterMap(a, f) + FilterMap(b, f)
    decreases |a|
  {
    if a != [] {
      assert (a + b)[1..] == a[1..] + b;
      FilterMapAppend(a[1..], b, f);
    } else {
      assert a + b == b;
    }
  }

  /** Every kept entry is the result of some element, and the elements are
      visited in order: entry `k` comes from an element at index `k` or
      later. */
  lemma {:induction false} FilterMapSource<T, U>(xs: seq<T>, f: T -> Option<U>, k: nat) returns (i: nat)
    requires k < |FilterMap(xs, f)|
    ensures k <= i < |xs| && f(xs[i]) == Some(FilterMap(xs, f)[k])
    decreases |xs|
  {
    if f(xs[0]).Some? {
      if k == 0 {
        i := 0;
      } else {
        var j := FilterMapSource(xs[1..], f, k - 1);
        i := j + 1;
      }
    } else {
      var j := FilterMapSource(xs[1..], f, k);
      i := j + 1;
    }
  }

  /** Every kept topic is the parse of some line. */
  lemma MatchedTopicsFromLines(lines: seq<string>, k: nat) returns (i: nat)
    requires k < |MatchedTopics(lines)|
    ensures k <= i < |lines| && ParseTopicLine(lines[i]) == Some(MatchedTopics(lines)[k])
  {
    i := FilterMapSource(lines, ParseTopicLine, k);
  }

  /** The topics of a reply split at a line boundary are those of the first
      part followed by those of the second. */
  lemma MatchedTopicsAppend(a: seq<string>, b: seq<string>)
    ensures MatchedTopics(a + b) == MatchedTopics(a) + MatchedTopics(b)
  {
    FilterMapAppend(a, b, ParseTopicLine);
  }

  // ---------------------------------------------------------------------
  // What a line of the requested format gives
  // ---------------------------------------------------------------------

  /** A field the model writes between separators: trimmed, free of '-' and
      of line terminators. */
  predicate PlainField(t: string) {
    && t != []
    && IsTrimmed(t)
    && (forall i :: 0 <= i < |t| ==> t[i] != '-' && !IsLineTerminator(t[i]))
  }

  /** `N. ` for a numeral `N`, nothing for the empty numeral. */
  function NumberPrefix(num: string): string {
    if num == "" then "" else num + ". "
  }

  function FormatLine(num: string, title: string, level: string, digits: string, rest: string): string {
    NumberPrefix(num) + title + RiskSeparator + level + CredibilitySeparator + digits + rest
  }

  /** A line of the form `[N. ]<title> - Risk: <level> - Credibility: <digits>`
      is read back field by field: the title (less one pair of enclosing
      quotes), the level, and the decimal value of the whole digit run, which
      is not clamped to 0..100. Whatever follows the digit run is ignored. */
  lemma ParseFormattedLine(num: string, title: string, level: string, digits: string, rest: string)
    requires AllDigits(num) && AllDigits(digits) && digits != []
    requires PlainField(title) && PlainField(level)
    requires num == "" ==> !IsDigit(title[0])
    requires rest == [] || !IsDigit(rest[0])
    ensures ParseTopicLine(FormatLine(num, title, level, digits, rest))
         == Some(Topic(StripQuotes(title), level, DecimalValue(digits)))
  {
    var s := FormatLine(num, title, level, digits, rest);
    var c := MatchFormatted(num, title, level, digits, rest);
    assert MatchFrom(s, 0) == Some(Captures(title, level, digits));
    TrimIdempotent(title);
    TrimIdempotent(level);
  }

  lemma MatchFormatted(num: string, title: string, level: string, digits: string, rest: string)
      returns (c: Captures)
    requires AllDigits(num) && AllDigits(digits) && digits != []
    requires PlainField(title) && PlainField(level)
    requires num == "" ==> !IsDigit(title[0])
    requires rest == [] || !IsDigit(rest[0])
    ensures c == Captures(title, level, digits)
    ensures MatchFrom(FormatLine(num, title, level, digits, rest), 0) == Some(c)
  {
    var s := FormatLine(num, title, level, digits, rest);
    FormatLayout(num, title, level, digits, rest);
    var t0 := |NumberPrefix(num)|;
    c := Captures(title, level, digits);
    TitleAt(s, t0, title, level, digits);
    PrefixAt(s, num, title);
  }

  /** The digit run of the credibility field, and what follows it. */
  predicate CredibilityLayout(s: string, l: nat, digits: string) {
    && HasAt(s, l, CredibilitySeparator)
    && digits != [] && AllDigits(digits) && HasAt(s, l + 16, digits)
    && (l + 16 + |digits| < |s| ==> !IsDigit(s[l + 16 + |digits|]))
  }

  /** The level field at `k`, then the credibility field. */
  predicate LevelLayout(s: string, k: nat, level: string, digits: string) {
    HasAt(s, k, level) && PlainField(level) && CredibilityLayout(s, k + |level|, digits)
  }

  /** The risk separator at `d`, then the level and credibility fields. */
  predicate RiskLayout(s: string, d: nat, level: string, digits: string) {
    HasAt(s, d, RiskSeparator) && LevelLayout(s, d + 9, level, digits)
  }

  /** The title field at `t0`, then the rest of a formatted line. */
  predicate TitleLayout(s: string, t0: nat, title: string, level: string, digits: string) {
    HasAt(s, t0, title) && PlainField(title) && RiskLayout(s, t0 + |title|, level, digits)
  }

  /** Where each part of a formatted line stands. */
  lemma FormatLayout(num: string, title: string, level: string, digits: string, rest: string)
    requires AllDigits(digits) && digits != []
    requires PlainField(title) && PlainField(level)
    requires rest == [] || !IsDigit(rest[0])
    ensures HasAt(FormatLine(num, title, level, digits, rest), 0, NumberPrefix(num) + title)
    ensures TitleLayout(FormatLine(num, title, level, digits, rest), |NumberPrefix(num)|, title, level, digits)
  {
    var P := NumberPrefix(num);
    LineLayout(FormatLine(num, title, level, digits, rest), P, title, level, digits, rest);
  }

  /** Where each part of a line stands after an arbitrary lead `P`. */
  lemma LineLayout(s: string, P: string, title: string, level: string, digits: string, rest: string)
    requires s == P + title + RiskSeparator + level + CredibilitySeparator + digits + rest
    requires AllDigits(digits) && digits != []
    requires PlainField(title) && PlainField(level)
    requires rest == [] || !IsDigit(rest[0])
    ensures HasAt(s, 0, P + title)
    ensures TitleLayout(s, |P|, title, level, digits)
  {
    var B := P + title + RiskSeparator;
    LineHead(s, P, title, B, level, digits, rest);
    LineTail(s, B, level, digits, rest);
    assert |B| == |P| + |title| + 9;
    TitleLayoutOf(s, |P|, title, level, digits);
  }

  /** The title layout from its parts. */
  lemma TitleLayoutOf(s: string, t0: nat, title: string, level: string, digits: string)
    requires HasAt(s, t0, title) && PlainField(title) && HasAt(s, t0 + |title|, RiskSeparator)
    requires LevelLayout(s, t0 + |title| + 9, level, digits)
    ensures TitleLayout(s, t0, title, level, digits)
  {
  }

  lemma LineHead(s: string, P: string, title: string, B: string, level: string, digits: string, rest: string)
    requires B == P + title + RiskSeparator && s == B + level + CredibilitySeparator + digits + rest
    ensures HasAt(s, 0, P + title) && HasAt(s, |P|, title) && HasAt(s, |P| + |title|, RiskSeparator)
  {
    assert s == B + (level + CredibilitySeparator + digits + rest);
    var A := P + title;
    assert s[0..|A|] == A;
    assert s[|P|..|A|] == title;
    assert s[|A|..|B|] == RiskSeparator;
  }

  lemma LineTail(s: string, B: string, level: string, digits: string, rest: string)
    requires s == B + level + CredibilitySeparator + digits + rest
    requires AllDigits(digits) && digits != []
    requires PlainField(level)
    requires rest == [] || !IsDigit(rest[0])
    ensures LevelLayout(s, |B|, level, digits)
  {
    var C := B + level;
    var D := C + CredibilitySeparator;
    var E := D + digits;
    assert s == E + rest;
    assert s[|B|..|C|] == level;
    assert s[|C|..|D|] == CredibilitySeparator;
    assert s[|D|..|E|] == digits;
    assert |E| < |s| ==> s[|E|] == rest[0];
  }

  /** A line whose title is preceded by whitespace (and no numeral) is read
      back just as well: the lazy title group starts at the line's first
      character, so it captures the whitespace, and the trim removes it. */
  lemma ParsePaddedLine(ws: string, title: string, level: string, digits: string, rest: string)
    requires ws != [] && AllWhitespace(ws)
    requires forall i :: 0 <= i < |ws| ==> !IsLineTerminator(ws[i])
    requires AllDigits(digits) && digits != []
    requires PlainField(title) && PlainField(level)
    requires rest == [] || !IsDigit(rest[0])
    ensures ParseTopicLine(ws + title + RiskSeparator + level + CredibilitySeparator + digits + rest)
         == Some(Topic(StripQuotes(title), level, DecimalValue(digits)))
  {
    var s := ws + title + RiskSeparator + level + CredibilitySeparator + digits + rest;
    PaddedCaptures(s, ws, title, level, digits, rest);
    TrimPadded(ws, title, "");
    assert ws + title + "" == ws + title;
    TrimIdempotent(level);
  }

  /** The groups captured from such a line: the title group keeps the
      whitespace lead. */
  lemma PaddedCaptures(s: string, ws: string, title: string, level: string, digits: string, rest: string)
    requires s == ws + title + RiskSeparator + level + CredibilitySeparator + digits + rest
    requires ws != [] && AllWhitespace(ws)
    requires forall i :: 0 <= i < |ws| ==> !IsLineTerminator(ws[i])
    requires AllDigits(digits) && digits != []
    requires PlainField(title) && PlainField(level)
    requires rest == [] || !IsDigit(rest[0])
    ensures MatchFrom(s, 0) == Some(Captures(ws + title, level, digits))
  {
    LineLayout(s, ws, title, level, digits, rest);
    PaddedLayoutMatch(s, ws, title, level, digits);
  }

  /** The same, from where the parts of the line stand. */
  lemma PaddedLayoutMatch(s: string, ws: string, title: string, level: string, digits: string)
    requires HasAt(s, 0, ws + title) && TitleLayout(s, |ws|, title, level, digits)
    requires ws != [] && AllWhitespace(ws)
    requires forall i :: 0 <= i < |ws| ==> !IsLineTerminator(ws[i])
    ensures MatchFrom(s, 0) == Some(Captures(ws + title, level, digits))
  {
    LeadOf(s, ws, title);
    PaddedTitleMatch(s, |ws|, title, level, digits);
  }

  /** The whitespace lead of a line that starts with `ws + title`. */
  lemma LeadOf(s: string, ws: string, title: string)
    requires HasAt(s, 0, ws + title)
    requires AllWhitespace(ws) && forall i :: 0 <= i < |ws| ==> !IsLineTerminator(ws[i])
    ensures s[..|ws| + |title|] == ws + title
    ensures forall k :: 0 <= k < |ws| ==> IsWhitespace(s[k]) && !IsLineTerminator(s[k])
  {
    assert s[..|ws| + |title|] == s[0..|ws| + |title|];
    forall k | 0 <= k < |ws| ensures IsWhitespace(s[k]) && !IsLineTerminator(s[k]) {
      assert s[k] == (ws + title)[k];
    }
  }

  /** With only whitespace before the title field, the match starts at the
      line's first character and its title group runs to the field's end. */
  lemma PaddedTitleMatch(s: string, w: nat, title: string, level: string, digits: string)
    requires 0 < w && TitleLayout(s, w, title, level, digits)
    requires forall k :: 0 <= k < w ==> IsWhitespace(s[k]) && !IsLineTerminator(s[k])
    ensures MatchFrom(s, 0) == Some(Captures(s[..w + |title|], level, digits))
  {
    var d := w + |title|;
    RiskAt(s, d, level, digits);
    LeadSkip(s, w, title);
    forall e | w <= e < d ensures RiskTail(s, e) == None && !IsLineTerminator(s[e]) {
      assert s[w..d] == title;
      FieldSkip(s, w, d, e);
    }
    LazyTitleAdvance(s, 0, 0, d);
    assert DigitRunEnd(s, 0) == 0;
    assert MatchAt(s, 0) == LazyTitle(s, 0, 0);
  }

  /** No risk tail starts inside the whitespace in front of a plain title. */
  lemma LeadSkip(s: string, w: nat, title: string)
    requires 0 < w && HasAt(s, w, title) && PlainField(title)
    requires forall k :: 0 <= k < w ==> IsWhitespace(s[k]) && !IsLineTerminator(s[k])
    ensures forall e :: 0 <= e < w ==> RiskTail(s, e) == None && !IsLineTerminator(s[e])
  {
    assert s[w] == title[0];
    forall e | 0 <= e < w ensures RiskTail(s, e) == None {
      SkipPast(s, e, w);
    }
  }

  /** `\s*-\s*Credibility:\s*(\d+)` matches the credibility separator
      followed by a complete digit run. */
  lemma CredibilityAt(s: string, l: nat, digits: string)
    requires CredibilityLayout(s, l, digits)
    ensures CredibilityTail(s, l) == Some(digits)
  {
    var j := l + 16;
    assert s[j] == digits[0];
    CredibilitySeparatorSkips(s, l);
    forall i | j <= i < j + |digits| ensures IsDigit(s[i]) {
      assert s[i] == digits[i - j];
    }
    DigitRunTo(s, j, j + |digits|);
    assert s[j..j + |digits|] == digits;
  }

  /** The whitespace runs of `\s*-\s*Credibility:\s*` over the credibility
      separator. */
  lemma CredibilitySeparatorSkips(s: string, l: nat)
    requires HasAt(s, l, CredibilitySeparator)
    requires l + 16 < |s| && !IsWhitespace(s[l + 16])
    ensures SkipWhitespace(s, l) == l + 1 && s[l + 1] == '-'
    ensures SkipWhitespace(s, l + 2) == l + 3 && HasAt(s, l + 3, "Credibility:")
    ensures SkipWhitespace(s, l + 15) == l + 16
  {
    var w := s[l..l + 16];
    assert s[l] == w[0] && s[l + 1] == w[1] && s[l + 2] == w[2] && s[l + 15] == w[15];
    assert s[l + 3..l + 15] == "Credibility:" by { assert s[l + 3..l + 15] == w[3..15]; }
    SkipPast(s, l, l + 1);
    SkipPast(s, l + 2, l + 3);
    SkipPast(s, l + 15, l + 16);
  }

  /** The lazy level group stops at the end of a plain field followed by the
      credibility tail. */
  lemma LevelAt(s: string, k: nat, level: string, digits: string)
    requires LevelLayout(s, k, level, digits)
    ensures LazyLevel(s, k) == Some(LevelMatch(k + |level|, digits))
  {
    var l := k + |level|;
    CredibilityAt(s, l, digits);
    assert s[k..l] == level;
    forall f | k <= f < l ensures CredibilityTail(s, f) == None && !IsLineTerminator(s[f]) {
      FieldSkip(s, k, l, f);
    }
    LazyLevelAdvance(s, k, l);
  }

  /** `\s*-\s*Risk:\s*` followed by a level field and the credibility tail. */
  lemma RiskAt(s: string, d: nat, level: string, digits: string)
    requires RiskLayout(s, d, level, digits)
    ensures RiskTail(s, d) == Some((level, digits))
  {
    LevelAt(s, d + 9, level, digits);
    assert s[d + 9] == level[0];
    RiskSeparatorSkips(s, d);
    assert s[d + 9..d + 9 + |level|] == level;
  }

  /** The whitespace runs of `\s*-\s*Risk:\s*` over the risk separator. */
  lemma RiskSeparatorSkips(s: string, d: nat)
    requires HasAt(s, d, RiskSeparator)
    requires d + 9 < |s| && !IsWhitespace(s[d + 9])
    ensures SkipWhitespace(s, d) == d + 1 && s[d + 1] == '-'
    ensures SkipWhitespace(s, d + 2) == d + 3 && HasAt(s, d + 3, "Risk:")
    ensures SkipWhitespace(s, d + 8) == d + 9
  {
    var w := s[d..d + 9];
    assert s[d] == w[0] && s[d + 1] == w[1] && s[d + 2] == w[2] && s[d + 8] == w[8];
    assert s[d + 3..d + 8] == "Risk:" by { assert s[d + 3..d + 8] == w[3..8]; }
    SkipPast(s, d, d + 1);
    SkipPast(s, d + 2, d + 3);
    SkipPast(s, d + 8, d + 9);
  }

  /** The lazy title group stops at the end of a plain field followed by the
      risk tail. */
  lemma TitleAt(s: string, t0: nat, title: string, level: string, digits: string)
    requires TitleLayout(s, t0, title, level, digits)
    ensures LazyTitle(s, t0, t0) == Some(Captures(title, level, digits))
  {
    var d := t0 + |title|;
    RiskAt(s, d, level, digits);
    assert s[t0..d] == title;
    forall e | t0 <= e < d ensures RiskTail(s, e) == None && !IsLineTerminator(s[e]) {
      FieldSkip(s, t0, d, e);
    }
    LazyTitleAdvance(s, t0, t0, d);
  }

  /** The numeral prefix, if any, leads the match at position 0 to the start
      of the title. */
  lemma PrefixAt(s: string, num: string, title: string)
    requires AllDigits(num) && PlainField(title)
    requires HasAt(s, 0, NumberPrefix(num) + title)
    requires num == "" ==> !IsDigit(title[0])
    requires LazyTitle(s, |NumberPrefix(num)|, |NumberPrefix(num)|).Some?
    ensures MatchFrom(s, 0) == LazyTitle(s, |NumberPrefix(num)|, |NumberPrefix(num)|)
  {
    var P := NumberPrefix(num);
    var t0 := |P|;
    assert s[..t0 + |title|] == P + title;
    assert s[t0] == title[0];
    if num == "" {
      assert !IsDigit(s[0]);
    } else {
      assert s[..|num|] == num by { assert s[..|num|] == P[..|num|]; }
      assert s[|num|] == P[|num|] && s[|num| + 1] == P[|num| + 1];
      forall i | 0 <= i < |num| ensures IsDigit(s[i]) {
        assert s[i] == num[i];
      }
      DigitRunTo(s, 0, |num|);
      SkipPast(s, |num| + 1, t0);
    }
    assert MatchAt(s, 0) == LazyTitle(s, t0, t0);
  }

  /** Inside a plain field that ends at `hi`, skipping whitespace from `f`
      lands on a field character, which is not '-'. */
  lemma FieldSkip(s: string, lo: nat, hi: nat, f: nat)
    requires lo <= f < hi <= |s|
    requires PlainField(s[lo..hi])
    ensures SkipWhitespace(s, f) < hi && s[SkipWhitespace(s, f)] != '-'
    ensures CredibilityTail(s, f) == None && RiskTail(s, f) == None
    ensures !IsLineTerminator(s[f])
  {
    var t := s[lo..hi];
    assert s[hi - 1] == t[|t| - 1];
    SkipBound(s, f, hi - 1);
    var g := SkipWhitespace(s, f);
    assert s[g] == t[g - lo];
    assert s[f] == t[f - lo];
  }

  lemma SkipBound(s: string, i: nat, j: nat)
    requires i <= j < |s| && !IsWhitespace(s[j])
    ensures SkipWhitespace(s, i) <= j
    decreases j - i
  {
    if i < j && IsWhitespace(s[i]) { SkipBound(s, i + 1, j); }
  }

  lemma DigitRunTo(s: string, i: nat, j: nat)
    requires i <= j <= |s|
    requires forall k :: i <= k < j ==> IsDigit(s[k])
    requires j < |s| ==> !IsDigit(s[j])
    ensures DigitRunEnd(s, i) == j
    decreases j - i
  {
    if i < j { DigitRunTo(s, i + 1, j); }
  }

  lemma {:induction false} LazyLevelAdvance(s: string, x: nat, y: nat)
    requires x <= y <= |s|
    requires forall f :: x <= f < y ==> CredibilityTail(s, f) == None && !IsLineTerminator(s[f])
    ensures LazyLevel(s, x) == LazyLevel(s, y)
    decreases y - x
  {
    if x < y {
      LazyLevelStep(s, x);
      LazyLevelAdvance(s, x + 1, y);
    }
  }

  lemma LazyLevelStep(s: string, x: nat)
    requires x < |s| && CredibilityTail(s, x) == None && !IsLineTerminator(s[x])
    ensures LazyLevel(s, x) == LazyLevel(s, x + 1)
  {
  }

  lemma {:induction false} LazyTitleAdvance(s: string, g: nat, x: nat, y: nat)
    requires g <= x <= y <= |s|
    requires forall e :: x <= e < y ==> RiskTail(s, e) == None && !IsLineTerminator(s[e])
    ensures LazyTitle(s, g, x) == LazyTitle(s, g, y)
    decreases y - x
  {
    if x < y {
      LazyTitleStep(s, g, x);
      LazyTitleAdvance(s, g, x + 1, y);
    }
  }

  lemma LazyTitleStep(s: string, g: nat, x: nat)
    requires g <= x < |s| && RiskTail(s, x) == None && !IsLineTerminator(s[x])
    ensures LazyTitle(s, g, x) == LazyTitle(s, g, x + 1)
  {
  }

  // ---------------------------------------------------------------------
  // Lines that cannot match
  // ---------------------------------------------------------------------

  /** A line without '-' never matches, so it is dropped. */
  lemma NoDashNoMatch(s: string)
    requires forall i :: 0 <= i < |s| ==> s[i] != '-'
    ensures ParseTopicLine(s) == None
  {
    forall e | 0 <= e <= |s| ensures RiskTail(s, e) == None {
    }
    forall p | 0 <= p <= |s| ensures MatchAt(s, p) == None {
      var q := DigitRunEnd(s, p);
      if p < q && q < |s| && s[q] == '.' {
        var a := SkipWhitespace(s, q + 1);
        LazyTitleNone(s, a, a);
      } else {
        LazyTitleNone(s, p, p);
      }
    }
    MatchFromNone(s, 0);
  }

  lemma {:induction false} LazyTitleNone(s: string, g: nat, e: nat)
    requires g <= e <= |s|
    requires forall x :: e <= x <= |s| ==> RiskTail(s, x) == None
    ensures LazyTitle(s, g, e) == None
    decreases |s| - e
  {
    if e < |s| { LazyTitleNone(s, g, e + 1); }
  }

  lemma {:induction false} MatchFromNone(s: string, p: nat)
    requires p <= |s|
    requires forall x :: p <= x <= |s| ==> MatchAt(s, x) == None
    ensures MatchFrom(s, p) == None
    decreases |s| - p
  {
    if p < |s| { MatchFromNone(s, p + 1); }
  }
}

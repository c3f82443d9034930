/**
 * `CleanPDFText` (pkg/utils/text_cleaner.go): a fixed, ordered pipeline of
 * regular-expression rewrites, then `strings.TrimSpace`.
 *
 * Each rule is a `Rule`; `MatchAt(rule, s, i)` is the match Go's regexp
 * engine reports when the leftmost match starts at index `i` (its
 * leftmost-first, backtracking preference made explicit), and `Rewrite` is
 * `ReplaceAllString`: scan left to right, replace each match, resume after it.
 */
module TextCleaner {
  import opened Wrappers
  import opened Strings

  /** A match: how many characters it covers, and what replaces them. */
  datatype Match = Match(len: nat, replacement: string)

  datatype Rule =
    | StrayBeforeCapital         // ([a-z])i([A-Z])            -> "$1 $2"
    | ShStray                    // ([s][h])i([consonant])      -> "$1 $2"
    | AccentedSStray             // ([accented][s])i([consonant]) -> "$1 $2"
    | WordEndingStray            // (nish|tés|rés)i([consonant]) -> "$1 $2"
    | SentenceStray              // ([a-z])\.i([A-Z])           -> "$1. $2"
    | PunctuationStray           // ([,;:])i([A-Z])             -> "$1 $2"
    | ShortWordStray(word: string) // \b<word>i\s               -> "<word> "
    | CommaSpacing               // ([a-z]),([a-z])             -> "$1, $2"
    | BareUrl                    // https?://[^\s\)]+           -> ""
    | ParenthesizedUrl           // \(https?://[^\)]+\)         -> ""
    | CallToAction               // (?:Explore|Visit|Check out|See)\s+[^.]+?\(http[^\)]+\) -> ""
    | FigureReference            // FIGURE\s*\d+\.\d+           -> ""
    | WhitespaceRun              // \s+                         -> " "
    | SpaceBefore(mark: char)    // strings.ReplaceAll(" <mark>", "<mark>")

  predicate IsLower(c: char) { 'a' <= c <= 'z' }
  predicate IsUpper(c: char) { 'A' <= c <= 'Z' }
  predicate IsDigit(c: char) { '0' <= c <= '9' }

  /** ASCII word characters, which decide Go's `\b`. */
  predicate IsWordChar(c: char) { IsLower(c) || IsUpper(c) || IsDigit(c) || c == '_' }

  /** The class `[bcdfghjklmnpqrstvwxyz]`. */
  predicate IsConsonant(c: char) { c in "bcdfghjklmnpqrstvwxyz" }

  /** The class `[éáíóúàèìòùñ]` (precomposed code points). */
  predicate IsAccented(c: char) {
    c in ['\U{E9}', '\U{E1}', '\U{ED}', '\U{F3}', '\U{FA}', '\U{E0}', '\U{E8}', '\U{EC}', '\U{F2}', '\U{F9}', '\U{F1}']
  }

  predicate IsUrlChar(c: char) { !IsAsciiSpace(c) && c != ')' }
  predicate NotCloseParen(c: char) { c != ')' }

  /** `s` holds the literal `p` at index `i`. */
  predicate HasAt(s: string, i: nat, p: string) {
    i + |p| <= |s| && s[i..i + |p|] == p
  }

  /** End of the longest run of characters satisfying `p` that starts at `i`. */
  function RunEnd(s: string, i: nat, p: char -> bool): (j: nat)
    requires i <= |s|
    ensures i <= j <= |s|
    ensures forall k :: i <= k < j ==> p(s[k])
    ensures j < |s| ==> !p(s[j])
    decreases |s| - i
  {
    if i < |s| && p(s[i]) then RunEnd(s, i + 1, p) else i
  }

  // ---------------------------------------------------------------------
  // One matcher per pattern. Each returns the match starting exactly at i.
  // ---------------------------------------------------------------------

  function StrayBeforeCapitalAt(s: string, i: nat): Option<Match> {
    if i + 3 <= |s| && IsLower(s[i]) && s[i + 1] == 'i' && IsUpper(s[i + 2])
    then Some(Match(3, [s[i], ' ', s[i + 2]]))
    else None
  }

  function ShStrayAt(s: string, i: nat): Option<Match> {
    if i + 4 <= |s| && s[i] == 's' && s[i + 1] == 'h' && s[i + 2] == 'i' && IsConsonant(s[i + 3])
    then Some(Match(4, ['s', 'h', ' ', s[i + 3]]))
    else None
  }

  function AccentedSStrayAt(s: string, i: nat): Option<Match> {
    if i + 4 <= |s| && IsAccented(s[i]) && s[i + 1] == 's' && s[i + 2] == 'i' && IsConsonant(s[i + 3])
    then Some(Match(4, [s[i], 's', ' ', s[i + 3]]))
    else None
  }

  /** The three alternatives start with different letters, so at most one applies. */
  function WordEndingStrayAt(s: string, i: nat): Option<Match> {
    if HasAt(s, i, "nish") && i + 6 <= |s| && s[i + 4] == 'i' && IsConsonant(s[i + 5]) then
      Some(Match(6, "nish " + [s[i + 5]]))
    else if (HasAt(s, i, "t\U{E9}s") || HasAt(s, i, "r\U{E9}s")) && i + 5 <= |s|
            && s[i + 3] == 'i' && IsConsonant(s[i + 4]) then
      Some(Match(5, s[i..i + 3] + " " + [s[i + 4]]))
    else None
  }

  function SentenceStrayAt(s: string, i: nat): Option<Match> {
    if i + 4 <= |s| && IsLower(s[i]) && s[i + 1] == '.' && s[i + 2] == 'i' && IsUpper(s[i + 3])
    then Some(Match(4, [s[i], '.', ' ', s[i + 3]]))
    else None
  }

  function PunctuationStrayAt(s: string, i: nat): Option<Match> {
    if i + 3 <= |s| && (s[i] == ',' || s[i] == ';' || s[i] == ':') && s[i + 1] == 'i' && IsUpper(s[i + 2])
    then Some(Match(3, [s[i], ' ', s[i + 2]]))
    else None
  }

  /**
   * `\b<word>i\s`: the word starts with a word character, so the boundary
   * holds exactly when the character before `i` (in the input) is not one.
   */
  function ShortWordStrayAt(word: string, s: string, i: nat): Option<Match> {
    var n := |word|;
    if (i == 0 || (i <= |s| && !IsWordChar(s[i - 1])))
       && HasAt(s, i, word) && i + n + 2 <= |s| && s[i + n] == 'i' && IsAsciiSpace(s[i + n + 1])
    then Some(Match(n + 2, word + " "))
    else None
  }

  function CommaSpacingAt(s: string, i: nat): Option<Match> {
    if i + 3 <= |s| && IsLower(s[i]) && s[i + 1] == ',' && IsLower(s[i + 2])
    then Some(Match(3, [s[i], ',', ' ', s[i + 2]]))
    else None
  }

  /**
   * `https?://[^\s\)]+`: the optional `s` is tried first; without it the
   * literal `://` cannot follow `https`, so the two prefixes never compete.
   */
  function BareUrlAt(s: string, i: nat): Option<Match>
    requires i <= |s|
  {
    var p := if HasAt(s, i, "https://") then 8 else if HasAt(s, i, "http://") then 7 else 0;
    if p == 0 then None
    else
      var e := RunEnd(s, i + p, IsUrlChar);
      if e > i + p then Some(Match(e - i, "")) else None
  }

  /** `\(https?://[^\)]+\)`: the greedy run stops at the first `)`, which must exist. */
  function ParenthesizedUrlAt(s: string, i: nat): Option<Match>
    requires i <= |s|
  {
    var p := if HasAt(s, i, "(https://") then 9 else if HasAt(s, i, "(http://") then 8 else 0;
    if p == 0 then None
    else
      var e := RunEnd(s, i + p, NotCloseParen);
      if i + p < e < |s| then Some(Match(e + 1 - i, "")) else None
  }

  /** `\(http[^\)]+\)` at `j`: the index just past its closing `)`. */
  function LinkEnd(s: string, j: nat): (r: Option<nat>)
    requires j <= |s|
    ensures r.Some? ==> j + 7 <= r.value <= |s|
  {
    if HasAt(s, j, "(http") then
      var e := RunEnd(s, j + 5, NotCloseParen);
      if j + 5 < e < |s| then Some(e + 1) else None
    else None
  }

  /**
   * The lazy `[^.]+?` after the white space ending at `b`: try the link at
   * `j = b+1, b+2, ...` while the characters `s[b..j)` contain no `.`.
   */
  function LazyLinkEnd(s: string, b: nat, j: nat): (r: Option<nat>)
    requires b < j
    ensures r.Some? ==> j + 7 <= r.value <= |s|
    decreases |s| + 1 - j
  {
    if j > |s| || s[j - 1] == '.' then None
    else match LinkEnd(s, j)
      case Some(e) => Some(e)
      case None => LazyLinkEnd(s, b, j + 1)
  }

  function CallToActionKeyword(s: string, i: nat): string {
    if HasAt(s, i, "Explore") then "Explore"
    else if HasAt(s, i, "Visit") then "Visit"
    else if HasAt(s, i, "Check out") then "Check out"
    else if HasAt(s, i, "See") then "See"
    else ""
  }

  /**
   * `(?:Explore|Visit|Check out|See)\s+[^.]+?\(http[^\)]+\)`. With `\s+`
   * greedy, the first success in backtracking order is the least link start
   * `j > b` (`b` the end of the white space) reachable without crossing a `.`;
   * failing that, giving one white-space character back to `[^.]+?` lets the
   * link start right at `b`, which needs at least two white-space characters.
   */
  function CallToActionAt(s: string, i: nat): Option<Match>
    requires i <= |s|
  {
    var kw := CallToActionKeyword(s, i);
    if kw == [] then None
    else
      var a := i + |kw|;
      assert a <= |s|;
      var b := RunEnd(s, a, IsAsciiSpace);
      if b == a then None
      else match LazyLinkEnd(s, b, b + 1)
        case Some(e) => Some(Match(e - i, ""))
        case None =>
          if b - a >= 2 then
            match LinkEnd(s, b)
            case Some(e) => Some(Match(e - i, ""))
            case None => None
          else None
  }

  /** `FIGURE\s*\d+\.\d+`: every quantifier is greedy and none ever gives back. */
  function FigureReferenceAt(s: string, i: nat): Option<Match>
    requires i <= |s|
  {
    if !HasAt(s, i, "FIGURE") then None
    else
      var a := RunEnd(s, i + 6, IsAsciiSpace);
      var d := RunEnd(s, a, IsDigit);
      if d > a && d < |s| && s[d] == '.' then
        var e := RunEnd(s, d + 1, IsDigit);
        if e > d + 1 then Some(Match(e - i, "")) else None
      else None
  }

  function WhitespaceRunAt(s: string, i: nat): Option<Match>
    requires i <= |s|
  {
    if i < |s| && IsAsciiSpace(s[i]) then Some(Match(RunEnd(s, i, IsAsciiSpace) - i, " ")) else None
  }

  function SpaceBeforeAt(mark: char, s: string, i: nat): Option<Match> {
    if i + 2 <= |s| && s[i] == ' ' && s[i + 1] == mark then Some(Match(2, [mark])) else None
  }

  /** The match of `rule` that Go's engine reports starting at index `i`. */
  function MatchAt(rule: Rule, s: string, i: nat): (r: Option<Match>)
    requires i < |s|
    ensures r.Some? ==> 1 <= r.value.len <= |s| - i
  {
    match rule
    case StrayBeforeCapital => StrayBeforeCapitalAt(s, i)
    case ShStray => ShStrayAt(s, i)
    case AccentedSStray => AccentedSStrayAt(s, i)
    case WordEndingStray => WordEndingStrayAt(s, i)
    case SentenceStray => SentenceStrayAt(s, i)
    case PunctuationStray => PunctuationStrayAt(s, i)
    case ShortWordStray(w) => ShortWordStrayAt(w, s, i)
    case CommaSpacing => CommaSpacingAt(s, i)
    case BareUrl => BareUrlAt(s, i)
    case ParenthesizedUrl => ParenthesizedUrlAt(s, i)
    case CallToAction => CallToActionAt(s, i)
    case FigureReference => FigureReferenceAt(s, i)
    case WhitespaceRun => WhitespaceRunAt(s, i)
    case SpaceBefore(mark) => SpaceBeforeAt(mark, s, i)
  }

  /** Every match in `ms` fits inside `s` and consumes at least one character. */
  ghost predicate Sized(ms: seq<Option<Match>>, s: string) {
    |ms| == |s| && forall k :: 0 <= k < |s| && ms[k].Some? ==> 1 <= ms[k].value.len <= |s| - k
  }

  /**
   * The match `rule` reports at each of the indices `0 .. n-1` of `s`. A
   * match at `k` depends on `s` and `k` only, so these can be listed before
   * scanning.
   */
  function MatchesUpTo(rule: Rule, s: string, n: nat): (ms: seq<Option<Match>>)
    requires n <= |s|
    ensures |ms| == n
    ensures forall k :: 0 <= k < n && ms[k].Some? ==> 1 <= ms[k].value.len <= |s| - k
  {
    if n == 0 then [] else MatchesUpTo(rule, s, n - 1) + [MatchAt(rule, s, n - 1)]
  }

  function Matches(rule: Rule, s: string): (ms: seq<Option<Match>>)
    ensures Sized(ms, s)
  {
    MatchesUpTo(rule, s, |s|)
  }

  lemma {:induction false} MatchesUpToAt(rule: Rule, s: string, n: nat, k: nat)
    requires k < n <= |s|
    ensures MatchesUpTo(rule, s, n)[k] == MatchAt(rule, s, k)
    decreases n
  {
    if k < n - 1 {
      MatchesUpToAt(rule, s, n - 1, k);
    }
  }

  lemma MatchesAt(rule: Rule, s: string, k: nat)
    requires k < |s|
    ensures Matches(rule, s)[k] == MatchAt(rule, s, k)
  {
    MatchesUpToAt(rule, s, |s|, k);
  }

  /**
   * `ReplaceAllString` from index `i` on: take the match at `i` if there is
   * one and resume after it, otherwise keep `s[i]` and move one character on.
   */
  function Scan(ms: seq<Option<Match>>, s: string, i: nat): string
    requires Sized(ms, s) && i <= |s|
    decreases |s| - i
  {
    if i == |s| then []
    else match ms[i]
      case Some(m) => m.replacement + Scan(ms, s, i + m.len)
      case None => [s[i]] + Scan(ms, s, i + 1)
  }

  function Rewrite(rule: Rule, s: string): string {
    Scan(Matches(rule, s), s, 0)
  }

  /** The repairs of a stray `i` glued to a letter (patterns re1 to re4, with re2b and re2c). */
  function RepairStrayLetters(text: string): string {
    var t := Rewrite(StrayBeforeCapital, text);
    var t := Rewrite(ShStray, t);
    var t := Rewrite(AccentedSStray, t);
    var t := Rewrite(WordEndingStray, t);
    var t := Rewrite(SentenceStray, t);
    Rewrite(PunctuationStray, t)
  }

  /** The repairs of a stray `i` after a short word (patterns re5 to re12). */
  function RepairShortWords(text: string): string {
    var t := Rewrite(ShortWordStray("the"), text);
    var t := Rewrite(ShortWordStray("and"), t);
    var t := Rewrite(ShortWordStray("to"), t);
    var t := Rewrite(ShortWordStray("of"), t);
    var t := Rewrite(ShortWordStray("in"), t);
    var t := Rewrite(ShortWordStray("for"), t);
    var t := Rewrite(ShortWordStray("with"), t);
    Rewrite(ShortWordStray("from"), t)
  }

  /** The repairs of a stray `i` left between words (patterns re1 to re12), in source order. */
  function RepairStrayI(text: string): string {
    RepairShortWords(RepairStrayLetters(text))
  }

  /** The deletions of links, calls to action and figure labels (re14 to re17). */
  function RemoveReferences(text: string): string {
    var t := Rewrite(BareUrl, text);
    var t := Rewrite(ParenthesizedUrl, t);
    var t := Rewrite(CallToAction, t);
    Rewrite(FigureReference, t)
  }

  /** Every repair before the white-space collapse, in source order. */
  function RepairArtifacts(text: string): string {
    RemoveReferences(Rewrite(CommaSpacing, RepairStrayI(text)))
  }

  /** The four `strings.ReplaceAll` calls that pull punctuation onto the word before it. */
  function TightenPunctuation(text: string): string {
    Rewrite(SpaceBefore(':'), Rewrite(SpaceBefore(';'), Rewrite(SpaceBefore(','), Rewrite(SpaceBefore('.'), text))))
  }

  /** `CleanPDFText`. */
  function CleanPDFText(text: string): string {
    TrimSpace(TightenPunctuation(Rewrite(WhitespaceRun, RepairArtifacts(text))))
  }
}

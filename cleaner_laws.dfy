/**
 * What `CleanPDFText` guarantees about its output, what single rules do on
 * the artefacts they target, and when a rule leaves a text alone.
 */
module CleanerLaws {
  import opened Wrappers
  import opened Strings
  import opened TextCleaner

  // ---------------------------------------------------------------------
  // Rules that find nothing change nothing.
  // ---------------------------------------------------------------------

  /** With no match at or after `i`, scanning copies the rest of the text. */
  lemma {:induction false} ScanInert(ms: seq<Option<Match>>, s: string, i: nat)
    requires Sized(ms, s) && i <= |s|
    requires forall k :: i <= k < |s| ==> ms[k].None?
    ensures Scan(ms, s, i) == s[i..]
    decreases |s| - i
  {
    if i < |s| {
      ScanInert(ms, s, i + 1);
      assert Scan(ms, s, i) == [s[i]] + Scan(ms, s, i + 1);
      assert s[i..] == [s[i]] + s[i + 1..];
    }
  }

  /** No character `a` in `s` is directly followed by a character of class `p`. */
  ghost predicate NeverFollowedBy(s: string, a: char, p: char -> bool) {
    forall k :: 0 <= k < |s| - 1 ==> !(s[k] == a && p(s[k + 1]))
  }

  /**
   * A pair of adjacent characters that every match of `rule` contains; a text
   * without it is left as it is.
   */
  ghost predicate LacksTrigger(rule: Rule, s: string) {
    match rule
    case StrayBeforeCapital => NeverFollowedBy(s, 'i', IsUpper)
    case ShStray => NoPair(s, 'h', 'i')
    case AccentedSStray => NoPair(s, 's', 'i')
    case WordEndingStray => NoPair(s, 'h', 'i') && NoPair(s, 's', 'i')
    case SentenceStray => NeverFollowedBy(s, 'i', IsUpper)
    case PunctuationStray => NeverFollowedBy(s, 'i', IsUpper)
    case ShortWordStray(_) => NeverFollowedBy(s, 'i', IsAsciiSpace)
    case CommaSpacing => NeverFollowedBy(s, ',', IsLower)
    case BareUrl => NoPair(s, '/', '/')
    case ParenthesizedUrl => NoPair(s, '(', 'h')
    case CallToAction => NoPair(s, '(', 'h')
    case FigureReference => NoPair(s, 'F', 'I')
    case WhitespaceRun => NoLayout(s) && NoPair(s, ' ', ' ')
    case SpaceBefore(mark) => NoPair(s, ' ', mark)
  }

  lemma LinkNeedsOpenParen(s: string, j: nat)
    requires j <= |s| && LinkEnd(s, j).Some?
    ensures !NoPair(s, '(', 'h')
  {
    assert s[j] == s[j..j + 5][0] && s[j + 1] == s[j..j + 5][1];
  }

  lemma {:induction false} LazyLinkNeedsOpenParen(s: string, b: nat, j: nat)
    requires b < j && LazyLinkEnd(s, b, j).Some?
    ensures !NoPair(s, '(', 'h')
    decreases |s| + 1 - j
  {
    if LinkEnd(s, j).Some? {
      LinkNeedsOpenParen(s, j);
    } else {
      LazyLinkNeedsOpenParen(s, b, j + 1);
    }
  }

  lemma CallToActionNeedsLink(s: string, k: nat)
    requires k < |s| && NoPair(s, '(', 'h')
    ensures CallToActionAt(s, k).None?
  {
    var kw := CallToActionKeyword(s, k);
    if kw != [] {
      var a := k + |kw|;
      var b := RunEnd(s, a, IsAsciiSpace);
      if b > a {
        if LazyLinkEnd(s, b, b + 1).Some? {
          LazyLinkNeedsOpenParen(s, b, b + 1);
        } else if LinkEnd(s, b).Some? {
          LinkNeedsOpenParen(s, b);
        }
      }
    }
  }

  /** Every match of `rule` contains the pair `LacksTrigger` rules out. */
  lemma NoMatchWithoutTrigger(rule: Rule, s: string, k: nat)
    requires k < |s| && LacksTrigger(rule, s) && !rule.WhitespaceRun?
    ensures MatchAt(rule, s, k).None?
  {
    match rule
    case StrayBeforeCapital =>
    case ShStray =>
    case AccentedSStray =>
    case WordEndingStray =>
      if k + 4 <= |s| {
        assert s[k..k + 4][3] == s[k + 3] && s[k..k + 3][2] == s[k + 2];
      }
    case SentenceStray =>
    case PunctuationStray =>
    case ShortWordStray(_) =>
    case CommaSpacing =>
    case BareUrl =>
      if k + 8 <= |s| {
        assert s[k..k + 8][6] == s[k + 6] && s[k..k + 8][7] == s[k + 7];
        assert s[k..k + 7][5] == s[k + 5] && s[k..k + 7][6] == s[k + 6];
      }
    case ParenthesizedUrl =>
      if k + 2 <= |s| {
        assert s[k..k + 2] == [s[k], s[k + 1]];
      }
    case CallToAction => CallToActionNeedsLink(s, k);
    case FigureReference =>
      if k + 6 <= |s| {
        assert s[k..k + 6][0] == s[k] && s[k..k + 6][1] == s[k + 1];
      }
    case SpaceBefore(_) =>
  }

  /** A text without the trigger of `rule` comes out of `rule` unchanged. */
  lemma {:induction false} RewriteUntouched(rule: Rule, s: string)
    requires LacksTrigger(rule, s)
    ensures Rewrite(rule, s) == s
  {
    var ms := Matches(rule, s);
    if rule.WhitespaceRun? {
      SingleSpacesKept(s, ms, 0);
    } else {
      forall k | 0 <= k < |s| ensures ms[k].None? {
        MatchesAt(rule, s, k);
        NoMatchWithoutTrigger(rule, s, k);
      }
      ScanInert(ms, s, 0);
    }
  }

  /** Collapsing runs of `\s` maps a lone plain space to itself. */
  lemma {:induction false} SingleSpacesKept(s: string, ms: seq<Option<Match>>, i: nat)
    requires ms == Matches(WhitespaceRun, s) && i <= |s| && NoLayout(s) && NoPair(s, ' ', ' ')
    ensures Scan(ms, s, i) == s[i..]
    decreases |s| - i
  {
    if i < |s| {
      MatchesAt(WhitespaceRun, s, i);
      SingleSpacesKept(s, ms, i + 1);
      assert s[i..] == [s[i]] + s[i + 1..];
      if s[i] == ' ' {
        assert RunEnd(s, i + 1, IsAsciiSpace) == i + 1;
      }
    }
  }

  // ---------------------------------------------------------------------
  // The shape of every cleaned text.
  // ---------------------------------------------------------------------

  lemma NoPairCons(c: char, t: string, a: char, b: char)
    requires NoPair(t, a, b) && (c != a || t == [] || t[0] != b)
    ensures NoPair([c] + t, a, b)
  {
    var u := [c] + t;
    forall k | 0 <= k < |u| - 1 ensures !(u[k] == a && u[k + 1] == b) {
      if k > 0 {
        assert u[k] == t[k - 1] && u[k + 1] == t[k];
      }
    }
  }

  lemma NoLayoutConcat(t: string, u: string)
    requires NoLayout(t) && NoLayout(u)
    ensures NoLayout(t + u)
  {
    var v := t + u;
    forall k | 0 <= k < |v| ensures !IsLayoutChar(v[k]) {
      if k >= |t| {
        assert v[k] == u[k - |t|];
      }
    }
  }

  /**
   * Collapsing white space (`\s+` -> " ") leaves no layout character and
   * no two adjacent spaces; each output begins with the input's first
   * character, or a space where that character is white space.
   */
  lemma {:induction false} CollapseScan(s: string, ms: seq<Option<Match>>, i: nat)
    requires ms == Matches(WhitespaceRun, s) && i <= |s|
    ensures var out := Scan(ms, s, i);
      NoLayout(out) && NoPair(out, ' ', ' ')
      && (i < |s| ==> out != [] && out[0] == if IsAsciiSpace(s[i]) then ' ' else s[i])
    decreases |s| - i
  {
    if i < |s| {
      MatchesAt(WhitespaceRun, s, i);
      match ms[i]
      case Some(m) =>
        var e := RunEnd(s, i, IsAsciiSpace);
        assert m == Match(e - i, " ");
        assert Scan(ms, s, i) == " " + Scan(ms, s, e);
        CollapseScan(s, ms, e);
        NoPairCons(' ', Scan(ms, s, e), ' ', ' ');
        NoLayoutConcat(" ", Scan(ms, s, e));
      case None =>
        assert Scan(ms, s, i) == [s[i]] + Scan(ms, s, i + 1);
        CollapseScan(s, ms, i + 1);
        NoPairCons(s[i], Scan(ms, s, i + 1), ' ', ' ');
        NoLayoutConcat([s[i]], Scan(ms, s, i + 1));
    }
  }

  /**
   * Deleting the space of every " mark" in a text without double spaces
   * leaves no " mark", creates no double space and no layout character, and
   * creates no " q" that was not there before.
   */
  lemma {:induction false} TightenScan(mark: char, s: string, ms: seq<Option<Match>>, i: nat, q: char)
    requires ms == Matches(SpaceBefore(mark), s)
    requires !IsAsciiSpace(mark) && i <= |s| && NoPair(s, ' ', ' ')
    ensures var out := Scan(ms, s, i);
      NoPair(out, ' ', mark) && NoPair(out, ' ', ' ')
      && (NoPair(s, ' ', q) ==> NoPair(out, ' ', q))
      && (NoLayout(s) ==> NoLayout(out))
      && (i < |s| ==> out != [] && out[0] == if SpaceBeforeAt(mark, s, i).Some? then mark else s[i])
    decreases |s| - i
  {
    if i < |s| {
      MatchesAt(SpaceBefore(mark), s, i);
      match ms[i]
      case Some(m) =>
        TightenScan(mark, s, ms, i + 2, q);
        var rest := Scan(ms, s, i + 2);
        NoPairCons(mark, rest, ' ', mark);
        NoPairCons(mark, rest, ' ', ' ');
        if NoPair(s, ' ', q) {
          NoPairCons(mark, rest, ' ', q);
        }
        if NoLayout(s) {
          NoLayoutConcat([mark], rest);
        }
      case None =>
        TightenScan(mark, s, ms, i + 1, q);
        var rest := Scan(ms, s, i + 1);
        if s[i] == ' ' && i + 1 < |s| {
          assert SpaceBeforeAt(mark, s, i + 1).None?;
        }
        NoPairCons(s[i], rest, ' ', mark);
        NoPairCons(s[i], rest, ' ', ' ');
        if NoPair(s, ' ', q) {
          NoPairCons(s[i], rest, ' ', q);
        }
        if NoLayout(s) {
          NoLayoutConcat([s[i]], rest);
        }
    }
  }

  /**
   * The shape every cleaned text has: no white space at either end, no tab,
   * newline, carriage return or form feed, no two adjacent spaces, and no
   * space directly before `.`, `,`, `;` or `:`.
   */
  ghost predicate Tidy(s: string) {
    (s == [] || (!IsUnicodeSpace(s[0]) && !IsUnicodeSpace(s[|s| - 1])))
    && NoLayout(s) && NoPair(s, ' ', ' ')
    && NoPair(s, ' ', '.') && NoPair(s, ' ', ',') && NoPair(s, ' ', ';') && NoPair(s, ' ', ':')
  }

  /**
   * On a text without layout characters or double spaces, the four
   * deletions leave no space before any of the four marks and keep the
   * text free of both.
   */
  lemma TightenShape(t: string)
    requires NoLayout(t) && NoPair(t, ' ', ' ')
    ensures var r := TightenPunctuation(t);
      NoLayout(r) && NoPair(r, ' ', ' ')
      && NoPair(r, ' ', '.') && NoPair(r, ' ', ',') && NoPair(r, ' ', ';') && NoPair(r, ' ', ':')
  {
    var t1 := Rewrite(SpaceBefore('.'), t);
    TightenScan('.', t, Matches(SpaceBefore('.'), t), 0, ' ');
    var t2 := Rewrite(SpaceBefore(','), t1);
    TightenScan(',', t1, Matches(SpaceBefore(','), t1), 0, '.');
    var t3 := Rewrite(SpaceBefore(';'), t2);
    var ms2 := Matches(SpaceBefore(';'), t2);
    TightenScan(';', t2, ms2, 0, '.');
    TightenScan(';', t2, ms2, 0, ',');
    var ms3 := Matches(SpaceBefore(':'), t3);
    TightenScan(':', t3, ms3, 0, '.');
    TightenScan(':', t3, ms3, 0, ',');
    TightenScan(':', t3, ms3, 0, ';');
  }

  lemma CleanedTextShape(text: string)
    ensures Tidy(CleanPDFText(text))
  {
    var t := Rewrite(WhitespaceRun, RepairArtifacts(text));
    CollapseScan(RepairArtifacts(text), Matches(WhitespaceRun, RepairArtifacts(text)), 0);
    TightenShape(t);
    var r := TightenPunctuation(t);
    TrimSpaceKeeps(r, ' ', ' ');
    TrimSpaceKeeps(r, ' ', '.');
    TrimSpaceKeeps(r, ' ', ',');
    TrimSpaceKeeps(r, ' ', ';');
    TrimSpaceKeeps(r, ' ', ':');
  }

  /** The collapse, tightening and trim steps leave a tidy text as it is. */
  lemma TidyUntouched(s: string)
    requires Tidy(s)
    ensures TrimSpace(TightenPunctuation(Rewrite(WhitespaceRun, s))) == s
  {
    RewriteUntouched(WhitespaceRun, s);
    TightenUntouched(s);
    TrimSpaceNoop(s);
  }

  lemma TightenUntouched(s: string)
    requires NoPair(s, ' ', '.') && NoPair(s, ' ', ',') && NoPair(s, ' ', ';') && NoPair(s, ' ', ':')
    ensures TightenPunctuation(s) == s
  {
    RewriteUntouched(SpaceBefore('.'), s);
    RewriteUntouched(SpaceBefore(','), s);
    RewriteUntouched(SpaceBefore(';'), s);
    RewriteUntouched(SpaceBefore(':'), s);
  }

  /** No trigger of any stray-`i` repair. */
  ghost predicate NoStrayI(s: string) {
    NeverFollowedBy(s, 'i', IsUpper) && NeverFollowedBy(s, 'i', IsAsciiSpace)
    && NoPair(s, 'h', 'i') && NoPair(s, 's', 'i')
  }

  lemma StrayIUntouched(s: string)
    requires NoStrayI(s)
    ensures RepairStrayI(s) == s
  {
    StrayLettersUntouched(s);
    ShortWordsUntouched(s);
  }

  lemma StrayLettersUntouched(s: string)
    requires NoStrayI(s)
    ensures RepairStrayLetters(s) == s
  {
    RewriteUntouched(StrayBeforeCapital, s);
    RewriteUntouched(ShStray, s);
    RewriteUntouched(AccentedSStray, s);
    RewriteUntouched(WordEndingStray, s);
    RewriteUntouched(SentenceStray, s);
    RewriteUntouched(PunctuationStray, s);
  }

  lemma ShortWordsUntouched(s: string)
    requires NeverFollowedBy(s, 'i', IsAsciiSpace)
    ensures RepairShortWords(s) == s
  {
    forall w ensures Rewrite(ShortWordStray(w), s) == s {
      RewriteUntouched(ShortWordStray(w), s);
    }
  }

  /** No link, call to action or figure label. */
  ghost predicate NoReferences(s: string) {
    NoPair(s, '/', '/') && NoPair(s, '(', 'h') && NoPair(s, 'F', 'I')
  }

  lemma ReferencesUntouched(s: string)
    requires NoReferences(s)
    ensures RemoveReferences(s) == s
  {
    RewriteUntouched(BareUrl, s);
    RewriteUntouched(ParenthesizedUrl, s);
    RewriteUntouched(CallToAction, s);
    RewriteUntouched(FigureReference, s);
  }

  /** Tidy text in which no rule has anything to repair is its own cleaning. */
  lemma CleanFixpoint(s: string)
    requires Tidy(s) && NoStrayI(s) && NeverFollowedBy(s, ',', IsLower) && NoReferences(s)
    ensures CleanPDFText(s) == s
  {
    StrayIUntouched(s);
    RewriteUntouched(CommaSpacing, s);
    ReferencesUntouched(s);
    TidyUntouched(s);
  }

  /** Once the repairs leave a tidy text, collapsing, tightening and trimming change nothing. */
  lemma CleanAfterTidyRepairs(s: string)
    requires Tidy(RepairArtifacts(s))
    ensures CleanPDFText(s) == RepairArtifacts(s)
  {
    TidyUntouched(RepairArtifacts(s));
  }

  // ---------------------------------------------------------------------
  // Texts with a single match.
  // ---------------------------------------------------------------------

  /** Characters before the first match are copied as they are. */
  lemma {:induction false} ScanCopies(ms: seq<Option<Match>>, s: string, i: nat, j: nat)
    requires Sized(ms, s) && i <= j <= |s|
    requires forall k :: i <= k < j ==> ms[k].None?
    ensures Scan(ms, s, i) == s[i..j] + Scan(ms, s, j)
    decreases j - i
  {
    if i < j {
      ScanCopies(ms, s, i + 1, j);
      assert Scan(ms, s, i) == [s[i]] + Scan(ms, s, i + 1);
      assert s[i..j] == [s[i]] + s[i + 1..j];
    }
  }

  /**
   * With one match at `j` and none starting before it or after its end,
   * rewriting replaces exactly that stretch; starts inside the match are
   * never tried.
   */
  lemma ScanOneMatch(ms: seq<Option<Match>>, s: string, j: nat, m: Match)
    requires Sized(ms, s) && j < |s| && ms[j] == Some(m)
    requires forall k :: 0 <= k < j ==> ms[k].None?
    requires forall k :: j + m.len <= k < |s| ==> ms[k].None?
    ensures Scan(ms, s, 0) == s[..j] + m.replacement + s[j + m.len..]
  {
    var e := j + m.len;
    ScanCopies(ms, s, e, |s|);
    assert Scan(ms, s, |s|) == [];
    assert Scan(ms, s, e) == s[e..] by {
      assert s[e..|s|] + [] == s[e..];
    }
    assert Scan(ms, s, j) == m.replacement + s[e..];
    ScanCopies(ms, s, 0, j);
    assert s[0..j] == s[..j];
  }

  lemma RewriteOneMatch(rule: Rule, s: string, j: nat, m: Match)
    requires j < |s| && MatchAt(rule, s, j) == Some(m)
    requires forall k :: 0 <= k < j ==> MatchAt(rule, s, k).None?
    requires forall k :: j + m.len <= k < |s| ==> MatchAt(rule, s, k).None?
    ensures Rewrite(rule, s) == s[..j] + m.replacement + s[j + m.len..]
  {
    var ms := Matches(rule, s);
    forall k | 0 <= k < |s| ensures ms[k] == MatchAt(rule, s, k) {
      MatchesAt(rule, s, k);
    }
    ScanOneMatch(ms, s, j, m);
  }

  // ---------------------------------------------------------------------
  // Examples. Strings are passed as parameters so that the verifier does not
  // try to evaluate the rules on a literal.
  // ---------------------------------------------------------------------

  /** A missing space after a comma between lower-case letters is restored. */
  lemma CommaSpacingExample(s: string, t: string)
    requires s == "on,in" && t == "on, in"
    ensures Rewrite(CommaSpacing, s) == t
  {
    RewriteOneMatch(CommaSpacing, s, 1, Match(3, "n, i"));
  }

  /**
   * Matches do not overlap: a match starts at index 2 of "a,b,c", but the
   * first match already covers it, so one pass repairs only the first comma
   * and a second pass the other.
   */
  lemma CommaSpacingNonOverlapping(s: string, t: string, u: string)
    requires s == "a,b,c" && t == "a, b,c" && u == "a, b, c"
    ensures MatchAt(CommaSpacing, s, 2).Some?
    ensures Rewrite(CommaSpacing, s) == t
    ensures Rewrite(CommaSpacing, t) == u
  {
    RewriteOneMatch(CommaSpacing, s, 0, Match(3, "a, b"));
    RewriteOneMatch(CommaSpacing, t, 3, Match(3, "b, c"));
  }

  /** A stray `i` between a lower-case and an upper-case letter becomes a space. */
  lemma StrayBeforeCapitalExample(s: string, t: string)
    requires s == "nationsiAnd" && t == "nations And"
    ensures Rewrite(StrayBeforeCapital, s) == t
  {
    RewriteOneMatch(StrayBeforeCapital, s, 6, Match(3, "s A"));
  }

  /** "thei " after a word boundary loses its `i`. */
  lemma ShortWordExample(s: string, t: string)
    requires s == "the thei cat" && t == "the the cat"
    ensures Rewrite(ShortWordStray("the"), s) == t
  {
    assert s[4..7] == "the" && "the" + " " == "the ";
    assert ShortWordStrayAt("the", s, 4).Some?;
    RewriteOneMatch(ShortWordStray("the"), s, 4, Match(5, "the "));
  }

  /**
   * Words that merely contain "thei" are kept: in "breathei" the boundary
   * before "the" is missing, and in "their" no white space follows the `i`.
   */
  lemma ShortWordNeedsBoundary(s: string)
    requires s == "breathei their"
    ensures Rewrite(ShortWordStray("the"), s) == s
  {
    var ms := Matches(ShortWordStray("the"), s);
    forall k | 0 <= k < |s| ensures ms[k].None? {
      MatchesAt(ShortWordStray("the"), s, k);
    }
    ScanInert(ms, s, 0);
  }

  /** A bare URL is deleted up to the next white space, with nothing in its place. */
  lemma BareUrlExample(s: string, t: string)
    requires s == "see http://x.io now" && t == "see  now"
    ensures Rewrite(BareUrl, s) == t
  {
    assert s[4..11] == "http://";
    assert s[4..12] != "https://" by {
      assert s[4..12][4] == ':';
    }
    assert RunEnd(s, 15, IsUrlChar) == 15;
    assert RunEnd(s, 13, IsUrlChar) == 15;
    assert RunEnd(s, 11, IsUrlChar) == 15;
    forall k | 0 <= k < 4 || 15 <= k < |s| ensures MatchAt(BareUrl, s, k).None? {
      if k + 7 <= |s| {
        assert s[k..k + 7][0] == s[k] && s[k..k + 7][5] == s[k + 5] && s[k..k + 7][6] == s[k + 6];
      }
      if k + 8 <= |s| {
        assert s[k..k + 8][0] == s[k] && s[k..k + 8][6] == s[k + 6] && s[k..k + 8][7] == s[k + 7];
      }
    }
    RewriteOneMatch(BareUrl, s, 4, Match(11, ""));
  }

  /** Cleaning is not idempotent: cleaning a cleaned text can change it again. */
  lemma CleanNotIdempotent(s: string, t: string, u: string)
    requires s == "a,b,c" && t == "a, b,c" && u == "a, b, c"
    ensures CleanPDFText(s) == t
    ensures CleanPDFText(CleanPDFText(s)) == u != t
  {
    assert NoStrayI(s) && NoStrayI(t) && NoReferences(t) && NoReferences(u) && Tidy(t) && Tidy(u);
    CommaSpacingNonOverlapping(s, t, u);
    StrayIUntouched(s);
    ReferencesUntouched(t);
    CleanAfterTidyRepairs(s);
    StrayIUntouched(t);
    ReferencesUntouched(u);
    CleanAfterTidyRepairs(t);
  }
}

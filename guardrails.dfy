// Response guardrails: the issue list built check by check, the score
// derived from its length, and the fabricated-claim patterns. The live
// copy in prompts.py and the split copy in guardrails.py share this model;
// they differ only in the euro symbol of the first claim pattern.

module Guardrails {
  import opened Records
  import opened PyText

  /** One entry of the issues list; the payload is what the message
   *  interpolates. */
  datatype Issue =
    | TooShort
    | MissingCitations
    | MissingFootnotes
    | UnusedSources(unused: set<nat>)
    | PhantomCitations(phantom: set<nat>)
    | CopiesContext
    | WrongLanguage(language: string)
    | TooLong(words: nat)
    | Hallucinations(phrases: seq<string>)
    | FabricatedClaims(claims: seq<string>)

  datatype Validation = Validation(
    passed: bool, issues: seq<Issue>, score: real, inlineCitationsCount: nat, hasFootnotes: bool)

  // ---------------------------------------------------------------
  // Inline citations: re.findall(r'\[\d+\]', response)

  /** The length of the run of decimal digits starting at p. */
  function DigitRunLength(s: string, p: nat): (m: nat)
    requires p <= |s|
    ensures p + m <= |s|
    ensures forall k | p <= k < p + m :: IsDigit(s[k])
    ensures p + m < |s| ==> !IsDigit(s[p + m])
    decreases |s| - p
  {
    if p < |s| && IsDigit(s[p]) then 1 + DigitRunLength(s, p + 1) else 0
  }

  /** A citation token "[digits]" spans s[i..j+1]. */
  predicate TokenAt(s: string, i: int, j: int) {
    0 <= i && i + 1 < j < |s| && s[i] == '[' && s[j] == ']' && AllDigits(s[i + 1..j])
  }

  /** The numbers of the citation tokens from position p on, scanned left
   *  to right without overlap; repeated citations stay repeated. */
  function CitationsFrom(s: string, p: nat): seq<nat>
    requires p <= |s|
    decreases |s| - p
  {
    if p == |s| then []
    else
      var e := p + 1 + DigitRunLength(s, p + 1);
      if s[p] == '[' && e > p + 1 && e < |s| && s[e] == ']' then
        assert forall k | p + 1 <= k < e :: s[p + 1..e][k - p - 1] == s[k];
        [DigitsValue(s[p + 1..e])] + CitationsFrom(s, e + 1)
      else CitationsFrom(s, p + 1)
  }

  /** re.findall(r'\[\d+\]', s), as numbers. */
  function Citations(s: string): seq<nat> {
    CitationsFrom(s, 0)
  }

  /** Every number in the scan comes from a citation token. */
  lemma {:induction false} CitationsFromSound(s: string, p: nat, v: nat)
    requires p <= |s| && v in CitationsFrom(s, p)
    ensures exists i, j :: p <= i && TokenAt(s, i, j) && DigitsValue(s[i + 1..j]) == v
    decreases |s| - p
  {
    var e := p + 1 + DigitRunLength(s, p + 1);
    if s[p] == '[' && e > p + 1 && e < |s| && s[e] == ']' {
      if v == DigitsValue(s[p + 1..e]) {
        assert forall k | p + 1 <= k < e :: s[p + 1..e][k - p - 1] == s[k];
        assert TokenAt(s, p, e);
      } else {
        CitationsFromSound(s, e + 1, v);
      }
    } else {
      CitationsFromSound(s, p + 1, v);
    }
  }

  lemma CitationsSound(s: string, v: nat)
    requires v in Citations(s)
    ensures exists i, j :: TokenAt(s, i, j) && DigitsValue(s[i + 1..j]) == v
  {
    CitationsFromSound(s, 0, v);
  }

  /** The digit run from i + 1 of a token at i ends at its "]". */
  lemma TokenRun(s: string, i: int, j: int)
    requires TokenAt(s, i, j)
    ensures i + 1 + DigitRunLength(s, i + 1) == j
  {
    forall k | i + 1 <= k < j ensures IsDigit(s[k]) {
      assert s[i + 1..j][k - i - 1] == s[k];
    }
    DigitRunCovers(s, i + 1, j);
  }

  lemma {:induction false} DigitRunCovers(s: string, p: nat, q: nat)
    requires p <= q <= |s| && forall k | p <= k < q :: IsDigit(s[k])
    ensures p + DigitRunLength(s, p) >= q
    decreases q - p
  {
    if p < q {
      DigitRunCovers(s, p + 1, q);
    }
  }

  /** The scan reads a token at i as its next citation. */
  lemma CitationAt(s: string, i: int, j: int)
    requires TokenAt(s, i, j)
    ensures CitationsFrom(s, i) == [DigitsValue(s[i + 1..j])] + CitationsFrom(s, j + 1)
  {
    TokenRun(s, i, j);
  }

  /** A token at i > p cannot start inside the token read at p. */
  lemma TokenAfterToken(s: string, p: nat, i: int, j: int)
    requires p < i && TokenAt(s, i, j)
    requires var e := p + 1 + DigitRunLength(s, p + 1); e < |s| && s[e] == ']'
    ensures i > p + 1 + DigitRunLength(s, p + 1)
  {
  }

  /** Every citation token from position p on is found by the scan. */
  lemma {:induction false} CitationsFromComplete(s: string, p: nat, i: int, j: int)
    requires p <= i && TokenAt(s, i, j)
    ensures DigitsValue(s[i + 1..j]) in CitationsFrom(s, p)
    decreases |s| - p
  {
    var e := p + 1 + DigitRunLength(s, p + 1);
    if p == i {
      CitationAt(s, i, j);
    } else if s[p] == '[' && e > p + 1 && e < |s| && s[e] == ']' {
      TokenAfterToken(s, p, i, j);
      CitationsFromComplete(s, e + 1, i, j);
    } else {
      CitationsFromComplete(s, p + 1, i, j);
    }
  }

  lemma CitationsComplete(s: string, i: int, j: int)
    requires TokenAt(s, i, j)
    ensures DigitsValue(s[i + 1..j]) in Citations(s)
  {
    CitationsFromComplete(s, 0, i, j);
  }

  /** set() of a list of numbers. */
  function NumberSet(xs: seq<nat>): set<nat> {
    if xs == [] then {} else {xs[0]} + NumberSet(xs[1..])
  }

  lemma NumberSetMembers(xs: seq<nat>)
    ensures forall v :: v in NumberSet(xs) <==> v in xs
  {
  }

  function CitedSet(s: string): set<nat> {
    NumberSet(Citations(s))
  }

  /** The source numbers 1..n. */
  function Available(n: nat): set<nat> {
    if n == 0 then {} else Available(n - 1) + {n}
  }

  lemma AvailableMembers(n: nat)
    ensures forall v :: v in Available(n) <==> 1 <= v <= n
  {
  }

  /** available_numbers - cited_numbers, counted down from n. */
  function UncitedSet(cits: seq<nat>, n: nat): set<nat> {
    if n == 0 then {} else (if n in cits then {} else {n}) + UncitedSet(cits, n - 1)
  }

  /** cited_numbers - available_numbers, scanned along the citations. */
  function PhantomSet(cits: seq<nat>, n: nat): set<nat> {
    if cits == [] then {} else (if 1 <= cits[0] <= n then {} else {cits[0]}) + PhantomSet(cits[1..], n)
  }

  /** unused_sources is non-empty */
  predicate HasUncited(cits: seq<nat>, n: nat) {
    n > 0 && (n !in cits || HasUncited(cits, n - 1))
  }

  /** phantom is non-empty */
  predicate HasPhantom(cits: seq<nat>, n: nat) {
    cits != [] && (!(1 <= cits[0] <= n) || HasPhantom(cits[1..], n))
  }

  lemma {:induction false} HasUncitedNonEmpty(cits: seq<nat>, n: nat)
    ensures HasUncited(cits, n) <==> UncitedSet(cits, n) != {}
  {
    if n > 0 {
      HasUncitedNonEmpty(cits, n - 1);
      if n !in cits {
        assert n in UncitedSet(cits, n);
      }
    }
  }

  lemma {:induction false} HasPhantomNonEmpty(cits: seq<nat>, n: nat)
    ensures HasPhantom(cits, n) <==> PhantomSet(cits, n) != {}
  {
    if cits != [] {
      HasPhantomNonEmpty(cits[1..], n);
      if !(1 <= cits[0] <= n) {
        assert cits[0] in PhantomSet(cits, n);
      }
    }
  }

  lemma UncitedMembers(cits: seq<nat>, n: nat)
    ensures forall v :: v in UncitedSet(cits, n) <==> 1 <= v <= n && v !in cits
  {
  }

  lemma PhantomMembers(cits: seq<nat>, n: nat)
    ensures forall v :: v in PhantomSet(cits, n) <==> v in cits && !(1 <= v <= n)
  {
  }

  /** The two sets are the set differences the source takes. */
  lemma CoverageSets(cits: seq<nat>, n: nat)
    ensures UncitedSet(cits, n) == Available(n) - NumberSet(cits)
    ensures PhantomSet(cits, n) == NumberSet(cits) - Available(n)
  {
    UncitedMembers(cits, n);
    PhantomMembers(cits, n);
    AvailableMembers(n);
    NumberSetMembers(cits);
  }

  // ---------------------------------------------------------------
  // The individual checks

  const MinLength := 10
  const FootnoteMarker := "**Sources consulted:**"
  const MinContextLength := 50
  const CopyRatio: real := 0.8
  const LanguageRatio: real := 0.08
  const MaxWords := 700
  const IssuePenalty: real := 0.15

  /** The ten English function words; every language falls back to them. */
  const TargetWords: seq<string> := ["the", "is", "are", "of", "and", "to", "a", "in", "for", "with"]

  const HallucinationPhrases: seq<string> := [
    "in my knowledge", "as far as I know", "in my experience",
    "I think", "I imagine", "probably without"]

  /** `not response or len(response.strip()) < 10` */
  predicate TooShortCheck(response: string) {
    response == "" || |Strip(response)| < MinLength
  }

  function Max1(n: nat): (r: nat)
    ensures r >= 1 && r >= n
  {
    if n > 1 then n else 1
  }

  function WordSet(s: string): set<string> {
    set w | w in Split(Lower(s))
  }

  /** Shared unique words over unique response words above 0.8, for a
   *  context longer than 50 characters. */
  predicate CopyCheck(response: string, context: string) {
    context != "" && |context| > MinContextLength
    && (|WordSet(context) * WordSet(response)| as real) / (Max1(|WordSet(response)|) as real) > CopyRatio
  }

  /** How many words (with repetition) are among the target words. */
  function CountTargets(words: seq<string>): (r: nat)
    ensures r <= |words|
  {
    if words == [] then 0
    else (if words[0] in TargetWords then 1 else 0) + CountTargets(words[1..])
  }

  predicate LanguageCheck(response: string) {
    var words := Split(Lower(response));
    (CountTargets(words) as real) / (Max1(|words|) as real) < LanguageRatio
  }

  predicate TooLongCheck(response: string) {
    |Split(response)| > MaxWords
  }

  /** The phrases occurring in s, in list order. */
  function FoundPhrases(s: string, phrases: seq<string>): (r: seq<string>)
    ensures |r| <= |phrases|
  {
    if phrases == [] then []
    else (if Contains(s, phrases[0]) then [phrases[0]] else []) + FoundPhrases(s, phrases[1..])
  }

  /** Exactly the listed phrases that occur are found. */
  lemma {:induction false} FoundPhrasesMembers(s: string, phrases: seq<string>)
    ensures forall p :: p in FoundPhrases(s, phrases) <==> p in phrases && Contains(s, p)
  {
    if phrases != [] {
      FoundPhrasesMembers(s, phrases[1..]);
      assert phrases == [phrases[0]] + phrases[1..];
    }
  }

  function When(c: bool, issue: Issue): seq<Issue> {
    if c then [issue] else []
  }

  /** What the checks measure on one response. */
  datatype Checks = Checks(
    tooShort: bool, citations: seq<nat>, hasFootnotes: bool, copies: bool,
    offLanguage: bool, wordCount: nat, found: seq<string>)

  function Measure(response: string, context: string): Checks {
    Checks(TooShortCheck(response), Citations(response), Contains(response, FootnoteMarker),
           CopyCheck(response, context), LanguageCheck(response), |Split(response)|,
           FoundPhrases(Lower(response), HallucinationPhrases))
  }

  /** The checks, numbered in the order they run: whether check k fires. */
  predicate Fires(c: Checks, sourceCount: nat, k: nat) {
    match k
    case 0 => c.tooShort
    case 1 => sourceCount > 0 && c.citations == []
    case 2 => sourceCount > 0 && !c.hasFootnotes
    case 3 => sourceCount > 0 && c.citations != [] && HasUncited(c.citations, sourceCount)
    case 4 => sourceCount > 0 && c.citations != [] && HasPhantom(c.citations, sourceCount)
    case 5 => c.copies
    case 6 => c.offLanguage
    case 7 => c.wordCount > MaxWords
    case _ => c.found != []
  }

  /** The issue check k reports; its rank is k. */
  function Reported(c: Checks, sourceCount: nat, language: string, k: nat): (r: Issue)
    requires k < CheckCount
    ensures Rank(r) == k
  {
    match k
    case 0 => TooShort
    case 1 => MissingCitations
    case 2 => MissingFootnotes
    case 3 => UnusedSources(UncitedSet(c.citations, sourceCount))
    case 4 => PhantomCitations(PhantomSet(c.citations, sourceCount))
    case 5 => CopiesContext
    case 6 => WrongLanguage(language)
    case 7 => TooLong(c.wordCount)
    case _ => Hallucinations(c.found)
  }

  const CheckCount: nat := 9

  /** The issues of the first k checks, appended in order. */
  function IssuesUpTo(c: Checks, sourceCount: nat, language: string, k: nat): seq<Issue>
    requires k <= CheckCount
  {
    if k == 0 then []
    else
      IssuesUpTo(c, sourceCount, language, k - 1)
      + When(Fires(c, sourceCount, k - 1), Reported(c, sourceCount, language, k - 1))
  }

  /** The issues in check order, given the measurements and the number of
   *  sources. */
  function IssuesFrom(c: Checks, sourceCount: nat, language: string): seq<Issue> {
    IssuesUpTo(c, sourceCount, language, CheckCount)
  }

  function ExpectedIssues(response: string, context: string, sources: seq<Doc>, language: string): seq<Issue> {
    IssuesFrom(Measure(response, context), |sources|, language)
  }

  /** max(0.0, 1.0 - n * 0.15) */
  function Score(n: nat): real {
    var s := 1.0 - (n as real) * IssuePenalty;
    if s > 0.0 then s else 0.0
  }

  function ValidationOf(response: string, context: string, sources: seq<Doc>, language: string): Validation {
    var issues := ExpectedIssues(response, context, sources, language);
    Validation(issues == [], issues, Score(|issues|), |Citations(response)|, Contains(response, FootnoteMarker))
  }

  /** The hallucination phrase loop. */
  method FindPhrases(lowered: string, phrases: seq<string>) returns (found: seq<string>)
    ensures found == FoundPhrases(lowered, phrases)
  {
    found := [];
    var k := 0;
    while k < |phrases|
      invariant 0 <= k <= |phrases|
      invariant found + FoundPhrases(lowered, phrases[k..]) == FoundPhrases(lowered, phrases)
    {
      assert phrases[k..][1..] == phrases[k + 1..];
      if Contains(lowered, phrases[k]) {
        found := found + [phrases[k]];
      }
      k := k + 1;
    }
    assert phrases[k..] == [];
  }

  /** The measurements, taken one check at a time. */
  method MeasureResponse(response: string, context: string) returns (c: Checks)
    ensures c == Measure(response, context)
  {
    var tooShort := response == "" || |Strip(response)| < MinLength;
    var inline := Citations(response);
    var hasFootnotes := Contains(response, FootnoteMarker);
    var copies := false;
    if context != "" && |context| > MinContextLength {
      copies := CopyCheck(response, context);
    }
    var offLanguage := LanguageCheck(response);
    var wordCount := |Split(response)|;
    var found := FindPhrases(Lower(response), HallucinationPhrases);
    c := Checks(tooShort, inline, hasFootnotes, copies, offLanguage, wordCount, found);
  }

  /** The issues list, appended check by check. */
  method CollectIssues(c: Checks, sourceCount: nat, language: string) returns (issues: seq<Issue>)
    ensures issues == IssuesFrom(c, sourceCount, language)
  {
    var unused := UncitedSet(c.citations, sourceCount);
    var phantom := PhantomSet(c.citations, sourceCount);
    issues := [];
    if c.tooShort {
      issues := issues + [TooShort];
    }
    assert issues == IssuesUpTo(c, sourceCount, language, 1);
    if sourceCount > 0 && c.citations == [] {
      issues := issues + [MissingCitations];
    }
    assert issues == IssuesUpTo(c, sourceCount, language, 2);
    if sourceCount > 0 && !c.hasFootnotes {
      issues := issues + [MissingFootnotes];
    }
    assert issues == IssuesUpTo(c, sourceCount, language, 3);
    if sourceCount > 0 && c.citations != [] {
      if HasUncited(c.citations, sourceCount) {  // unused is not empty
        issues := issues + [UnusedSources(unused)];
      }
    }
    assert issues == IssuesUpTo(c, sourceCount, language, 4);
    if sourceCount > 0 && c.citations != [] {
      if HasPhantom(c.citations, sourceCount) {  // phantom is not empty
        issues := issues + [PhantomCitations(phantom)];
      }
    }
    assert issues == IssuesUpTo(c, sourceCount, language, 5);
    if c.copies {
      issues := issues + [CopiesContext];
    }
    assert issues == IssuesUpTo(c, sourceCount, language, 6);
    if c.offLanguage {
      issues := issues + [WrongLanguage(language)];
    }
    assert issues == IssuesUpTo(c, sourceCount, language, 7);
    if c.wordCount > MaxWords {
      issues := issues + [TooLong(c.wordCount)];
    }
    assert issues == IssuesUpTo(c, sourceCount, language, 8);
    if c.found != [] {
      issues := issues + [Hallucinations(c.found)];
    }
    assert issues == IssuesUpTo(c, sourceCount, language, 9);
  }

  /** validate_response: measure, collect the issues, then score them. */
  method ValidateResponse(response: string, context: string, sources: seq<Doc>, language: string)
    returns (v: Validation)
    ensures v == ValidationOf(response, context, sources, language)
  {
    var c := MeasureResponse(response, context);
    var issues := CollectIssues(c, |sources|, language);
    var score := Score(|issues|);
    v := Validation(|issues| == 0, issues, score, |c.citations|, c.hasFootnotes);
  }

  // ---------------------------------------------------------------
  // What the checks mean

  // Each issue kind is reported exactly when its check fires.

  /** An issue is in the list of the first k checks exactly when the
   *  check of its rank is among them, fires, and reports that issue. */
  lemma {:induction false} IssuesMembers(c: Checks, n: nat, language: string, k: nat, x: Issue)
    requires k <= CheckCount
    ensures x in IssuesUpTo(c, n, language, k) <==>
      Rank(x) < k && Fires(c, n, Rank(x)) && Reported(c, n, language, Rank(x)) == x
  {
    if k > 0 {
      IssuesMembers(c, n, language, k - 1, x);
    }
  }

  lemma TooShortKind(c: Checks, n: nat, language: string)
    ensures TooShort in IssuesFrom(c, n, language) <==> c.tooShort
  {
    IssuesMembers(c, n, language, CheckCount, TooShort);
  }

  lemma MissingCitationsKind(c: Checks, n: nat, language: string)
    ensures MissingCitations in IssuesFrom(c, n, language) <==> n > 0 && c.citations == []
  {
    IssuesMembers(c, n, language, CheckCount, MissingCitations);
  }

  lemma MissingFootnotesKind(c: Checks, n: nat, language: string)
    ensures MissingFootnotes in IssuesFrom(c, n, language) <==> n > 0 && !c.hasFootnotes
  {
    IssuesMembers(c, n, language, CheckCount, MissingFootnotes);
  }

  lemma CopiesContextKind(c: Checks, n: nat, language: string)
    ensures CopiesContext in IssuesFrom(c, n, language) <==> c.copies
  {
    IssuesMembers(c, n, language, CheckCount, CopiesContext);
  }

  lemma WrongLanguageKind(c: Checks, n: nat, language: string)
    ensures WrongLanguage(language) in IssuesFrom(c, n, language) <==> c.offLanguage
  {
    IssuesMembers(c, n, language, CheckCount, WrongLanguage(language));
  }

  lemma TooLongKind(c: Checks, n: nat, language: string)
    ensures TooLong(c.wordCount) in IssuesFrom(c, n, language) <==> c.wordCount > 700
  {
    IssuesMembers(c, n, language, CheckCount, TooLong(c.wordCount));
  }

  lemma HallucinationsKind(c: Checks, n: nat, language: string)
    ensures forall h :: Hallucinations(h) in IssuesFrom(c, n, language) <==> h == c.found && h != []
  {
    forall h {
      IssuesMembers(c, n, language, CheckCount, Hallucinations(h));
    }
  }

  lemma UnusedSourcesKind(c: Checks, n: nat, language: string)
    ensures forall u :: UnusedSources(u) in IssuesFrom(c, n, language) <==>
      (n > 0 && c.citations != [] && u == UncitedSet(c.citations, n) && HasUncited(c.citations, n))
  {
    forall u {
      IssuesMembers(c, n, language, CheckCount, UnusedSources(u));
    }
  }

  lemma PhantomCitationsKind(c: Checks, n: nat, language: string)
    ensures forall p :: PhantomCitations(p) in IssuesFrom(c, n, language) <==>
      (n > 0 && c.citations != [] && p == PhantomSet(c.citations, n) && HasPhantom(c.citations, n))
  {
    forall p {
      IssuesMembers(c, n, language, CheckCount, PhantomCitations(p));
    }
  }

  /** The same, stated on the response itself. */
  lemma IssueConditions(response: string, context: string, sources: seq<Doc>, language: string)
    ensures var issues := ExpectedIssues(response, context, sources, language);
      && (TooShort in issues <==> response == "" || |Strip(response)| < 10)
      && (MissingCitations in issues <==> sources != [] && Citations(response) == [])
      && (MissingFootnotes in issues <==> sources != [] && !Contains(response, FootnoteMarker))
      && (CopiesContext in issues <==> CopyCheck(response, context))
      && (WrongLanguage(language) in issues <==> LanguageCheck(response))
      && (TooLong(|Split(response)|) in issues <==> |Split(response)| > 700)
      && (forall h :: Hallucinations(h) in issues <==> h == FoundPhrases(Lower(response), HallucinationPhrases) && h != [])
  {
    var c := Measure(response, context);
    TooShortKind(c, |sources|, language);
    MissingCitationsKind(c, |sources|, language);
    MissingFootnotesKind(c, |sources|, language);
    CopiesContextKind(c, |sources|, language);
    WrongLanguageKind(c, |sources|, language);
    TooLongKind(c, |sources|, language);
    HallucinationsKind(c, |sources|, language);
  }

  /** Citation coverage: with sources and at least one citation, the
   *  unused and phantom issues carry exactly the uncited source numbers
   *  and the cited numbers outside 1..|sources|. */
  lemma CoverageIssues(response: string, context: string, sources: seq<Doc>, language: string)
    ensures var issues := ExpectedIssues(response, context, sources, language);
      && (forall u :: UnusedSources(u) in issues <==>
            (sources != [] && Citations(response) != [] && u == Available(|sources|) - CitedSet(response) && u != {}))
      && (forall p :: PhantomCitations(p) in issues <==>
            (sources != [] && Citations(response) != [] && p == CitedSet(response) - Available(|sources|) && p != {}))
  {
    var c := Measure(response, context);
    CoverageSets(c.citations, |sources|);
    HasUncitedNonEmpty(c.citations, |sources|);
    HasPhantomNonEmpty(c.citations, |sources|);
    UnusedSourcesKind(c, |sources|, language);
    PhantomCitationsKind(c, |sources|, language);
  }

  /** The kind of an issue, in the order the checks run. */
  function Rank(i: Issue): nat {
    match i
    case TooShort => 0
    case MissingCitations => 1
    case MissingFootnotes => 2
    case UnusedSources(_) => 3
    case PhantomCitations(_) => 4
    case CopiesContext => 5
    case WrongLanguage(_) => 6
    case TooLong(_) => 7
    case Hallucinations(_) => 8
    case FabricatedClaims(_) => 9
  }

  predicate RanksIncrease(issues: seq<Issue>) {
    forall a, b :: 0 <= a < b < |issues| ==> Rank(issues[a]) < Rank(issues[b])
  }

  /** Appending a higher-ranked block keeps the ranks increasing. */
  lemma RanksAppend(x: seq<Issue>, y: seq<Issue>, k: nat)
    requires RanksIncrease(x) && forall a :: 0 <= a < |x| ==> Rank(x[a]) < k
    requires |y| <= 1 && forall a :: 0 <= a < |y| ==> Rank(y[a]) == k
    ensures RanksIncrease(x + y) && |x + y| <= |x| + 1
    ensures forall a :: 0 <= a < |x + y| ==> Rank((x + y)[a]) < k + 1
  {
  }

  /** The first k checks give at most k issues, in check order. */
  lemma {:induction false} IssuesUpToOrdered(c: Checks, n: nat, language: string, k: nat)
    requires k <= CheckCount
    ensures var issues := IssuesUpTo(c, n, language, k);
      RanksIncrease(issues) && |issues| <= k
      && forall a :: 0 <= a < |issues| ==> Rank(issues[a]) < k
  {
    if k > 0 {
      IssuesUpToOrdered(c, n, language, k - 1);
      RanksAppend(IssuesUpTo(c, n, language, k - 1),
                  When(Fires(c, n, k - 1), Reported(c, n, language, k - 1)), k - 1);
    }
  }

  /** The issues come in check order, one per kind at most, so there are
   *  at most nine and no fabricated-claims entry. */
  lemma IssuesOrdered(c: Checks, n: nat, language: string)
    ensures var issues := IssuesFrom(c, n, language);
      RanksIncrease(issues) && |issues| <= 9
      && forall a :: 0 <= a < |issues| ==> Rank(issues[a]) < 9
  {
    IssuesUpToOrdered(c, n, language, CheckCount);
  }

  /** The score lies in [0, 1], drops 0.15 per issue, reaches 0 exactly
   *  from seven issues on, and the response passes iff there is no issue. */
  lemma ScoreBounds(response: string, context: string, sources: seq<Doc>, language: string)
    ensures var v := ValidationOf(response, context, sources, language);
      && 0.0 <= v.score <= 1.0
      && (v.passed <==> v.issues == [])
      && (v.passed ==> v.score == 1.0)
      && (v.score == 0.0 <==> |v.issues| >= 7)
      && (|v.issues| < 7 ==> v.score == 1.0 - (|v.issues| as real) * 0.15)
  {
  }

  /** A response of white space only, the empty one included, is too
   *  short and, with no words at all, out of language. */
  lemma BlankResponseIssues(response: string, context: string, sources: seq<Doc>, language: string)
    requires AllSpaces(response)
    ensures var issues := ExpectedIssues(response, context, sources, language);
      TooShort in issues && WrongLanguage(language) in issues
  {
    StripDef(response);
    BlankDropSpaces(response);
    assert TooShortCheck(response);
    assert AllSpaces(Lower(response));
    SplitSpaces(Lower(response));
    assert LanguageCheck(response);
    var c := Measure(response, context);
    TooShortKind(c, |sources|, language);
    WrongLanguageKind(c, |sources|, language);
  }

  /** The phrases with an upper-case "I" are compared with the lowercased
   *  response and so are never reported. */
  lemma UppercasePhrasesNeverFound(response: string)
    ensures var found := FoundPhrases(Lower(response), HallucinationPhrases);
      forall p :: p in found ==> p in ["in my knowledge", "in my experience", "probably without"]
  {
    FoundPhrasesMembers(Lower(response), HallucinationPhrases);
    LowerNeverContainsUpper(response, HallucinationPhrases[1], 10);
    LowerNeverContainsUpper(response, HallucinationPhrases[3], 0);
    LowerNeverContainsUpper(response, HallucinationPhrases[4], 0);
  }

  /** A citation "[0]" is always phantom: source numbers start at 1. */
  lemma ZeroIsPhantom(response: string, context: string, sources: seq<Doc>, language: string, i: nat)
    requires sources != [] && i + 2 < |response|
    requires response[i] == '[' && response[i + 1] == '0' && response[i + 2] == ']'
    ensures exists p :: PhantomCitations(p) in ExpectedIssues(response, context, sources, language) && 0 in p
  {
    assert TokenAt(response, i, i + 2);
    assert response[i + 1..i + 2] == "0";
    assert DigitsValue("0") == 0 by {
      assert "0"[..0] == [];
    }
    CitationsComplete(response, i, i + 2);
    var c := Measure(response, context);
    assert 0 in c.citations;
    PhantomMembers(c.citations, |sources|);
    assert 0 in PhantomSet(c.citations, |sources|);
    HasPhantomNonEmpty(c.citations, |sources|);
    PhantomCitationsKind(c, |sources|, language);
    assert PhantomCitations(PhantomSet(c.citations, |sources|)) in ExpectedIssues(response, context, sources, language);
  }

  /** "[1][1]" holds the citation 1 twice. */
  lemma RepeatedCitationScan()
    ensures Citations("[1][1]") == [1, 1]
  {
    var s := "[1][1]";
    assert DigitRunLength(s, 1) == 1 by {
      assert DigitRunLength(s, 2) == 0;
    }
    assert DigitRunLength(s, 4) == 1 by {
      assert DigitRunLength(s, 5) == 0;
    }
    assert s[1..2] == "1" && s[4..5] == "1";
    assert DigitsValue("1") == 1 by {
      assert "1"[..0] == [];
    }
    assert CitationsFrom(s, 6) == [];
    assert CitationsFrom(s, 3) == [1];
  }

  /** The count keeps repeated citations while coverage uses their set:
   *  one source cited twice, as in "[1][1]", counts 2 and leaves nothing
   *  unused. */
  lemma RepeatedCitation(response: string, context: string, sources: seq<Doc>, language: string)
    requires Citations(response) == [1, 1] && |sources| == 1
    ensures ValidationOf(response, context, sources, language).inlineCitationsCount == 2
    ensures forall u :: UnusedSources(u) !in ExpectedIssues(response, context, sources, language)
  {
    var c := Measure(response, context);
    assert !HasUncited(c.citations, 1);
    UnusedSourcesKind(c, |sources|, language);
  }

  // ---------------------------------------------------------------
  // Fabricated claims

  /** The regular expressions of the claim markers, as "pattern occurs"
   *  predicates over the lowercased response. */
  datatype Pattern =
    | AmountThen(symbol: string)          // \d+[\s]*SYMBOL
    | DigitThen(suffix: string)           // \d+SUFFIX
    | WordThenDigits(word: string, count: nat)  // WORD\d{count}
    | WordThenDigit(word: string)         // WORD.*\d+  ('.' stops at a newline)

  predicate MatchAt(p: Pattern, s: string, i: int) {
    match p
    case AmountThen(symbol) =>
      0 <= i < |s| && IsDigit(s[i])
      && exists j | i < j <= |s| :: (forall k | i < k < j :: IsSpace(s[k])) && OccursAt(s, symbol, j)
    case DigitThen(suffix) =>
      0 <= i < |s| && IsDigit(s[i]) && OccursAt(s, suffix, i + 1)
    case WordThenDigits(word, count) =>
      OccursAt(s, word, i) && i + |word| + count <= |s|
      && forall k | i + |word| <= k < i + |word| + count :: IsDigit(s[k])
    case WordThenDigit(word) =>
      OccursAt(s, word, i)
      && exists j | i + |word| <= j < |s| :: IsDigit(s[j]) && forall k | i + |word| <= k < j :: s[k] != '\n'
  }

  predicate Occurs(p: Pattern, s: string) {
    exists i | 0 <= i <= |s| :: MatchAt(p, s, i)
  }

  /** guardrails.py writes the euro sign as the UTF-8 bytes of "€" read
   *  back as Windows-1252; prompts.py writes "€" itself. */
  const Euro := "€"
  const MisdecodedEuro := "â‚¬"

  function ClaimMarkers(euro: string): seq<(Pattern, string)> {
    [(AmountThen(euro), "specific price in euros"),
     (AmountThen("$"), "specific price in dollars"),
     (WordThenDigits("founded in ", 4), "founding year"),
     (WordThenDigit("costs"), "cost statement"),
     (WordThenDigit("price"), "price statement"),
     (DigitThen(" employees"), "employee count"),
     (DigitThen("% of"), "specific percentage")]
  }

  /** The claim types whose pattern occurs in s, in marker order. */
  function MatchedClaims(markers: seq<(Pattern, string)>, s: string): (r: seq<string>)
    ensures |r| <= |markers|
  {
    if markers == [] then []
    else (if Occurs(markers[0].0, s) then [markers[0].1] else []) + MatchedClaims(markers[1..], s)
  }

  /** The loop over the claim markers. */
  method ScanMarkers(markers: seq<(Pattern, string)>, lowered: string) returns (claims: seq<string>)
    ensures claims == MatchedClaims(markers, lowered)
  {
    claims := [];
    var k := 0;
    while k < |markers|
      invariant 0 <= k <= |markers|
      invariant claims + MatchedClaims(markers[k..], lowered) == MatchedClaims(markers, lowered)
    {
      assert markers[k..][1..] == markers[k + 1..];
      if Occurs(markers[k].0, lowered) {
        claims := claims + [markers[k].1];
      }
      k := k + 1;
    }
    assert markers[k..] == [];
  }

  /** detect_fabricated_claims: one entry per matching pattern, at most
   *  seven. */
  method DetectFabricatedClaims(response: string, euro: string) returns (claims: seq<string>)
    ensures claims == MatchedClaims(ClaimMarkers(euro), Lower(response))
    ensures |claims| <= 7
  {
    claims := ScanMarkers(ClaimMarkers(euro), Lower(response));
  }

  /** A claim type is reported iff its pattern occurs, and each type at
   *  most once. */
  lemma {:induction false} MatchedClaimsExact(markers: seq<(Pattern, string)>, s: string, t: string)
    ensures t in MatchedClaims(markers, s) <==> exists k :: 0 <= k < |markers| && markers[k].1 == t && Occurs(markers[k].0, s)
  {
    if markers != [] {
      MatchedClaimsExact(markers[1..], s, t);
      if t in MatchedClaims(markers[1..], s) {
        var k :| 0 <= k < |markers[1..]| && markers[1..][k].1 == t && Occurs(markers[1..][k].0, s);
        assert markers[k + 1] == markers[1..][k];
      }
      forall k | 1 <= k < |markers| && markers[k].1 == t && Occurs(markers[k].0, s)
        ensures t in MatchedClaims(markers[1..], s)
      {
        assert markers[1..][k - 1] == markers[k];
      }
    }
  }

  lemma PatternReported(markers: seq<(Pattern, string)>, s: string, k: nat)
    requires k < |markers| && Occurs(markers[k].0, s)
    ensures markers[k].1 in MatchedClaims(markers, s)
  {
    MatchedClaimsExact(markers, s, markers[k].1);
  }

  /** No claim is reported iff no pattern occurs. */
  lemma {:induction false} MatchedClaimsEmpty(markers: seq<(Pattern, string)>, s: string)
    ensures MatchedClaims(markers, s) == [] <==> forall k :: 0 <= k < |markers| ==> !Occurs(markers[k].0, s)
  {
    if markers != [] {
      MatchedClaimsEmpty(markers[1..], s);
      assert forall k :: 1 <= k < |markers| ==> markers[k] == markers[1..][k - 1];
    }
  }

  /** With "€" the live copy flags an amount in euros. */
  lemma EuroAmountOccurs(s: string, i: nat)
    requires i + 1 < |s| && IsDigit(s[i]) && s[i + 1] == '€'
    ensures Occurs(AmountThen(Euro), s)
  {
    assert OccursAt(s, Euro, i + 1) by {
      assert s[i + 1..i + 2] == [s[i + 1]];
    }
    assert MatchAt(AmountThen(Euro), s, i);
  }

  lemma EuroAmountDetected(s: string, i: nat)
    requires i + 1 < |s| && IsDigit(s[i]) && s[i + 1] == '€'
    ensures "specific price in euros" in MatchedClaims(ClaimMarkers(Euro), s)
  {
    EuroAmountOccurs(s, i);
    PatternReported(ClaimMarkers(Euro), s, 0);
  }

  /** With the misdecoded symbol, a text with no "â" never matches the
   *  euro pattern, so "70€" goes unflagged. */
  lemma MisdecodedEuroMissed(s: string)
    requires forall k :: 0 <= k < |s| ==> s[k] != 'â'
    ensures !Occurs(AmountThen(MisdecodedEuro), s)
  {
    forall j | 0 <= j <= |s| ensures !OccursAt(s, MisdecodedEuro, j) {
      if j + 3 <= |s| {
        assert s[j..j + 3][0] == s[j];
      }
    }
  }

  lemma SeventyEuros()
    ensures Occurs(AmountThen(Euro), Lower("70€"))
    ensures !Occurs(AmountThen(MisdecodedEuro), Lower("70€"))
  {
    var s := Lower("70€");
    assert s == "70€";
    EuroAmountOccurs(s, 1);
    MisdecodedEuroMissed(s);
  }
}

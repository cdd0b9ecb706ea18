// The prompt optimizer: it analyses the question, augments short
// follow-ups, assembles the prompt and layers the fabricated-claim check
// over the guardrail validation. prompts.py (the copy the chain uses)
// and optimizer.py carry the same logic; they differ in the prompt copy
// they assemble and in the euro symbol their validator looks for.

module Optimizer {
  import opened Records
  import opened PyText
  import opened QueryAnalysis
  import opened PromptTemplate
  import G = Guardrails

  /** The settings fixed at construction. */
  datatype PromptOptimizer = PromptOptimizer(
    useFewShot: bool, validateOutput: bool, autoAugment: bool, copy: Copy, texts: PromptTexts)

  /** The analysis metadata returned next to the prompt. */
  datatype PromptMetadata = PromptMetadata(
    language: string, complexity: Complexity, originalQuestion: string,
    augmentedQuestion: Option<string>, wasAugmented: bool, promptLength: nat)

  /** The string a complexity class is passed on as. */
  function ComplexityName(c: Complexity): string {
    match c
    case Simple => "simple"
    case Moderate => "moderate"
    case Complex => "complex"
  }

  /** The question that goes into the prompt: augmentation is attempted
   *  only when enabled and a non-empty history list is given. */
  function AskedQuestion(opt: PromptOptimizer, question: string, turns: seq<Turn>): (string, bool) {
    if opt.autoAugment && turns != [] then AugmentShortQuery(question, turns) else (question, false)
  }

  /** create_prompt: the language and the complexity are taken from the
   *  question as asked, before any augmentation. */
  function CreatePrompt(opt: PromptOptimizer, context: string, history: string, question: string,
                        turns: seq<Turn>): (r: (string, PromptMetadata))
    ensures r.1.promptLength == |r.0|
    ensures r.1.originalQuestion == question
    ensures r.1.augmentedQuestion.Some? <==> r.1.wasAugmented
  {
    var language := DetectLanguage(question);
    var complexity := ClassifyComplexity(question);
    var (asked, augmented) := AskedQuestion(opt, question, turns);
    var prompt := FullPrompt(opt.copy, opt.texts, context, history, asked, language,
                             ComplexityName(complexity), opt.useFewShot);
    (prompt, PromptMetadata(language, complexity, question,
                            if augmented then Some(asked) else None, augmented, |prompt|))
  }

  /** The question used in the prompt is the augmented one when the
   *  metadata says so, and the original one otherwise. */
  function PromptQuestion(m: PromptMetadata): string {
    if m.wasAugmented && m.augmentedQuestion.Some? then m.augmentedQuestion.value else m.originalQuestion
  }

  /** Augmentation happens exactly when it is enabled, a history is given,
   *  the question has at most two words and the last answer names a
   *  topic; the prompt question is then the original plus that topic's
   *  phrase, and otherwise the original itself. */
  lemma AugmentationGate(opt: PromptOptimizer, context: string, history: string, question: string,
                         turns: seq<Turn>)
    ensures var m := CreatePrompt(opt, context, history, question, turns).1;
      && (m.wasAugmented <==>
           (opt.autoAugment && turns != [] && |Split(question)| <= 2
            && exists k :: 0 <= k < |Topics| && Contains(LastAnswer(turns), Lower(Topics[k].0))))
      && (m.wasAugmented ==>
           PromptQuestion(m) == question + " " + Topics[FirstTopic(LastAnswer(turns), Topics)].1)
      && (!m.wasAugmented ==> PromptQuestion(m) == question && m.augmentedQuestion == None)
  {
  }

  /** The prompt is the full prompt of the configured copy for the prompt
   *  question, in English, with the few-shot block when configured, and
   *  the complexity is that of the question as asked. */
  lemma CreatePromptAssembles(opt: PromptOptimizer, context: string, history: string, question: string,
                              turns: seq<Turn>)
    ensures var (prompt, m) := CreatePrompt(opt, context, history, question, turns);
      && m.language == "en"
      && m.complexity == ClassifyComplexity(question)
      && prompt == FullPrompt(opt.copy, opt.texts, context, history, PromptQuestion(m), "en",
                              ComplexityName(m.complexity), opt.useFewShot)
  {
  }

  // ---------------------------------------------------------------
  // validate_response

  /** The euro symbol of the validator each copy calls: prompts.py writes
   *  the symbol itself, guardrails.py holds its misdecoded bytes. */
  function ClaimEuro(copy: Copy): string {
    match copy
    case LiveCopy => G.Euro
    case SplitCopy => G.MisdecodedEuro
  }

  const ClaimsPenalty: real := 0.3

  /** The result dictionary: the fixed answer when validation is off
   *  (carrying the `validation_skipped` key), or the validator's fields
   *  plus the fabricated claims. */
  datatype Report =
    | Skipped(passed: bool, issues: seq<G.Issue>, score: real, validationSkipped: bool)
    | Checked(passed: bool, issues: seq<G.Issue>, score: real,
              inlineCitationsCount: nat, hasFootnotes: bool, fabricatedClaims: seq<string>)
  {
    predicate HasFabricatedClaims() {
      Checked? && fabricatedClaims != []
    }
  }

  /** max(0.0, x) */
  function Floor0(x: real): real {
    if x > 0.0 then x else 0.0
  }

  /** The validator's result with the claims added: found claims append
   *  one issue, fail the response and take 0.3 off the score. */
  function WithClaims(v: G.Validation, claims: seq<string>): Report {
    if claims == [] then Checked(v.passed, v.issues, v.score, v.inlineCitationsCount, v.hasFootnotes, [])
    else Checked(false, v.issues + [G.FabricatedClaims(claims)], Floor0(v.score - ClaimsPenalty),
                 v.inlineCitationsCount, v.hasFootnotes, claims)
  }

  function ClaimsOf(opt: PromptOptimizer, response: string): seq<string> {
    G.MatchedClaims(G.ClaimMarkers(ClaimEuro(opt.copy)), Lower(response))
  }

  function ReportOf(opt: PromptOptimizer, response: string, context: string, sources: seq<Doc>,
                    language: string): Report
  {
    if !opt.validateOutput then Skipped(true, [], 1.0, true)
    else WithClaims(G.ValidationOf(response, context, sources, language), ClaimsOf(opt, response))
  }

  /** validate_response: the result dictionary is updated in place when
   *  claims are found. */
  method ValidateResponse(opt: PromptOptimizer, response: string, context: string, sources: seq<Doc>,
                          language: string) returns (r: Report)
    ensures r == ReportOf(opt, response, context, sources, language)
  {
    if !opt.validateOutput {
      return Skipped(true, [], 1.0, true);
    }
    var validation := G.ValidateResponse(response, context, sources, language);
    var claims := G.DetectFabricatedClaims(response, ClaimEuro(opt.copy));
    r := AddClaims(validation, claims);
  }

  /** The update of the validation result when claims were found. */
  method AddClaims(validation: G.Validation, claims: seq<string>) returns (r: Report)
    ensures r == WithClaims(validation, claims)
  {
    var passed, issues, score := validation.passed, validation.issues, validation.score;
    if claims != [] {
      issues := issues + [G.FabricatedClaims(claims)];
      passed := false;
      score := Floor0(score - ClaimsPenalty);
    }
    r := Checked(passed, issues, score, validation.inlineCitationsCount, validation.hasFootnotes, claims);
  }

  /** The validator's invariants on a result. */
  predicate Consistent(passed: bool, issues: seq<G.Issue>, score: real) {
    && (passed <==> issues == [])
    && 0.0 <= score <= 1.0
    && (passed ==> score == 1.0)
  }

  /** Adding the claims keeps the invariants, and leaves the result as it
   *  was when there are none. */
  lemma WithClaimsConsistent(v: G.Validation, claims: seq<string>)
    requires Consistent(v.passed, v.issues, v.score)
    ensures var r := WithClaims(v, claims);
      && Consistent(r.passed, r.issues, r.score)
      && (claims == [] ==> r.passed == v.passed && r.issues == v.issues && r.score == v.score)
      && (r.HasFabricatedClaims() <==> claims != [])
  {
  }

  /** Every report keeps the validator's invariants: it passes iff it has
   *  no issue, its score lies in [0, 1], and a passing report scores 1. */
  lemma ReportInvariant(opt: PromptOptimizer, response: string, context: string, sources: seq<Doc>,
                        language: string)
    ensures var r := ReportOf(opt, response, context, sources, language);
      Consistent(r.passed, r.issues, r.score)
  {
    if opt.validateOutput {
      G.ScoreBounds(response, context, sources, language);
      WithClaimsConsistent(G.ValidationOf(response, context, sources, language), ClaimsOf(opt, response));
    }
  }

  /** With validation off nothing is checked and the fixed passing answer
   *  comes back; with it on, no claims leave the validator's result as it
   *  was. */
  lemma ReportWithoutClaims(opt: PromptOptimizer, response: string, context: string, sources: seq<Doc>,
                            language: string)
    ensures var r := ReportOf(opt, response, context, sources, language);
      && (!opt.validateOutput ==> r == Skipped(true, [], 1.0, true))
      && (opt.validateOutput && ClaimsOf(opt, response) == [] ==>
            var v := G.ValidationOf(response, context, sources, language);
            r.Checked? && r.passed == v.passed && r.issues == v.issues && r.score == v.score
            && !r.HasFabricatedClaims())
  {
  }

  /** Claims add exactly one issue, after the validator's, which come in
   *  check order and never include a claims entry. */
  lemma WithClaimsAppends(v: G.Validation, claims: seq<string>)
    requires claims != []
    requires G.RanksIncrease(v.issues) && forall a :: 0 <= a < |v.issues| ==> G.Rank(v.issues[a]) < 9
    ensures var r := WithClaims(v, claims);
      && r.HasFabricatedClaims() && !r.passed && r.fabricatedClaims == claims
      && |r.issues| == |v.issues| + 1
      && r.issues[..|v.issues|] == v.issues
      && r.issues[|v.issues|] == G.FabricatedClaims(claims)
      && G.RanksIncrease(r.issues)
      && (forall a :: 0 <= a < |r.issues| - 1 ==> !r.issues[a].FabricatedClaims?)
  {
    var r := WithClaims(v, claims);
    assert r.issues == v.issues + [G.FabricatedClaims(claims)];
    assert r.issues[..|v.issues|] == v.issues;
    forall a | 0 <= a < |r.issues| - 1 ensures !r.issues[a].FabricatedClaims? {
      assert r.issues[a] == v.issues[a];
    }
  }

  /** Found claims add exactly one issue, placed last and after all the
   *  validator's kinds, and the response no longer passes. */
  lemma ClaimsAppendOneIssue(opt: PromptOptimizer, response: string, context: string, sources: seq<Doc>,
                             language: string)
    requires opt.validateOutput && ClaimsOf(opt, response) != []
    ensures var r := ReportOf(opt, response, context, sources, language);
      var v := G.ValidationOf(response, context, sources, language);
      && r.HasFabricatedClaims() && !r.passed
      && |r.issues| == |v.issues| + 1
      && r.issues[..|v.issues|] == v.issues
      && r.issues[|v.issues|] == G.FabricatedClaims(r.fabricatedClaims)
      && G.RanksIncrease(r.issues)
      && (forall a :: 0 <= a < |r.issues| - 1 ==> !r.issues[a].FabricatedClaims?)
  {
    G.IssuesOrdered(G.Measure(response, context), |sources|, language);
    WithClaimsAppends(G.ValidationOf(response, context, sources, language), ClaimsOf(opt, response));
  }

  /** The claims entry costs 0.3 rather than the 0.15 of the other
   *  issues: while the score stays positive it is 0.15 below what the
   *  issue count alone would give. */
  lemma ClaimsPenaltyDoubled(opt: PromptOptimizer, response: string, context: string, sources: seq<Doc>,
                             language: string)
    requires opt.validateOutput && ClaimsOf(opt, response) != []
    requires |G.ValidationOf(response, context, sources, language).issues| <= 4
    ensures var r := ReportOf(opt, response, context, sources, language);
      r.score == G.Score(|r.issues|) - 0.15
  {
    G.ScoreBounds(response, context, sources, language);
  }

  /** The claims reported are the claim types whose pattern occurs in the
   *  lowercased response, at most seven. */
  lemma ReportedClaims(opt: PromptOptimizer, response: string, context: string, sources: seq<Doc>,
                       language: string, t: string)
    requires opt.validateOutput
    ensures var r := ReportOf(opt, response, context, sources, language);
      var markers := G.ClaimMarkers(ClaimEuro(opt.copy));
      && r.Checked? && |r.fabricatedClaims| <= 7
      && (t in r.fabricatedClaims <==>
           exists k :: 0 <= k < |markers| && markers[k].1 == t && G.Occurs(markers[k].0, Lower(response)))
  {
    G.MatchedClaimsExact(G.ClaimMarkers(ClaimEuro(opt.copy)), Lower(response), t);
  }

  /** The live copy fails a response that quotes a price in euros. */
  lemma LiveCopyFlagsEuroPrice(opt: PromptOptimizer, response: string, context: string, sources: seq<Doc>,
                               language: string, i: nat)
    requires opt.validateOutput && opt.copy == LiveCopy
    requires i + 1 < |response| && IsDigit(response[i]) && response[i + 1] == '€'
    ensures var r := ReportOf(opt, response, context, sources, language);
      !r.passed && "specific price in euros" in r.fabricatedClaims
  {
    var s := Lower(response);
    assert s[i] == response[i] && s[i + 1] == response[i + 1];
    G.EuroAmountDetected(s, i);
  }

  /** The split copy lets the same price through: unless the response has
   *  an "â", its euro pattern never matches (Python would also map "Â" to
   *  "â"; lowercasing here is ASCII only). */
  lemma SplitCopyMissesEuroPrice(opt: PromptOptimizer, response: string)
    requires opt.copy == SplitCopy
    requires forall k :: 0 <= k < |response| ==> response[k] != 'â'
    ensures "specific price in euros" !in ClaimsOf(opt, response)
  {
    var s := Lower(response);
    var markers := G.ClaimMarkers(G.MisdecodedEuro);
    G.MisdecodedEuroMissed(s);
    G.MatchedClaimsExact(markers, s, "specific price in euros");
    forall k | 0 <= k < |markers| && markers[k].1 == "specific price in euros"
      ensures k == 0
    {
      assert markers[1].1 == "specific price in dollars";
    }
  }
}

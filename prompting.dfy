// Prompt assembly: the system prompt, the numbered few-shot examples and
// the full prompt with its fixed section order. Two copies exist: the one
// in prompts.py that the chain imports (LiveCopy) and the split module
// prompt_template.py (SplitCopy). Their long instruction texts and example
// lists differ and are kept abstract as PromptTexts. Every f-string is
// modelled as the concatenation of its literal and interpolated parts.

module PromptTemplate {
  import opened PyText

  datatype FewShotExample = FewShotExample(
    name: string, context: string, question: string,
    goodResponse: string, badResponse: string, reason: string)

  /** META_INSTRUCTIONS, DOMAIN_KNOWLEDGE, TASK_INSTRUCTIONS_EN and
   *  FEW_SHOT_EXAMPLES of one copy. */
  datatype PromptTexts = PromptTexts(meta: string, domain: string, task: string, examples: seq<FewShotExample>)

  datatype Copy = LiveCopy | SplitCopy

  /** The example caption: prompts.py switches to "Ejemplo" for a language
   *  other than "en"; prompt_template.py always says "Example". */
  function ExampleLabel(copy: Copy, language: string): (r: string)
    ensures copy == SplitCopy ==> r == "Example"
    ensures copy == LiveCopy ==> (r == "Example" <==> language == "en")
  {
    if copy == SplitCopy || language == "en" then "Example" else "Ejemplo"
  }

  /** The three instruction texts separated by blank lines. */
  function SystemPrompt(texts: PromptTexts, language: string, complexity: string): string {
    texts.meta + "\n\n" + texts.domain + "\n\n" + texts.task
  }

  /** Neither the language nor the query complexity changes the system
   *  prompt, and it holds the three texts and two blank-line separators. */
  lemma SystemPromptIndependent(texts: PromptTexts, l1: string, c1: string, l2: string, c2: string)
    ensures SystemPrompt(texts, l1, c1) == SystemPrompt(texts, l2, c2)
    ensures |SystemPrompt(texts, l1, c1)| == |texts.meta| + |texts.domain| + |texts.task| + 4
    ensures StartsWith(SystemPrompt(texts, l1, c1), texts.meta)
  {
    var s := SystemPrompt(texts, l1, c1);
    assert s == texts.meta + ("\n\n" + texts.domain + "\n\n" + texts.task);
    StartsWithAppend(texts.meta, "\n\n" + texts.domain + "\n\n" + texts.task);
  }

  /** The heading line that opens example number i. */
  function ExampleHeading(caption: string, i: int): string {
    "\n**" + caption + " " + IntToString(i) + "**"
  }

  function ExampleParts(caption: string, i: int, ex: FewShotExample): seq<string> {
    [ExampleHeading(caption, i), " - ", ex.name, ":\n\nAvailable context:\n", Strip(ex.context),
     "\n\nQuestion: ", ex.question,
     "\n\n✅ **Correct answer**:\n", Strip(ex.goodResponse),
     "\n\n❌ **Incorrect answer (do NOT do this)**:\n", Strip(ex.badResponse),
     "\nReason: ", ex.reason, "\n"]
  }

  function ExampleBlock(caption: string, i: int, ex: FewShotExample): string {
    Concat(ExampleParts(caption, i, ex))
  }

  /** The formatted examples, numbered from 1 in list order. */
  function ExampleBlocks(caption: string, exs: seq<FewShotExample>): (r: seq<string>)
    ensures |r| == |exs|
    ensures forall k :: 0 <= k < |exs| ==> r[k] == ExampleBlock(caption, k + 1, exs[k])
  {
    seq(|exs|, (k: int) requires 0 <= k < |exs| => ExampleBlock(caption, k + 1, exs[k]))
  }

  function FewShotText(copy: Copy, language: string, exs: seq<FewShotExample>): string {
    Join("\n", ExampleBlocks(ExampleLabel(copy, language), exs))
  }

  /** Block k (0-based) opens with the heading numbered k + 1, so the
   *  numbers used are exactly 1..|exs| in list order, and its trimmed
   *  good and bad answers appear in it. */
  lemma ExampleNumbering(caption: string, exs: seq<FewShotExample>, k: nat)
    requires k < |exs|
    ensures StartsWith(ExampleBlocks(caption, exs)[k], ExampleHeading(caption, k + 1))
  {
    var parts := ExampleParts(caption, k + 1, exs[k]);
    ConcatSuffix(parts, 0);
    assert parts[..0] == [];
    assert parts[0] == ExampleHeading(caption, k + 1);
    StartsWithAppend(parts[0], Concat(parts[1..]));
  }

  /** format_few_shot_examples: a loop appends one formatted block per
   *  example, then the blocks are joined with newlines. */
  method FormatFewShotExamples(copy: Copy, language: string, exs: seq<FewShotExample>) returns (r: string)
    ensures r == FewShotText(copy, language, exs)
  {
    var caption := if copy == LiveCopy && language != "en" then "Ejemplo" else "Example";
    var formatted: seq<string> := [];
    var i := 0;
    while i < |exs|
      invariant 0 <= i <= |exs|
      invariant |formatted| == i
      invariant forall j :: 0 <= j < i ==> formatted[j] == ExampleBlock(caption, j + 1, exs[j])
    {
      formatted := formatted + [ExampleBlock(caption, i + 1, exs[i])];
      i := i + 1;
    }
    assert caption == ExampleLabel(copy, language);
    assert formatted == ExampleBlocks(caption, exs);
    r := Join("\n", formatted);
  }

  // ---------------------------------------------------------------
  // The full prompt

  const FewShotHeader := "\n# EXAMPLE ANSWERS (Learn from these)\n"
  const ContextIntro := "The following sources were retrieved for your query (ordered by relevance):"
  const ContextHeader := "\n# RETRIEVED CONTEXT\n" + ContextIntro + "\n\n"
  const HistoryHeader := "\n\n---\n\n# CONVERSATION HISTORY\n"
  const QuestionHeader := "\n\n---\n\n# USER QUESTION\n"
  const ResponseFooter :=
    "\n\n---\n\n# YOUR RESPONSE\nProvide a well-structured, cited answer following the instructions above:"
  const NoHistory := "No prior conversation."

  /** The few-shot block is empty unless requested. */
  function FewShotSection(withExamples: bool, fewShot: string): (r: string)
    ensures !withExamples <==> r == ""
    ensures withExamples ==> StartsWith(r, FewShotHeader)
  {
    if withExamples then
      StartsWithAppend(FewShotHeader, fewShot + "\n\n---\n");
      assert FewShotHeader + fewShot + "\n\n---\n" == FewShotHeader + (fewShot + "\n\n---\n");
      FewShotHeader + fewShot + "\n\n---\n"
    else ""
  }

  /** An empty history string is replaced by the fixed placeholder. */
  function HistoryText(history: string): (r: string)
    ensures r != []
    ensures history != [] ==> r == history
    ensures history == [] ==> r == NoHistory
  {
    if history == "" then NoHistory else history
  }

  /** The user-facing sections in order: few-shot block, context,
   *  history, question, response cue. */
  function UserParts(copy: Copy, texts: PromptTexts, context: string, history: string, question: string,
                     language: string, withExamples: bool): seq<string>
  {
    [FewShotSection(withExamples, FewShotText(copy, language, texts.examples)),
     ContextHeader, context, HistoryHeader, HistoryText(history), QuestionHeader, question, ResponseFooter]
  }

  /** The whole prompt: system prompt, a blank line, then the user parts. */
  function PromptParts(copy: Copy, texts: PromptTexts, context: string, history: string, question: string,
                       language: string, complexity: string, withExamples: bool): seq<string>
  {
    [SystemPrompt(texts, language, complexity), "\n\n"]
    + UserParts(copy, texts, context, history, question, language, withExamples)
  }

  /** prompts.py: the whole prompt is one f-string. */
  function LiveFullPrompt(texts: PromptTexts, context: string, history: string, question: string,
                          language: string, complexity: string, withExamples: bool): string
  {
    Concat(PromptParts(LiveCopy, texts, context, history, question, language, complexity, withExamples))
  }

  /** prompt_template.py: create_user_prompt. */
  function SplitUserPrompt(texts: PromptTexts, context: string, history: string, question: string,
                           language: string, complexity: string, withExamples: bool): string
  {
    Concat(UserParts(SplitCopy, texts, context, history, question, language, withExamples))
  }

  /** prompt_template.py: create_full_prompt is system prompt, a blank
   *  line, then the user prompt. */
  function SplitFullPrompt(texts: PromptTexts, context: string, history: string, question: string,
                           language: string, complexity: string, withExamples: bool): string
  {
    SystemPrompt(texts, language, complexity) + "\n\n"
    + SplitUserPrompt(texts, context, history, question, language, complexity, withExamples)
  }

  function FullPrompt(copy: Copy, texts: PromptTexts, context: string, history: string, question: string,
                      language: string, complexity: string, withExamples: bool): string
  {
    match copy
    case LiveCopy => LiveFullPrompt(texts, context, history, question, language, complexity, withExamples)
    case SplitCopy => SplitFullPrompt(texts, context, history, question, language, complexity, withExamples)
  }

  lemma ConcatTwoThen(a: string, b: string, u: seq<string>)
    ensures Concat([a, b] + u) == a + b + Concat(u)
  {
    var parts := [a, b] + u;
    ConcatSplit(parts, 2);
    assert parts[..2] == [a, b];
    assert parts[2..] == u;
    assert Concat([a, b]) == a + Concat([b]);
    assert Concat([b]) == b + Concat([]);
  }

  /** Both copies build the same sequence of parts. */
  lemma FullPromptParts(copy: Copy, texts: PromptTexts, context: string, history: string, question: string,
                        language: string, complexity: string, withExamples: bool)
    ensures FullPrompt(copy, texts, context, history, question, language, complexity, withExamples)
         == Concat(PromptParts(copy, texts, context, history, question, language, complexity, withExamples))
  {
    if copy == SplitCopy {
      ConcatTwoThen(SystemPrompt(texts, language, complexity), "\n\n",
                    UserParts(SplitCopy, texts, context, history, question, language, withExamples));
    }
  }

  /** With the same texts the two copies build the same prompt in English;
   *  they differ only in the example caption for other languages. */
  lemma CopiesAgreeInEnglish(texts: PromptTexts, context: string, history: string, question: string,
                             complexity: string, withExamples: bool)
    ensures FullPrompt(LiveCopy, texts, context, history, question, "en", complexity, withExamples)
         == FullPrompt(SplitCopy, texts, context, history, question, "en", complexity, withExamples)
  {
    FullPromptParts(LiveCopy, texts, context, history, question, "en", complexity, withExamples);
    FullPromptParts(SplitCopy, texts, context, history, question, "en", complexity, withExamples);
    assert ExampleLabel(LiveCopy, "en") == ExampleLabel(SplitCopy, "en");
    assert FewShotText(LiveCopy, "en", texts.examples) == FewShotText(SplitCopy, "en", texts.examples);
  }

  /** Where part k of the prompt starts. */
  function PartOffset(parts: seq<string>, k: nat): nat
    requires k <= |parts|
  {
    |Concat(parts[..k])|
  }

  /** Each part of a concatenation sits unchanged at its offset and the
   *  parts do not overlap. */
  lemma ConcatLayout(parts: seq<string>)
    ensures PartOffset(parts, |parts|) == |Concat(parts)|
    ensures forall k :: 0 <= k < |parts| ==>
      PartOffset(parts, k) + |parts[k]| <= |Concat(parts)|
      && Concat(parts)[PartOffset(parts, k)..PartOffset(parts, k) + |parts[k]|] == parts[k]
    ensures forall j, k :: 0 <= j < k <= |parts| ==> PartOffset(parts, j) + |parts[j]| <= PartOffset(parts, k)
  {
    assert parts[..|parts|] == parts;
    forall k | 0 <= k < |parts|
      ensures PartOffset(parts, k) + |parts[k]| <= |Concat(parts)|
      ensures Concat(parts)[PartOffset(parts, k)..PartOffset(parts, k) + |parts[k]|] == parts[k]
    {
      ConcatPart(parts, k);
    }
    forall j, k | 0 <= j < k <= |parts|
      ensures PartOffset(parts, j) + |parts[j]| <= PartOffset(parts, k)
    {
      ConcatOrdered(parts, j, k);
    }
  }

  /** The sections come in the fixed order system prompt, blank line,
   *  few-shot block (empty unless requested), context header, context,
   *  history header, history (or the placeholder), question header,
   *  question, response cue. */
  lemma PromptSections(copy: Copy, texts: PromptTexts, context: string, history: string, question: string,
                       language: string, complexity: string, withExamples: bool)
    ensures var parts := PromptParts(copy, texts, context, history, question, language, complexity, withExamples);
      && |parts| == 10
      && parts[0] == SystemPrompt(texts, language, complexity) && parts[1] == "\n\n"
      && parts[2] == FewShotSection(withExamples, FewShotText(copy, language, texts.examples))
      && parts[3] == ContextHeader && parts[4] == context
      && parts[5] == HistoryHeader && parts[6] == HistoryText(history)
      && parts[7] == QuestionHeader && parts[8] == question && parts[9] == ResponseFooter
  {
  }

  /** Each section sits unchanged at its offset in the full prompt, and
   *  the sections follow one another without overlapping. */
  lemma PromptLayout(copy: Copy, texts: PromptTexts, context: string, history: string, question: string,
                     language: string, complexity: string, withExamples: bool)
    ensures var r := FullPrompt(copy, texts, context, history, question, language, complexity, withExamples);
      var parts := PromptParts(copy, texts, context, history, question, language, complexity, withExamples);
      && PartOffset(parts, |parts|) == |r|
      && (forall k :: 0 <= k < |parts| ==>
            PartOffset(parts, k) + |parts[k]| <= |r| && r[PartOffset(parts, k)..PartOffset(parts, k) + |parts[k]|] == parts[k])
      && (forall j, k :: 0 <= j < k <= |parts| ==> PartOffset(parts, j) + |parts[j]| <= PartOffset(parts, k))
  {
    var parts := PromptParts(copy, texts, context, history, question, language, complexity, withExamples);
    FullPromptParts(copy, texts, context, history, question, language, complexity, withExamples);
    ConcatLayout(parts);
  }

  /** After the first two parts the concatenation goes on with the third,
   *  and with the fourth when the third is empty. */
  lemma ConcatThird(parts: seq<string>)
    requires |parts| >= 4
    ensures var o := |parts[0]| + |parts[1]|;
      && o <= |Concat(parts)|
      && Concat(parts)[o..] == parts[2] + Concat(parts[3..])
      && (parts[2] == "" ==> StartsWith(Concat(parts)[o..], parts[3]))
  {
    assert Concat(parts) == parts[0] + Concat(parts[1..]);
    assert parts[1..][1..] == parts[2..];
    assert Concat(parts[1..]) == parts[1] + Concat(parts[2..]);
    assert parts[2..][1..] == parts[3..];
    assert Concat(parts[2..]) == parts[2] + Concat(parts[3..]);
    assert parts[3..][1..] == parts[4..];
    assert Concat(parts[3..]) == parts[3] + Concat(parts[4..]);
    StartsWithAppend(parts[3], Concat(parts[4..]));
  }

  /** The text after the system prompt and its blank line is the few-shot
   *  section followed by the rest of the sections. */
  lemma AfterSystemPrompt(copy: Copy, texts: PromptTexts, context: string, history: string, question: string,
                          language: string, complexity: string, withExamples: bool)
    ensures var r := FullPrompt(copy, texts, context, history, question, language, complexity, withExamples);
      var parts := PromptParts(copy, texts, context, history, question, language, complexity, withExamples);
      var f := |SystemPrompt(texts, language, complexity)| + 2;
      && f <= |r|
      && r[f..] == FewShotSection(withExamples, FewShotText(copy, language, texts.examples)) + Concat(parts[3..])
      && (!withExamples ==> StartsWith(r[f..], ContextHeader))
  {
    var parts := PromptParts(copy, texts, context, history, question, language, complexity, withExamples);
    FullPromptParts(copy, texts, context, history, question, language, complexity, withExamples);
    PromptSections(copy, texts, context, history, question, language, complexity, withExamples);
    ConcatThird(parts);
  }

  /** The few-shot block is present exactly when requested: the text after
   *  the system prompt and its blank line opens with the few-shot header,
   *  or directly with the context header. */
  lemma FewShotPresence(copy: Copy, texts: PromptTexts, context: string, history: string, question: string,
                        language: string, complexity: string, withExamples: bool)
    ensures var r := FullPrompt(copy, texts, context, history, question, language, complexity, withExamples);
      var f := |SystemPrompt(texts, language, complexity)| + 2;
      && f <= |r|
      && (withExamples ==> StartsWith(r[f..], FewShotHeader))
      && (!withExamples ==> StartsWith(r[f..], ContextHeader))
  {
    AfterSystemPrompt(copy, texts, context, history, question, language, complexity, withExamples);
    var r := FullPrompt(copy, texts, context, history, question, language, complexity, withExamples);
    var f := |SystemPrompt(texts, language, complexity)| + 2;
    var parts := PromptParts(copy, texts, context, history, question, language, complexity, withExamples);
    var few := FewShotSection(withExamples, FewShotText(copy, language, texts.examples));
    if withExamples {
      StartsWithAppend(few, Concat(parts[3..]));
      StartsWithTrans(r[f..], few, FewShotHeader);
    }
  }
}

// The conversational RAG chain: retrieved documents are laid out in
// relevance tiers, the recent conversation is rendered, a prompt is built
// and sent to the language model, the answer is validated, remembered and
// cached, and the whole query is traced by the metrics collector.

module Chain {
  import opened Records
  import opened PyText
  import opened Cache
  import opened Metrics
  import opened Optimizer

  // ---------------------------------------------------------------
  // Relevance tiers

  /** d.get("similarity", 0) */
  function Sim(d: Doc): real {
    d.similarity.GetOr(0.0)
  }

  datatype Tier = High | Medium | Low

  /** The condition of each tier's list comprehension. */
  predicate Admits(t: Tier, s: real) {
    match t
    case High => s >= 0.75
    case Medium => 0.5 <= s < 0.75
    case Low => s < 0.5
  }

  /** The tier a similarity belongs to, by the two thresholds. */
  function TierOf(s: real): Tier {
    if s >= 0.75 then High else if s >= 0.5 then Medium else Low
  }

  /** The three conditions cover every similarity exactly once. */
  lemma AdmitsExactlyOne(t: Tier, s: real)
    ensures Admits(t, s) <==> t == TierOf(s)
  {
  }

  /** [d for d in docs if <condition of t>] */
  function Select(docs: seq<Doc>, t: Tier): (r: seq<Doc>)
    ensures |r| <= |docs|
    ensures forall k :: 0 <= k < |r| ==> TierOf(Sim(r[k])) == t
  {
    if docs == [] then []
    else
      AdmitsExactlyOne(t, Sim(docs[0]));
      (if Admits(t, Sim(docs[0])) then [docs[0]] else []) + Select(docs[1..], t)
  }

  /** Every retrieved document lands in exactly one tier list, and the
   *  three lists together hold the input documents. */
  lemma {:induction false} TiersPartition(docs: seq<Doc>)
    ensures |Select(docs, High)| + |Select(docs, Medium)| + |Select(docs, Low)| == |docs|
    ensures multiset(Select(docs, High)) + multiset(Select(docs, Medium)) + multiset(Select(docs, Low))
            == multiset(docs)
  {
    if docs != [] {
      TiersPartition(docs[1..]);
      var d := docs[0];
      AdmitsExactlyOne(High, Sim(d));
      AdmitsExactlyOne(Medium, Sim(d));
      AdmitsExactlyOne(Low, Sim(d));
      assert docs == [d] + docs[1..];
    }
  }

  /** The low tier is shown only when there are low documents and fewer
   *  than three high and medium ones together. */
  predicate LowShown(docs: seq<Doc>) {
    Select(docs, Low) != [] && |Select(docs, High)| + |Select(docs, Medium)| < 3
  }

  /** The documents that are listed as sources, in listing order. */
  function Included(docs: seq<Doc>): seq<Doc> {
    Select(docs, High) + Select(docs, Medium) + (if LowShown(docs) then Select(docs, Low) else [])
  }

  // ---------------------------------------------------------------
  // The context text

  /** The `{similarity:.1%}` formatting of a score. */
  type Percent = real -> string

  function Shown(pct: Percent, s: real): string {
    pct(s)
  }

  /** The fixed lines of the context: each tier's two heading lines and
   *  the six usage rules. */
  datatype Fixed = Heading(t: Tier) | Hint(t: Tier) | Rule(i: nat)

  function FixedText(f: Fixed): string {
    match f
    case Heading(High) => "## HIGH RELEVANCE SOURCES (Primary References)"
    case Hint(High) => "Use these sources for direct claims:\n"
    case Heading(Medium) => "\n## MEDIUM RELEVANCE SOURCES (Supportive Context)"
    case Hint(Medium) => "Use carefully and indicate medium confidence:\n"
    case Heading(Low) => "\n## LOW RELEVANCE SOURCES (Background Only)"
    case Hint(Low) => "DO NOT CITE DIRECTLY. Background use only:\n"
    case Rule(i) =>
      if i == 0 then "\n## SOURCE USAGE RULES:"
      else if i == 1 then "- Prioritize HIGH RELEVANCE for direct statements"
      else if i == 2 then "- Use MEDIUM RELEVANCE for supporting details; mark medium confidence"
      else if i == 3 then "- Use LOW RELEVANCE only for background, never for specific facts"
      else if i == 4 then
        "- If all sources have relevance < 35%, omit the 'Sources consulted' section and acknowledge lack of info"
      else "- Be clear about gaps and avoid speculation"
  }

  /** A line of the context: a fixed text, or the entry of one source
   *  with its number. */
  datatype Line = Text(f: Fixed) | Source(tier: Tier, number: nat, doc: Doc)

  const NoInformation := "No relevant information was found in the database."

  function Headings(t: Tier): seq<Line> {
    [Text(Heading(t)), Text(Hint(t))]
  }

  const Rules: seq<Line> := [Text(Rule(0)), Text(Rule(1)), Text(Rule(2)), Text(Rule(3)), Text(Rule(4)), Text(Rule(5))]

  /** content[:300] + "..." when longer than 300 characters. */
  function Truncated(c: string): (r: string)
    ensures |c| <= 300 ==> r == c
    ensures |c| > 300 ==> |r| == 303 && r[..300] == c[..300] && r[300..] == "..."
  {
    if |c| > 300 then c[..300] + "..." else c
  }

  /** What follows the percentage inside the parentheses. */
  function Label(t: Tier): string {
    match t
    case High => " match)"
    case Medium => " match - use with caution)"
    case Low => " - background only, do not cite)"
  }

  /** One source entry; low entries have no URL line and a truncated
   *  content. */
  function Entry(t: Tier, n: nat, d: Doc, pct: Percent): string {
    Concat(["[Source ", NatToString(n), "] (", Shown(pct, Sim(d)), Label(t), "\n",
            "Title: ", d.title, "\n",
            if t == Low then "" else "URL: " + d.url + "\n",
            "Content: ", if t == Low then Truncated(d.content) else d.content, "\n"])
  }

  function Render(l: Line, pct: Percent): string {
    match l
    case Text(f) => FixedText(f)
    case Source(t, n, d) => Entry(t, n, d, pct)
  }

  /** `f` applied to every element, in order. */
  function Map<A, B>(f: A -> B, s: seq<A>): (r: seq<B>)
    ensures |r| == |s|
    ensures forall k :: 0 <= k < |s| ==> r[k] == f(s[k])
  {
    seq(|s|, k requires 0 <= k < |s| => f(s[k]))
  }

  lemma MapAppend<A, B>(f: A -> B, a: seq<A>, b: seq<A>)
    ensures Map(f, a + b) == Map(f, a) + Map(f, b)
  {
    var r := Map(f, a) + Map(f, b);
    forall k | 0 <= k < |a + b| ensures Map(f, a + b)[k] == r[k] {
      if k < |a| {
        assert (a + b)[k] == a[k];
      } else {
        assert (a + b)[k] == b[k - |a|];
      }
    }
  }

  function RenderAll(lines: seq<Line>, pct: Percent): (r: seq<string>)
    ensures |r| == |lines|
  {
    Map(l => Render(l, pct), lines)
  }

  lemma RenderAppend(a: seq<Line>, b: seq<Line>, pct: Percent)
    ensures RenderAll(a + b, pct) == RenderAll(a, pct) + RenderAll(b, pct)
  {
    MapAppend(l => Render(l, pct), a, b);
  }

  /** The entries of `ds` numbered from `first`. */
  function Sources(t: Tier, ds: seq<Doc>, first: nat): (r: seq<Line>)
    ensures |r| == |ds|
  {
    seq(|ds|, k requires 0 <= k < |ds| => Source(t, first + k, ds[k]))
  }

  /** A tier's block: nothing when its list is empty, else its two
   *  heading lines and its entries. */
  function Block(t: Tier, ds: seq<Doc>, first: nat): seq<Line> {
    if ds == [] then [] else Headings(t) + Sources(t, ds, first)
  }

  /** The context lines: numbering continues from tier to tier, and the
   *  usage rules close the text. */
  function ContextLines(docs: seq<Doc>): seq<Line> {
    var h, m, l := Select(docs, High), Select(docs, Medium), Select(docs, Low);
    Block(High, h, 1) + Block(Medium, m, 1 + |h|) +
    (if LowShown(docs) then Block(Low, l, 1 + |h| + |m|) else []) + Rules
  }

  function ContextText(docs: seq<Doc>, pct: Percent): string {
    if docs == [] then NoInformation else Join("\n", RenderAll(ContextLines(docs), pct))
  }

  /** A listed source: its tier, its number and its document. */
  datatype Cited = Cited(tier: Tier, number: nat, doc: Doc)

  /** The source entries among some lines, in order. */
  function SourcesOf(lines: seq<Line>): seq<Cited> {
    if lines == [] then []
    else
      var last := lines[|lines| - 1];
      SourcesOf(lines[..|lines| - 1]) +
      (match last case Source(t, n, d) => [Cited(t, n, d)] case Text(_) => [])
  }

  lemma {:induction false} SourcesOfAppend(a: seq<Line>, b: seq<Line>)
    ensures SourcesOf(a + b) == SourcesOf(a) + SourcesOf(b)
    decreases |b|
  {
    if b != [] {
      var n := |b| - 1;
      assert (a + b)[..|a + b| - 1] == a + b[..n];
      assert (a + b)[|a + b| - 1] == b[n];
      SourcesOfAppend(a, b[..n]);
    } else {
      assert a + b == a;
    }
  }

  lemma {:induction false} SourcesOfSources(t: Tier, ds: seq<Doc>, first: nat)
    ensures SourcesOf(Sources(t, ds, first)) == seq(|ds|, k requires 0 <= k < |ds| => Cited(t, first + k, ds[k]))
    decreases |ds|
  {
    if ds != [] {
      var n := |ds| - 1;
      assert Sources(t, ds, first)[..n] == Sources(t, ds[..n], first);
      SourcesOfSources(t, ds[..n], first);
    }
  }

  predicate NoSources(lines: seq<Line>) {
    forall k :: 0 <= k < |lines| ==> lines[k].Text?
  }

  lemma {:induction false} SourcesOfTexts(lines: seq<Line>)
    requires NoSources(lines)
    ensures SourcesOf(lines) == []
    decreases |lines|
  {
    if lines != [] {
      SourcesOfTexts(lines[..|lines| - 1]);
    }
  }

  lemma SourcesOfBlock(t: Tier, ds: seq<Doc>, first: nat)
    ensures SourcesOf(Block(t, ds, first)) == seq(|ds|, k requires 0 <= k < |ds| => Cited(t, first + k, ds[k]))
  {
    SourcesOfSources(t, ds, first);
    if ds != [] {
      SourcesOfAppend(Headings(t), Sources(t, ds, first));
      SourcesOfTexts(Headings(t));
    }
  }

  /** Documents numbered from `first`, each under its own tier. */
  function Numbered(ds: seq<Doc>, first: nat): (r: seq<Cited>)
    ensures |r| == |ds|
  {
    seq(|ds|, k requires 0 <= k < |ds| => Cited(TierOf(Sim(ds[k])), first + k, ds[k]))
  }

  lemma NumberedAppend(a: seq<Doc>, b: seq<Doc>, first: nat)
    ensures Numbered(a + b, first) == Numbered(a, first) + Numbered(b, first + |a|)
  {
    assert forall k :: 0 <= k < |a + b| ==>
      Numbered(a + b, first)[k] == (Numbered(a, first) + Numbered(b, first + |a|))[k];
  }

  /** A tier block of one tier's documents lists them numbered from
   *  `first`. */
  lemma BlockNumbered(t: Tier, ds: seq<Doc>, first: nat)
    requires forall k :: 0 <= k < |ds| ==> TierOf(Sim(ds[k])) == t
    ensures SourcesOf(Block(t, ds, first)) == Numbered(ds, first)
  {
    SourcesOfBlock(t, ds, first);
  }

  /** The usage rules add no source. */
  lemma SourcesBeforeRules(x: seq<Line>)
    ensures SourcesOf(x + Rules) == SourcesOf(x)
  {
    SourcesOfAppend(x, Rules);
    SourcesOfTexts(Rules);
  }

  function LowBlock(docs: seq<Doc>): seq<Line> {
    var h, m := Select(docs, High), Select(docs, Medium);
    if LowShown(docs) then Block(Low, Select(docs, Low), 1 + |h| + |m|) else []
  }

  function LowListed(docs: seq<Doc>): seq<Doc> {
    if LowShown(docs) then Select(docs, Low) else []
  }

  /** The sources of the context are those of its three tier blocks. */
  lemma SourcesOfTiers(docs: seq<Doc>)
    ensures var h := Select(docs, High);
      SourcesOf(ContextLines(docs)) ==
      SourcesOf(Block(High, h, 1)) + SourcesOf(Block(Medium, Select(docs, Medium), 1 + |h|)) +
      SourcesOf(LowBlock(docs))
  {
    var h, m := Select(docs, High), Select(docs, Medium);
    var bh, bm, bl := Block(High, h, 1), Block(Medium, m, 1 + |h|), LowBlock(docs);
    assert ContextLines(docs) == bh + bm + bl + Rules;
    SourcesBeforeRules(bh + bm + bl);
    SourcesOfAppend(bh + bm, bl);
    SourcesOfAppend(bh, bm);
  }

  /** The included documents numbered from 1 are the three tier lists
   *  numbered one after the other. */
  lemma IncludedNumbered(docs: seq<Doc>)
    ensures var h, m := Select(docs, High), Select(docs, Medium);
      Numbered(Included(docs), 1) == Numbered(h, 1) + Numbered(m, 1 + |h|) + Numbered(LowListed(docs), 1 + |h| + |m|)
  {
    var h, m := Select(docs, High), Select(docs, Medium);
    NumberedAppend(h, m, 1);
    NumberedAppend(h + m, LowListed(docs), 1);
    assert Included(docs) == h + m + LowListed(docs);
  }

  lemma SourcesOfBlocks(docs: seq<Doc>)
    ensures SourcesOf(ContextLines(docs)) == Numbered(Included(docs), 1)
  {
    var h, m := Select(docs, High), Select(docs, Medium);
    SourcesOfTiers(docs);
    IncludedNumbered(docs);
    BlockNumbered(High, h, 1);
    BlockNumbered(Medium, m, 1 + |h|);
    BlockNumbered(Low, LowListed(docs), 1 + |h| + |m|);
    assert LowBlock(docs) == Block(Low, LowListed(docs), 1 + |h| + |m|);
  }

  /** The listed sources are the high, then the medium, then (when shown)
   *  the low documents, numbered 1, 2, 3, ... without a gap, each under
   *  its own tier. */
  lemma SourcesNumbered(docs: seq<Doc>)
    ensures var cs, inc := SourcesOf(ContextLines(docs)), Included(docs);
      |cs| == |inc| &&
      forall k :: 0 <= k < |cs| ==> cs[k] == Cited(TierOf(Sim(inc[k])), k + 1, inc[k])
  {
    SourcesOfBlocks(docs);
  }

  /** _format_context_with_quality_tiers: three tier blocks sharing one
   *  running source number, then the rules. */
  method FormatContextWithQualityTiers(docs: seq<Doc>, pct: Percent) returns (r: string)
    ensures r == ContextText(docs, pct)
  {
    if docs == [] {
      return NoInformation;
    }
    var high, medium, low := Select(docs, High), Select(docs, Medium), Select(docs, Low);
    var parts: seq<string> := [];
    ghost var lines: seq<Line> := [];
    var sourceIndex: nat := 1;
    if high != [] {
      parts, sourceIndex := AppendBlock(parts, High, high, sourceIndex, pct);
      RenderAppend(lines, Block(High, high, 1), pct);
      lines := lines + Block(High, high, 1);
    }
    assert lines == Block(High, high, 1) && sourceIndex == 1 + |high|;
    if medium != [] {
      parts, sourceIndex := AppendBlock(parts, Medium, medium, sourceIndex, pct);
      RenderAppend(lines, Block(Medium, medium, 1 + |high|), pct);
      lines := lines + Block(Medium, medium, 1 + |high|);
    }
    assert lines == Block(High, high, 1) + Block(Medium, medium, 1 + |high|);
    assert sourceIndex == 1 + |high| + |medium|;
    if low != [] && |high| + |medium| < 3 {
      parts, sourceIndex := AppendBlock(parts, Low, low, sourceIndex, pct);
      RenderAppend(lines, Block(Low, low, 1 + |high| + |medium|), pct);
      lines := lines + Block(Low, low, 1 + |high| + |medium|);
    }
    assert lines == Block(High, high, 1) + Block(Medium, medium, 1 + |high|) + LowBlock(docs);
    parts := parts + RenderAll(Rules, pct);
    RenderAppend(lines, Rules, pct);
    lines := lines + Rules;
    assert lines == ContextLines(docs);
    r := Join("\n", parts);
  }

  /** One tier's two heading lines and its entries. */
  method AppendBlock(parts: seq<string>, t: Tier, ds: seq<Doc>, first: nat, pct: Percent)
      returns (out: seq<string>, next: nat)
    requires ds != []
    ensures out == parts + RenderAll(Block(t, ds, first), pct)
    ensures next == first + |ds|
  {
    out := parts + [FixedText(Heading(t)), FixedText(Hint(t))];
    assert RenderAll(Headings(t), pct) == [FixedText(Heading(t)), FixedText(Hint(t))];
    out, next := AppendEntries(out, t, ds, first, pct);
    RenderAppend(Headings(t), Sources(t, ds, first), pct);
  }

  /** The loop over one tier's documents. */
  method AppendEntries(parts: seq<string>, t: Tier, ds: seq<Doc>, first: nat, pct: Percent)
      returns (out: seq<string>, next: nat)
    ensures out == parts + RenderAll(Sources(t, ds, first), pct)
    ensures next == first + |ds|
  {
    out, next := parts, first;
    var i := 0;
    while i < |ds|
      invariant 0 <= i <= |ds| && next == first + i
      invariant |out| == |parts| + i && out[..|parts|] == parts
      invariant forall k :: 0 <= k < i ==> out[|parts| + k] == Entry(t, first + k, ds[k], pct)
    {
      out := out + [Entry(t, next, ds[i], pct)];
      next := next + 1;
      i := i + 1;
    }
    assert out == parts + RenderAll(Sources(t, ds, first), pct);
  }

  // ---------------------------------------------------------------
  // Conversation history

  function TurnText(t: Turn): string {
    "User: " + t.question + "\nAssistant: " + t.answer
  }

  /** conversation_history[-max_history:] */
  function Recent(history: seq<Turn>, maxHistory: int): seq<Turn> {
    PyDrop(history, -maxHistory)
  }

  /** A positive limit shows the last `maxHistory` turns in order; a limit
   *  of 0 shows every turn, since -0 == 0; a negative limit drops that
   *  many of the oldest turns. */
  lemma RecentTurns(history: seq<Turn>, maxHistory: int)
    ensures maxHistory > 0 ==>
      var n := if maxHistory < |history| then maxHistory else |history|;
      Recent(history, maxHistory) == history[|history| - n..]
    ensures maxHistory == 0 ==> Recent(history, maxHistory) == history
    ensures maxHistory < 0 ==>
      Recent(history, maxHistory) == history[if -maxHistory < |history| then -maxHistory else |history|..]
  {
  }

  function HistoryText(history: seq<Turn>, maxHistory: int): string {
    if history == [] then "No prior conversation."
    else
      var shown := Recent(history, maxHistory);
      Join("\n\n", seq(|shown|, k requires 0 <= k < |shown| => TurnText(shown[k])))
  }

  /** The history after appending one turn: cut back to the last
   *  `maxHistory` turns when it grew longer. */
  function Trimmed(history: seq<Turn>, maxHistory: int): seq<Turn> {
    if |history| > maxHistory then PyDrop(history, -maxHistory) else history
  }

  /** With a positive limit the remembered history never exceeds it, ends
   *  with the new turn and is the newest part of the old history plus that
   *  turn; a limit of 0 keeps every turn (the slice [-0:] is the whole
   *  list). */
  lemma TrimmedKeepsLatest(history: seq<Turn>, t: Turn, maxHistory: int)
    ensures var r := Trimmed(history + [t], maxHistory);
      maxHistory > 0 ==>
        |r| == (if |history| < maxHistory then |history| + 1 else maxHistory) &&
        r[|r| - 1] == t && r == (history + [t])[|history| + 1 - |r|..]
    ensures maxHistory == 0 ==> Trimmed(history + [t], maxHistory) == history + [t]
  {
  }

  // ---------------------------------------------------------------
  // Generation

  datatype Usage = Usage(promptTokens: int, completionTokens: int, totalTokens: int)

  /** The first choice's message content and the usage block, if any. */
  datatype Completion = Completion(content: string, usage: Option<Usage>)

  /** The chat completion call (model, temperature and token limit are
   *  fixed by the client); it may raise. */
  type Llm = string -> Result<Completion>

  function Call(llm: Llm, prompt: string): Result<Completion> {
    llm(prompt)
  }

  const GenerationError := "Error generating response: "

  /** _generate_response: the stripped content and the usage, or the
   *  error text and no usage when the call raised. */
  function Generated(llm: Llm, prompt: string): (string, Option<Usage>) {
    match Call(llm, prompt)
    case Success(c) => (Strip(c.content), c.usage)
    case Failure(e) => (GenerationError + e, None)
  }

  lemma StripIdempotent(s: string)
    ensures Strip(Strip(s)) == Strip(s)
  {
    StripDef(s);
    var d := DropSpaces(s);
    var r := DropTrailingSpaces(d);
    assert r == [] || r[0] == d[0];
    StripNoEdgeSpaces(r);
  }

  /** A call that answered gives a reply with no surrounding whitespace and
   *  the call's usage; a call that raised gives the error text and no
   *  usage, so tokens are only counted for answered calls. */
  lemma GeneratedReply(llm: Llm, prompt: string)
    ensures var (reply, usage) := Generated(llm, prompt);
      && (Call(llm, prompt).Success? ==> Strip(reply) == reply && usage == Call(llm, prompt).value.usage)
      && (Call(llm, prompt).Failure? ==>
            usage == None && |reply| >= |GenerationError| && reply[..|GenerationError|] == GenerationError)
      && (usage.Some? ==> Call(llm, prompt).Success?)
  {
    if Call(llm, prompt).Success? {
      StripIdempotent(Call(llm, prompt).value.content);
    }
  }

  // ---------------------------------------------------------------
  // One query, as values

  /** retriever.retrieve(question, top_k=k); it may raise. */
  type Retriever = (string, int) -> Result<seq<Doc>>

  function Retrieved(retrieve: Retriever, question: string, k: int): Result<seq<Doc>> {
    retrieve(question, k)
  }

  /** `top_k or 5` */
  function TopK(topK: Option<int>): (k: int)
    ensures topK.None? || topK == Some(0) ==> k == 5
    ensures topK.Some? && topK.value != 0 ==> k == topK.value
  {
    if topK.None? || topK.value == 0 then 5 else topK.value
  }

  /** The prompt built from the documents and the history before the new
   *  turn. */
  function PromptFor(opt: PromptOptimizer, maxHistory: int, history: seq<Turn>, question: string,
                     docs: seq<Doc>, pct: Percent): (string, PromptMetadata)
  {
    CreatePrompt(opt, ContextText(docs, pct), HistoryText(history, maxHistory), question, history)
  }

  /** The response cache as seen by one query (None when the chain has no
   *  cache). */
  datatype CacheState = CacheState(enabled: bool, ttl: int, entries: Store, stats: Counters)

  function Lookup(c: Option<CacheState>, question: string, k: int, now: real): Option<CachedResponse> {
    if c.Some? && c.value.enabled then Fetch(c.value.entries, CacheKey(question, k), now) else None
  }

  function AfterLookup(c: Option<CacheState>, question: string, k: int, now: real): Option<CacheState> {
    if c.Some? && c.value.enabled then
      Some(c.value.(entries := AfterFetch(c.value.entries, CacheKey(question, k), now),
                    stats := CountGet(c.value.stats, Lookup(c, question, k, now).Some?)))
    else c
  }

  function AfterStore(c: Option<CacheState>, question: string, k: int, answer: string, docs: seq<Doc>,
                      now: real): Option<CacheState> {
    if c.Some? && c.value.enabled then
      Some(c.value.(entries := Put(c.value.entries, CacheKey(question, k), CachedResponse(answer, docs, now),
                                   now, c.value.ttl),
                    stats := c.value.stats.(sets := c.value.stats.sets + 1)))
    else c
  }

  /** What one query did: the history and cache after it, its result, and
   *  which path it took (answered from the cache, failed in retrieval,
   *  or answered with these documents and this usage). */
  datatype Step = Step(history: seq<Turn>, cache: Option<CacheState>, result: Result<(string, seq<Doc>)>,
                       hit: bool, docs: Option<seq<Doc>>, usage: Option<Usage>)

  /** A query that retrieved `docs`: the answer is generated from the
   *  prompt, remembered and cached. */
  function Answered(opt: PromptOptimizer, maxHistory: int, history: seq<Turn>, c: Option<CacheState>,
                    question: string, k: int, now: real, docs: seq<Doc>, llm: Llm, pct: Percent): Step
  {
    Replied(maxHistory, history, c, question, k, now, docs, PromptFor(opt, maxHistory, history, question, docs, pct).0, llm)
  }

  /** The same once the prompt is built. */
  function Replied(maxHistory: int, history: seq<Turn>, c: Option<CacheState>, question: string, k: int, now: real,
                   docs: seq<Doc>, prompt: string, llm: Llm): Step
  {
    var (answer, usage) := Generated(llm, prompt);
    Step(Trimmed(history + [Turn(question, answer)], maxHistory), AfterStore(c, question, k, answer, docs, now),
         Success((answer, docs)), false, Some(docs), usage)
  }

  /** A query the cache did not answer. */
  function Missed(opt: PromptOptimizer, maxHistory: int, history: seq<Turn>, c: Option<CacheState>,
                  question: string, k: int, now: real, retrieve: Retriever, llm: Llm, pct: Percent): Step
  {
    match Retrieved(retrieve, question, k)
    case Failure(e) => Step(history, c, Failure(e), false, None, None)
    case Success(docs) => Answered(opt, maxHistory, history, c, question, k, now, docs, llm, pct)
  }

  function QueryStep(opt: PromptOptimizer, maxHistory: int, history: seq<Turn>, c: Option<CacheState>,
                     question: string, k: int, now: real, retrieve: Retriever, llm: Llm,
                     pct: Percent): Step
  {
    var hit := Lookup(c, question, k, now);
    var c1 := AfterLookup(c, question, k, now);
    if hit.Some? then Step(history, c1, Success((hit.value.response, hit.value.sources)), true, None, None)
    else Missed(opt, maxHistory, history, c1, question, k, now, retrieve, llm, pct)
  }

  /** A query answered from the cache returns the cached response and
   *  sources and remembers nothing; a query whose retrieval raised fails
   *  with that error and remembers nothing; any other query remembers
   *  exactly its own question and answer. */
  lemma QueryPaths(opt: PromptOptimizer, maxHistory: int, history: seq<Turn>, c: Option<CacheState>,
                   question: string, k: int, now: real, retrieve: Retriever, llm: Llm, pct: Percent)
    ensures var s := QueryStep(opt, maxHistory, history, c, question, k, now, retrieve, llm, pct);
      && (s.hit <==> Lookup(c, question, k, now).Some?)
      && (s.hit ==> s.history == history &&
                    s.result == Success((Lookup(c, question, k, now).value.response,
                                         Lookup(c, question, k, now).value.sources)))
      && (s.result.Failure? <==> !s.hit && Retrieved(retrieve, question, k).Failure?)
      && (s.result.Failure? ==> s.history == history && s.result.error == Retrieved(retrieve, question, k).error)
      && (s.docs.Some? <==> !s.hit && Retrieved(retrieve, question, k).Success?)
      && (s.docs.Some? ==>
            s.result.Success? && s.result.value.1 == s.docs.value &&
            s.history == Trimmed(history + [Turn(question, s.result.value.0)], maxHistory))
  {
  }

  /** With a positive limit the history stays within it: a query that
   *  answered ends the history with its own turn. */
  lemma HistoryStaysBounded(opt: PromptOptimizer, maxHistory: int, history: seq<Turn>, c: Option<CacheState>,
                            question: string, k: int, now: real, retrieve: Retriever, llm: Llm, pct: Percent)
    requires maxHistory > 0 && |history| <= maxHistory
    ensures var s := QueryStep(opt, maxHistory, history, c, question, k, now, retrieve, llm, pct);
      |s.history| <= maxHistory &&
      (s.docs.Some? ==> s.history != [] && s.history[|s.history| - 1] == Turn(question, s.result.value.0))
  {
    var s := QueryStep(opt, maxHistory, history, c, question, k, now, retrieve, llm, pct);
    if s.docs.Some? {
      TrimmedKeepsLatest(history, Turn(question, s.result.value.0), maxHistory);
    }
  }

  /** An answered query is cached: asking the same question with the same
   *  k again, no later than ttl seconds after, returns the same answer and
   *  sources from the cache and leaves the history alone. */
  lemma RepeatedQueryAnsweredFromCache(opt: PromptOptimizer, maxHistory: int, history: seq<Turn>,
                                       c: Option<CacheState>, question: string, k: int, now: real,
                                       later: real, retrieve: Retriever, llm: Llm, pct: Percent,
                                       retrieve2: Retriever, llm2: Llm)
    requires c.Some? && c.value.enabled
    requires now <= later <= now + c.value.ttl as real
    ensures var s1 := QueryStep(opt, maxHistory, history, c, question, k, now, retrieve, llm, pct);
      s1.docs.Some? ==>
        var s2 := QueryStep(opt, maxHistory, s1.history, s1.cache, question, k, later, retrieve2, llm2, pct);
        s2.hit && s2.result == s1.result && s2.history == s1.history
  {
    var s1 := QueryStep(opt, maxHistory, history, c, question, k, now, retrieve, llm, pct);
    AnswerIsStored(opt, maxHistory, history, c, question, k, now, retrieve, llm, pct);
    if s1.docs.Some? {
      StoredIsFetched(AfterLookup(c, question, k, now), question, k, s1.result.value.0, s1.docs.value, now, later);
      HitAnswers(opt, maxHistory, s1.history, s1.cache, question, k, later, retrieve2, llm2, pct);
    }
  }

  /** A query that retrieved documents stores its answer and sources. */
  lemma AnswerIsStored(opt: PromptOptimizer, maxHistory: int, history: seq<Turn>, c: Option<CacheState>,
                       question: string, k: int, now: real, retrieve: Retriever, llm: Llm, pct: Percent)
    ensures var s := QueryStep(opt, maxHistory, history, c, question, k, now, retrieve, llm, pct);
      s.docs.Some? ==>
        s.result.Success? && s.result.value.1 == s.docs.value &&
        s.cache == AfterStore(AfterLookup(c, question, k, now), question, k, s.result.value.0, s.docs.value, now)
  {
  }

  /** What an enabled cache stored is fetched again within ttl seconds. */
  lemma StoredIsFetched(c: Option<CacheState>, question: string, k: int, answer: string, docs: seq<Doc>,
                        now: real, later: real)
    requires c.Some? && c.value.enabled
    requires now <= later <= now + c.value.ttl as real
    ensures Lookup(AfterStore(c, question, k, answer, docs, now), question, k, later) ==
            Some(CachedResponse(answer, docs, now))
  {
    PutThenFetch(c.value.entries, CacheKey(question, k), CachedResponse(answer, docs, now), now, c.value.ttl, later);
  }

  /** A cache hit answers with the cached response and sources and leaves
   *  the history alone. */
  lemma HitAnswers(opt: PromptOptimizer, maxHistory: int, history: seq<Turn>, c: Option<CacheState>,
                   question: string, k: int, now: real, retrieve: Retriever, llm: Llm, pct: Percent)
    requires Lookup(c, question, k, now).Some?
    ensures var s := QueryStep(opt, maxHistory, history, c, question, k, now, retrieve, llm, pct);
      var hit := Lookup(c, question, k, now).value;
      s.hit && s.history == history && s.result == Success((hit.response, hit.sources))
  {
  }

  /** Without an enabled cache every query goes to the retriever. */
  lemma NoCacheAlwaysRetrieves(opt: PromptOptimizer, maxHistory: int, history: seq<Turn>, c: Option<CacheState>,
                               question: string, k: int, now: real, retrieve: Retriever, llm: Llm, pct: Percent)
    requires c.None? || !c.value.enabled
    ensures var s := QueryStep(opt, maxHistory, history, c, question, k, now, retrieve, llm, pct);
      !s.hit && s.cache == c &&
      (s.result.Success? ==> s.docs == Some(Retrieved(retrieve, question, k).value))
  {
  }

  // ---------------------------------------------------------------
  // Metrics as seen by the chain

  /** The collector's counters (everything but the traces and the stage
   *  durations). */
  datatype Counts = Counts(requests: Requests, cacheHits: nat, cacheMisses: nat, totalResults: int,
                           totalQueries: nat, promptTokens: int, completionTokens: int,
                           errors: map<string, nat>)

  /** A cache hit or miss, counted only when the chain has a cache. */
  function CountLookup(m: Counts, hasCache: bool, hit: bool): Counts {
    if !hasCache then m
    else if hit then m.(cacheHits := m.cacheHits + 1)
    else m.(cacheMisses := m.cacheMisses + 1)
  }

  /** record_retrieval: the result count and one more query. */
  function CountRetrieval(m: Counts, docs: seq<Doc>): Counts {
    m.(totalResults := m.totalResults + |docs|, totalQueries := m.totalQueries + 1)
  }

  /** record_token_usage, when the model reported usage. */
  function CountUsage(m: Counts, usage: Option<Usage>): Counts {
    if usage.Some? then m.(promptTokens := m.promptTokens + usage.value.promptTokens,
                           completionTokens := m.completionTokens + usage.value.completionTokens)
    else m
  }

  /** The counters a query's try block leaves: a hit or a miss when the
   *  chain has a cache, the retrieval count when documents came back and
   *  the tokens when usage was reported. */
  function CountsInside(m: Counts, hasCache: bool, s: Step): Counts {
    CountsMissed(CountLookup(m, hasCache, s.hit), s)
  }

  /** What retrieval and generation add to the counters. */
  function CountsMissed(m: Counts, s: Step): Counts {
    CountUsage(if s.docs.Some? then CountRetrieval(m, s.docs.value) else m, s.usage)
  }

  /** The counters after a query: the try block's, plus one successful
   *  request in every case. */
  function CountsAfter(m: Counts, hasCache: bool, s: Step): Counts {
    var m3 := CountsInside(m, hasCache, s);
    m3.(requests := CountRequest(m3.requests, true))
  }

  /** The finally block closes the trace as a success even when retrieval
   *  raised, so a failed query counts as a successful request and no
   *  error type is counted. */
  lemma FailedQueryCountedAsSuccess(m: Counts, hasCache: bool, s: Step)
    requires s.result.Failure?
    ensures CountsAfter(m, hasCache, s).requests.success == m.requests.success + 1
    ensures CountsAfter(m, hasCache, s).requests.error == m.requests.error
    ensures CountsAfter(m, hasCache, s).errors == m.errors
  {
  }

  // ---------------------------------------------------------------
  // The chain

  class ConversationalRAGChain {
    const modelName: string
    const maxHistory: int
    const cache: Option<ResponseCache>
    const metrics: Option<MetricsCollector>
    const optimizer: PromptOptimizer
    var conversationHistory: seq<Turn>

    ghost function CacheObjects(): set<object>
    {
      if cache.Some? then {cache.value, cache.value.backend} else {}
    }

    ghost function MetricsObjects(): set<object>
    {
      if metrics.Some? then {metrics.value} else {}
    }

    ghost predicate Valid()
      reads this, MetricsObjects()
    {
      (metrics.Some? ==> metrics.value.Valid()) &&
      (maxHistory > 0 ==> |conversationHistory| <= maxHistory)
    }

    ghost function CacheNow(): Option<CacheState>
      reads CacheObjects()
    {
      if cache.Some? then
        Some(CacheState(cache.value.enabled, cache.value.ttl, cache.value.backend.entries, cache.value.stats))
      else None
    }

    ghost function Tally(): Counts
      requires metrics.Some?
      reads MetricsObjects()
    {
      var m := metrics.value;
      Counts(m.requests, m.cacheHits, m.cacheMisses, m.totalResults, m.totalQueries, m.promptTokens,
             m.completionTokens, m.errors)
    }

    constructor(modelName: string, maxHistory: int, cache: Option<ResponseCache>,
                metrics: Option<MetricsCollector>, optimizer: PromptOptimizer)
      requires metrics.Some? ==> metrics.value.Valid()
      ensures this.modelName == modelName && this.maxHistory == maxHistory
      ensures this.cache == cache && this.metrics == metrics && this.optimizer == optimizer
      ensures conversationHistory == []
      ensures Valid()
    {
      this.modelName := modelName;
      this.maxHistory := maxHistory;
      this.cache := cache;
      this.metrics := metrics;
      this.optimizer := optimizer;
      conversationHistory := [];
    }

    /** _format_chat_history */
    method FormatChatHistory() returns (s: string)
      ensures s == HistoryText(conversationHistory, maxHistory)
    {
      if conversationHistory == [] {
        return "No prior conversation.";
      }
      var shown := Recent(conversationHistory, maxHistory);
      var parts: seq<string> := [];
      var i := 0;
      while i < |shown|
        invariant 0 <= i <= |shown| && |parts| == i
        invariant forall k :: 0 <= k < i ==> parts[k] == TurnText(shown[k])
      {
        parts := parts + [TurnText(shown[i])];
        i := i + 1;
      }
      assert parts == seq(|shown|, k requires 0 <= k < |shown| => TurnText(shown[k]));
      s := Join("\n\n", parts);
    }

    /** clear_history */
    method ClearHistory()
      requires Valid()
      modifies this
      ensures conversationHistory == []
      ensures Valid()
    {
      conversationHistory := [];
    }

    /** get_history_length */
    method GetHistoryLength() returns (n: nat)
      ensures n == |conversationHistory|
    {
      n := |conversationHistory|;
    }

    /** The cache lookup at the head of the try block, with its hit or
     *  miss counted. */
    method CheckCache(question: string, k: int, now: real) returns (hit: Option<CachedResponse>)
      modifies CacheObjects(), MetricsObjects()
      ensures hit == Lookup(old(CacheNow()), question, k, now)
      ensures CacheNow() == AfterLookup(old(CacheNow()), question, k, now)
      ensures metrics.Some? ==> Tally() == CountLookup(old(Tally()), cache.Some?, hit.Some?)
      ensures metrics.Some? ==> metrics.value.traces == old(metrics.value.traces)
    {
      hit := None;
      if cache.Some? {
        hit := cache.value.Get(question, k, now);
        if metrics.Some? {
          if hit.Some? {
            metrics.value.RecordCacheHit();
          } else {
            metrics.value.RecordCacheMiss();
          }
        }
      }
    }

    /** Records one stage of the trace; every clock read of a query gives
     *  the same `now`, so the duration is 0. */
    method Stage(trace: PipelineTrace?, name: string, now: real)
      requires trace != null ==> metrics.Some?
      modifies MetricsObjects(), if trace != null then {trace} else {}
      ensures metrics.Some? ==> Tally() == old(Tally()) && metrics.value.traces == old(metrics.value.traces)
    {
      if trace != null {
        metrics.value.MeasureStage(trace, name, None, now, now);
      }
    }

    /** Retrieval and the retrieval metrics. */
    method Retrieve(trace: PipelineTrace?, question: string, k: int, now: real, retrieve: Retriever)
        returns (docs: Result<seq<Doc>>)
      requires trace != null ==> metrics.Some?
      modifies MetricsObjects(), if trace != null then {trace} else {}
      ensures docs == Retrieved(retrieve, question, k)
      ensures metrics.Some? ==>
        Tally() == if docs.Success? then CountRetrieval(old(Tally()), docs.value) else old(Tally())
      ensures metrics.Some? ==> metrics.value.traces == old(metrics.value.traces)
    {
      docs := Retrieved(retrieve, question, k);
      Stage(trace, "retrieval", now);
      if docs.Success? && metrics.Some? {
        var sims := seq(|docs.value|, i requires 0 <= i < |docs.value| => Sim(docs.value[i]));
        metrics.value.RecordRetrieval(|docs.value|, sims);
      }
    }

    /** _generate_response inside the "generation" stage, then the token
     *  usage recorded when the reply reported one. */
    method Generate(trace: PipelineTrace?, prompt: string, now: real, llm: Llm)
        returns (answer: string, usage: Option<Usage>)
      requires trace != null ==> metrics.Some?
      modifies MetricsObjects(), if trace != null then {trace} else {}
      ensures (answer, usage) == Generated(llm, prompt)
      ensures metrics.Some? ==> Tally() == CountUsage(old(Tally()), usage)
      ensures metrics.Some? ==> metrics.value.traces == old(metrics.value.traces)
    {
      var reply := Generated(llm, prompt);
      answer, usage := reply.0, reply.1;
      Stage(trace, "generation", now);
      if metrics.Some? && usage.Some? {
        metrics.value.RecordTokenUsage(usage.value.promptTokens, usage.value.completionTokens);
      }
    }

    /** validate_response inside the "validation" stage; its report only
     *  feeds a log line, so nothing the query returns depends on it. */
    method Validate(trace: PipelineTrace?, answer: string, context: string, docs: seq<Doc>, language: string,
                    now: real)
      requires trace != null ==> metrics.Some?
      modifies MetricsObjects(), if trace != null then {trace} else {}
      ensures metrics.Some? ==> Tally() == old(Tally()) && metrics.value.traces == old(metrics.value.traces)
    {
      var validation := ValidateResponse(optimizer, answer, context, docs, language);
      Stage(trace, "validation", now);
    }

    /** The context, the chat history and the prompt built from them, with
     *  the language the prompt analysis detected. */
    method BuildPrompt(question: string, docs: seq<Doc>, pct: Percent)
        returns (context: string, prompt: string, language: string)
      ensures context == ContextText(docs, pct)
      ensures prompt == PromptFor(optimizer, maxHistory, conversationHistory, question, docs, pct).0
    {
      context := FormatContextWithQualityTiers(docs, pct);
      var chatHistory := FormatChatHistory();
      var (p, promptMetadata) := CreatePrompt(optimizer, context, chatHistory, question, conversationHistory);
      prompt, language := p, promptMetadata.language;
    }

    /** Appending the turn and trimming to the last max_history turns. */
    method Remember(question: string, answer: string)
      modifies this
      ensures conversationHistory == Trimmed(old(conversationHistory) + [Turn(question, answer)], maxHistory)
      ensures maxHistory > 0 && |old(conversationHistory)| <= maxHistory ==> |conversationHistory| <= maxHistory
    {
      conversationHistory := conversationHistory + [Turn(question, answer)];
      if |conversationHistory| > maxHistory {
        conversationHistory := PyDrop(conversationHistory, -maxHistory);
      }
    }

    /** The body of the try block: the cache, then the rest. */
    method Answer(trace: PipelineTrace?, question: string, k: int, now: real, retrieve: Retriever, llm: Llm,
                  pct: Percent) returns (r: Result<(string, seq<Doc>)>)
      requires trace != null ==> metrics.Some?
      modifies this, CacheObjects(), MetricsObjects(), if trace != null then {trace} else {}
      ensures var s := QueryStep(optimizer, maxHistory, old(conversationHistory), old(CacheNow()), question, k,
                                 now, retrieve, llm, pct);
        r == s.result && conversationHistory == s.history && CacheNow() == s.cache &&
        (metrics.Some? ==> Tally() == CountsInside(old(Tally()), cache.Some?, s))
      ensures metrics.Some? ==> metrics.value.traces == old(metrics.value.traces)
      ensures maxHistory > 0 && |old(conversationHistory)| <= maxHistory ==> |conversationHistory| <= maxHistory
    {
      ghost var s := QueryStep(optimizer, maxHistory, conversationHistory, CacheNow(), question, k, now, retrieve,
                               llm, pct);
      var hit := CheckCache(question, k, now);
      if hit.Some? {
        return Success((hit.value.response, hit.value.sources));
      }
      assert s == Missed(optimizer, maxHistory, conversationHistory, CacheNow(), question, k, now, retrieve, llm, pct);
      r := Miss(trace, question, k, now, retrieve, llm, pct);
    }

    /** After a cache miss: retrieval, then the answer. */
    method Miss(trace: PipelineTrace?, question: string, k: int, now: real, retrieve: Retriever, llm: Llm,
                pct: Percent) returns (r: Result<(string, seq<Doc>)>)
      requires trace != null ==> metrics.Some?
      modifies this, CacheObjects(), MetricsObjects(), if trace != null then {trace} else {}
      ensures var s := Missed(optimizer, maxHistory, old(conversationHistory), old(CacheNow()), question, k,
                              now, retrieve, llm, pct);
        r == s.result && conversationHistory == s.history && CacheNow() == s.cache &&
        (metrics.Some? ==> Tally() == CountsMissed(old(Tally()), s))
      ensures metrics.Some? ==> metrics.value.traces == old(metrics.value.traces)
      ensures maxHistory > 0 && |old(conversationHistory)| <= maxHistory ==> |conversationHistory| <= maxHistory
    {
      var retrieved := Retrieve(trace, question, k, now, retrieve);
      if retrieved.Failure? {
        return Failure(retrieved.error);
      }
      r := Reply(trace, question, k, now, retrieved.value, llm, pct);
    }

    /** For retrieved documents: prompt, generation, validation, then the
     *  history and the cache are updated. */
    method Reply(trace: PipelineTrace?, question: string, k: int, now: real, docs: seq<Doc>, llm: Llm,
                 pct: Percent) returns (r: Result<(string, seq<Doc>)>)
      requires trace != null ==> metrics.Some?
      modifies this, CacheObjects(), MetricsObjects(), if trace != null then {trace} else {}
      ensures var s := Answered(optimizer, maxHistory, old(conversationHistory), old(CacheNow()), question, k,
                                now, docs, llm, pct);
        r == s.result && conversationHistory == s.history && CacheNow() == s.cache &&
        (metrics.Some? ==> Tally() == CountUsage(old(Tally()), s.usage))
      ensures metrics.Some? ==> metrics.value.traces == old(metrics.value.traces)
      ensures maxHistory > 0 && |old(conversationHistory)| <= maxHistory ==> |conversationHistory| <= maxHistory
    {
      var context, prompt, language := BuildPrompt(question, docs, pct);
      r := Finish(trace, question, k, now, docs, context, prompt, language, llm);
    }

    /** From the built prompt on: generation, validation, then the history
     *  and the cache. */
    method Finish(trace: PipelineTrace?, question: string, k: int, now: real, docs: seq<Doc>, context: string,
                  prompt: string, language: string, llm: Llm) returns (r: Result<(string, seq<Doc>)>)
      requires trace != null ==> metrics.Some?
      modifies this, CacheObjects(), MetricsObjects(), if trace != null then {trace} else {}
      ensures var s := Replied(maxHistory, old(conversationHistory), old(CacheNow()), question, k, now, docs,
                               prompt, llm);
        r == s.result && conversationHistory == s.history && CacheNow() == s.cache &&
        (metrics.Some? ==> Tally() == CountUsage(old(Tally()), s.usage))
      ensures metrics.Some? ==> metrics.value.traces == old(metrics.value.traces)
      ensures maxHistory > 0 && |old(conversationHistory)| <= maxHistory ==> |conversationHistory| <= maxHistory
    {
      Stage(trace, "prompt_creation", now);
      var answer, usage := Generate(trace, prompt, now, llm);
      Validate(trace, answer, context, docs, language, now);
      Remember(question, answer);
      StoreAnswer(question, k, answer, docs, now);
      r := Success((answer, docs));
    }

    /** cache.set of the answer and its sources. */
    method StoreAnswer(question: string, k: int, answer: string, docs: seq<Doc>, now: real)
      modifies CacheObjects()
      ensures CacheNow() == AfterStore(old(CacheNow()), question, k, answer, docs, now)
    {
      if cache.Some? {
        cache.value.Set(question, k, answer, docs, now);
      }
    }

    /** query: the try block inside the metrics trace, which the finally
     *  block always closes as a success. */
    method Query(question: string, topK: Option<int>, now: real, retrieve: Retriever, llm: Llm, pct: Percent)
        returns (r: Result<(string, seq<Doc>)>)
      requires Valid()
      modifies this, CacheObjects(), MetricsObjects()
      ensures Valid()
      ensures var s := QueryStep(optimizer, maxHistory, old(conversationHistory), old(CacheNow()), question,
                                 TopK(topK), now, retrieve, llm, pct);
        r == s.result && conversationHistory == s.history && CacheNow() == s.cache
      ensures metrics.Some? ==>
        var s := QueryStep(optimizer, maxHistory, old(conversationHistory), old(CacheNow()), question,
                           TopK(topK), now, retrieve, llm, pct);
        Tally() == CountsAfter(old(Tally()), cache.Some?, s)
      ensures metrics.Some? ==>
        var ts := metrics.value.traces;
        |ts| > 0 && fresh(ts[|ts| - 1]) && ts == AppendBounded(old(metrics.value.traces), ts[|ts| - 1], MaxTraces) &&
        ts[|ts| - 1].query == question && ts[|ts| - 1].startTime == now && ts[|ts| - 1].endTime == Some(now) &&
        ts[|ts| - 1].metadata == map["top_k" := JInt(TopK(topK)), "model" := JStr(modelName)] &&
        ts[|ts| - 1].error.None?
    {
      var k := TopK(topK);
      var trace: PipelineTrace? := null;
      if metrics.Some? {
        trace := metrics.value.StartTrace(question, Some(map["top_k" := JInt(k), "model" := JStr(modelName)]), now);
      }
      r := Answer(trace, question, k, now, retrieve, llm, pct);
      if trace != null {
        metrics.value.EndTrace(trace, None, now);
      }
    }
  }
}

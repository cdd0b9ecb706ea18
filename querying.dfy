// Query analysis: the language guess, the marker-based complexity class
// and the augmentation of short follow-up questions from the last answer.
// The live copy in prompts.py and the split copy in query_analyzer.py
// carry the same logic and share this model.

module QueryAnalysis {
  import opened Records
  import opened PyText

  datatype Complexity = Simple | Moderate | Complex

  const ComplexMarkers: seq<string> := [
    "compare", "difference", "pros and cons", "why", "how does", "process",
    "implement", "better than", "vs", "versus", "explain"]

  const ModerateMarkers: seq<string> := [
    "features", "capabilities", "includes", "offers", "types of", "which"]

  /** The analyzer is English-only. */
  function DetectLanguage(query: string): (r: string)
    ensures r == "en"
  {
    "en"
  }

  /** Whether some marker is a substring of s. */
  function AnyContained(s: string, markers: seq<string>): (r: bool)
    ensures r <==> exists k :: 0 <= k < |markers| && Contains(s, markers[k])
  {
    if markers == [] then false
    else Contains(s, markers[0]) || AnyContained(s, markers[1..])
  }

  /** Complex markers are tested first, then moderate ones, on the
   *  lowercased query; markers are plain substrings. */
  function ClassifyComplexity(query: string): (r: Complexity)
    ensures r == Complex <==> exists k :: 0 <= k < |ComplexMarkers| && Contains(Lower(query), ComplexMarkers[k])
    ensures r == Moderate <==>
      (forall k :: 0 <= k < |ComplexMarkers| ==> !Contains(Lower(query), ComplexMarkers[k]))
      && (exists k :: 0 <= k < |ModerateMarkers| && Contains(Lower(query), ModerateMarkers[k]))
    ensures r == Simple <==>
      (forall k :: 0 <= k < |ComplexMarkers| ==> !Contains(Lower(query), ComplexMarkers[k]))
      && (forall k :: 0 <= k < |ModerateMarkers| ==> !Contains(Lower(query), ModerateMarkers[k]))
  {
    var q := Lower(query);
    if AnyContained(q, ComplexMarkers) then Complex
    else if AnyContained(q, ModerateMarkers) then Moderate
    else Simple
  }

  /** Substring matching means "devs" counts as the marker "vs": any
   *  question mentioning developers, such as "which devs", is complex. */
  lemma DevsIsComplex(query: string)
    requires Contains(Lower(query), "devs")
    ensures ClassifyComplexity(query) == Complex
  {
    var q := Lower(query);
    var i :| OccursAt(q, "devs", i);
    assert q[i + 2..i + 4] == "devs"[2..4] == "vs";
    assert OccursAt(q, ComplexMarkers[8], i + 2);
  }

  /** The follow-up topics, in the order they are tried. */
  const Topics: seq<(string, string)> := [
    ("profile", "about the candidate profile"),
    ("experience", "about the professional experience"),
    ("skills", "about the candidate skills"),
    ("education", "about the education")]

  /** Index of the first topic word occurring in `a`, or |topics|. */
  function FirstTopic(a: string, topics: seq<(string, string)>): (i: nat)
    ensures i <= |topics|
    ensures i < |topics| ==> Contains(a, Lower(topics[i].0))
    ensures forall k :: 0 <= k < i ==> !Contains(a, Lower(topics[k].0))
  {
    if topics == [] then 0
    else if Contains(a, Lower(topics[0].0)) then 0
    else 1 + FirstTopic(a, topics[1..])
  }

  function LastAnswer(history: seq<Turn>): string
    requires history != []
  {
    Lower(history[|history| - 1].answer)
  }

  /** A query of at most two words asked after at least one turn gets the
   *  phrase of the first topic word found in the last answer. */
  function AugmentShortQuery(query: string, history: seq<Turn>): (r: (string, bool))
    ensures |Split(query)| > 2 || history == [] ==> r == (query, false)
    ensures !r.1 ==> r.0 == query
    ensures r.1 <==> (|Split(query)| <= 2 && history != []
      && exists k :: 0 <= k < |Topics| && Contains(LastAnswer(history), Lower(Topics[k].0)))
    ensures r.1 ==> r.0 == query + " " + Topics[FirstTopic(LastAnswer(history), Topics)].1
  {
    if |Split(query)| > 2 then (query, false)
    else if history == [] then (query, false)
    else
      var i := FirstTopic(LastAnswer(history), Topics);
      if i < |Topics| then (query + " " + Topics[i].1, true)
      else (query, false)
  }

  /** Only the last turn's answer is inspected. */
  lemma AugmentUsesLastAnswer(query: string, history: seq<Turn>, earlier: seq<Turn>)
    requires history != []
    ensures AugmentShortQuery(query, earlier + history) == AugmentShortQuery(query, history)
  {
    assert (earlier + history)[|earlier + history| - 1] == history[|history| - 1];
  }
}

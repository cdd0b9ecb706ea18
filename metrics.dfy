// Pipeline traces and the in-memory metrics collector (the path taken
// when the Prometheus client is absent or metrics are disabled). Clock
// readings are parameters.

module Metrics {
  import opened Records
  import opened PyText

  // ---------------------------------------------------------------
  // Stages: a dictionary from stage name to {duration, metadata}, kept
  // in insertion order.

  datatype StageInfo = StageInfo(duration: real, metadata: Metadata)

  type Stages = seq<(string, StageInfo)>

  function StageNames(st: Stages): (r: seq<string>)
    ensures |r| == |st|
    ensures forall k :: 0 <= k < |st| ==> r[k] == st[k].0
  {
    if st == [] then [] else [st[0].0] + StageNames(st[1..])
  }

  function StageLookup(st: Stages, name: string): Option<StageInfo> {
    if st == [] then None
    else if st[0].0 == name then Some(st[0].1)
    else StageLookup(st[1..], name)
  }

  /** stages[name] = info: an existing name keeps its position. */
  function AssignStage(st: Stages, name: string, info: StageInfo): (r: Stages)
    ensures |r| == |st| || |r| == |st| + 1
  {
    if st == [] then [(name, info)]
    else if st[0].0 == name then [(name, info)] + st[1..]
    else [st[0]] + AssignStage(st[1..], name, info)
  }

  predicate DistinctNames(st: Stages) {
    forall a, b :: 0 <= a < b < |st| ==> st[a].0 != st[b].0
  }

  /** After assigning, the name answers the new info and every other name
   *  answers what it did before. */
  lemma {:induction false} AssignStageLookup(st: Stages, name: string, info: StageInfo, other: string)
    ensures StageLookup(AssignStage(st, name, info), name) == Some(info)
    ensures other != name ==> StageLookup(AssignStage(st, name, info), other) == StageLookup(st, other)
  {
    if st != [] && st[0].0 != name {
      AssignStageLookup(st[1..], name, info, other);
    }
  }

  /** A new name is appended at the end; an existing one is replaced in
   *  place. */
  lemma {:induction false} AssignStageNameList(st: Stages, name: string, info: StageInfo)
    ensures StageNames(AssignStage(st, name, info))
      == if name in StageNames(st) then StageNames(st) else StageNames(st) + [name]
  {
    if st != [] && st[0].0 != name {
      AssignStageNameList(st[1..], name, info);
      assert StageNames(st) == [st[0].0] + StageNames(st[1..]);
      assert StageNames(AssignStage(st, name, info)) == [st[0].0] + StageNames(AssignStage(st[1..], name, info));
    }
  }

  /** ... so the names stay distinct. */
  lemma AssignStageNames(st: Stages, name: string, info: StageInfo)
    requires DistinctNames(st)
    ensures StageNames(AssignStage(st, name, info))
      == if name in StageNames(st) then StageNames(st) else StageNames(st) + [name]
    ensures DistinctNames(AssignStage(st, name, info))
  {
    AssignStageNameList(st, name, info);
    var r := AssignStage(st, name, info);
    var names := StageNames(st);
    forall a, b | 0 <= a < b < |r| ensures r[a].0 != r[b].0 {
      assert r[a].0 == StageNames(r)[a] && r[b].0 == StageNames(r)[b];
      if name !in names && b == |st| {
        assert names[a] == st[a].0;
      }
    }
  }

  // ---------------------------------------------------------------
  // PipelineTrace

  /** What `to_dict` reports; timestamps stay numbers (the ISO formatting
   *  is not modelled). */
  datatype TraceDict = TraceDict(
    query: string,
    startTime: real,
    endTime: Option<real>,
    totalDuration: real,
    stages: Stages,
    metadata: Metadata,
    error: Option<string>,
    success: bool)

  class PipelineTrace {
    const query: string
    const startTime: real
    var endTime: Option<real>
    var stages: Stages
    const metadata: Metadata
    var error: Option<string>

    constructor(query: string, startTime: real, metadata: Metadata)
      ensures this.query == query && this.startTime == startTime && this.metadata == metadata
      ensures endTime == None && stages == [] && error == None
    {
      this.query := query;
      this.startTime := startTime;
      this.metadata := metadata;
      endTime := None;
      stages := [];
      error := None;
    }

    /** add_stage; a missing metadata argument becomes {}. */
    method AddStage(name: string, duration: real, metadata: Option<Metadata>)
      modifies this
      ensures stages == AssignStage(old(stages), name, StageInfo(duration, metadata.GetOr(map[])))
      ensures endTime == old(endTime) && error == old(error)
    {
      stages := AssignStage(stages, name, StageInfo(duration, metadata.GetOr(map[])));
    }

    method Finish(error: Option<string>, now: real)
      modifies this
      ensures endTime == Some(now) && this.error == error
      ensures stages == old(stages)
    {
      endTime := Some(now);
      this.error := error;
    }

    /** 0.0 until finished, then end minus start. */
    function TotalDuration(): (r: real)
      reads this
      ensures endTime.None? ==> r == 0.0
      ensures endTime.Some? && endTime.value >= startTime ==> r >= 0.0
      ensures endTime.Some? ==> startTime + r == endTime.value
    {
      if endTime.None? then 0.0 else endTime.value - startTime
    }

    /** to_dict: the query cut to 100 characters, success iff no error. An
     *  end time of exactly 0.0 is falsy and reported as None. */
    function ToDict(): (r: TraceDict)
      reads this
      ensures |r.query| <= 100 && |r.query| <= |query| && r.query == query[..|r.query|]
      ensures |query| <= 100 ==> r.query == query
      ensures r.success <==> error.None?
      ensures r.error == error && r.stages == stages && r.totalDuration == TotalDuration()
      ensures r.endTime.Some? ==> r.endTime == endTime
    {
      TraceDict(PyTake(query, 100), startTime,
                if endTime.Some? && endTime.value != 0.0 then endTime else None,
                TotalDuration(), stages, metadata, error, error.None?)
    }
  }

  // ---------------------------------------------------------------
  // MetricsCollector (in-memory counters)

  const MaxTraces: nat := 100

  /** traces.append(t), then pop(0) once when over the cap. */
  function AppendBounded<T>(s: seq<T>, x: T, cap: nat): seq<T> {
    if |s + [x]| > cap then (s + [x])[1..] else s + [x]
  }

  /** Within the cap the buffer keeps the newest entries: the appended one
   *  last, the oldest evicted first. */
  lemma AppendBoundedProps<T>(s: seq<T>, x: T, cap: nat)
    requires 0 < cap && |s| <= cap
    ensures var r := AppendBounded(s, x, cap);
      && |r| == (if |s| < cap then |s| + 1 else cap)
      && r[|r| - 1] == x
      && r == (s + [x])[|s| + 1 - |r|..]
  {
  }

  datatype Requests = Requests(total: nat, success: nat, error: nat)

  function CountRequest(c: Requests, success: bool): (r: Requests)
    ensures r.total == c.total + 1
    ensures c.success + c.error == c.total ==> r.success + r.error == r.total
    ensures success <==> r.success == c.success + 1
    ensures success <==> r.error == c.error
  {
    if success then Requests(c.total + 1, c.success + 1, c.error)
    else Requests(c.total + 1, c.success, c.error + 1)
  }

  /** Adds one to the count under `key`, starting from 0. */
  function Bump(m: map<string, nat>, key: string): (r: map<string, nat>)
    ensures key in r && r[key] == (if key in m then m[key] else 0) + 1
    ensures forall k :: k in m && k != key ==> k in r && r[k] == m[k]
    ensures r.Keys == m.Keys + {key}
  {
    m[key := (if key in m then m[key] else 0) + 1]
  }

  /** Appends `d` to the list under `key`, starting from []. */
  function AppendDuration(m: map<string, seq<real>>, key: string, d: real): (r: map<string, seq<real>>)
    ensures key in r && r[key] == (if key in m then m[key] else []) + [d]
    ensures forall k :: k in m && k != key ==> k in r && r[k] == m[k]
    ensures r.Keys == m.Keys + {key}
  {
    m[key := (if key in m then m[key] else []) + [d]]
  }

  /** A failure raised inside a traced pipeline: the exception's class
   *  name and its message. */
  datatype Raised = Raised(typeName: string, message: string)

  class MetricsCollector {
    const port: int
    var traces: seq<PipelineTrace>
    var requests: Requests
    var cacheHits: nat
    var cacheMisses: nat
    var totalResults: int
    var totalQueries: nat
    var promptTokens: int
    var completionTokens: int
    var errors: map<string, nat>
    var stageDurations: map<string, seq<real>>

    ghost predicate Valid()
      reads this
    {
      |traces| <= MaxTraces && requests.success + requests.error == requests.total
    }

    constructor(port: int := 8000)
      ensures Valid()
      ensures traces == [] && requests == Requests(0, 0, 0)
      ensures cacheHits == 0 && cacheMisses == 0 && totalResults == 0 && totalQueries == 0
      ensures promptTokens == 0 && completionTokens == 0 && errors == map[] && stageDurations == map[]
    {
      this.port := port;
      traces := [];
      requests := Requests(0, 0, 0);
      cacheHits, cacheMisses := 0, 0;
      totalResults, totalQueries := 0, 0;
      promptTokens, completionTokens := 0, 0;
      errors := map[];
      stageDurations := map[];
    }

    /** Entering trace_pipeline: a fresh trace started at `now`. */
    method StartTrace(query: string, metadata: Option<Metadata>, now: real) returns (t: PipelineTrace)
      ensures fresh(t)
      ensures t.query == query && t.startTime == now && t.metadata == metadata.GetOr(map[])
      ensures t.endTime == None && t.stages == [] && t.error == None
    {
      t := new PipelineTrace(query, now, metadata.GetOr(map[]));
    }

    /** Leaving trace_pipeline, normally (`raised` is None) or by an
     *  exception it records and the caller re-raises. */
    method EndTrace(t: PipelineTrace, raised: Option<Raised>, now: real)
      requires Valid()
      modifies this, t
      ensures Valid()
      ensures t.endTime == Some(now) && t.stages == old(t.stages)
      ensures t.error == (if raised.Some? then Some(raised.value.message) else None)
      ensures requests == CountRequest(old(requests), raised.None?)
      ensures errors == if raised.Some? then Bump(old(errors), raised.value.typeName) else old(errors)
      ensures traces == AppendBounded(old(traces), t, MaxTraces)
      ensures cacheHits == old(cacheHits) && cacheMisses == old(cacheMisses)
      ensures totalResults == old(totalResults) && totalQueries == old(totalQueries)
      ensures promptTokens == old(promptTokens) && completionTokens == old(completionTokens)
      ensures stageDurations == old(stageDurations)
    {
      if raised.None? {
        t.Finish(None, now);
        RecordRequest(true);
      } else {
        t.Finish(Some(raised.value.message), now);
        RecordRequest(false);
        RecordError(raised.value.typeName);
      }
      StoreTrace(t);
    }

    /** The finally block of trace_pipeline: keep the trace, evicting the
     *  oldest one beyond the cap. */
    method StoreTrace(t: PipelineTrace)
      requires |traces| <= MaxTraces
      modifies this
      ensures traces == AppendBounded(old(traces), t, MaxTraces) && |traces| <= MaxTraces
      ensures requests == old(requests) && errors == old(errors) && stageDurations == old(stageDurations)
      ensures cacheHits == old(cacheHits) && cacheMisses == old(cacheMisses)
      ensures totalResults == old(totalResults) && totalQueries == old(totalQueries)
      ensures promptTokens == old(promptTokens) && completionTokens == old(completionTokens)
    {
      AppendBoundedProps(traces, t, MaxTraces);
      traces := traces + [t];
      if |traces| > MaxTraces {
        traces := traces[1..];
      }
    }

    /** Leaving measure_stage, whether or not its body raised. */
    method MeasureStage(t: PipelineTrace, name: string, metadata: Option<Metadata>, start: real, end: real)
      modifies this, t
      ensures t.stages == AssignStage(old(t.stages), name, StageInfo(end - start, metadata.GetOr(map[])))
      ensures t.endTime == old(t.endTime) && t.error == old(t.error)
      ensures stageDurations == AppendDuration(old(stageDurations), name, end - start)
      ensures traces == old(traces) && requests == old(requests) && errors == old(errors)
      ensures cacheHits == old(cacheHits) && cacheMisses == old(cacheMisses)
      ensures totalResults == old(totalResults) && totalQueries == old(totalQueries)
      ensures promptTokens == old(promptTokens) && completionTokens == old(completionTokens)
    {
      var duration := end - start;
      t.AddStage(name, duration, metadata);
      stageDurations := AppendDuration(stageDurations, name, duration);
    }

    method RecordRequest(success: bool)
      modifies this
      ensures requests == CountRequest(old(requests), success)
      ensures traces == old(traces) && errors == old(errors) && stageDurations == old(stageDurations)
      ensures cacheHits == old(cacheHits) && cacheMisses == old(cacheMisses)
      ensures totalResults == old(totalResults) && totalQueries == old(totalQueries)
      ensures promptTokens == old(promptTokens) && completionTokens == old(completionTokens)
    {
      requests := CountRequest(requests, success);
    }

    method RecordCacheHit()
      modifies this
      ensures cacheHits == old(cacheHits) + 1 && cacheMisses == old(cacheMisses)
      ensures traces == old(traces) && requests == old(requests)
      ensures totalResults == old(totalResults) && totalQueries == old(totalQueries)
      ensures promptTokens == old(promptTokens) && completionTokens == old(completionTokens)
      ensures errors == old(errors) && stageDurations == old(stageDurations)
    {
      cacheHits := cacheHits + 1;
    }

    method RecordCacheMiss()
      modifies this
      ensures cacheMisses == old(cacheMisses) + 1 && cacheHits == old(cacheHits)
      ensures traces == old(traces) && requests == old(requests)
      ensures totalResults == old(totalResults) && totalQueries == old(totalQueries)
      ensures promptTokens == old(promptTokens) && completionTokens == old(completionTokens)
      ensures errors == old(errors) && stageDurations == old(stageDurations)
    {
      cacheMisses := cacheMisses + 1;
    }

    /** Adds the result count and one query; the similarity list is only
     *  used by the Prometheus path. */
    method RecordRetrieval(numResults: int, similarities: seq<real>)
      modifies this
      ensures totalResults == old(totalResults) + numResults && totalQueries == old(totalQueries) + 1
      ensures traces == old(traces) && requests == old(requests)
      ensures cacheHits == old(cacheHits) && cacheMisses == old(cacheMisses)
      ensures promptTokens == old(promptTokens) && completionTokens == old(completionTokens)
      ensures errors == old(errors) && stageDurations == old(stageDurations)
    {
      totalResults := totalResults + numResults;
      totalQueries := totalQueries + 1;
    }

    method RecordTokenUsage(prompt: int, completion: int)
      modifies this
      ensures promptTokens == old(promptTokens) + prompt
      ensures completionTokens == old(completionTokens) + completion
      ensures traces == old(traces) && requests == old(requests)
      ensures cacheHits == old(cacheHits) && cacheMisses == old(cacheMisses)
      ensures totalResults == old(totalResults) && totalQueries == old(totalQueries)
      ensures errors == old(errors) && stageDurations == old(stageDurations)
    {
      promptTokens := promptTokens + prompt;
      completionTokens := completionTokens + completion;
    }

    method RecordError(typeName: string)
      modifies this
      ensures errors == Bump(old(errors), typeName)
      ensures traces == old(traces) && requests == old(requests) && stageDurations == old(stageDurations)
      ensures cacheHits == old(cacheHits) && cacheMisses == old(cacheMisses)
      ensures totalResults == old(totalResults) && totalQueries == old(totalQueries)
      ensures promptTokens == old(promptTokens) && completionTokens == old(completionTokens)
    {
      errors := Bump(errors, typeName);
    }

    /** The last `limit` traces as dictionaries, oldest first; a limit of
     *  0 gives all of them. */
    method GetRecentTraces(limit: int := 10) returns (r: seq<TraceDict>)
      ensures |r| == |PyDrop(traces, -limit)|
      ensures forall i :: 0 <= i < |r| ==> r[i] == PyDrop(traces, -limit)[i].ToDict()
      ensures limit == 0 ==> |r| == |traces|
      ensures limit > 0 ==> |r| == if limit < |traces| then limit else |traces|
    {
      var sel := PyDrop(traces, -limit);
      r := [];
      var i := 0;
      while i < |sel|
        invariant 0 <= i <= |sel|
        invariant |r| == i
        invariant forall j :: 0 <= j < i ==> r[j] == sel[j].ToDict()
      {
        r := r + [sel[i].ToDict()];
        i := i + 1;
      }
    }
  }
}

/** Metric shipping: the document `_storeMetric` posts, and the `erroring`
    debounce driven by each insert's completion. */
module Shipping {
  import opened Wire
  import opened Config

  datatype Kind = Counter | Gauge

  function KindName(k: Kind): string {
    match k
    case Counter => "counter"
    case Gauge => "gauge"
  }

  /** One report's counters and gauges, in the order `for...in` lists their names. */
  datatype Metrics = Metrics(counters: seq<(string, int)>, gauges: seq<(string, int)>)

  const FixedKeys: set<string> := {"timestamp", "name", "value", "type"}

  /** Assigning a number to this key of a plain object runs the prototype
      setter, which ignores it: no property is added. */
  const ProtoKey := "__proto__"

  /** The document for one metric: the four fixed fields, and then the metric's
      own name as an extra key holding its value. When the name is one of
      the fixed keys, that field is overwritten by the value; a metric named
      `__proto__` adds no key. */
  function Record(ts: int, kind: Kind, name: string, value: int): (r: map<string, Field>)
    ensures r.Keys == FixedKeys + (if name == ProtoKey then {} else {name})
    ensures name != ProtoKey ==> r[name] == Number(value)
    ensures name != "timestamp" ==> r["timestamp"] == Time(ts)
    ensures name != "name" ==> r["name"] == Text(name)
    ensures r["value"] == Number(value)
    ensures name != "type" ==> r["type"] == Text(KindName(kind))
  {
    var record := map["timestamp" := Time(ts), "name" := Text(name),
                       "value" := Number(value), "type" := Text(KindName(kind))];
    if name == ProtoKey then record else record[name := Number(value)]
  }

  /** The insert `_storeMetric` issues for one metric: a POST to the insert
      URL of a document with the four fixed fields and the metric's value. */
  function InsertRequest(t: Target, ts: int, kind: Kind, name: string, value: int): (r: Request)
    ensures r.verb == POST && r.url == t.base + "/" + t.index + "/" + t.docType
    ensures r.body.Document? && FixedKeys <= r.body.fields.Keys && r.body.fields["value"] == Number(value)
  {
    Request(POST, InsertUrl(t), Document(Record(ts, kind, name, value)))
  }

  /** A metric whose name is neither a fixed key nor `__proto__` is posted to
      the insert URL with all four fields intact and the self-named copy of
      its value. */
  lemma InsertCarriesMetric(t: Target, ts: int, kind: Kind, name: string, value: int)
    requires name !in FixedKeys && name != ProtoKey
    ensures var r := InsertRequest(t, ts, kind, name, value);
      && r.verb == POST && r.url == t.base + "/" + t.index + "/" + t.docType
      && r.body.Document? && |r.body.fields| == 5
      && r.body.fields == map["timestamp" := Time(ts), "name" := Text(name), "value" := Number(value),
                              "type" := Text(KindName(kind)), name := Number(value)]
  {
  }

  /** A metric named after a fixed key is posted with only four fields, and
      that field holds the metric's value: a counter called `type` loses its
      `counter` tag. */
  lemma CollidingNameOverwritesField(ts: int, kind: Kind, name: string, value: int)
    requires name in FixedKeys
    ensures |Record(ts, kind, name, value)| == 4
    ensures Record(ts, kind, name, value)[name] == Number(value)
  {
  }

  /** A metric named `__proto__` is posted with the four fixed fields only,
      all intact, and no self-named copy. */
  lemma ProtoNameAddsNoKey(ts: int, kind: Kind, value: int)
    ensures Record(ts, kind, ProtoKey, value) ==
              map["timestamp" := Time(ts), "name" := Text(ProtoKey), "value" := Number(value),
                  "type" := Text(KindName(kind))]
    ensures |Record(ts, kind, ProtoKey, value)| == 4
  {
  }

  // ---------------------------------------------------------------------
  // Delivery-error debounce

  /** What the insert callback logs. */
  datatype LogEvent = SaveFailed | InsertFailed(status: int, message: string) | Recovered

  /** An insert failed: the transport failed, or the status was not 201. */
  predicate Failed(r: Response) {
    r.TransportError? || r.status != 201
  }

  function FailureLog(r: Response): LogEvent
    requires Failed(r)
  {
    if r.TransportError? then SaveFailed else InsertFailed(r.status, r.message)
  }

  function AsSeq(log: Option<LogEvent>): seq<LogEvent> {
    if log.Some? then [log.value] else []
  }

  /** One insert completion against the `erroring` flag: the new flag and
      the log line emitted, if any. A line is emitted exactly when the flag
      flips: a failure log on entering the error state, a recovery log on
      leaving it. */
  function Complete(erroring: bool, r: Response): (s: (bool, Option<LogEvent>))
    ensures s.0 == Failed(r)
    ensures s.1.Some? <==> s.0 != erroring
    ensures s.1.Some? && s.0 ==> s.1.value == FailureLog(r)
    ensures s.1.Some? && !s.0 ==> s.1.value == Recovered
  {
    if r.TransportError? then
      if erroring then (true, None) else (true, Some(SaveFailed))
    else if r.status != 201 then
      if erroring then (true, None) else (true, Some(InsertFailed(r.status, r.message)))
    else if erroring then (false, Some(Recovered))
    else (false, None)
  }

  /** A sequence of insert completions, in the order they arrive: the final
      flag and every log line, in order. */
  function Trace(erroring: bool, rs: seq<Response>): (bool, seq<LogEvent>)
    decreases rs
  {
    if rs == [] then (erroring, [])
    else
      var step := Complete(erroring, rs[0]);
      var rest := Trace(step.0, rs[1..]);
      (rest.0, AsSeq(step.1) + rest.1)
  }

  predicate AllFailed(rs: seq<Response>) {
    forall i :: 0 <= i < |rs| ==> Failed(rs[i])
  }

  predicate AllSucceeded(rs: seq<Response>) {
    forall i :: 0 <= i < |rs| ==> !Failed(rs[i])
  }

  /** Log lines alternate between failures and recoveries; starting from
      `erroring`, the first one is a recovery exactly when `erroring` holds. */
  predicate Alternating(erroring: bool, logs: seq<LogEvent>) {
    forall i :: 0 <= i < |logs| ==> (logs[i].Recovered? <==> (erroring == (i % 2 == 0)))
  }

  lemma {:induction false} TraceAppend(erroring: bool, a: seq<Response>, b: seq<Response>)
    ensures Trace(erroring, a + b) ==
              (Trace(Trace(erroring, a).0, b).0, Trace(erroring, a).1 + Trace(Trace(erroring, a).0, b).1)
    decreases a
  {
    if a == [] {
      assert a + b == b;
      assert Trace(erroring, a).1 + Trace(erroring, b).1 == Trace(erroring, b).1;
    } else {
      var step := Complete(erroring, a[0]);
      assert (a + b)[0] == a[0] && (a + b)[1..] == a[1..] + b;
      TraceAppend(step.0, a[1..], b);
      var mid := Trace(step.0, a[1..]);
      var tail := Trace(mid.0, b);
      assert Trace(erroring, a) == (mid.0, AsSeq(step.1) + mid.1);
      assert Trace(erroring, a + b) == (tail.0, AsSeq(step.1) + (mid.1 + tail.1));
      assert AsSeq(step.1) + (mid.1 + tail.1) == (AsSeq(step.1) + mid.1) + tail.1;
    }
  }

  /** While already erroring, failures change nothing and log nothing. */
  lemma {:induction false} FailuresWhileErroringAreSilent(rs: seq<Response>)
    requires AllFailed(rs)
    ensures Trace(true, rs) == (true, [])
  {
    if rs != [] {
      assert AllFailed(rs[1..]) by {
        forall i | 0 <= i < |rs[1..]| ensures Failed(rs[1..][i]) { assert rs[1..][i] == rs[i + 1]; }
      }
      FailuresWhileErroringAreSilent(rs[1..]);
      assert Trace(true, rs) == (Trace(true, rs[1..]).0, AsSeq(Complete(true, rs[0]).1) + Trace(true, rs[1..]).1);
      assert AsSeq(Complete(true, rs[0]).1) == [];
      assert Trace(true, rs).1 == [];
    }
  }

  /** While healthy, successes change nothing and log nothing. */
  lemma {:induction false} SuccessesWhileHealthyAreSilent(rs: seq<Response>)
    requires AllSucceeded(rs)
    ensures Trace(false, rs) == (false, [])
  {
    if rs != [] {
      assert AllSucceeded(rs[1..]) by {
        forall i | 0 <= i < |rs[1..]| ensures !Failed(rs[1..][i]) { assert rs[1..][i] == rs[i + 1]; }
      }
      SuccessesWhileHealthyAreSilent(rs[1..]);
      assert Trace(false, rs) == (Trace(false, rs[1..]).0, AsSeq(Complete(false, rs[0]).1) + Trace(false, rs[1..]).1);
      assert AsSeq(Complete(false, rs[0]).1) == [];
      assert Trace(false, rs).1 == [];
    }
  }

  /** N >= 1 failures after a healthy period log exactly once, for the first. */
  lemma FailureBurstLogsOnce(rs: seq<Response>)
    requires |rs| >= 1 && AllFailed(rs)
    ensures Trace(false, rs) == (true, [FailureLog(rs[0])])
  {
    assert AllFailed(rs[1..]) by {
      forall i | 0 <= i < |rs[1..]| ensures Failed(rs[1..][i]) { assert rs[1..][i] == rs[i + 1]; }
    }
    FailuresWhileErroringAreSilent(rs[1..]);
    assert Trace(false, rs) == (Trace(true, rs[1..]).0, AsSeq(Complete(false, rs[0]).1) + Trace(true, rs[1..]).1);
    assert AsSeq(Complete(false, rs[0]).1) == [FailureLog(rs[0])];
    assert Trace(false, rs).1 == [FailureLog(rs[0])];
  }

  /** N >= 1 failures and then one success log exactly twice: the first
      failure and the recovery. */
  lemma FailureBurstThenRecoveryLogsTwice(rs: seq<Response>, ok: Response)
    requires |rs| >= 1 && AllFailed(rs) && !Failed(ok)
    ensures Trace(false, rs + [ok]) == (false, [FailureLog(rs[0]), Recovered])
  {
    FailureBurstLogsOnce(rs);
    TraceAppend(false, rs, [ok]);
    assert [ok][0] == ok && [ok][1..] == [];
    assert Trace(true, [ok]) == (Trace(false, []).0, AsSeq(Complete(true, ok).1) + Trace(false, []).1);
    assert Trace(true, [ok]).0 == false && Trace(true, [ok]).1 == [Recovered];
    assert Trace(false, rs + [ok]).0 == false;
    assert Trace(false, rs + [ok]).1 == [FailureLog(rs[0])] + [Recovered];
    assert [FailureLog(rs[0])] + [Recovered] == [FailureLog(rs[0]), Recovered];
  }

  /** Over any order of completions: log lines alternate between entering
      and leaving the error state, there are never more lines than
      completions, and the flag has flipped once per line. */
  lemma {:induction false} LogsAlternate(erroring: bool, rs: seq<Response>)
    ensures Alternating(erroring, Trace(erroring, rs).1)
    ensures |Trace(erroring, rs).1| <= |rs|
    ensures Trace(erroring, rs).0 == (if |Trace(erroring, rs).1| % 2 == 0 then erroring else !erroring)
    decreases rs
  {
    if rs != [] {
      var step := Complete(erroring, rs[0]);
      LogsAlternate(step.0, rs[1..]);
      var rest := Trace(step.0, rs[1..]).1;
      var logs := Trace(erroring, rs).1;
      if step.1.Some? {
        assert logs == [step.1.value] + rest;
        forall i | 0 <= i < |logs|
          ensures logs[i].Recovered? <==> (erroring == (i % 2 == 0))
        {
          if i > 0 {
            assert logs[i] == rest[i - 1];
          }
        }
      } else {
        assert logs == rest;
      }
    }
  }

  /** After at least one completion the flag says whether the last one failed. */
  lemma {:induction false} FlagFollowsLastCompletion(erroring: bool, rs: seq<Response>)
    requires |rs| >= 1
    ensures Trace(erroring, rs).0 == Failed(rs[|rs| - 1])
    decreases rs
  {
    if |rs| > 1 {
      FlagFollowsLastCompletion(Complete(erroring, rs[0]).0, rs[1..]);
    }
  }
}

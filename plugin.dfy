/** The plugin object: its fixed target, the `erroring` flag its insert
    callbacks update, and whether `start` has registered the report listener. */
module Plugin {
  import opened Wire
  import opened Config
  import opened Provisioning
  import opened Shipping

  /** `posts` is one insert per counter, in order, then one per gauge, in
      order, all carrying the report's timestamp. */
  predicate FansOut(t: Target, ts: int, metrics: Metrics, posts: seq<Request>) {
    && |posts| == |metrics.counters| + |metrics.gauges|
    && (forall i :: 0 <= i < |metrics.counters| ==>
          posts[i] == InsertRequest(t, ts, Counter, metrics.counters[i].0, metrics.counters[i].1))
    && (forall j :: 0 <= j < |metrics.gauges| ==>
          posts[|metrics.counters| + j] == InsertRequest(t, ts, Gauge, metrics.gauges[j].0, metrics.gauges[j].1))
  }

  /** Every store attempt of a report is a POST to the insert URL of a
      document that has all four fixed fields. */
  lemma FanOutTargetsInsertUrl(t: Target, ts: int, metrics: Metrics, posts: seq<Request>)
    requires FansOut(t, ts, metrics, posts)
    ensures forall k :: 0 <= k < |posts| ==>
              && posts[k].verb == POST && posts[k].url == InsertUrl(t) && posts[k].body.Document?
              && FixedKeys <= posts[k].body.fields.Keys
  {
    forall k | 0 <= k < |posts|
      ensures && posts[k].verb == POST && posts[k].url == InsertUrl(t) && posts[k].body.Document?
              && FixedKeys <= posts[k].body.fields.Keys
    {
      if k < |metrics.counters| {
        assert posts[k] == InsertRequest(t, ts, Counter, metrics.counters[k].0, metrics.counters[k].1);
      } else {
        var j := k - |metrics.counters|;
        assert posts[|metrics.counters| + j] == InsertRequest(t, ts, Gauge, metrics.gauges[j].0, metrics.gauges[j].1);
      }
    }
  }

  /** A report with the single counter `a = 1` and no gauges posts exactly
      one document: name `a`, value 1, type `counter`, the report's timestamp. */
  lemma SingleCounterReport(t: Target, ts: int, posts: seq<Request>)
    requires FansOut(t, ts, Metrics([("a", 1)], []), posts)
    ensures |posts| == 1 && posts[0].verb == POST && posts[0].url == InsertUrl(t)
    ensures posts[0].body == Document(map["timestamp" := Time(ts), "name" := Text("a"), "value" := Number(1),
                                          "type" := Text("counter"), "a" := Number(1)])
  {
  }

  class ElasticsearchPlugin {
    const target: Target
    var erroring: bool
    var subscribed: bool

    /** The environment lookups are parameters; `erroring` starts out unset,
        which the callbacks read as false. */
    constructor (envUrl: Option<string>, envIndex: Option<string>, envType: Option<string>)
      ensures target == Resolve(envUrl, envIndex, envType)
      ensures !erroring && !subscribed
    {
      target := Resolve(envUrl, envIndex, envType);
      erroring := false;
      subscribed := false;
    }

    /** `start` against the given store answers: the requests issued and how
        the returned promise settles; the listener is registered only when
        both ensure steps resolve. */
    method Start(replies: StoreReplies) returns (outcome: Outcome, requests: seq<Request>)
      modifies this`subscribed
      ensures var s := Provision(target, replies); outcome == s.outcome && requests == s.requests
      ensures subscribed == (old(subscribed) || outcome.Resolved?)
    {
      var index := EnsureIndex(target, replies.indexProbe, replies.indexCreate);
      requests, outcome := index.requests, index.outcome;
      if outcome.Resolved? {
        var mapping := EnsureType(target, replies.typeProbe, replies.typeCreate);
        requests, outcome := requests + mapping.requests, mapping.outcome;
        if outcome.Resolved? {
          subscribed := true;
        }
      }
    }

    /** `_onReport`: one `_storeMetric` per counter, then one per gauge. */
    method OnReport(ts: int, metrics: Metrics) returns (posts: seq<Request>)
      ensures FansOut(target, ts, metrics, posts)
    {
      posts := [];
      var kind: Kind;
      var value: int;
      for i := 0 to |metrics.counters|
        invariant |posts| == i
        invariant forall k :: 0 <= k < i ==>
                    posts[k] == InsertRequest(target, ts, Counter, metrics.counters[k].0, metrics.counters[k].1)
      {
        kind := Counter;
        value := metrics.counters[i].1;
        posts := posts + [InsertRequest(target, ts, kind, metrics.counters[i].0, value)];
      }
      var c := |posts|;
      for j := 0 to |metrics.gauges|
        invariant |posts| == c + j
        invariant forall k :: 0 <= k < c ==>
                    posts[k] == InsertRequest(target, ts, Counter, metrics.counters[k].0, metrics.counters[k].1)
        invariant forall k :: 0 <= k < j ==>
                    posts[c + k] == InsertRequest(target, ts, Gauge, metrics.gauges[k].0, metrics.gauges[k].1)
      {
        kind := Gauge;
        value := metrics.gauges[j].1;
        posts := posts + [InsertRequest(target, ts, kind, metrics.gauges[j].0, value)];
      }
    }

    /** The metrics server emitting `report`: it reaches `_onReport` only
        once `start` has subscribed, and otherwise nothing is posted. */
    method Report(ts: int, metrics: Metrics) returns (posts: seq<Request>)
      ensures subscribed ==> FansOut(target, ts, metrics, posts)
      ensures !subscribed ==> posts == []
    {
      if subscribed {
        posts := OnReport(ts, metrics);
      } else {
        posts := [];
      }
    }

    /** The `_storeMetric` callback: one insert completes, `erroring` is
        updated and at most one line is logged. */
    method OnInsertComplete(response: Response) returns (log: Option<LogEvent>)
      modifies this`erroring
      ensures (erroring, log) == Complete(old(erroring), response)
    {
      log := None;
      if response.TransportError? {
        if erroring {
          return;
        }
        erroring := true;
        log := Some(SaveFailed);
        return;
      }
      if response.status != 201 {
        if erroring {
          return;
        }
        erroring := true;
        log := Some(InsertFailed(response.status, response.message));
        return;
      }
      if erroring {
        log := Some(Recovered);
        erroring := false;
      }
    }
  }
}

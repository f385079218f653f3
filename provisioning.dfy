/** Start-up provisioning: probe the index, create it if absent, then probe
    the document mapping and create it if absent. */
module Provisioning {
  import opened Wire
  import opened Config

  datatype Resource = Index | Type

  /** Why a provisioning step rejected: the transport failed on the probe or
      the create request, or the create request answered with another status. */
  datatype ProvisionError = TransportFailure | CreateFailed(resource: Resource, status: int, message: string)

  datatype Outcome = Resolved | Rejected(error: ProvisionError)

  /** What one ensure step did: the requests it issued in order, and how it settled. */
  datatype Step = Step(requests: seq<Request>, outcome: Outcome)

  /** The answers the store gives to the four provisioning requests, when asked. */
  datatype StoreReplies = StoreReplies(indexProbe: Response, indexCreate: Response,
                                       typeProbe: Response, typeCreate: Response)

  /** What `start` did: all requests issued, how it settled, and whether the
      report listener was registered. */
  datatype Startup = Startup(requests: seq<Request>, outcome: Outcome, subscribed: bool)

  /** `{settings: {}}` */
  const IndexSettings := JObject([("settings", JObject([]))])

  function FieldType(esType: string): Json {
    JObject([("type", JString(esType))])
  }

  /** `{properties: {name: text, value: double, timestamp: date, type: keyword}}` */
  const TypeMapping := JObject([("properties", JObject([
    ("name", FieldType("text")),
    ("value", FieldType("double")),
    ("timestamp", FieldType("date")),
    ("type", FieldType("keyword"))]))])

  /** A probe answer that makes the step try to create the resource. */
  predicate Absent(probe: Response) {
    probe.Reply? && probe.status != 200
  }

  /** How many of `requests` are PUTs; none exactly when no request is a PUT. */
  function CountPuts(requests: seq<Request>): (n: nat)
    ensures n == 0 <==> forall i :: 0 <= i < |requests| ==> requests[i].verb != PUT
  {
    if requests == [] then 0
    else (if requests[0].verb == PUT then 1 else 0) + CountPuts(requests[1..])
  }

  /** The probe-then-create decision tree shared by `_ensureIndex` and
      `_ensureType`: HEAD the URL; 200 means present; a transport error
      rejects; any other status issues one PUT of `schema`, and only a 200
      answer to it resolves. `create` is consulted only when the PUT is issued. */
  function Ensure(resource: Resource, url: string, schema: Json, probe: Response, create: Response): (s: Step)
    ensures |s.requests| >= 1 && s.requests[0] == Request(HEAD, url, NoBody)
    ensures Absent(probe) ==> s.requests == [Request(HEAD, url, NoBody), Request(PUT, url, JsonBody(schema))]
    ensures !Absent(probe) ==> s.requests == [Request(HEAD, url, NoBody)]
    ensures CountPuts(s.requests) == if Absent(probe) then 1 else 0
    ensures s.outcome.Resolved? <==> HasStatus(probe, 200) || (Absent(probe) && HasStatus(create, 200))
    ensures s.outcome == Rejected(TransportFailure) <==>
              probe.TransportError? || (Absent(probe) && create.TransportError?)
    ensures Absent(probe) && create.Reply? && create.status != 200 ==>
              s.outcome == Rejected(CreateFailed(resource, create.status, create.message))
  {
    var head := Request(HEAD, url, NoBody);
    if probe.TransportError? then Step([head], Rejected(TransportFailure))
    else if probe.status == 200 then Step([head], Resolved)
    else
      var put := Request(PUT, url, JsonBody(schema));
      if create.TransportError? then Step([head, put], Rejected(TransportFailure))
      else if create.status == 200 then Step([head, put], Resolved)
      else Step([head, put], Rejected(CreateFailed(resource, create.status, create.message)))
  }

  /** `_ensureIndex`: the decision tree on the index URL with an empty settings body. */
  function EnsureIndex(t: Target, probe: Response, create: Response): (s: Step)
    ensures forall r <- s.requests :: r.url == t.base + "/" + t.index
    ensures forall r <- s.requests :: r.verb == PUT ==> r.body == JsonBody(IndexSettings)
    ensures s.outcome.Resolved? <==> HasStatus(probe, 200) || (Absent(probe) && HasStatus(create, 200))
  {
    Ensure(Index, IndexUrl(t), IndexSettings, probe, create)
  }

  /** `_ensureType`: the decision tree on the mapping URL with the fixed field schema. */
  function EnsureType(t: Target, probe: Response, create: Response): (s: Step)
    ensures forall r <- s.requests :: r.url == t.base + "/" + t.index + "/_mapping/" + t.docType
    ensures forall r <- s.requests :: r.verb == PUT ==> r.body == JsonBody(TypeMapping)
    ensures s.outcome.Resolved? <==> HasStatus(probe, 200) || (Absent(probe) && HasStatus(create, 200))
  {
    Ensure(Type, MappingUrl(t), TypeMapping, probe, create)
  }

  /** `start`: ensure the index, then (only if that resolved) ensure the
      mapping, then (only if that resolved) subscribe. The first rejection
      is the result. */
  function Provision(t: Target, replies: StoreReplies): (r: Startup)
    ensures r.subscribed <==> r.outcome.Resolved?
    ensures r.outcome.Resolved? <==>
              EnsureIndex(t, replies.indexProbe, replies.indexCreate).outcome.Resolved? &&
              EnsureType(t, replies.typeProbe, replies.typeCreate).outcome.Resolved?
    ensures !EnsureIndex(t, replies.indexProbe, replies.indexCreate).outcome.Resolved? ==>
              r.outcome == EnsureIndex(t, replies.indexProbe, replies.indexCreate).outcome &&
              forall q <- r.requests :: q.url == IndexUrl(t)
    ensures EnsureIndex(t, replies.indexProbe, replies.indexCreate).outcome.Resolved? ==>
              r.outcome == EnsureType(t, replies.typeProbe, replies.typeCreate).outcome
    ensures r.requests == EnsureIndex(t, replies.indexProbe, replies.indexCreate).requests +
              (if EnsureIndex(t, replies.indexProbe, replies.indexCreate).outcome.Resolved?
               then EnsureType(t, replies.typeProbe, replies.typeCreate).requests else [])
    ensures 1 <= |r.requests| <= 4 && r.requests[0] == Request(HEAD, IndexUrl(t), NoBody)
  {
    var index := EnsureIndex(t, replies.indexProbe, replies.indexCreate);
    if index.outcome.Rejected? then Startup(index.requests, index.outcome, false)
    else
      var mapping := EnsureType(t, replies.typeProbe, replies.typeCreate);
      Startup(index.requests + mapping.requests, mapping.outcome, mapping.outcome.Resolved?)
  }

  /** Against a store that already has the index and the mapping, `start`
      issues exactly the two probes, no PUT, and subscribes. */
  lemma ProvisionedStoreIsLeftAlone(t: Target, replies: StoreReplies)
    requires HasStatus(replies.indexProbe, 200) && HasStatus(replies.typeProbe, 200)
    ensures Provision(t, replies) ==
              Startup([Request(HEAD, IndexUrl(t), NoBody), Request(HEAD, MappingUrl(t), NoBody)], Resolved, true)
    ensures CountPuts(Provision(t, replies).requests) == 0
  {
  }

  /** `start` issues one PUT per resource the probes report absent, and never more. */
  lemma ProvisionCreatesOnlyWhatIsAbsent(t: Target, replies: StoreReplies)
    ensures CountPuts(Provision(t, replies).requests) ==
              (if Absent(replies.indexProbe) then 1 else 0) +
              (if EnsureIndex(t, replies.indexProbe, replies.indexCreate).outcome.Resolved? &&
                  Absent(replies.typeProbe) then 1 else 0)
  {
  }

  /** Cold start: both probes answer 404 and both creates answer 200, so
      `start` issues HEAD, PUT, HEAD, PUT in that order and subscribes. */
  lemma ColdStart(t: Target, m: string)
    ensures Provision(t, StoreReplies(Reply(404, m), Reply(200, m), Reply(404, m), Reply(200, m))) ==
              Startup([Request(HEAD, IndexUrl(t), NoBody), Request(PUT, IndexUrl(t), JsonBody(IndexSettings)),
                       Request(HEAD, MappingUrl(t), NoBody), Request(PUT, MappingUrl(t), JsonBody(TypeMapping))],
                      Resolved, true)
  {
  }

  /** A failed index creation rejects `start` with that status, the mapping
      is never probed, and nothing is subscribed. */
  lemma IndexCreateFailureAborts(t: Target, replies: StoreReplies)
    requires Absent(replies.indexProbe)
    requires replies.indexCreate.Reply? && replies.indexCreate.status != 200
    ensures Provision(t, replies).outcome ==
              Rejected(CreateFailed(Index, replies.indexCreate.status, replies.indexCreate.message))
    ensures !Provision(t, replies).subscribed
    ensures forall q <- Provision(t, replies).requests :: q.url != MappingUrl(t)
  {
  }
}

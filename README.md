# happn-stats Elasticsearch plugin, modelled in Dafny

The plugin subscribes to the periodic `report` events of a happn-stats
server and writes every counter and gauge value as one document into an
Elasticsearch index. On `start` it first provisions the store: it probes
the index and creates it if it is absent, then probes the document-type
mapping and creates that if absent, and only then subscribes. Each insert
is fire-and-forget. Its completion drives a one-bit `erroring` flag. The
first failure after a healthy period logs once. Later failures stay
silent. The first success after failures logs one recovery.

The HTTP transport is replaced by abstract outcomes: a `Response` is either
a transport error or a reply with a status code and reason phrase. Every
operation returns the requests it would issue, as `Request` values (verb,
URL, body).

Modules, one per concern of `lib/ElasticsearchPlugin.js`:

- `Wire` (wire.dfy): responses, requests, JSON bodies, document fields.
- `Config` (config.dfy): the target (base URL, index, type), the
  environment defaults, and the index, mapping and insert URLs.
- `Provisioning` (provisioning.dfy): the probe-then-create decision tree
  shared by `_ensureIndex` and `_ensureType`, and `start`'s fail-fast chain
  as the pure function `Provision`.
- `Shipping` (shipping.dfy): the document `_storeMetric` builds, the insert
  request, the `erroring` transition `Complete`, and `Trace`, which runs
  any sequence of completions.
- `Plugin` (plugin.dfy): the class `ElasticsearchPlugin` with the fixed
  `target`, the `erroring` flag its callbacks update, and the `subscribed`
  flag `start` sets. Its methods are proved against the functions above.

Where the documentation and the code differ, the model follows the code:

- Provisioning creates the resource after any HEAD status other than 200,
  a 500 included, not only after a "does not exist" answer.
- A metric named `timestamp`, `name`, `value` or `type` overwrites that
  fixed field of its own document. A counter named `type` is posted
  without its `counter` tag.
- A metric named `__proto__` (an own key of a metrics object built by
  `JSON.parse`, say) adds no key to its document: assigning a number to
  `record['__proto__']` runs the prototype setter, which ignores it.

## Model

| member | source | states |
|---|---|---|
| `Config.Setting` | lib/ElasticsearchPlugin.js:8-10 | JavaScript `or` of the environment value and the default: an unset or empty variable gives the default, any other value is used as is; a non-empty default makes the setting non-empty |
| `Config.Resolve` | lib/ElasticsearchPlugin.js:8-10 | the three settings are never empty; with no overrides they are `http://localhost:9200`, `happn-stats`, `happn-stats` |
| `Config.UrlsLieUnderIndex` | lib/ElasticsearchPlugin.js:60-130 | mapping URL = index URL + `/_mapping/` + type, insert URL = index URL + `/` + type, and the three URLs are pairwise different |
| `Config.IndexUrl` | lib/ElasticsearchPlugin.js:99 | the index URL is the base, one `/`, then the index name, and nothing else |
| `Config.MappingUrl` | lib/ElasticsearchPlugin.js:130 | the mapping URL is the index URL followed by `/_mapping/` and the type name |
| `Config.InsertUrl` | lib/ElasticsearchPlugin.js:60 | the insert URL is the index URL followed by `/` and the type name |
| `Config.DefaultIndexUrl` | lib/ElasticsearchPlugin.js:8-10 | under the defaults the index URL is `http://localhost:9200/happn-stats` |
| `Config.DefaultMappingUrl` | lib/ElasticsearchPlugin.js:8-10 | under the defaults the mapping URL is `http://localhost:9200/happn-stats/_mapping/happn-stats` |
| `Config.DefaultInsertUrl` | lib/ElasticsearchPlugin.js:8-10 | under the defaults the insert URL is `http://localhost:9200/happn-stats/happn-stats` |
| `Provisioning.Ensure` | lib/ElasticsearchPlugin.js:104-124 | always HEAD first; a PUT of the schema is issued iff the probe answered a status other than 200, and then exactly one; the step resolves iff the probe answered 200 or the PUT answered 200; it rejects with a transport failure iff the probe or the issued PUT failed in transport; a PUT answered with another status rejects with that status and reason |
| `Provisioning.EnsureIndex` | lib/ElasticsearchPlugin.js:98-127 | every request goes to `base/index`, the PUT carries `{settings:{}}`, and the resolve condition of the shared decision tree |
| `Provisioning.EnsureType` | lib/ElasticsearchPlugin.js:129-171 | every request goes to `base/index/_mapping/type`, the PUT carries the schema name→text, value→double, timestamp→date, type→keyword, and the same resolve condition |
| `Provisioning.Provision` | lib/ElasticsearchPlugin.js:13-23 | subscribed iff resolved iff both steps resolve; a rejected index step is the result and no request leaves the index URL; otherwise the type step's outcome is the result; the requests are the index step's, followed by the type step's only when the index step resolved; HEAD of the index URL is first, and at most four requests are issued |
| `Provisioning.ProvisionedStoreIsLeftAlone` | lib/ElasticsearchPlugin.js:104-137 | when both probes answer 200, `start` issues exactly the two HEADs, no PUT, and subscribes |
| `Provisioning.ProvisionCreatesOnlyWhatIsAbsent` | lib/ElasticsearchPlugin.js:13-23 | the number of PUTs is one for an absent index plus one for an absent mapping when the index step resolved, and nothing else |
| `Provisioning.ColdStart` | lib/ElasticsearchPlugin.js:13-23 | with both probes at 404 and both creates at 200, the requests are HEAD index, PUT index, HEAD mapping, PUT mapping, and `start` resolves and subscribes |
| `Provisioning.IndexCreateFailureAborts` | lib/ElasticsearchPlugin.js:118-123 | a PUT index answered with a non-200 status rejects `start` with that status, the mapping is never requested, and nothing subscribes |
| `Shipping.Record` | lib/ElasticsearchPlugin.js:61-68 | the document's keys are `timestamp`, `name`, `value`, `type` and the metric name, except that `__proto__` adds no key; the metric name maps to the value; each fixed field keeps its content unless the metric is named after it |
| `Shipping.InsertRequest` | lib/ElasticsearchPlugin.js:58-76 | `_storeMetric` issues a POST to `base/index/type` of a document with all four fixed keys whose `value` is the metric's value |
| `Shipping.ProtoNameAddsNoKey` | lib/ElasticsearchPlugin.js:68 | a metric named `__proto__` is posted as exactly the four fixed fields, all intact |
| `Shipping.InsertCarriesMetric` | lib/ElasticsearchPlugin.js:58-76 | a metric not named after a fixed key or `__proto__` is POSTed to `base/index/type` as exactly five fields: timestamp, name, value, type tag and the self-named copy of the value |
| `Shipping.CollidingNameOverwritesField` | lib/ElasticsearchPlugin.js:61-68 | a metric named after a fixed key yields only four fields, and that key holds the value |
| `Shipping.Complete` | lib/ElasticsearchPlugin.js:77-95 | the new flag is "this insert failed" (transport error or status other than 201); a line is logged iff the flag flips; a failure log on entering the error state says the transport failed, or carries the status and reason; the line on leaving it is the recovery |
| `Shipping.FailuresWhileErroringAreSilent` | lib/ElasticsearchPlugin.js:78-90 | while erroring, any number of failures leave the flag set and log nothing |
| `Shipping.SuccessesWhileHealthyAreSilent` | lib/ElasticsearchPlugin.js:91-94 | while healthy, any number of 201s leave the flag clear and log nothing |
| `Shipping.FailureBurstLogsOnce` | lib/ElasticsearchPlugin.js:78-90 | N ≥ 1 failures from healthy log exactly one line, for the first failure, and leave the flag set |
| `Shipping.FailureBurstThenRecoveryLogsTwice` | lib/ElasticsearchPlugin.js:77-95 | N ≥ 1 failures then one 201 from healthy log exactly two lines, the first failure and the recovery, and leave the flag clear |
| `Shipping.LogsAlternate` | lib/ElasticsearchPlugin.js:77-95 | for any order of completions, the lines alternate between failure and recovery, starting with a recovery iff the flag was set; there are no more lines than completions; the flag has flipped once per line |
| `Shipping.FlagFollowsLastCompletion` | lib/ElasticsearchPlugin.js:77-95 | after one or more completions the flag says whether the last one failed |
| `Plugin.FanOutTargetsInsertUrl` | lib/ElasticsearchPlugin.js:40-68 | every store attempt of a report is a POST to the insert URL of a document with all four fixed fields |
| `Plugin.SingleCounterReport` | lib/ElasticsearchPlugin.js:40-68 | the report `{counters:{a:1}, gauges:{}}` posts exactly one document: name `a`, value 1, type `counter`, the report's timestamp, and `a` = 1 |
| `Plugin.ElasticsearchPlugin.constructor` | lib/ElasticsearchPlugin.js:6-11 | the target is the resolved environment settings; not erroring, not subscribed |
| `Plugin.ElasticsearchPlugin.Start` | lib/ElasticsearchPlugin.js:13-38 | returns the requests and outcome of `Provision`; the listener is registered only when both steps resolve |
| `Plugin.ElasticsearchPlugin.OnReport` | lib/ElasticsearchPlugin.js:40-56 | C counters and G gauges give exactly C+G inserts: the counters first, in order, tagged `counter`, then the gauges, in order, tagged `gauge`, all with the report's timestamp |
| `Plugin.ElasticsearchPlugin.Report` | lib/ElasticsearchPlugin.js:32-38 | before a successful `start` a report posts nothing; after it, the report fans out as `OnReport` |
| `Plugin.ElasticsearchPlugin.OnInsertComplete` | lib/ElasticsearchPlugin.js:77-95 | the new `erroring` flag and the logged line are those of `Complete` on the old flag |

## Left out

- The `request` HTTP library and the network: every request's completion is a `Response` parameter. The content-type header, which is always `application/json`, is not modelled.
- `JSON.stringify`, `new Date(ts)` and the documents' key order: timestamps and values are integer stand-ins for the JavaScript doubles, which are only passed through. Documents are maps.
- The `debug` logging transport: only the three insert-callback lines are modelled, as `LogEvent` values. The start, ensure, creating and failed-to-create traces are not.
- The transport's `err` value: the original logs it on a failed insert and rejects `start` with it. The model keeps only the fact that the transport failed, as `SaveFailed` and `TransportFailure`.
- The text of the `Error` raised on a failed create: the model keeps the resource, status and reason as a structured `CreateFailed` value.
- `process.env`: the three lookups are constructor parameters of type `Option<string>`.
- Asynchronous completion order: each insert completion is one sequential call of `OnInsertComplete`, or one element of `Trace`'s sequence, in whatever order the caller chooses.
- The event-emitter subscription is only the `subscribed` flag. Calling `start` again after success registers a second listener in the original, so every later report would be posted twice. The model's flag does not count listeners.
- `for...in` also lists inherited enumerable properties, and the metrics objects' key order is the engine's. The model takes the names as sequences in iteration order.
- `stop()` resolves without changing any state or cancelling anything, so it is not modelled.

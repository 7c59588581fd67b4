# Collector of the trace-nodejs tracing agent, in Dafny

The collector is the part of the tracing agent that correlates the lifecycle events of a service's calls and decides which of them are reported. It sees the following events:
- a server call arriving (`serverRecv`) and being answered (`serverSend`) or ended (`end`);
- an outbound client call being made (`clientSend`) and answered (`clientRecv`), failing (`networkError`) or left hanging until its lock expires;
- one-phase errors (`userSentError`, `systemError`).

Each event produces a record (`sr`, `ss`, `cs`, `cr`, `ne`, `ue`, `se`). A record is handed to the sampler only when its transaction has been judged must-collect. An event is must-collect when its severity is at or below the configured threshold `mustCollectSeverity`; level 0 is the most severe and 7 the most verbose. `collect()` drains the sampler.

The model is built from these modules:
- `Severity`: the eight levels, the names a configuration may use, and the must-collect rule.
- `Wire`: the values that cross the API:
  - payloads;
  - duffel bags (the context carried between services);
  - briefcases (the context handed back to the instrumentation);
  - the records, with one builder per record kind.
- `Options`: the options object and the settings the collector keeps of it.
- `Correlation`: the collector's two tables as values, and each event as a transition on them.
  - The pending-call table is keyed by communication id. It holds each server or client call that has seen its first signal but not its second.
  - The transaction table holds, per live transaction:
    - the number of open calls;
    - a sticky must-collect verdict;
    - the records buffered so far.
  - When a transaction's last open call closes, its buffer goes to the sampler if the verdict is "collect" and is discarded otherwise.
  - The lemmas prove the following:
    - every event keeps the open-call count balanced against the pending table;
    - a live transaction's verdict never turns back;
    - its buffer only grows at the end;
    - records leave a transaction only at quiescence.
- `Threshold`: two collectors that differ only in their thresholds, driven by the same events. Under the higher threshold the same calls and buffers are kept, every transaction the lower one judges must-collect is must-collect too, and every record the lower one hands to the sampler is handed on too. This is proved for each event and, by induction, for any sequence of events.
- `Sampling`: a bounded reservoir (Algorithm R) as a class whose `items` the methods reassign. A drain hands over everything and empties it.
- `Tracer`: the `Collector` class.
  - Its `pending` and `txns` fields are updated in place by each API method.
  - Each method is proved to change the tables exactly as the matching `Correlation` transition does.
  - Each method is proved to offer the sampler exactly the records that transition hands on.
- `Scenarios`: one method per test of `lib/agent/tracer/collector.spec.js`, or per group of tests that make the same calls. Each drives a fresh collector through the test's calls, and its postcondition is the test's expectation, proved from the API's contracts alone.

Identifiers (`uuid.v4`) and timestamps (`microtime.now`) are method parameters. The repository's implementation file `lib/agent/tracer/collector.js` is not part of this model. The behaviour modelled is the behaviour the test file asserts. Where the tests leave a detail open, the choice made is listed under "## Left out".

## Model

The event transitions of `Correlation` (`ServerRecv`, `ServerSend`, `End`, `ClientSend`, `ClientRecv`, `NetworkError`, `Expire` and the moves `Open`, `Append`, `Close` they are built from) have no rows of their own, and neither do the `Tracer.Collector` methods that perform those moves in place (`OpenCall`, `Buffer`, `CloseCall`, `FinalizeServer`, `ResolveClient`). The `Tracer.Collector` row of each event stands for its transition, and the `Correlation` and `Threshold` lemma rows state what is proved about them. `Threshold.Apply` and `Threshold.Run`, which replay events on the tables, have no rows either: the `Threshold` lemmas are about them.

| member | source | states |
|---|---|---|
| Severity.LevelNamed | lib/agent/tracer/collector.spec.js:24-30 | a name is recognised exactly when it is one of the eight level names; "DEBUG" and only "DEBUG" gives 7, and "EMERGENCY" and only "EMERGENCY" gives 0 |
| Options.SettingsOf | lib/agent/tracer/collector.spec.js:24-30 | `collectSeverity: 'DEBUG'` sets the must-collect threshold to 7; without it the default threshold applies; serviceKey and noStack are kept |
| Tracer.Collector.constructor | lib/agent/tracer/collector.spec.js:24-30 | a new collector has empty tables, an empty sampler with the configured `samplerLimit` (default otherwise), and the settings derived from its options |
| Tracer.Collector.ServerRecv | lib/agent/tracer/collector.spec.js:49-96 | serverRecv moves the tables exactly as `Correlation.ServerRecv` does (opens the server call in its transaction, verdict from the bag's severity) and returns its briefcase; ids come from the bag, else the fresh id; the tables stay balanced |
| Tracer.Collector.ServerSend | lib/agent/tracer/collector.spec.js:220-363 | serverSend buffers an `ss` record, folds its severity into the verdict and finalizes the server call exactly as `Correlation.ServerSend` does; the sampler admits exactly the records flushed; the severity returned is the one propagated |
| Tracer.Collector.End | lib/agent/tracer/collector.spec.js:114-217 | end finalizes the server call with its `sr` record exactly as `Correlation.End` does and the sampler admits exactly what is flushed |
| Tracer.Collector.ClientSend | lib/agent/tracer/collector.spec.js:366-459 | clientSend opens a client call with its buffered `cs` record exactly as `Correlation.ClientSend` does, and returns the briefcase with `csCtx` and the outbound duffel bag |
| Tracer.Collector.ClientRecv | lib/agent/tracer/collector.spec.js:463-576 | clientRecv resolves the client call with a `cr` record (or reports it one-phase) exactly as `Correlation.ClientRecv` does; no csCtx leaves everything unchanged |
| Tracer.Collector.NetworkError | lib/agent/tracer/collector.spec.js:484-505 | networkError resolves the client call with a collectible `ne` record exactly as `Correlation.NetworkError` does, and reports an error when the briefcase has no csCtx |
| Tracer.Collector.ExpireClientCall | lib/agent/tracer/collector.spec.js:421-450 | lock expiry closes a still-pending client call without a new record, exactly as `Correlation.Expire` does; an already resolved call is left alone |
| Tracer.Collector.UserSentError | lib/agent/tracer/collector.spec.js:716-735 | a user error is offered to the sampler at once as one `ue` record, without its stack under noStack |
| Tracer.Collector.SystemError | lib/agent/tracer/collector.spec.js:737-756 | a system error is offered to the sampler at once as one `se` record, without its stack under noStack |
| Tracer.Collector.Collect | lib/agent/tracer/collector.spec.js:198-217 | collect returns everything the sampler held, at most its limit, and leaves it empty |
| Wire.Reported | lib/agent/tracer/collector.spec.js:727-735 | the reported error keeps its message, has no stack under noStack, and keeps its stack otherwise |
| Correlation.OpenKeepsBalance | lib/agent/tracer/collector.spec.js:604-629 | opening a call in a balanced state keeps every transaction's open count equal to its pending calls, and extends live transactions |
| Correlation.AppendKeepsBalance | lib/agent/tracer/collector.spec.js:272-302 | buffering a record into a live transaction (or flushing it one-phase) keeps the balance and only extends the buffer and the verdict |
| Correlation.CloseKeepsBalance | lib/agent/tracer/collector.spec.js:632-714 | closing a pending call keeps the balance: the transaction is removed when its last call closes, its count drops by one otherwise |
| Correlation.CloseFlushesAtQuiescence | lib/agent/tracer/collector.spec.js:632-714 | closing call c flushes exactly when c is the transaction's only open call, and then flushes the whole buffer plus the closing records if the verdict is collect, else nothing; while another call is open nothing is flushed and the buffer grows |
| Correlation.NoFlushWhileAnotherCallOpen | lib/agent/tracer/collector.spec.js:604-629 | with two calls of a transaction open, closing one flushes nothing and leaves the other pending |
| Correlation.OpenCallsWith | lib/agent/tracer/collector.spec.js:366-391 | registering a new call adds one to the open calls of its own transaction and none to the others |
| Correlation.OpenCallsWithout | lib/agent/tracer/collector.spec.js:632-658 | removing a pending call takes one from the open calls of its own transaction and none from the others |
| Correlation.ServerRecvKeepsBalance | lib/agent/tracer/collector.spec.js:49-96 | serverRecv keeps the tables balanced and leaves the briefcase's communication pending |
| Correlation.FinalizeServerKeepsBalance | lib/agent/tracer/collector.spec.js:114-217 | finalizing a server call keeps the balance and extends live transactions |
| Correlation.ExtendsTransitive | lib/agent/tracer/collector.spec.js:272-302 | a verdict that never turns back and a buffer that only grows stay so over two steps |
| Correlation.ServerSendKeepsBalance | lib/agent/tracer/collector.spec.js:220-363 | serverSend keeps the tables balanced and extends live transactions |
| Correlation.ClientSendKeepsBalance | lib/agent/tracer/collector.spec.js:366-459 | clientSend with a fresh communication id keeps the balance and leaves the new call pending |
| Correlation.ResolveClientKeepsBalance | lib/agent/tracer/collector.spec.js:463-505 | resolving a client context keeps the balance, and afterwards no client call is pending under the context's communication id |
| Correlation.ExpireKeepsBalance | lib/agent/tracer/collector.spec.js:421-450 | lock expiry keeps the balance and leaves no client call pending under that id |
| Correlation.EndAfterServerSendIsIgnored | lib/agent/tracer/collector.spec.js:333-363 | after serverSend has finalized a server call, a later end changes nothing and flushes nothing |
| Correlation.EndTwiceIsIgnored | lib/agent/tracer/collector.spec.js:198-217 | a second end for the same briefcase changes nothing and flushes nothing |
| Correlation.SkippedServerSendChangesNothing | lib/agent/tracer/collector.spec.js:333-363 | serverSend with skip leaves the tables unchanged, flushes nothing and propagates no severity |
| Correlation.NetworkErrorIsKept | lib/agent/tracer/collector.spec.js:759-795 | a network error with a client context is never dropped: its `ne` record is flushed, or it waits in a live transaction whose verdict is now collect |
| Correlation.MissingClientContext | lib/agent/tracer/collector.spec.js:509-516 | without csCtx, clientRecv changes nothing and networkError changes nothing and reports an error |
| Correlation.ClientSendInheritsVerdict | lib/agent/tracer/collector.spec.js:579-603 | inside a must-collect transaction, a client call without its own severity sends the must-collect severity to its callee and keeps the verdict |
| Threshold.VerdictMonotone | lib/agent/tracer/collector.spec.js:24-30 | an event that is must-collect under a threshold is must-collect under any higher threshold |
| Threshold.KnownVerdictMonotone | lib/agent/tracer/collector.spec.js:304-331 | whichever severity an event falls back on (its own, the transaction's verdict, the default), a must-collect verdict under the lower threshold stays must-collect under the raised one |
| Threshold.OpenCollectsAtLeast | lib/agent/tracer/collector.spec.js:366-391 | opening a call keeps the raised-threshold tables at least as collected |
| Threshold.AppendCollectsAtLeast | lib/agent/tracer/collector.spec.js:272-302 | adding a one-phase record keeps the raised-threshold tables at least as collected and hands on every record the lower threshold hands on |
| Threshold.CloseCollectsAtLeast | lib/agent/tracer/collector.spec.js:114-164 | closing a call keeps the raised-threshold tables at least as collected and flushes every record the lower threshold flushes |
| Threshold.ServerRecvCollectsAtLeast | lib/agent/tracer/collector.spec.js:83-96 | serverRecv under a raised threshold keeps the tables at least as collected and returns the same briefcase |
| Threshold.FinalizeServerCollectsAtLeast | lib/agent/tracer/collector.spec.js:114-164 | finalizing a server call under a raised threshold flushes at least the same records |
| Threshold.EndCollectsAtLeast | lib/agent/tracer/collector.spec.js:130-164 | end under a raised threshold flushes at least the same records |
| Threshold.ServerSendCollectsAtLeast | lib/agent/tracer/collector.spec.js:114-128 | serverSend under a raised threshold keeps the tables at least as collected and flushes at least the same records |
| Threshold.ClientSendCollectsAtLeast | lib/agent/tracer/collector.spec.js:392-419 | clientSend under a raised threshold keeps the tables at least as collected and returns the same briefcase |
| Threshold.ResolveClientCollectsAtLeast | lib/agent/tracer/collector.spec.js:463-505 | resolving a client context with an at-least-as-collectible record flushes at least the same records |
| Threshold.ClientRecvCollectsAtLeast | lib/agent/tracer/collector.spec.js:517-576 | clientRecv under a raised threshold flushes at least the same records |
| Threshold.NetworkErrorCollectsAtLeast | lib/agent/tracer/collector.spec.js:484-505 | networkError under a raised threshold flushes at least the same records and reports the same error flag |
| Threshold.ExpireCollectsAtLeast | lib/agent/tracer/collector.spec.js:421-450 | lock expiry keeps the tables at least as collected and flushes at least the same records |
| Threshold.ApplyCollectsAtLeast | lib/agent/tracer/collector.spec.js:114-164 | every table event under a raised threshold keeps the tables at least as collected and hands on at least the same records |
| Threshold.RaisingThresholdCollectsAtLeast | lib/agent/tracer/collector.spec.js:114-164 | over any sequence of events, raising the threshold never decreases the must-collect transactions or the records handed to the sampler (as a multiset) |
| Threshold.RaisedThresholdFromSameTables | lib/agent/tracer/collector.spec.js:24-30 | two collectors in the same state, one with a raised threshold, driven by the same events: the raised one hands on every record the other hands on |
| Sampling.Place | lib/agent/tracer/collector.spec.js:798-878 | one reservoir step: the record is appended while there is room, the size never exceeds the capacity, and only held or offered records remain |
| Sampling.AdmitsCompose | lib/agent/tracer/collector.spec.js:798-878 | offering two batches one after the other admits what offering their concatenation admits |
| Sampling.Sampler.Offer | lib/agent/tracer/collector.spec.js:798-878 | offering one record keeps the reservoir within its capacity and admits the record by the reservoir rule |
| Sampling.Sampler.OfferAll | lib/agent/tracer/collector.spec.js:798-878 | offering a transaction's records in order admits them as one batch: all of them while they fit, never more than the capacity |
| Sampling.Sampler.Drain | lib/agent/tracer/collector.spec.js:855-878 | draining hands over exactly the held records and empties the reservoir |
| Sampling.Sampler.Size | lib/agent/tracer/collector.spec.js:877 | the size is the number of held records and never exceeds the capacity |
| Scenarios.ThresholdIsConfigurable | lib/agent/tracer/collector.spec.js:24-30 | a collector configured with `collectSeverity: 'DEBUG'` has threshold 7 |
| Scenarios.ServerRecvFillsCommunication | lib/agent/tracer/collector.spec.js:49-65 | with an empty duffel bag both ids of the communication are the fresh id |
| Scenarios.ServerRecvKeepsCommunication | lib/agent/tracer/collector.spec.js:67-81 | with a full duffel bag the communication is the bag's communication and transaction id |
| Scenarios.ServerRecvAloneIsNotCollected | lib/agent/tracer/collector.spec.js:83-96 | a lone serverRecv below the threshold yields nothing |
| Scenarios.ServerSendOfUncollectedCall | lib/agent/tracer/collector.spec.js:114-128 | a server call below the threshold answered by serverSend yields nothing |
| Scenarios.EndOfUncollectedCall | lib/agent/tracer/collector.spec.js:130-144 | a server call below the threshold ended by end yields nothing |
| Scenarios.EndCollectsExactRecord | lib/agent/tracer/collector.spec.js:146-196 | a must-collect server call ended at time 2 yields exactly the `sr` record with the payload's and the bag's fields and i = 2 |
| Scenarios.EndCollectedOnlyOnce | lib/agent/tracer/collector.spec.js:198-217 | the first collect yields one record and an immediately repeated collect yields none |
| Scenarios.ServerSendIsCollected | lib/agent/tracer/collector.spec.js:220-252 | a must-collect serverSend in a transaction with no open call yields exactly its `ss` record |
| Scenarios.ServerSendOutsideTransaction | lib/agent/tracer/collector.spec.js:253-269 | serverSend with a briefcase without communication yields nothing |
| Scenarios.ServerSendRaisesVerdict | lib/agent/tracer/collector.spec.js:272-302 | a must-collect `ss` makes the whole transaction collected: sr + ss gives 2 records |
| Scenarios.ServerSendPropagatesSeverity | lib/agent/tracer/collector.spec.js:304-331 | serverSend of a must-collect transaction reports the must-collect severity |
| Scenarios.SkippedServerSend | lib/agent/tracer/collector.spec.js:333-363 | a skipped serverSend yields nothing on every collect, and the call can still be ended afterwards |
| Scenarios.ClientSendBuildsContext | lib/agent/tracer/collector.spec.js:366-391 | clientSend returns csCtx and the duffel bag with the fresh ids, the default severity, the service key and the timestamp |
| Scenarios.ClientSendAloneIsNotCollected | lib/agent/tracer/collector.spec.js:392-419 | a lone must-collect clientSend yields nothing while its call is open |
| Scenarios.LockExpiryCollects | lib/agent/tracer/collector.spec.js:421-450 | after lock expiry the lone clientSend yields exactly one record, and a repeated collect none |
| Scenarios.ClientSendOutsideTransaction | lib/agent/tracer/collector.spec.js:451-459 | a lone clientSend outside a transaction yields nothing |
| Scenarios.ClientRoundTrip | lib/agent/tracer/collector.spec.js:463-471 | a must-collect cs followed by its cr yields 2 records |
| Scenarios.IndependentClientCalls | lib/agent/tracer/collector.spec.js:472-481 | a must-collect cs/cr pair and a later ordinary cs/cr pair yield 2 records between them |
| Scenarios.ClientNetworkError | lib/agent/tracer/collector.spec.js:484-505 | a cs followed by a network error yields 2 records: the error makes the transaction collected |
| Scenarios.ClientRecvWithoutContext | lib/agent/tracer/collector.spec.js:509-516 | clientRecv without csCtx yields nothing |
| Scenarios.ClientRecvOnItsOwn | lib/agent/tracer/collector.spec.js:517-576 | a must-collect clientRecv whose call is not pending yields its one `cr` record |
| Scenarios.ServerVerdictReachesCallee | lib/agent/tracer/collector.spec.js:579-603 | a clientSend inside a must-collect server call sends the must-collect severity in its duffel bag |
| Scenarios.OpenClientCallHoldsFlush | lib/agent/tracer/collector.spec.js:604-629 | ending a must-collect server call while its client call is open yields nothing yet |
| Scenarios.SrCsNeSs | lib/agent/tracer/collector.spec.js:632-658 | sr, cs, ne yields nothing while the server call is open; the final ss yields all 4 records |
| Scenarios.SrCsSsNe | lib/agent/tracer/collector.spec.js:660-686 | sr, cs, ss yields nothing while the client call is open; the network error then yields all 4 records |
| Scenarios.SrCsSsCr | lib/agent/tracer/collector.spec.js:688-714 | sr, cs, ss yields nothing while the client call is open; a must-collect cr then yields all 4 records |
| Scenarios.UserSentErrorIsCollected | lib/agent/tracer/collector.spec.js:716-735 | a user error yields one record, and under noStack its error has no stack |
| Scenarios.SystemErrorIsCollected | lib/agent/tracer/collector.spec.js:737-756 | a system error yields one record, and under noStack its error has no stack |
| Scenarios.NetworkErrorNeedsClientContext | lib/agent/tracer/collector.spec.js:759-767 | networkError without csCtx reports an error and yields nothing |
| Scenarios.NetworkErrorIsCollected | lib/agent/tracer/collector.spec.js:768-795 | a network error with csCtx yields one record, and under noStack its error has no stack |
| Scenarios.SamplesServerTransactions | lib/agent/tracer/collector.spec.js:799-830 | fifty must-collect sr/ss transactions through a sampler of ten yield more than 0 and fewer than 50 records |
| Scenarios.SamplesClientTransactions | lib/agent/tracer/collector.spec.js:832-878 | fifty must-collect cs/cr round trips through a sampler of ten yield more than 0 and fewer than 50 records, and the sampler is empty afterwards |

## Left out

- `lib/agent/tracer/collector.js` is not part of this model. The collector's behaviour is taken from what `lib/agent/tracer/collector.spec.js` asserts. The record layouts of `cs`, `cr`, `ne`, `ue` and `se` beyond the fields the tests check are a choice of this model.
- `lib/utils/configReader.js` is not part of this model. It loads files, reads the environment and builds reporters, which is I/O.
- `lib/agent/tracer/severity.js` is not part of this model. The model has the eight level names and their numbers, and nothing else of `severity.js`.
- The default threshold (ERROR, 3), the default event severity (INFO, 6) and the default sampler capacity (1000) are choices of this model. The tests never observe them directly. The default event severity is not configurable.
- An unknown `collectSeverity` name falls back to the default threshold. The tests only use `'DEBUG'`.
- `uuid.v4` and `microtime.now` are not modelled. The fresh ids and the current time are parameters of each method.
- Timers and `eventTtl` are not modelled. Lock expiry is the explicit method `Tracer.Collector.ExpireClientCall`, and when the timer fires is up to the caller. Expiry closes the client call without adding a record or changing the verdict.
- The random slot choice of the reservoir is a nondeterministic choice in `Sampling.Sampler.Offer`. The uniform distribution of the draw is not modelled. What is proved about sampling:
  - the capacity bound;
  - that every record is kept while there is room;
  - that only offered records are kept;
  - the destructive drain.
- Stack capture of JavaScript errors is not modelled. An error is a message plus an optional stack given by the caller.
- Payload `data` is a map of strings. The tests' numeric `statusCode: 200` is written `"200"`.
- Tracer.Collector.ClientSend: requires that the fresh communication id is not already pending. The source relies on `uuid.v4` producing unique ids.
- Tracer.Collector.ServerRecv: a second serverRecv for a communication id that is already pending does not register the call again. The tests never send one.
- Tracer.Collector.UserSentError and Tracer.Collector.SystemError: the records go to the sampler at once, not into their transaction's buffer. The tests only require that they are collected as one record each.
- Correlation.KnownSeverity: when the payload carries no severity, the outbound duffel bag of `clientSend` gets the must-collect threshold if the transaction is already must-collect, and the default severity otherwise. The transaction's own severity is not kept, so a transaction opened with CRIT (2) sends ERROR (3), the default threshold. The same fallback decides two things in `serverSend`. It decides the verdict of an `ss` record without its own severity: inside a transaction that is not yet must-collect, that record is judged at the default severity INFO (6). It also decides the severity `serverSend` returns, which stands for the severity of the response's duffel bag: after an `sr` at CRIT, `serverSend` with an empty payload returns ERROR (3). The tests only check cases where the transaction's severity equals the threshold (`lib/agent/tracer/collector.spec.js:304-331`, `579-603`) or where the server call is below it (`114-128`).
- The `severity` field that some tests put on the briefcase (`lib/agent/tracer/collector.spec.js:263-265`, `350`, `454-456`, `488-490`) is not modelled. `Wire.Briefcase` carries only `communication` and `csCtx`, and no expected result in those tests depends on that field.
- Correlation.ResolveClient: a `clientRecv` or `networkError` whose client call is no longer pending is not a no-op. Its record is reported one-phase in the context's transaction: buffered there if the transaction is live, otherwise handed on when collectible and dropped when not. This also holds after lock expiry or an earlier resolution, so a late `cr` or `ne` can add a record. The model keeps no memory of resolved ids, so it cannot tell a late answer from one for a call that was never registered. The tests require the one-phase record for the second case (`lib/agent/tracer/collector.spec.js:517-576`).
- Correlation.ServerSend: the `ss` record is buffered before the `sr` record that finalizing the server call adds, so a flushed transaction lists `ss` before `sr`. The tests only count records in that case.
- Correlation.Append: an `ss`, `cr` or `ne` record for a transaction with no live entry does not create an entry. It is handed on at once when collectible and dropped otherwise.
- Concurrency is not modelled. The collector is driven by one sequence of calls.

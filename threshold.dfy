/**
 * Raising the must-collect threshold never collects less. Two collectors that
 * differ only in their thresholds, driven by the same calls, keep the same
 * pending calls, open counts and buffers. Every transaction the lower
 * threshold has judged must-collect is must-collect under the higher one too,
 * and every record the lower threshold hands to the sampler, the higher one
 * hands on as well.
 */
module Threshold {
  import opened Wrappers
  import opened Severity
  import opened Wire
  import opened Options
  import opened Correlation

  /** hi is lo with its threshold raised (towards DEBUG) and nothing else changed. */
  predicate RaisedThreshold(lo: Settings, hi: Settings) {
    lo.mustCollectSeverity <= hi.mustCollectSeverity &&
    hi == lo.(mustCollectSeverity := hi.mustCollectSeverity)
  }

  /** b holds the calls and buffers a holds, and collects every transaction a collects. */
  ghost predicate AtLeastAsCollected(a: Tables, b: Tables) {
    a.pending == b.pending && a.txns.Keys == b.txns.Keys &&
    forall t :: t in a.txns ==>
      a.txns[t].openCount == b.txns[t].openCount &&
      a.txns[t].buffered == b.txns[t].buffered &&
      (a.txns[t].mustCollect ==> b.txns[t].mustCollect)
  }

  /** Step b keeps b's tables at least as collected as a's and hands on every record a hands on. */
  ghost predicate CollectsAtLeast(a: Step, b: Step) {
    AtLeastAsCollected(a.tables, b.tables) && multiset(a.flushed) <= multiset(b.flushed)
  }

  /** The must-collect rule is monotone in the threshold. */
  lemma {:induction false} VerdictMonotone(lo: Level, hi: Level, s: Level)
    requires lo <= hi
    ensures MustCollect(lo, s) ==> MustCollect(hi, s)
  {
  }

  // ---------------------------------------------------------------------------
  // The table moves

  lemma {:induction false} OpenCollectsAtLeast(a: Tables, b: Tables, c: Id, call: PendingCall,
                                               ca: bool, cb: bool, recs: seq<Record>)
    requires AtLeastAsCollected(a, b) && (ca ==> cb)
    ensures AtLeastAsCollected(Open(a, c, call, ca, recs), Open(b, c, call, cb, recs))
  {
  }

  lemma {:induction false} AppendCollectsAtLeast(a: Tables, b: Tables, t: Id, rec: Record, ca: bool, cb: bool)
    requires AtLeastAsCollected(a, b) && (ca ==> cb)
    ensures CollectsAtLeast(Append(a, t, rec, ca), Append(b, t, rec, cb))
  {
  }

  lemma {:induction false} CloseCollectsAtLeast(a: Tables, b: Tables, c: Id, recs: seq<Record>, ca: bool, cb: bool)
    requires AtLeastAsCollected(a, b) && (ca ==> cb)
    requires c in a.pending && a.pending[c].transactionId in a.txns
    ensures CollectsAtLeast(Close(a, c, recs, ca), Close(b, c, recs, cb))
  {
  }

  /**
   * An event judged must-collect under the lower threshold is must-collect
   * under the higher one, whichever severity it falls back on.
   */
  lemma {:induction false} KnownVerdictMonotone(lo: Settings, hi: Settings, a: Tables, b: Tables, t: Id, explicit: Option<Level>)
    requires RaisedThreshold(lo, hi) && AtLeastAsCollected(a, b)
    ensures MustCollect(lo.mustCollectSeverity, KnownSeverity(lo, a, t, explicit)) ==>
            MustCollect(hi.mustCollectSeverity, KnownSeverity(hi, b, t, explicit))
  {
  }

  // ---------------------------------------------------------------------------
  // The events

  lemma {:induction false} ServerRecvCollectsAtLeast(lo: Settings, hi: Settings, a: Tables, b: Tables, payload: Payload,
                                                     bag: DuffelBag, freshComm: Id, freshTrans: Id)
    requires RaisedThreshold(lo, hi) && AtLeastAsCollected(a, b)
    ensures var ra := ServerRecv(lo, a, payload, bag, freshComm, freshTrans);
            var rb := ServerRecv(hi, b, payload, bag, freshComm, freshTrans);
            AtLeastAsCollected(ra.tables, rb.tables) && ra.briefcase == rb.briefcase
  {
    var c := bag.communicationId.GetOr(freshComm);
    var t := bag.transactionId.GetOr(freshTrans);
    var severity := bag.severity.GetOr(lo.defaultSeverity);
    if c !in a.pending {
      OpenCollectsAtLeast(a, b, c, ServerCall(t, payload, bag), MustCollect(lo.mustCollectSeverity, severity),
                          MustCollect(hi.mustCollectSeverity, severity), []);
    }
  }

  lemma {:induction false} FinalizeServerCollectsAtLeast(a: Tables, b: Tables, c: Id, now: Timestamp)
    requires AtLeastAsCollected(a, b)
    ensures CollectsAtLeast(FinalizeServer(a, c, now), FinalizeServer(b, c, now))
  {
    if c in a.pending && a.pending[c].ServerCall? && a.pending[c].transactionId in a.txns {
      var call := a.pending[c];
      CloseCollectsAtLeast(a, b, c, [ServerRecvRecord(c, call.transactionId, call.payload, call.bag, now)], false, false);
    }
  }

  lemma {:induction false} EndCollectsAtLeast(a: Tables, b: Tables, briefcase: Briefcase, now: Timestamp)
    requires AtLeastAsCollected(a, b)
    ensures CollectsAtLeast(End(a, briefcase, now), End(b, briefcase, now))
  {
    if briefcase.communication.Some? {
      FinalizeServerCollectsAtLeast(a, b, briefcase.communication.value.id, now);
    }
  }

  lemma {:induction false} ServerSendCollectsAtLeast(lo: Settings, hi: Settings, a: Tables, b: Tables, payload: Payload,
                                                     briefcase: Briefcase, skip: bool, now: Timestamp)
    requires RaisedThreshold(lo, hi) && AtLeastAsCollected(a, b)
    ensures CollectsAtLeast(ServerSend(lo, a, payload, briefcase, skip, now).step,
                            ServerSend(hi, b, payload, briefcase, skip, now).step)
  {
    if !skip && briefcase.communication.Some? {
      var comm := briefcase.communication.value;
      var ss := ServerSendRecord(comm, payload, now);
      var ca := MustCollect(lo.mustCollectSeverity, KnownSeverity(lo, a, comm.transactionId, payload.severity));
      var cb := MustCollect(hi.mustCollectSeverity, KnownSeverity(hi, b, comm.transactionId, payload.severity));
      KnownVerdictMonotone(lo, hi, a, b, comm.transactionId, payload.severity);
      var fa := Append(a, comm.transactionId, ss, ca);
      var fb := Append(b, comm.transactionId, ss, cb);
      AppendCollectsAtLeast(a, b, comm.transactionId, ss, ca, cb);
      FinalizeServerCollectsAtLeast(fa.tables, fb.tables, comm.id, now);
      var sa := FinalizeServer(fa.tables, comm.id, now);
      var sb := FinalizeServer(fb.tables, comm.id, now);
      assert multiset(fa.flushed + sa.flushed) <= multiset(fb.flushed + sb.flushed);
    }
  }

  lemma {:induction false} ClientSendCollectsAtLeast(lo: Settings, hi: Settings, a: Tables, b: Tables, payload: Payload,
                                                     briefcase: Briefcase, freshComm: Id, freshTrans: Id, now: Timestamp)
    requires RaisedThreshold(lo, hi) && AtLeastAsCollected(a, b)
    ensures var ra := ClientSend(lo, a, payload, briefcase, freshComm, freshTrans, now);
            var rb := ClientSend(hi, b, payload, briefcase, freshComm, freshTrans, now);
            AtLeastAsCollected(ra.tables, rb.tables) && ra.briefcase == rb.briefcase
  {
    var t := if briefcase.communication.Some? then briefcase.communication.value.transactionId else freshTrans;
    KnownVerdictMonotone(lo, hi, a, b, t, payload.severity);
    OpenCollectsAtLeast(a, b, freshComm, ClientCall(t),
                        MustCollect(lo.mustCollectSeverity, KnownSeverity(lo, a, t, payload.severity)),
                        MustCollect(hi.mustCollectSeverity, KnownSeverity(hi, b, t, payload.severity)),
                        [ClientSendRecord(freshComm, t, payload, lo.serviceKey, now)]);
  }

  lemma {:induction false} ResolveClientCollectsAtLeast(a: Tables, b: Tables, ctx: ClientContext, rec: Record, ca: bool, cb: bool)
    requires AtLeastAsCollected(a, b) && (ca ==> cb)
    ensures CollectsAtLeast(ResolveClient(a, ctx, rec, ca), ResolveClient(b, ctx, rec, cb))
  {
    var c := ctx.communicationId;
    if c in a.pending && a.pending[c].ClientCall? && a.pending[c].transactionId in a.txns {
      CloseCollectsAtLeast(a, b, c, [rec], ca, cb);
    } else {
      AppendCollectsAtLeast(a, b, ctx.transactionId, rec, ca, cb);
    }
  }

  lemma {:induction false} ClientRecvCollectsAtLeast(lo: Settings, hi: Settings, a: Tables, b: Tables, payload: Payload,
                                                     bag: DuffelBag, briefcase: Briefcase, now: Timestamp)
    requires RaisedThreshold(lo, hi) && AtLeastAsCollected(a, b)
    ensures CollectsAtLeast(ClientRecv(lo, a, payload, bag, briefcase, now), ClientRecv(hi, b, payload, bag, briefcase, now))
  {
    if briefcase.csCtx.Some? {
      var ctx := briefcase.csCtx.value;
      var severity := bag.severity.GetOr(lo.defaultSeverity);
      ResolveClientCollectsAtLeast(a, b, ctx, ClientRecvRecord(ctx, payload, now),
                                   MustCollect(lo.mustCollectSeverity, severity), MustCollect(hi.mustCollectSeverity, severity));
    }
  }

  lemma {:induction false} NetworkErrorCollectsAtLeast(lo: Settings, hi: Settings, a: Tables, b: Tables,
                                                       briefcase: Briefcase, err: ErrorInfo, now: Timestamp)
    requires RaisedThreshold(lo, hi) && AtLeastAsCollected(a, b)
    ensures var ra := NetworkError(lo, a, briefcase, err, now);
            var rb := NetworkError(hi, b, briefcase, err, now);
            CollectsAtLeast(ra.step, rb.step) && ra.error == rb.error
  {
    if briefcase.csCtx.Some? {
      var ctx := briefcase.csCtx.value;
      ResolveClientCollectsAtLeast(a, b, ctx, NetworkErrorRecord(ctx, err, lo.noStack, now), true, true);
    }
  }

  lemma {:induction false} ExpireCollectsAtLeast(a: Tables, b: Tables, c: Id)
    requires AtLeastAsCollected(a, b)
    ensures CollectsAtLeast(Expire(a, c), Expire(b, c))
  {
    if c in a.pending && a.pending[c].ClientCall? && a.pending[c].transactionId in a.txns {
      CloseCollectsAtLeast(a, b, c, [], false, false);
    }
  }

  // ---------------------------------------------------------------------------
  // Whole runs

  /**
   * A call into the collector that touches its tables, with the fresh ids and
   * the time it is given. userSentError and systemError are not among them:
   * they hand on their record whatever the threshold.
   */
  datatype Event =
    | Recv(payload: Payload, bag: DuffelBag, freshComm: Id, freshTrans: Id)
    | Answer(payload: Payload, briefcase: Briefcase, skip: bool, now: Timestamp)
    | Finish(briefcase: Briefcase, now: Timestamp)
    | Call(payload: Payload, briefcase: Briefcase, freshComm: Id, freshTrans: Id, now: Timestamp)
    | Reply(payload: Payload, bag: DuffelBag, briefcase: Briefcase, now: Timestamp)
    | Fail(briefcase: Briefcase, err: ErrorInfo, now: Timestamp)
    | Expiry(communicationId: Id)

  /** The step one event takes on the tables. */
  function Apply(cfg: Settings, tb: Tables, e: Event): Step {
    match e
    case Recv(payload, bag, freshComm, freshTrans) =>
      Step(ServerRecv(cfg, tb, payload, bag, freshComm, freshTrans).tables, [])
    case Answer(payload, briefcase, skip, now) => ServerSend(cfg, tb, payload, briefcase, skip, now).step
    case Finish(briefcase, now) => End(tb, briefcase, now)
    case Call(payload, briefcase, freshComm, freshTrans, now) =>
      Step(ClientSend(cfg, tb, payload, briefcase, freshComm, freshTrans, now).tables, [])
    case Reply(payload, bag, briefcase, now) => ClientRecv(cfg, tb, payload, bag, briefcase, now)
    case Fail(briefcase, err, now) => NetworkError(cfg, tb, briefcase, err, now).step
    case Expiry(c) => Expire(tb, c)
  }

  /** The tables after a sequence of events, and every record handed to the sampler on the way, in order. */
  function Run(cfg: Settings, tb: Tables, events: seq<Event>): Step
    decreases |events|
  {
    if events == [] then Step(tb, [])
    else
      var first := Apply(cfg, tb, events[0]);
      var rest := Run(cfg, first.tables, events[1..]);
      Step(rest.tables, first.flushed + rest.flushed)
  }

  lemma {:induction false} ApplyCollectsAtLeast(lo: Settings, hi: Settings, a: Tables, b: Tables, e: Event)
    requires RaisedThreshold(lo, hi) && AtLeastAsCollected(a, b)
    ensures CollectsAtLeast(Apply(lo, a, e), Apply(hi, b, e))
  {
    match e
    case Recv(payload, bag, freshComm, freshTrans) =>
      ServerRecvCollectsAtLeast(lo, hi, a, b, payload, bag, freshComm, freshTrans);
    case Answer(payload, briefcase, skip, now) =>
      ServerSendCollectsAtLeast(lo, hi, a, b, payload, briefcase, skip, now);
    case Finish(briefcase, now) =>
      EndCollectsAtLeast(a, b, briefcase, now);
    case Call(payload, briefcase, freshComm, freshTrans, now) =>
      ClientSendCollectsAtLeast(lo, hi, a, b, payload, briefcase, freshComm, freshTrans, now);
    case Reply(payload, bag, briefcase, now) =>
      ClientRecvCollectsAtLeast(lo, hi, a, b, payload, bag, briefcase, now);
    case Fail(briefcase, err, now) =>
      NetworkErrorCollectsAtLeast(lo, hi, a, b, briefcase, err, now);
    case Expiry(c) =>
      ExpireCollectsAtLeast(a, b, c);
  }

  /**
   * Raising the threshold never decreases what is collected: over any sequence
   * of events, every transaction still live and must-collect under the lower
   * threshold is must-collect under the higher one, and every record the lower
   * threshold hands to the sampler, the higher one hands on as well.
   */
  lemma {:induction false} RaisingThresholdCollectsAtLeast(lo: Settings, hi: Settings, a: Tables, b: Tables, events: seq<Event>)
    requires RaisedThreshold(lo, hi) && AtLeastAsCollected(a, b)
    ensures CollectsAtLeast(Run(lo, a, events), Run(hi, b, events))
    decreases |events|
  {
    if events != [] {
      ApplyCollectsAtLeast(lo, hi, a, b, events[0]);
      var fa := Apply(lo, a, events[0]);
      var fb := Apply(hi, b, events[0]);
      RaisingThresholdCollectsAtLeast(lo, hi, fa.tables, fb.tables, events[1..]);
      var ra := Run(lo, fa.tables, events[1..]);
      var rb := Run(hi, fb.tables, events[1..]);
      assert multiset(fa.flushed + ra.flushed) <= multiset(fb.flushed + rb.flushed);
    }
  }

  /** From the same tables, a collector with a raised threshold hands on at least every record the other does. */
  lemma {:induction false} RaisedThresholdFromSameTables(lo: Settings, hi: Settings, tb: Tables, events: seq<Event>)
    requires RaisedThreshold(lo, hi)
    ensures multiset(Run(lo, tb, events).flushed) <= multiset(Run(hi, tb, events).flushed)
  {
    RaisingThresholdCollectsAtLeast(lo, hi, tb, tb, events);
  }
}

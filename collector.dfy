/**
 * The collector object: its pending-call and transaction tables are fields
 * that every API call updates in place, and finished records go to its
 * sampler. Each method is proved to move the tables exactly as the matching
 * transition of module Correlation does, and to offer the sampler exactly the
 * records that transition hands on.
 */
module Tracer {
  import opened Wrappers
  import opened Severity
  import opened Wire
  import opened Options
  import opened Sampling
  import Correlation

  class Collector {
    const settings: Settings
    const sampler: Sampler
    var pending: map<Id, Correlation.PendingCall>
    var txns: map<Id, Correlation.Transaction>

    ghost predicate Valid()
      reads this, sampler
    {
      sampler.Valid() && Correlation.Balanced(State())
    }

    function State(): Correlation.Tables
      reads this
    {
      Correlation.Tables(pending, txns)
    }

    constructor (config: Config)
      ensures Valid() && fresh(sampler)
      ensures settings == SettingsOf(config) && State() == Correlation.Empty
      ensures sampler.items == [] && sampler.limit == config.samplerLimit.GetOr(DefaultSamplerLimit)
    {
      settings := SettingsOf(config);
      sampler := new Sampler(config.samplerLimit.GetOr(DefaultSamplerLimit));
      pending := map[];
      txns := map[];
    }

    // -------------------------------------------------------------------------
    // Table moves

    method OpenCall(c: Id, call: Correlation.PendingCall, collectible: bool, recs: seq<Record>)
      requires Valid() && c !in pending
      modifies this
      ensures Valid() && State() == Correlation.Open(old(State()), c, call, collectible, recs)
    {
      Correlation.OpenKeepsBalance(State(), c, call, collectible, recs);
      var t := call.transactionId;
      var e := if t in txns then txns[t] else Correlation.Transaction(0, false, []);
      pending := pending[c := call];
      txns := txns[t := Correlation.Transaction(e.openCount + 1, e.mustCollect || collectible, e.buffered + recs)];
    }

    method Buffer(t: Id, rec: Record, collectible: bool)
      requires Valid()
      modifies this, sampler
      ensures Valid()
      ensures var s := Correlation.Append(old(State()), t, rec, collectible);
              State() == s.tables && sampler.Admitted(old(sampler.items), s.flushed)
    {
      Correlation.AppendKeepsBalance(State(), t, rec, collectible);
      if t in txns {
        var e := txns[t];
        txns := txns[t := Correlation.Transaction(e.openCount, e.mustCollect || collectible, e.buffered + [rec])];
      } else if collectible {
        sampler.Offer(rec);
      }
    }

    method CloseCall(c: Id, recs: seq<Record>, collectible: bool)
      requires Valid() && c in pending
      modifies this, sampler
      ensures Valid()
      ensures var s := Correlation.Close(old(State()), c, recs, collectible);
              State() == s.tables && sampler.Admitted(old(sampler.items), s.flushed)
    {
      Correlation.CloseKeepsBalance(State(), c, recs, collectible);
      var t := pending[c].transactionId;
      var e := txns[t];
      pending := pending - {c};
      if e.openCount <= 1 {
        txns := txns - {t};
        if e.mustCollect || collectible {
          sampler.OfferAll(e.buffered + recs);
        }
      } else {
        txns := txns[t := Correlation.Transaction(e.openCount - 1, e.mustCollect || collectible, e.buffered + recs)];
      }
    }

    method FinalizeServer(c: Id, now: Timestamp)
      requires Valid()
      modifies this, sampler
      ensures Valid()
      ensures var s := Correlation.FinalizeServer(old(State()), c, now);
              State() == s.tables && sampler.Admitted(old(sampler.items), s.flushed)
    {
      if c in pending && pending[c].ServerCall? {
        var call := pending[c];
        CloseCall(c, [ServerRecvRecord(c, call.transactionId, call.payload, call.bag, now)], false);
      }
    }

    method ResolveClient(ctx: ClientContext, rec: Record, collectible: bool)
      requires Valid()
      modifies this, sampler
      ensures Valid()
      ensures var s := Correlation.ResolveClient(old(State()), ctx, rec, collectible);
              State() == s.tables && sampler.Admitted(old(sampler.items), s.flushed)
    {
      var c := ctx.communicationId;
      if c in pending && pending[c].ClientCall? {
        CloseCall(c, [rec], collectible);
      } else {
        Buffer(ctx.transactionId, rec, collectible);
      }
    }

    // -------------------------------------------------------------------------
    // The API

    method ServerRecv(payload: Payload, bag: DuffelBag, freshComm: Id, freshTrans: Id)
      returns (briefcase: Briefcase, severity: Level)
      requires Valid()
      modifies this
      ensures Valid()
      ensures Correlation.ServerRecv(settings, old(State()), payload, bag, freshComm, freshTrans)
              == Correlation.Received(State(), briefcase, severity)
    {
      var c := bag.communicationId.GetOr(freshComm);
      var t := bag.transactionId.GetOr(freshTrans);
      severity := bag.severity.GetOr(settings.defaultSeverity);
      if c !in pending {
        OpenCall(c, Correlation.ServerCall(t, payload, bag), MustCollect(settings.mustCollectSeverity, severity), []);
      }
      briefcase := Briefcase(Some(Communication(c, t)), None);
    }

    method ServerSend(payload: Payload, briefcase: Briefcase, skip: bool, now: Timestamp)
      returns (severity: Option<Level>)
      requires Valid()
      modifies this, sampler
      ensures Valid()
      ensures var r := Correlation.ServerSend(settings, old(State()), payload, briefcase, skip, now);
              State() == r.step.tables && sampler.Admitted(old(sampler.items), r.step.flushed) &&
              severity == r.severity
    {
      if skip || briefcase.communication.None? {
        severity := None;
        return;
      }
      var comm := briefcase.communication.value;
      var known := Correlation.KnownSeverity(settings, State(), comm.transactionId, payload.severity);
      Buffer(comm.transactionId, ServerSendRecord(comm, payload, now), MustCollect(settings.mustCollectSeverity, known));
      ghost var mid := sampler.items;
      FinalizeServer(comm.id, now);
      AdmitsCompose(sampler.limit, old(sampler.items), Correlation.Append(old(State()), comm.transactionId,
                      ServerSendRecord(comm, payload, now), MustCollect(settings.mustCollectSeverity, known)).flushed,
                    mid, Correlation.FinalizeServer(Correlation.Append(old(State()), comm.transactionId,
                      ServerSendRecord(comm, payload, now), MustCollect(settings.mustCollectSeverity, known)).tables,
                      comm.id, now).flushed, sampler.items);
      severity := Some(known);
    }

    method End(briefcase: Briefcase, now: Timestamp)
      requires Valid()
      modifies this, sampler
      ensures Valid()
      ensures var s := Correlation.End(old(State()), briefcase, now);
              State() == s.tables && sampler.Admitted(old(sampler.items), s.flushed)
    {
      if briefcase.communication.Some? {
        FinalizeServer(briefcase.communication.value.id, now);
      }
    }

    method ClientSend(payload: Payload, briefcase: Briefcase, freshComm: Id, freshTrans: Id, now: Timestamp)
      returns (out: Briefcase, bag: DuffelBag)
      requires Valid() && freshComm !in pending
      modifies this
      ensures Valid()
      ensures Correlation.ClientSend(settings, old(State()), payload, briefcase, freshComm, freshTrans, now)
              == Correlation.Called(State(), out, bag)
    {
      var t := if briefcase.communication.Some? then briefcase.communication.value.transactionId else freshTrans;
      var severity := Correlation.KnownSeverity(settings, State(), t, payload.severity);
      OpenCall(freshComm, Correlation.ClientCall(t), MustCollect(settings.mustCollectSeverity, severity),
               [ClientSendRecord(freshComm, t, payload, settings.serviceKey, now)]);
      out := briefcase.(csCtx := Some(ClientContext(freshComm, t)));
      bag := DuffelBag(Some(freshComm), Some(t), Some(severity), settings.serviceKey, Some(now));
    }

    method ClientRecv(payload: Payload, bag: DuffelBag, briefcase: Briefcase, now: Timestamp)
      requires Valid()
      modifies this, sampler
      ensures Valid()
      ensures var s := Correlation.ClientRecv(settings, old(State()), payload, bag, briefcase, now);
              State() == s.tables && sampler.Admitted(old(sampler.items), s.flushed)
    {
      if briefcase.csCtx.Some? {
        var ctx := briefcase.csCtx.value;
        ResolveClient(ctx, ClientRecvRecord(ctx, payload, now),
                      MustCollect(settings.mustCollectSeverity, bag.severity.GetOr(settings.defaultSeverity)));
      }
    }

    method NetworkError(briefcase: Briefcase, err: ErrorInfo, now: Timestamp) returns (error: bool)
      requires Valid()
      modifies this, sampler
      ensures Valid()
      ensures var r := Correlation.NetworkError(settings, old(State()), briefcase, err, now);
              State() == r.step.tables && sampler.Admitted(old(sampler.items), r.step.flushed) &&
              error == r.error
    {
      if briefcase.csCtx.None? {
        return true;
      }
      var ctx := briefcase.csCtx.value;
      ResolveClient(ctx, NetworkErrorRecord(ctx, err, settings.noStack, now), true);
      error := false;
    }

    /** The lock-expiry timer of client call c fires. */
    method ExpireClientCall(c: Id)
      requires Valid()
      modifies this, sampler
      ensures Valid()
      ensures var s := Correlation.Expire(old(State()), c);
              State() == s.tables && sampler.Admitted(old(sampler.items), s.flushed)
    {
      if c in pending && pending[c].ClientCall? {
        CloseCall(c, [], false);
      }
    }

    /** userSentError: always collected, as one record of its own. */
    method UserSentError(context: Briefcase, message: string, err: ErrorInfo, now: Timestamp)
      requires Valid()
      modifies sampler
      ensures Valid()
      ensures sampler.Admitted(old(sampler.items), [UserErrorRecord(context, message, err, settings.noStack, now)])
    {
      sampler.Offer(UserErrorRecord(context, message, err, settings.noStack, now));
    }

    /** systemError: always collected, as one record of its own. */
    method SystemError(context: Briefcase, err: ErrorInfo, now: Timestamp)
      requires Valid()
      modifies sampler
      ensures Valid()
      ensures sampler.Admitted(old(sampler.items), [SystemErrorRecord(context, err, settings.noStack, now)])
    {
      sampler.Offer(SystemErrorRecord(context, err, settings.noStack, now));
    }

    /** collect(): drains the sampler. */
    method Collect() returns (out: seq<Record>)
      requires Valid()
      modifies sampler
      ensures Valid()
      ensures out == old(sampler.items) && sampler.items == [] && |out| <= sampler.limit
    {
      out := sampler.Drain();
    }
  }
}

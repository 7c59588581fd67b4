/**
 * The collector's two tables as values, and each API event as a transition on
 * them. The pending-call table maps a communication id to the call still
 * awaiting its second signal; the transaction table maps a transaction id to
 * its open-call count, its sticky must-collect verdict and the records it has
 * buffered. A transition also yields the records it hands to the sampler.
 */
module Correlation {
  import opened Wrappers
  import opened Severity
  import opened Wire
  import opened Options

  /** A two-phase call that has seen its first signal but not its second. */
  datatype PendingCall =
    | ServerCall(transactionId: Id, payload: Payload, bag: DuffelBag)
    | ClientCall(transactionId: Id)

  /** A transaction that still has open calls. */
  datatype Transaction = Transaction(openCount: nat, mustCollect: bool, buffered: seq<Record>)

  datatype Tables = Tables(pending: map<Id, PendingCall>, txns: map<Id, Transaction>)

  /** The tables after an event, and the records the event handed to the sampler. */
  datatype Step = Step(tables: Tables, flushed: seq<Record>)

  const Empty: Tables := Tables(map[], map[])

  /** The pending calls that belong to transaction t. */
  function OpenCalls(pending: map<Id, PendingCall>, t: Id): set<Id> {
    set c | c in pending && pending[c].transactionId == t
  }

  /**
   * Open-call balance: every pending call belongs to a live transaction, every
   * live transaction counts exactly its pending calls, and no transaction is
   * left live with no open call (it is flushed or discarded at quiescence).
   */
  ghost predicate Balanced(tb: Tables) {
    (forall c :: c in tb.pending ==> tb.pending[c].transactionId in tb.txns) &&
    (forall t :: t in tb.txns ==>
       tb.txns[t].openCount == |OpenCalls(tb.pending, t)| && tb.txns[t].openCount > 0)
  }

  /**
   * While a transaction stays live its verdict can only turn from "discard"
   * to "collect", and its buffer only grows at the end.
   */
  ghost predicate Extends(tb: Tables, next: Tables) {
    forall t :: t in tb.txns && t in next.txns ==>
      (tb.txns[t].mustCollect ==> next.txns[t].mustCollect) &&
      tb.txns[t].buffered <= next.txns[t].buffered
  }

  // ---------------------------------------------------------------------------
  // The three primitive moves on the tables

  /** Registers call c as open in its transaction, creating the entry on first use. */
  function Open(tb: Tables, c: Id, call: PendingCall, collectible: bool, recs: seq<Record>): Tables {
    var t := call.transactionId;
    var e := if t in tb.txns then tb.txns[t] else Transaction(0, false, []);
    Tables(tb.pending[c := call],
           tb.txns[t := Transaction(e.openCount + 1, e.mustCollect || collectible, e.buffered + recs)])
  }

  /**
   * Adds a one-phase record to transaction t. A live transaction buffers it;
   * otherwise it is at once handed on (when collectible) or dropped.
   */
  function Append(tb: Tables, t: Id, rec: Record, collectible: bool): Step {
    if t in tb.txns then
      var e := tb.txns[t];
      Step(Tables(tb.pending, tb.txns[t := Transaction(e.openCount, e.mustCollect || collectible, e.buffered + [rec])]), [])
    else
      Step(tb, if collectible then [rec] else [])
  }

  /**
   * Resolves pending call c with its closing records. When it was its
   * transaction's last open call, the transaction ends: its buffer is handed on
   * if the verdict is "collect" and dropped otherwise.
   */
  function Close(tb: Tables, c: Id, recs: seq<Record>, collectible: bool): Step
    requires c in tb.pending && tb.pending[c].transactionId in tb.txns
  {
    var t := tb.pending[c].transactionId;
    var e := tb.txns[t];
    var collect := e.mustCollect || collectible;
    if e.openCount <= 1 then
      Step(Tables(tb.pending - {c}, tb.txns - {t}), if collect then e.buffered + recs else [])
    else
      Step(Tables(tb.pending - {c}, tb.txns[t := Transaction(e.openCount - 1, collect, e.buffered + recs)]), [])
  }

  // ---------------------------------------------------------------------------
  // The API events

  /** Severity of an event in transaction t: its own, else the transaction's verdict, else the default. */
  function KnownSeverity(cfg: Settings, tb: Tables, t: Id, explicit: Option<Level>): Level {
    if explicit.Some? then explicit.value
    else if t in tb.txns && tb.txns[t].mustCollect then cfg.mustCollectSeverity
    else cfg.defaultSeverity
  }

  datatype Received = Received(tables: Tables, briefcase: Briefcase, severity: Level)

  /**
   * serverRecv: identifies the call from the duffel bag (fresh ids where it has
   * none) and opens it. A communication id that is already pending is not opened twice.
   */
  function ServerRecv(cfg: Settings, tb: Tables, payload: Payload, bag: DuffelBag, freshComm: Id, freshTrans: Id): Received {
    var c := bag.communicationId.GetOr(freshComm);
    var t := bag.transactionId.GetOr(freshTrans);
    var severity := bag.severity.GetOr(cfg.defaultSeverity);
    var tables := if c in tb.pending then tb
                  else Open(tb, c, ServerCall(t, payload, bag), MustCollect(cfg.mustCollectSeverity, severity), []);
    Received(tables, Briefcase(Some(Communication(c, t)), None), severity)
  }

  /** Finalizes server call c with its "sr" record, if it is still pending. */
  function FinalizeServer(tb: Tables, c: Id, now: Timestamp): Step {
    if c in tb.pending && tb.pending[c].ServerCall? && tb.pending[c].transactionId in tb.txns then
      var call := tb.pending[c];
      Close(tb, c, [ServerRecvRecord(c, call.transactionId, call.payload, call.bag, now)], false)
    else
      Step(tb, [])
  }

  /** end: finalizes the briefcase's server call; without a communication it does nothing. */
  function End(tb: Tables, briefcase: Briefcase, now: Timestamp): Step {
    if briefcase.communication.Some? then FinalizeServer(tb, briefcase.communication.value.id, now)
    else Step(tb, [])
  }

  datatype Sent = Sent(step: Step, severity: Option<Level>)

  /**
   * serverSend: unless skipped or outside a transaction, buffers an "ss" record
   * (folding its severity into the verdict) and then finalizes the server call.
   * The returned severity is the one propagated back to the caller.
   */
  function ServerSend(cfg: Settings, tb: Tables, payload: Payload, briefcase: Briefcase, skip: bool, now: Timestamp): Sent {
    if skip || briefcase.communication.None? then Sent(Step(tb, []), None)
    else
      var comm := briefcase.communication.value;
      var severity := KnownSeverity(cfg, tb, comm.transactionId, payload.severity);
      var first := Append(tb, comm.transactionId, ServerSendRecord(comm, payload, now),
                          MustCollect(cfg.mustCollectSeverity, severity));
      var second := FinalizeServer(first.tables, comm.id, now);
      Sent(Step(second.tables, first.flushed + second.flushed), Some(severity))
  }

  datatype Called = Called(tables: Tables, briefcase: Briefcase, bag: DuffelBag)

  /**
   * clientSend: opens a client call under a fresh communication id in the
   * briefcase's transaction (or a fresh one), buffers its "cs" record, and
   * builds the duffel bag for the callee.
   */
  function ClientSend(cfg: Settings, tb: Tables, payload: Payload, briefcase: Briefcase,
                      freshComm: Id, freshTrans: Id, now: Timestamp): Called
  {
    var t := if briefcase.communication.Some? then briefcase.communication.value.transactionId else freshTrans;
    var severity := KnownSeverity(cfg, tb, t, payload.severity);
    var tables := Open(tb, freshComm, ClientCall(t), MustCollect(cfg.mustCollectSeverity, severity),
                       [ClientSendRecord(freshComm, t, payload, cfg.serviceKey, now)]);
    Called(tables, briefcase.(csCtx := Some(ClientContext(freshComm, t))),
           DuffelBag(Some(freshComm), Some(t), Some(severity), cfg.serviceKey, Some(now)))
  }

  /** Resolves the client call ctx names with rec; a call no longer pending gets rec as a one-phase record. */
  function ResolveClient(tb: Tables, ctx: ClientContext, rec: Record, collectible: bool): Step {
    var c := ctx.communicationId;
    if c in tb.pending && tb.pending[c].ClientCall? && tb.pending[c].transactionId in tb.txns then
      Close(tb, c, [rec], collectible)
    else
      Append(tb, ctx.transactionId, rec, collectible)
  }

  /** clientRecv: resolves the pending client call; without a client context it does nothing. */
  function ClientRecv(cfg: Settings, tb: Tables, payload: Payload, bag: DuffelBag, briefcase: Briefcase, now: Timestamp): Step {
    if briefcase.csCtx.None? then Step(tb, [])
    else
      var ctx := briefcase.csCtx.value;
      ResolveClient(tb, ctx, ClientRecvRecord(ctx, payload, now),
                    MustCollect(cfg.mustCollectSeverity, bag.severity.GetOr(cfg.defaultSeverity)))
  }

  datatype Failed = Failed(step: Step, error: bool)

  /**
   * networkError: resolves the pending client call with an "ne" record and
   * forces the verdict to "collect"; without a client context it reports an error.
   */
  function NetworkError(cfg: Settings, tb: Tables, briefcase: Briefcase, err: ErrorInfo, now: Timestamp): Failed {
    if briefcase.csCtx.None? then Failed(Step(tb, []), true)
    else
      var ctx := briefcase.csCtx.value;
      Failed(ResolveClient(tb, ctx, NetworkErrorRecord(ctx, err, cfg.noStack, now), true), false)
  }

  /** Lock expiry: force-closes a still pending client call, with no record and no change of verdict. */
  function Expire(tb: Tables, c: Id): Step {
    if c in tb.pending && tb.pending[c].ClientCall? && tb.pending[c].transactionId in tb.txns then
      Close(tb, c, [], false)
    else
      Step(tb, [])
  }

  // ---------------------------------------------------------------------------
  // Open-call balance

  lemma {:induction false} OpenCallsWith(pending: map<Id, PendingCall>, c: Id, call: PendingCall, t: Id)
    requires c !in pending
    ensures |OpenCalls(pending[c := call], t)| == |OpenCalls(pending, t)| + (if call.transactionId == t then 1 else 0)
  {
    if call.transactionId == t {
      assert OpenCalls(pending[c := call], t) == OpenCalls(pending, t) + {c};
    } else {
      assert OpenCalls(pending[c := call], t) == OpenCalls(pending, t);
    }
  }

  lemma {:induction false} OpenCallsWithout(pending: map<Id, PendingCall>, c: Id, t: Id)
    requires c in pending
    ensures |OpenCalls(pending - {c}, t)| == |OpenCalls(pending, t)| - (if pending[c].transactionId == t then 1 else 0)
  {
    if pending[c].transactionId == t {
      assert OpenCalls(pending - {c}, t) == OpenCalls(pending, t) - {c};
    } else {
      assert OpenCalls(pending - {c}, t) == OpenCalls(pending, t);
    }
  }

  /** A set of one element that contains c is {c}. */
  lemma {:induction false} SingletonIs(s: set<Id>, c: Id)
    requires |s| == 1 && c in s
    ensures s == {c}
  {
    assert |s - {c}| == 0;
    assert s - {c} == {};
  }

  lemma {:induction false} OpenKeepsBalance(tb: Tables, c: Id, call: PendingCall, collectible: bool, recs: seq<Record>)
    requires Balanced(tb) && c !in tb.pending
    ensures Balanced(Open(tb, c, call, collectible, recs))
    ensures Extends(tb, Open(tb, c, call, collectible, recs))
  {
    var next := Open(tb, c, call, collectible, recs);
    forall u | u in next.txns
      ensures next.txns[u].openCount == |OpenCalls(next.pending, u)| && next.txns[u].openCount > 0
    {
      OpenCallsWith(tb.pending, c, call, u);
      if u == call.transactionId && u !in tb.txns {
        assert OpenCalls(tb.pending, u) == {};
      }
    }
  }

  lemma {:induction false} AppendKeepsBalance(tb: Tables, t: Id, rec: Record, collectible: bool)
    requires Balanced(tb)
    ensures Balanced(Append(tb, t, rec, collectible).tables)
    ensures Extends(tb, Append(tb, t, rec, collectible).tables)
  {
  }

  lemma {:induction false} CloseKeepsBalance(tb: Tables, c: Id, recs: seq<Record>, collectible: bool)
    requires Balanced(tb) && c in tb.pending
    ensures Balanced(Close(tb, c, recs, collectible).tables)
    ensures Extends(tb, Close(tb, c, recs, collectible).tables)
  {
    var t := tb.pending[c].transactionId;
    var next := Close(tb, c, recs, collectible).tables;
    forall u | u in next.txns
      ensures next.txns[u].openCount == |OpenCalls(next.pending, u)| && next.txns[u].openCount > 0
    {
      OpenCallsWithout(tb.pending, c, u);
    }
    if tb.txns[t].openCount <= 1 {
      assert c in OpenCalls(tb.pending, t);
      SingletonIs(OpenCalls(tb.pending, t), c);
      assert forall d :: d in tb.pending && tb.pending[d].transactionId == t ==> d == c by {
        forall d | d in tb.pending && tb.pending[d].transactionId == t ensures d == c {
          assert d in OpenCalls(tb.pending, t);
        }
      }
    }
  }

  /**
   * Flush only at quiescence: closing call c hands records on exactly when c
   * was the last open call of its transaction and the verdict is "collect",
   * and then it hands on the whole buffer followed by the closing records.
   * While another call of the transaction is open, nothing leaves it.
   */
  lemma {:induction false} CloseFlushesAtQuiescence(tb: Tables, c: Id, recs: seq<Record>, collectible: bool)
    requires Balanced(tb) && c in tb.pending
    ensures var t := tb.pending[c].transactionId;
            var e := tb.txns[t];
            var s := Close(tb, c, recs, collectible);
            (OpenCalls(tb.pending, t) == {c} ==>
               t !in s.tables.txns &&
               s.flushed == (if e.mustCollect || collectible then e.buffered + recs else [])) &&
            (OpenCalls(tb.pending, t) != {c} ==>
               s.flushed == [] && t in s.tables.txns &&
               s.tables.txns[t].buffered == e.buffered + recs &&
               s.tables.txns[t].mustCollect == (e.mustCollect || collectible))
  {
    var t := tb.pending[c].transactionId;
    assert c in OpenCalls(tb.pending, t);
    if |OpenCalls(tb.pending, t)| == 1 {
      SingletonIs(OpenCalls(tb.pending, t), c);
    }
  }

  /** A transaction with two calls open does not flush when one of them closes. */
  lemma {:induction false} NoFlushWhileAnotherCallOpen(tb: Tables, c: Id, other: Id, recs: seq<Record>, collectible: bool)
    requires Balanced(tb) && c in tb.pending && other in tb.pending && c != other
    requires tb.pending[other].transactionId == tb.pending[c].transactionId
    ensures Close(tb, c, recs, collectible).flushed == []
    ensures other in Close(tb, c, recs, collectible).tables.pending
  {
    var t := tb.pending[c].transactionId;
    assert {c, other} <= OpenCalls(tb.pending, t);
    assert |{c, other}| == 2;
    assert |OpenCalls(tb.pending, t)| >= 2 by {
      SubsetCard({c, other}, OpenCalls(tb.pending, t));
    }
  }

  lemma {:induction false} SubsetCard(a: set<Id>, b: set<Id>)
    requires a <= b
    ensures |a| <= |b|
  {
    assert b == a + (b - a);
  }

  // ---------------------------------------------------------------------------
  // Every event keeps the tables balanced and extends live transactions

  lemma {:induction false} ServerRecvKeepsBalance(cfg: Settings, tb: Tables, payload: Payload, bag: DuffelBag, freshComm: Id, freshTrans: Id)
    requires Balanced(tb)
    ensures var r := ServerRecv(cfg, tb, payload, bag, freshComm, freshTrans);
            Balanced(r.tables) && Extends(tb, r.tables) &&
            r.briefcase.communication.value.id in r.tables.pending
  {
    var c := bag.communicationId.GetOr(freshComm);
    var t := bag.transactionId.GetOr(freshTrans);
    if c !in tb.pending {
      var severity := bag.severity.GetOr(cfg.defaultSeverity);
      OpenKeepsBalance(tb, c, ServerCall(t, payload, bag), MustCollect(cfg.mustCollectSeverity, severity), []);
    }
  }

  lemma {:induction false} FinalizeServerKeepsBalance(tb: Tables, c: Id, now: Timestamp)
    requires Balanced(tb)
    ensures Balanced(FinalizeServer(tb, c, now).tables) && Extends(tb, FinalizeServer(tb, c, now).tables)
  {
    if c in tb.pending && tb.pending[c].ServerCall? {
      var call := tb.pending[c];
      CloseKeepsBalance(tb, c, [ServerRecvRecord(c, call.transactionId, call.payload, call.bag, now)], false);
    }
  }

  lemma {:induction false} ExtendsTransitive(a: Tables, b: Tables, c: Tables)
    requires Balanced(b) && Extends(a, b) && Extends(b, c)
    requires forall t :: t in a.txns && t in c.txns ==> t in b.txns
    ensures Extends(a, c)
  {
  }

  lemma {:induction false} ServerSendKeepsBalance(cfg: Settings, tb: Tables, payload: Payload, briefcase: Briefcase, skip: bool, now: Timestamp)
    requires Balanced(tb)
    ensures var r := ServerSend(cfg, tb, payload, briefcase, skip, now);
            Balanced(r.step.tables) && Extends(tb, r.step.tables)
  {
    if !skip && briefcase.communication.Some? {
      var comm := briefcase.communication.value;
      var severity := KnownSeverity(cfg, tb, comm.transactionId, payload.severity);
      var first := Append(tb, comm.transactionId, ServerSendRecord(comm, payload, now),
                          MustCollect(cfg.mustCollectSeverity, severity));
      AppendKeepsBalance(tb, comm.transactionId, ServerSendRecord(comm, payload, now),
                         MustCollect(cfg.mustCollectSeverity, severity));
      FinalizeServerKeepsBalance(first.tables, comm.id, now);
      ExtendsTransitive(tb, first.tables, FinalizeServer(first.tables, comm.id, now).tables);
    }
  }

  lemma {:induction false} ClientSendKeepsBalance(cfg: Settings, tb: Tables, payload: Payload, briefcase: Briefcase,
                                                  freshComm: Id, freshTrans: Id, now: Timestamp)
    requires Balanced(tb) && freshComm !in tb.pending
    ensures var r := ClientSend(cfg, tb, payload, briefcase, freshComm, freshTrans, now);
            Balanced(r.tables) && Extends(tb, r.tables) && freshComm in r.tables.pending
  {
    var t := if briefcase.communication.Some? then briefcase.communication.value.transactionId else freshTrans;
    var severity := KnownSeverity(cfg, tb, t, payload.severity);
    OpenKeepsBalance(tb, freshComm, ClientCall(t), MustCollect(cfg.mustCollectSeverity, severity),
                     [ClientSendRecord(freshComm, t, payload, cfg.serviceKey, now)]);
  }

  lemma {:induction false} ResolveClientKeepsBalance(tb: Tables, ctx: ClientContext, rec: Record, collectible: bool)
    requires Balanced(tb)
    ensures var s := ResolveClient(tb, ctx, rec, collectible);
            Balanced(s.tables) && Extends(tb, s.tables) &&
            (ctx.communicationId !in s.tables.pending ||
             (ctx.communicationId in tb.pending && tb.pending[ctx.communicationId].ServerCall?))
  {
    var c := ctx.communicationId;
    if c in tb.pending && tb.pending[c].ClientCall? {
      CloseKeepsBalance(tb, c, [rec], collectible);
    } else {
      AppendKeepsBalance(tb, ctx.transactionId, rec, collectible);
    }
  }

  lemma {:induction false} ExpireKeepsBalance(tb: Tables, c: Id)
    requires Balanced(tb)
    ensures Balanced(Expire(tb, c).tables) && Extends(tb, Expire(tb, c).tables)
    ensures c in Expire(tb, c).tables.pending ==> c in tb.pending && tb.pending[c].ServerCall?
  {
    if c in tb.pending && tb.pending[c].ClientCall? {
      CloseKeepsBalance(tb, c, [], false);
    }
  }

  // ---------------------------------------------------------------------------
  // Properties of single events

  /** First signal wins: once serverSend has finalized a server call, end does nothing. */
  lemma {:induction false} EndAfterServerSendIsIgnored(cfg: Settings, tb: Tables, payload: Payload, briefcase: Briefcase, now: Timestamp, later: Timestamp)
    requires Balanced(tb)
    ensures var s := ServerSend(cfg, tb, payload, briefcase, false, now).step;
            End(s.tables, briefcase, later) == Step(s.tables, [])
  {
  }

  /** First signal wins: a second end for the same server call does nothing. */
  lemma {:induction false} EndTwiceIsIgnored(tb: Tables, briefcase: Briefcase, now: Timestamp, later: Timestamp)
    requires Balanced(tb)
    ensures var s := End(tb, briefcase, now);
            End(s.tables, briefcase, later) == Step(s.tables, [])
  {
  }

  /** A skipped serverSend neither buffers nor finalizes anything, so a later end still finalizes the call. */
  lemma {:induction false} SkippedServerSendChangesNothing(cfg: Settings, tb: Tables, payload: Payload, briefcase: Briefcase, now: Timestamp)
    ensures ServerSend(cfg, tb, payload, briefcase, true, now) == Sent(Step(tb, []), None)
  {
  }

  /**
   * A network error with a client context is never dropped: it is handed on at
   * once, or it waits in a live transaction whose verdict is now "collect".
   */
  lemma {:induction false} NetworkErrorIsKept(cfg: Settings, tb: Tables, briefcase: Briefcase, err: ErrorInfo, now: Timestamp)
    requires Balanced(tb) && briefcase.csCtx.Some?
    ensures var ctx := briefcase.csCtx.value;
            var rec := NetworkErrorRecord(ctx, err, cfg.noStack, now);
            var c := ctx.communicationId;
            var holder := if c in tb.pending && tb.pending[c].ClientCall? then tb.pending[c].transactionId else ctx.transactionId;
            var r := NetworkError(cfg, tb, briefcase, err, now);
            !r.error &&
            (rec in r.step.flushed ||
             (holder in r.step.tables.txns && r.step.tables.txns[holder].mustCollect &&
              rec in r.step.tables.txns[holder].buffered))
  {
    var ctx := briefcase.csCtx.value;
    var rec := NetworkErrorRecord(ctx, err, cfg.noStack, now);
    var c := ctx.communicationId;
    if c in tb.pending && tb.pending[c].ClientCall? {
      var e := tb.txns[tb.pending[c].transactionId];
      assert rec in e.buffered + [rec];
    } else if ctx.transactionId in tb.txns {
      assert rec in tb.txns[ctx.transactionId].buffered + [rec];
    }
  }

  /** Without a client context, clientRecv changes nothing and networkError reports an error and changes nothing. */
  lemma {:induction false} MissingClientContext(cfg: Settings, tb: Tables, payload: Payload, bag: DuffelBag, briefcase: Briefcase, err: ErrorInfo, now: Timestamp)
    requires briefcase.csCtx.None?
    ensures ClientRecv(cfg, tb, payload, bag, briefcase, now) == Step(tb, [])
    ensures NetworkError(cfg, tb, briefcase, err, now) == Failed(Step(tb, []), true)
  {
  }

  /** A must-collect transaction propagates the must-collect severity to the callee of a client call. */
  lemma {:induction false} ClientSendInheritsVerdict(cfg: Settings, tb: Tables, payload: Payload, briefcase: Briefcase,
                                                     freshComm: Id, freshTrans: Id, now: Timestamp)
    requires briefcase.communication.Some? && payload.severity.None?
    requires briefcase.communication.value.transactionId in tb.txns
    requires tb.txns[briefcase.communication.value.transactionId].mustCollect
    ensures var r := ClientSend(cfg, tb, payload, briefcase, freshComm, freshTrans, now);
            r.bag.severity == Some(cfg.mustCollectSeverity) &&
            r.tables.txns[briefcase.communication.value.transactionId].mustCollect
  {
  }
}

/**
 * The objects that cross the collector's API: payloads handed in by the
 * instrumentation, the duffel bag sent alongside a request to the callee, the
 * briefcase the caller keeps for the lifetime of its own call, and the records
 * the collector hands to the reporter (with the wire's short field names).
 */
module Wire {
  import opened Wrappers
  import opened Severity

  type Id = string
  type Timestamp = int
  type ServiceKey = int

  /** Free-form key/value data attached to an event; the collector carries it unread. */
  type Data = map<string, string>

  /** What the instrumentation reports about one event; every field may be absent. */
  datatype Payload = Payload(
    protocol: Option<string>,
    action: Option<string>,
    resource: Option<string>,
    host: Option<string>,
    status: Option<string>,
    data: Option<Data>,
    severity: Option<Level>)

  const NoPayload: Payload := Payload(None, None, None, None, None, None, None)

  /** Context propagated to (and back from) the other side of a call. */
  datatype DuffelBag = DuffelBag(
    communicationId: Option<Id>,
    transactionId: Option<Id>,
    severity: Option<Level>,
    parentServiceKey: Option<ServiceKey>,
    timestamp: Option<Timestamp>)

  const NoBag: DuffelBag := DuffelBag(None, None, None, None, None)

  /** The inbound call a briefcase belongs to. */
  datatype Communication = Communication(id: Id, transactionId: Id)

  /** The outbound call a briefcase is waiting on. */
  datatype ClientContext = ClientContext(communicationId: Id, transactionId: Id)

  /** Context the caller keeps across its own call. */
  datatype Briefcase = Briefcase(communication: Option<Communication>, csCtx: Option<ClientContext>)

  const NoBriefcase: Briefcase := Briefcase(None, None)

  datatype ErrorInfo = ErrorInfo(message: string, stack: Option<string>)

  /** Record types: server receive/send, client send/receive, network, user and system error. */
  datatype Kind = SR | SS | CS | CR | NE | UE | SE

  /** The `d` field: the payload's data, or an error description. */
  datatype Detail = Info(data: Option<Data>) | Fault(message: Option<string>, error: ErrorInfo)

  /**
   * A wire record. t: type, r: transaction id, i: timestamp, p: communication id,
   * o: call-start timestamp, k: parent service key, c: protocol, ac: action,
   * e: resource, h: host, s: status, d: data.
   */
  datatype Record = Record(
    t: Kind,
    r: Option<Id>,
    i: Timestamp,
    p: Option<Id>,
    o: Option<Timestamp>,
    k: Option<ServiceKey>,
    c: Option<string>,
    ac: Option<string>,
    e: Option<string>,
    h: Option<string>,
    s: Option<string>,
    d: Detail)

  function ServerRecvRecord(c: Id, t: Id, payload: Payload, bag: DuffelBag, now: Timestamp): Record {
    Record(SR, Some(t), now, Some(c), bag.timestamp, bag.parentServiceKey, payload.protocol,
           payload.action, payload.resource, payload.host, None, Info(payload.data))
  }

  function ServerSendRecord(comm: Communication, payload: Payload, now: Timestamp): Record {
    Record(SS, Some(comm.transactionId), now, Some(comm.id), None, None, payload.protocol,
           None, None, None, payload.status, Info(payload.data))
  }

  function ClientSendRecord(c: Id, t: Id, payload: Payload, serviceKey: Option<ServiceKey>, now: Timestamp): Record {
    Record(CS, Some(t), now, Some(c), Some(now), serviceKey, payload.protocol,
           payload.action, payload.resource, payload.host, None, Info(payload.data))
  }

  function ClientRecvRecord(ctx: ClientContext, payload: Payload, now: Timestamp): Record {
    Record(CR, Some(ctx.transactionId), now, Some(ctx.communicationId), None, None, payload.protocol,
           None, None, None, payload.status, Info(payload.data))
  }

  /** The error as reported: without its stack trace when `noStack` is configured. */
  function Reported(err: ErrorInfo, noStack: bool): (r: ErrorInfo)
    ensures r.message == err.message
    ensures r.stack == if noStack then None else err.stack
  {
    if noStack then err.(stack := None) else err
  }

  function NetworkErrorRecord(ctx: ClientContext, err: ErrorInfo, noStack: bool, now: Timestamp): Record {
    Record(NE, Some(ctx.transactionId), now, Some(ctx.communicationId), None, None, None,
           None, None, None, None, Fault(None, Reported(err, noStack)))
  }

  /** The transaction an error report's context names, if any. */
  function ContextTransaction(context: Briefcase): Option<Id> {
    if context.communication.Some? then Some(context.communication.value.transactionId) else None
  }

  function UserErrorRecord(context: Briefcase, message: string, err: ErrorInfo, noStack: bool, now: Timestamp): Record {
    Record(UE, ContextTransaction(context), now, None, None, None, None,
           None, None, None, None, Fault(Some(message), Reported(err, noStack)))
  }

  function SystemErrorRecord(context: Briefcase, err: ErrorInfo, noStack: bool, now: Timestamp): Record {
    Record(SE, ContextTransaction(context), now, None, None, None, None,
           None, None, None, None, Fault(None, Reported(err, noStack)))
  }
}

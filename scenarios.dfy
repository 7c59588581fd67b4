/**
 * The collector's test cases, each as a client of the Collector class: it
 * drives a fresh collector through the same calls and its postcondition is the
 * test's expectation, proved from the methods' contracts alone. Generated ids
 * and clock readings are the constants the tests stub in ("uuid" and 2).
 */
module Scenarios {
  import opened Wrappers
  import opened Severity
  import opened Wire
  import opened Options
  import opened Sampling
  import opened Tracer
  import Correlation

  /** The options most tests use: service key 2. */
  const Standard: Config := Config(None, Some(2), None, false)

  const Http: Payload :=
    Payload(Some("http"), Some("action"), Some("resource"), Some("host"), None, Some(map[]), None)

  /** The inbound duffel bag of the server-receive tests, with a chosen severity. */
  function InboundBag(severity: Option<Level>): DuffelBag {
    DuffelBag(Some("communicationId"), Some("transactionId"), severity, Some(8), Some(1))
  }

  const InTransaction: Briefcase :=
    Briefcase(Some(Communication("communicationId", "transactionId")), None)

  method ThresholdIsConfigurable() returns (threshold: Level)
    ensures threshold == 7
  {
    var tracer := new Collector(Config(Some("DEBUG"), None, None, false));
    threshold := tracer.settings.mustCollectSeverity;
  }

  method ServerRecvFillsCommunication() returns (briefcase: Briefcase)
    ensures briefcase.communication == Some(Communication("uuid", "uuid"))
  {
    var tracer := new Collector(Standard);
    var severity;
    briefcase, severity := tracer.ServerRecv(Http, NoBag, "uuid", "uuid");
  }

  method ServerRecvKeepsCommunication() returns (briefcase: Briefcase)
    ensures briefcase.communication == Some(Communication("communicationId", "transactionId"))
  {
    var tracer := new Collector(Standard);
    var severity;
    briefcase, severity := tracer.ServerRecv(Http, InboundBag(Some(CRIT)), "uuid", "uuid");
  }

  method ServerRecvAloneIsNotCollected() returns (out: seq<Record>)
    ensures out == []
  {
    var tracer := new Collector(Standard);
    var _, _ := tracer.ServerRecv(Http, InboundBag(Some(tracer.settings.mustCollectSeverity + 1)), "uuid", "uuid");
    out := tracer.Collect();
  }

  method EndCollectsExactRecord() returns (out: seq<Record>)
    ensures out == [Record(SR, Some("transactionId"), 2, Some("communicationId"), Some(1), Some(8), Some("http"),
                           Some("action"), Some("resource"), Some("host"), None, Info(Some(map[])))]
  {
    var tracer := new Collector(Standard);
    var briefcase, _ := tracer.ServerRecv(Http, InboundBag(Some(tracer.settings.mustCollectSeverity)), "uuid", "uuid");
    tracer.End(briefcase, 2);
    out := tracer.Collect();
  }

  /** The tables while a server call and a client call it made are both open, with the cs record buffered. */
  function BothOpen(): Correlation.Tables {
    Correlation.Tables(
      map["communicationId" := Correlation.ServerCall("transactionId", NoPayload, InboundBag(None)),
          "uuid" := Correlation.ClientCall("transactionId")],
      map["transactionId" := Correlation.Transaction(2, false, [ClientSendRecord("uuid", "transactionId", NoPayload, Some(2), 2)])])
  }

  /** Shared first half of the four-call tests: serverRecv without a severity, then clientSend inside it. */
  method ServerThenClient() returns (tracer: Collector, sr: Briefcase, cs: Briefcase)
    ensures fresh(tracer) && fresh(tracer.sampler) && tracer.Valid()
    ensures tracer.settings == SettingsOf(Standard) && tracer.sampler.limit == DefaultSamplerLimit
    ensures tracer.State() == BothOpen() && tracer.sampler.items == []
    ensures sr == InTransaction && cs == InTransaction.(csCtx := Some(ClientContext("uuid", "transactionId")))
  {
    tracer := new Collector(Standard);
    var severity, bag;
    sr, severity := tracer.ServerRecv(NoPayload, InboundBag(None), "uuid", "uuid");
    assert tracer.pending == map["communicationId" := Correlation.ServerCall("transactionId", NoPayload, InboundBag(None))];
    assert tracer.txns == map["transactionId" := Correlation.Transaction(1, false, [])];
    cs, bag := tracer.ClientSend(NoPayload, sr, "uuid", "uuid", 2);
    assert tracer.pending == BothOpen().pending;
    assert tracer.txns.Keys == {"transactionId"};
    assert tracer.txns["transactionId"].openCount == 2;
    assert !tracer.txns["transactionId"].mustCollect;
    assert tracer.txns["transactionId"].buffered == [ClientSendRecord("uuid", "transactionId", NoPayload, Some(2), 2)];
    assert tracer.txns == BothOpen().txns;
  }

  /** serverRecv, clientSend, a network error on the client call, then a collect: only the server call is open. */
  method ClientFailedServerOpen() returns (tracer: Collector, sr: Briefcase, first: seq<Record>)
    ensures fresh(tracer) && fresh(tracer.sampler) && tracer.Valid()
    ensures tracer.settings == SettingsOf(Standard) && tracer.sampler.limit == DefaultSamplerLimit
    ensures tracer.pending == map["communicationId" := Correlation.ServerCall("transactionId", NoPayload, InboundBag(None))]
    ensures tracer.txns.Keys == {"transactionId"} && tracer.sampler.items == []
    ensures tracer.txns["transactionId"].openCount == 1 && |tracer.txns["transactionId"].buffered| == 2
    ensures tracer.txns["transactionId"].mustCollect
    ensures sr == InTransaction && first == []
  {
    var cs;
    tracer, sr, cs := ServerThenClient();
    var _ := tracer.NetworkError(cs, ErrorInfo("", None), 2);
    assert tracer.pending == map["communicationId" := Correlation.ServerCall("transactionId", NoPayload, InboundBag(None))];
    assert tracer.txns.Keys == {"transactionId"};
    first := tracer.Collect();
  }

  method SrCsNeSs() returns (first: seq<Record>, second: seq<Record>)
    ensures |first| == 0 && |second| == 4
  {
    var tracer, sr;
    tracer, sr, first := ClientFailedServerOpen();
    var _ := tracer.ServerSend(NoPayload, sr, false, 2);
    second := tracer.Collect();
  }

  /**
   * Shared first half of the tests where the server answers before its client
   * call resolves: serverRecv, clientSend, serverSend, then a collect.
   */
  method ServerAnsweredClientOpen() returns (tracer: Collector, cs: Briefcase, first: seq<Record>)
    ensures fresh(tracer) && fresh(tracer.sampler) && tracer.Valid()
    ensures tracer.settings == SettingsOf(Standard) && tracer.sampler.limit == DefaultSamplerLimit
    ensures tracer.pending == map["uuid" := Correlation.ClientCall("transactionId")]
    ensures tracer.txns.Keys == {"transactionId"} && tracer.sampler.items == []
    ensures tracer.txns["transactionId"].openCount == 1 && |tracer.txns["transactionId"].buffered| == 3
    ensures cs.csCtx == Some(ClientContext("uuid", "transactionId"))
    ensures first == []
  {
    var sr;
    tracer, sr, cs := ServerThenClient();
    var _ := tracer.ServerSend(NoPayload, sr, false, 2);
    assert tracer.pending == map["uuid" := Correlation.ClientCall("transactionId")];
    assert tracer.txns.Keys == {"transactionId"};
    assert tracer.txns["transactionId"].openCount == 1;
    first := tracer.Collect();
  }

  method SrCsSsNe() returns (first: seq<Record>, second: seq<Record>)
    ensures |first| == 0 && |second| == 4
  {
    var tracer, cs;
    tracer, cs, first := ServerAnsweredClientOpen();
    var _ := tracer.NetworkError(cs, ErrorInfo("", None), 2);
    second := tracer.Collect();
  }

  method SrCsSsCr() returns (first: seq<Record>, second: seq<Record>)
    ensures |first| == 0 && |second| == 4
  {
    var tracer, cs;
    tracer, cs, first := ServerAnsweredClientOpen();
    tracer.ClientRecv(NoPayload, NoBag.(severity := Some(tracer.settings.mustCollectSeverity)), cs, 2);
    second := tracer.Collect();
  }

  method ServerSendOfUncollectedCall() returns (out: seq<Record>)
    ensures out == []
  {
    var tracer := new Collector(Standard);
    var sr, _ := tracer.ServerRecv(Http, InboundBag(Some(tracer.settings.mustCollectSeverity + 1)), "uuid", "uuid");
    var _ := tracer.ServerSend(NoPayload, sr, false, 2);
    out := tracer.Collect();
  }

  method EndOfUncollectedCall() returns (out: seq<Record>)
    ensures out == []
  {
    var tracer := new Collector(Standard);
    var sr, _ := tracer.ServerRecv(Http, InboundBag(Some(tracer.settings.mustCollectSeverity + 1)), "uuid", "uuid");
    tracer.End(sr, 2);
    out := tracer.Collect();
  }

  method EndCollectedOnlyOnce() returns (first: seq<Record>, second: seq<Record>)
    ensures |first| == 1 && second == []
  {
    var tracer := new Collector(Standard);
    var sr, _ := tracer.ServerRecv(Http, InboundBag(Some(tracer.settings.mustCollectSeverity)), "uuid", "uuid");
    tracer.End(sr, 2);
    first := tracer.Collect();
    second := tracer.Collect();
  }

  method ServerSendIsCollected() returns (out: seq<Record>)
    ensures out == [Record(SS, Some("transactionId"), 2, Some("communicationId"), None, None, Some("http"),
                           None, None, None, Some("ok"), Info(Some(map["statusCode" := "200"])))]
  {
    var tracer := new Collector(Standard);
    var payload := Payload(Some("http"), None, None, None, Some("ok"), Some(map["statusCode" := "200"]),
                           Some(tracer.settings.mustCollectSeverity));
    var _ := tracer.ServerSend(payload, InTransaction, false, 2);
    out := tracer.Collect();
  }

  method ServerSendOutsideTransaction() returns (out: seq<Record>)
    ensures out == []
  {
    var tracer := new Collector(Standard);
    var payload := Payload(Some("http"), None, None, None, Some("ok"), Some(map["statusCode" := "200"]), None);
    var _ := tracer.ServerSend(payload, NoBriefcase, false, 2);
    out := tracer.Collect();
  }

  method ServerSendRaisesVerdict() returns (out: seq<Record>)
    ensures |out| == 2
  {
    var tracer := new Collector(Standard);
    var threshold := tracer.settings.mustCollectSeverity;
    var sr, _ := tracer.ServerRecv(NoPayload, DuffelBag(Some("commId"), Some("trId"), Some(threshold + 1), None, None), "uuid", "uuid");
    var _ := tracer.ServerSend(NoPayload.(severity := Some(threshold)), sr, false, 2);
    out := tracer.Collect();
  }

  method ServerSendPropagatesSeverity() returns (severity: Option<Level>, threshold: Level)
    ensures threshold == DefaultThreshold && severity == Some(threshold)
  {
    var tracer := new Collector(Standard);
    threshold := tracer.settings.mustCollectSeverity;
    var sr, _ := tracer.ServerRecv(NoPayload, DuffelBag(Some("commId"), Some("trId"), Some(threshold), None, None), "uuid", "uuid");
    severity := tracer.ServerSend(NoPayload, sr, false, 2);
  }

  method SkippedServerSend() returns (first: seq<Record>, second: seq<Record>, third: seq<Record>, afterEnd: seq<Record>)
    ensures first == [] && second == [] && third == [] && |afterEnd| == 1
  {
    var tracer := new Collector(Standard);
    var threshold := tracer.settings.mustCollectSeverity;
    var sr, _ := tracer.ServerRecv(NoPayload, DuffelBag(Some("commId"), Some("trId"), Some(threshold), None, None), "uuid", "uuid");
    first := tracer.Collect();
    var _ := tracer.ServerSend(NoPayload, sr, true, 2);
    second := tracer.Collect();
    third := tracer.Collect();
    tracer.End(sr, 2);
    afterEnd := tracer.Collect();
  }

  method ClientSendBuildsContext() returns (briefcase: Briefcase, bag: DuffelBag)
    ensures briefcase.csCtx == Some(ClientContext("uuid", "uuid"))
    ensures bag == DuffelBag(Some("uuid"), Some("uuid"), Some(DefaultSeverity), Some(2), Some(2))
  {
    var tracer := new Collector(Standard);
    briefcase, bag := tracer.ClientSend(NoPayload, NoBriefcase, "uuid", "uuid", 2);
  }

  method ClientSendAloneIsNotCollected() returns (out: seq<Record>)
    ensures out == []
  {
    var tracer := new Collector(Standard);
    var _, _ := tracer.ClientSend(Http.(severity := Some(tracer.settings.mustCollectSeverity)), InTransaction, "uuid", "uuid", 2);
    out := tracer.Collect();
  }

  method LockExpiryCollects() returns (first: seq<Record>, second: seq<Record>)
    ensures |first| == 1 && second == []
  {
    var tracer := new Collector(Standard);
    var _, _ := tracer.ClientSend(Http.(severity := Some(tracer.settings.mustCollectSeverity)), InTransaction, "uuid", "uuid", 2);
    tracer.ExpireClientCall("uuid");
    first := tracer.Collect();
    second := tracer.Collect();
  }

  method ClientSendOutsideTransaction() returns (out: seq<Record>)
    ensures out == []
  {
    var tracer := new Collector(Standard);
    var _, _ := tracer.ClientSend(NoPayload, NoBriefcase, "uuid", "uuid", 2);
    out := tracer.Collect();
  }

  method ClientRoundTrip() returns (out: seq<Record>)
    ensures |out| == 2
  {
    var tracer := new Collector(Standard);
    var cs, _ := tracer.ClientSend(NoPayload.(severity := Some(tracer.settings.mustCollectSeverity)), NoBriefcase, "uuid", "uuid", 2);
    tracer.ClientRecv(NoPayload, NoBag, cs, 2);
    out := tracer.Collect();
  }

  method IndependentClientCalls() returns (out: seq<Record>)
    ensures |out| == 2
  {
    var tracer := new Collector(Standard);
    var cs1, _ := tracer.ClientSend(NoPayload.(severity := Some(tracer.settings.mustCollectSeverity)), NoBriefcase, "uuid", "uuid", 2);
    tracer.ClientRecv(NoPayload, NoBag, cs1, 2);
    assert tracer.State() == Correlation.Empty && |tracer.sampler.items| == 2;
    var cs2, _ := tracer.ClientSend(NoPayload, NoBriefcase, "uuid", "uuid", 2);
    tracer.ClientRecv(NoPayload, NoBag, cs2, 2);
    out := tracer.Collect();
  }

  method ClientNetworkError() returns (out: seq<Record>)
    ensures |out| == 2
  {
    var tracer := new Collector(Standard);
    var cs, _ := tracer.ClientSend(NoPayload, NoBriefcase, "uuid", "uuid", 2);
    var _ := tracer.NetworkError(cs, ErrorInfo("", None), 2);
    out := tracer.Collect();
  }

  method ClientRecvWithoutContext() returns (out: seq<Record>)
    ensures out == []
  {
    var tracer := new Collector(Standard);
    tracer.ClientRecv(NoPayload, NoBag, NoBriefcase, 2);
    out := tracer.Collect();
  }

  method ClientRecvOnItsOwn() returns (out: seq<Record>)
    ensures |out| == 1
  {
    var tracer := new Collector(Standard);
    var payload := Payload(Some("http"), None, None, None, Some("ok"), Some(map["statusCode" := "200"]), None);
    var bag := NoBag.(severity := Some(tracer.settings.mustCollectSeverity), timestamp := Some(1));
    var briefcase := Briefcase(Some(Communication("id", "id")), Some(ClientContext("child-id", "id")));
    tracer.ClientRecv(payload, bag, briefcase, 2);
    out := tracer.Collect();
  }

  method ServerVerdictReachesCallee() returns (bag: DuffelBag, threshold: Level)
    ensures bag.severity == Some(threshold)
  {
    var tracer := new Collector(Standard);
    threshold := tracer.settings.mustCollectSeverity;
    var sr, _ := tracer.ServerRecv(NoPayload, InboundBag(Some(threshold)), "uuid", "uuid");
    var cs;
    cs, bag := tracer.ClientSend(NoPayload, sr, "uuid", "uuid", 2);
  }

  method OpenClientCallHoldsFlush() returns (out: seq<Record>)
    ensures out == []
  {
    var tracer := new Collector(Standard);
    var sr, _ := tracer.ServerRecv(NoPayload, InboundBag(Some(tracer.settings.mustCollectSeverity)), "uuid", "uuid");
    var _, _ := tracer.ClientSend(NoPayload, sr, "uuid", "uuid", 2);
    tracer.End(sr, 2);
    out := tracer.Collect();
  }

  method UserSentErrorIsCollected() returns (out: seq<Record>, stripped: seq<Record>)
    ensures |out| == 1 && |stripped| == 1 && stripped[0].d.Fault? && stripped[0].d.error.stack.None?
  {
    var error := ErrorInfo("yikes!", Some("stack"));
    var tracer := new Collector(Standard);
    tracer.UserSentError(NoBriefcase, "my error", error, 2);
    out := tracer.Collect();
    var quiet := new Collector(Standard.(noStack := true));
    quiet.UserSentError(NoBriefcase, "my error", error, 2);
    stripped := quiet.Collect();
  }

  method SystemErrorIsCollected() returns (out: seq<Record>, stripped: seq<Record>)
    ensures |out| == 1 && |stripped| == 1 && stripped[0].d.Fault? && stripped[0].d.error.stack.None?
  {
    var error := ErrorInfo("yikes!", Some("stack"));
    var tracer := new Collector(Standard);
    tracer.SystemError(NoBriefcase, error, 2);
    out := tracer.Collect();
    var quiet := new Collector(Standard.(noStack := true));
    quiet.SystemError(NoBriefcase, error, 2);
    stripped := quiet.Collect();
  }

  method NetworkErrorNeedsClientContext() returns (error: bool, out: seq<Record>)
    ensures error && out == []
  {
    var tracer := new Collector(Standard);
    error := tracer.NetworkError(NoBriefcase, ErrorInfo("yikes!", Some("stack")), 2);
    out := tracer.Collect();
  }

  method NetworkErrorIsCollected() returns (out: seq<Record>, stripped: seq<Record>)
    ensures |out| == 1 && |stripped| == 1 && stripped[0].d.Fault? && stripped[0].d.error.stack.None?
  {
    var error := ErrorInfo("yikes!", Some("stack"));
    var context := Briefcase(None, Some(ClientContext("child-id", "tr-id")));
    var tracer := new Collector(Standard);
    var _ := tracer.NetworkError(context, error, 2);
    out := tracer.Collect();
    var quiet := new Collector(Standard.(noStack := true));
    var _ := quiet.NetworkError(context, error, 2);
    stripped := quiet.Collect();
  }

  /** Fifty must-collect server transactions (sr + ss each) through a sampler of ten. */
  method SamplesServerTransactions() returns (out: seq<Record>)
    ensures 0 < |out| < 50 && |out| <= 10
  {
    var tracer := new Collector(Standard.(samplerLimit := Some(10)));
    var threshold := tracer.settings.mustCollectSeverity;
    var i := 0;
    while i < 50
      invariant 0 <= i <= 50
      invariant tracer.Valid() && tracer.State() == Correlation.Empty && tracer.sampler.limit == 10
      invariant |tracer.sampler.items| == Min(10, 2 * i)
    {
      var sr, _ := tracer.ServerRecv(NoPayload, DuffelBag(Some("commId"), Some("trId"), Some(threshold), None, None), "uuid", "uuid");
      var _ := tracer.ServerSend(NoPayload.(severity := Some(threshold)), sr, false, 2);
      i := i + 1;
    }
    out := tracer.Collect();
  }

  /** Fifty must-collect client round trips (cs + cr each) through a sampler of ten; drained, it is empty. */
  method SamplesClientTransactions() returns (out: seq<Record>, size: nat)
    ensures 0 < |out| < 50 && |out| <= 10 && size == 0
  {
    var tracer := new Collector(Standard.(samplerLimit := Some(10)));
    var threshold := tracer.settings.mustCollectSeverity;
    var i := 0;
    while i < 50
      invariant 0 <= i <= 50
      invariant tracer.Valid() && tracer.State() == Correlation.Empty && tracer.sampler.limit == 10
      invariant |tracer.sampler.items| == Min(10, 2 * i)
    {
      var cs, _ := tracer.ClientSend(NoPayload.(severity := Some(threshold)), NoBriefcase, "uuid", "uuid", 2);
      tracer.ClientRecv(NoPayload, NoBag, cs, 2);
      i := i + 1;
    }
    out := tracer.Collect();
    size := tracer.sampler.Size();
  }
}

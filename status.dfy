/** functions/windcave/status.py: ask the Windcave terminal how a transaction
    is going and normalise the answer. */
module Status {
  import opened Runtime
  import opened Scr

  // ---------------------------------------------------------------------------
  // The request envelope of `make_payment_status`.

  const StatusTags: seq<string> := ["TxnType", "TxnRef", "Station"]

  /** The `Scr` envelope of `make_payment_status`, children in the order of the f-string. */
  function StatusEnvelope(transactionReference: string, user: string, key: string, stationId: int): (env: Envelope)
    ensures env.action == "doScrHIT" && env.user == user && env.key == key
    ensures |env.children| == |StatusTags|
    ensures forall i :: 0 <= i < |StatusTags| ==> env.children[i].tag == StatusTags[i]
  {
    Envelope(Action, user, key, [
      Element("TxnType", "Status"),
      Element("TxnRef", transactionReference),
      Element("Station", IntToDecimal(stationId))])
  }

  /** What the gateway reads from the status envelope: the reference and the
      station verbatim, and none of the purchase-only fields. */
  lemma StatusEnvelopeFields(transactionReference: string, user: string, key: string, stationId: int)
    ensures var cs := StatusEnvelope(transactionReference, user, key, stationId).children;
      && FindText(cs, "TxnType") == Some("Status")
      && FindText(cs, "TxnRef") == Some(transactionReference)
      && FindText(cs, "Station") == Some(IntToDecimal(stationId))
      && FindText(cs, "Amount").None? && FindText(cs, "Cur").None? && FindText(cs, "DeviceId").None?
  {
    var cs := StatusEnvelope(transactionReference, user, key, stationId).children;
    assert IsFirst(cs, "TxnType", 0);
    assert IsFirst(cs, "TxnRef", 1);
    assert IsFirst(cs, "Station", 2);
  }

  /** When the reference and credentials carry no markup characters, different
      status requests give different bodies. */
  lemma StatusBodyIdentifiesFields(
    ref1: string, user1: string, key1: string, station1: int,
    ref2: string, user2: string, key2: string, station2: int)
    requires SafeAttribute(user1) && SafeAttribute(key1) && SafeAttribute(user2) && SafeAttribute(key2)
    requires SafeText(ref1) && SafeText(ref2)
    requires Render(StatusEnvelope(ref1, user1, key1, station1)) == Render(StatusEnvelope(ref2, user2, key2, station2))
    ensures ref1 == ref2 && user1 == user2 && key1 == key2 && station1 == station2
  {
    var e1 := StatusEnvelope(ref1, user1, key1, station1);
    var e2 := StatusEnvelope(ref2, user2, key2, station2);
    assert SafeText(IntToDecimal(station1)) && SafeText(IntToDecimal(station2));
    RenderInjective(e1, e2);
    DecimalRoundTrip(station1);
    DecimalRoundTrip(station2);
  }

  // ---------------------------------------------------------------------------
  // `make_payment_status` and `PaymentStatusException`.

  /** `PaymentStatusException(message, details)`: an empty or missing message
      is replaced by the default. */
  function NewPaymentStatusException(message: Option<string>, details: RequestError): (e: Exception)
    ensures e.PaymentStatusException? && e.details == details
    ensures e.message != ""
    ensures message.Some? && message.value != "" ==> e.message == message.value
    ensures message.None? || message.value == "" ==> e.message == "Payment status failed"
  {
    PaymentStatusException(if message.None? || message.value == "" then "Payment status failed" else message.value, details)
  }

  /** `make_payment_status`: build the body, post it, and wrap any
      `RequestException`. */
  function MakePaymentStatus(transactionReference: string, user: string, key: string, stationId: int,
                             post: string -> HttpOutcome): (r: Outcome<HttpResponse>)
    ensures
      var o := post(Render(StatusEnvelope(transactionReference, user, key, stationId)));
      && (r.Returned? <==> o.Responded? && !(400 <= o.response.status < 600))
      && (r.Returned? ==> r.value == o.response)
      && (o.Unreachable? ==> r == Raised(PaymentStatusException("Payment status failed", ConnectionFailure(o.reason))))
      && (o.Responded? && r.Raised? ==> r == Raised(PaymentStatusException("Payment status failed", HTTPError(o.response.status))))
  {
    var body := Render(StatusEnvelope(transactionReference, user, key, stationId));
    match Exchange(post(body))
    case Failed(err) => Raised(NewPaymentStatusException(None, err))
    case Delivered(response) => Returned(response)
  }

  // ---------------------------------------------------------------------------
  // `lambda_handler`.

  datatype StatusEvent = StatusEvent(transactionReference: Option<string>)

  const User: string := "ask_username"
  const Key: string := "ask_for_key"
  const StationId: int := 1

  /** The envelope the handler sends: credentials and station are fixed,
      whatever the event holds. */
  function RequestEnvelope(event: StatusEvent): (env: Envelope)
    // the envelope is the one `make_payment_status` builds from the fixed arguments
    ensures env == StatusEnvelope(Str(event.transactionReference), User, Key, StationId)
    ensures env.user == "ask_username" && env.key == "ask_for_key"
    ensures FindText(env.children, "Station") == Some("1")
    ensures FindText(env.children, "TxnRef") == Some(Str(event.transactionReference))
  {
    StatusEnvelopeFields(Str(event.transactionReference), User, Key, StationId);
    StatusEnvelope(Str(event.transactionReference), User, Key, StationId)
  }

  /** The result dict built from the parsed response. Unlike the purchase
      handler, a missing TxnStatusId reads as the step "done". */
  function ResultOf(children: seq<Element>): (r: TerminalResult)
    ensures r.transactionReference.None? <==> forall j :: 0 <= j < |children| ==> children[j].tag != "TxnRef"
    ensures forall i :: IsFirst(children, "TxnRef", i) ==> r.transactionReference == Some(children[i].text)
    ensures r.terminalStep.Some?
    ensures (forall j :: 0 <= j < |children| ==> children[j].tag != "TxnStatusId") ==> r.terminalStep == Some("done")
    ensures forall i :: IsFirst(children, "TxnStatusId", i) ==> r.terminalStep == Some(children[i].text)
    ensures r.done <==> exists i :: IsFirst(children, "Complete", i) && children[i].text == "1"
  {
    var done := FindText(children, "Complete") == Some("1");
    assert done ==> IsFirst(children, "Complete", FirstIndex(children, "Complete"));
    TerminalResult(FindText(children, "TxnRef"), Some(FindTextOr(children, "TxnStatusId", "done")), done)
  }

  /** `lambda_handler`: every exception is re-raised, so a result is returned
      only for a delivered, parsed response. */
  function Handle(event: StatusEvent, post: string -> HttpOutcome): (r: Outcome<TerminalResult>)
    ensures
      var o := post(Render(RequestEnvelope(event)));
      && (o.Unreachable? ==> r == Raised(PaymentStatusException("Payment status failed", ConnectionFailure(o.reason))))
      && (o.Responded? && 400 <= o.response.status < 600 ==>
            r == Raised(PaymentStatusException("Payment status failed", HTTPError(o.response.status))))
      && (o.Responded? && !(400 <= o.response.status < 600) && o.response.body.NotXml? ==> r == Raised(ParseError))
      && (o.Responded? && !(400 <= o.response.status < 600) && o.response.body.Xml? ==>
            r == Returned(ResultOf(o.response.body.children)))
  {
    match MakePaymentStatus(Str(event.transactionReference), User, Key, StationId, post)
    case Raised(e) => Raised(e)
    case Returned(response) =>
      match response.body
      case NotXml => Raised(ParseError)
      case Xml(children) => Returned(ResultOf(children))
  }
}

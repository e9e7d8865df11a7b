/** functions/windcave/purchase.py: start a purchase on a Windcave terminal and
    normalise the gateway's answer. */
module Purchase {
  import opened Runtime
  import opened Scr

  // ---------------------------------------------------------------------------
  // Device id: the register id with every '-' removed.

  function StripDashes(s: string): (r: string)
    ensures '-' !in r
  {
    if s == [] then [] else (if s[0] == '-' then [] else [s[0]]) + StripDashes(s[1..])
  }

  /** Every character other than '-' is kept, as often as it occurs, and
      nothing else is removed. */
  lemma {:induction false} StripDashesKeepsOthers(s: string)
    ensures forall c :: c != '-' ==> multiset(StripDashes(s))[c] == multiset(s)[c]
    ensures |StripDashes(s)| == |s| - multiset(s)['-']
  {
    if s != [] {
      StripDashesKeepsOthers(s[1..]);
      assert s == [s[0]] + s[1..];
    }
  }

  /** Stripping works piece by piece, so every kept character stays in its place
      relative to the others. */
  lemma {:induction false} StripDashesConcat(a: string, b: string)
    ensures StripDashes(a + b) == StripDashes(a) + StripDashes(b)
  {
    if a == [] {
      assert a + b == b;
    } else {
      assert (a + b)[0] == a[0];
      assert (a + b)[1..] == a[1..] + b;
      StripDashesConcat(a[1..], b);
    }
  }

  /** A register id without dashes is sent unchanged; in particular stripping
      twice is stripping once. */
  lemma {:induction false} StripDashesKeepsClean(s: string)
    requires '-' !in s
    ensures StripDashes(s) == s
  {
    if s != [] {
      assert s[0] != '-';
      StripDashesKeepsClean(s[1..]);
    }
  }

  // ---------------------------------------------------------------------------
  // The request envelope of `make_payment`.

  const PurchaseTags: seq<string> :=
    ["TxnType", "Amount", "TxnRef", "Cur", "Station", "DeviceId", "PosName", "VendorId"]

  /** The `Scr` envelope of `make_payment`, children in the order of the f-string. */
  function PurchaseEnvelope(transactionReference: string, user: string, key: string, registerId: string,
                            currency: string, amount: string, stationId: int): (env: Envelope)
    ensures env.action == "doScrHIT" && env.user == user && env.key == key
    ensures |env.children| == |PurchaseTags|
    ensures forall i :: 0 <= i < |PurchaseTags| ==> env.children[i].tag == PurchaseTags[i]
  {
    Envelope(Action, user, key, [
      Element("TxnType", "Purchase"),
      Element("Amount", amount),
      Element("TxnRef", transactionReference),
      Element("Cur", currency),
      Element("Station", IntToDecimal(stationId)),
      Element("DeviceId", StripDashes(registerId)),
      Element("PosName", "Vend"),
      Element("VendorId", "1")])
  }

  /** What the gateway reads from each child of the purchase envelope: the
      caller's values verbatim, the device id without dashes, and the fixed
      point-of-sale identifiers. */
  lemma PurchaseEnvelopeFields(transactionReference: string, user: string, key: string, registerId: string,
                               currency: string, amount: string, stationId: int)
    ensures var cs := PurchaseEnvelope(transactionReference, user, key, registerId, currency, amount, stationId).children;
      && FindText(cs, "TxnType") == Some("Purchase")
      && FindText(cs, "Amount") == Some(amount)
      && FindText(cs, "TxnRef") == Some(transactionReference)
      && FindText(cs, "Cur") == Some(currency)
      && FindText(cs, "Station") == Some(IntToDecimal(stationId))
      && FindText(cs, "DeviceId") == Some(StripDashes(registerId))
      && FindText(cs, "PosName") == Some("Vend")
      && FindText(cs, "VendorId") == Some("1")
  {
    var cs := PurchaseEnvelope(transactionReference, user, key, registerId, currency, amount, stationId).children;
    assert IsFirst(cs, "TxnType", 0);
    assert IsFirst(cs, "Amount", 1);
    assert IsFirst(cs, "TxnRef", 2);
    assert IsFirst(cs, "Cur", 3);
    assert IsFirst(cs, "Station", 4);
    assert IsFirst(cs, "DeviceId", 5);
    assert IsFirst(cs, "PosName", 6);
    assert IsFirst(cs, "VendorId", 7);
  }

  /** The purchase children carry no markup when the values do not. */
  lemma PurchaseTextsSafe(transactionReference: string, registerId: string, currency: string, amount: string, stationId: int)
    requires SafeText(transactionReference) && SafeText(registerId) && SafeText(currency) && SafeText(amount)
    ensures var cs := PurchaseEnvelope(transactionReference, "", "", registerId, currency, amount, stationId).children;
            forall i :: 0 <= i < |cs| ==> SafeText(cs[i].text)
  {
    StripDashesKeepsOthers(registerId);
    assert multiset(registerId)['<'] == 0;
    assert SafeText(StripDashes(registerId));
    assert SafeText(IntToDecimal(stationId));
  }

  /** When no value carries markup characters, different purchases give
      different bodies. */
  lemma PurchaseBodyIdentifiesFields(
    ref1: string, user1: string, key1: string, reg1: string, cur1: string, amount1: string, station1: int,
    ref2: string, user2: string, key2: string, reg2: string, cur2: string, amount2: string, station2: int)
    requires SafeAttribute(user1) && SafeAttribute(key1) && SafeAttribute(user2) && SafeAttribute(key2)
    requires SafeText(ref1) && SafeText(reg1) && SafeText(cur1) && SafeText(amount1)
    requires SafeText(ref2) && SafeText(reg2) && SafeText(cur2) && SafeText(amount2)
    requires Render(PurchaseEnvelope(ref1, user1, key1, reg1, cur1, amount1, station1))
          == Render(PurchaseEnvelope(ref2, user2, key2, reg2, cur2, amount2, station2))
    ensures ref1 == ref2 && user1 == user2 && key1 == key2 && cur1 == cur2 && amount1 == amount2
    ensures StripDashes(reg1) == StripDashes(reg2)
    ensures station1 == station2
  {
    var e1 := PurchaseEnvelope(ref1, user1, key1, reg1, cur1, amount1, station1);
    var e2 := PurchaseEnvelope(ref2, user2, key2, reg2, cur2, amount2, station2);
    PurchaseTextsSafe(ref1, reg1, cur1, amount1, station1);
    PurchaseTextsSafe(ref2, reg2, cur2, amount2, station2);
    assert e1.children == PurchaseEnvelope(ref1, "", "", reg1, cur1, amount1, station1).children;
    assert e2.children == PurchaseEnvelope(ref2, "", "", reg2, cur2, amount2, station2).children;
    RenderInjective(e1, e2);
    DecimalRoundTrip(station1);
    DecimalRoundTrip(station2);
  }

  /** The text that closes the Amount element and opens the TxnRef element. */
  const AmountToTxnRef: string := Close("Amount") + Open("TxnRef")

  /** Moving `AmountToTxnRef` from the end of the amount to the start of the
      transaction reference leaves the text unchanged. */
  lemma ShiftAcrossBoundary(u: string, x: string, y: string, rest: string)
    ensures RenderElement(Element("Amount", u + AmountToTxnRef + x)) + (RenderElement(Element("TxnRef", y)) + rest)
         == RenderElement(Element("Amount", u)) + (RenderElement(Element("TxnRef", x + AmountToTxnRef + y)) + rest)
  {
  }

  /** Without escaping, the body does not identify its fields: the amount
      `5</Amount>\n        <TxnRef>X` with reference `Y` gives the same body
      as the amount `5` with reference `X</Amount>\n        <TxnRef>Y`. */
  lemma UnescapedBodyIsAmbiguous()
    ensures var amount1, ref1 := "5" + AmountToTxnRef + "X", "Y";
            var amount2, ref2 := "5", "X" + AmountToTxnRef + "Y";
            && amount1 != amount2 && ref1 != ref2
            && Render(PurchaseEnvelope(ref1, User, Key, "R", Currency, amount1, StationId))
               == Render(PurchaseEnvelope(ref2, User, Key, "R", Currency, amount2, StationId))
  {
    var amount1, ref1 := "5" + AmountToTxnRef + "X", "Y";
    var amount2, ref2 := "5", "X" + AmountToTxnRef + "Y";
    var e1 := PurchaseEnvelope(ref1, User, Key, "R", Currency, amount1, StationId);
    var e2 := PurchaseEnvelope(ref2, User, Key, "R", Currency, amount2, StationId);
    var c1, c2 := e1.children, e2.children;
    assert |amount1| > 1;
    assert |ref2| > 1;
    assert c1[3..] == c2[3..];
    var rest := RenderChildren(c1[3..]);
    assert c1[1..][1..] == c1[2..] && c1[2..][1..] == c1[3..];
    assert c2[1..][1..] == c2[2..] && c2[2..][1..] == c2[3..];
    assert RenderChildren(c1[2..]) == RenderElement(c1[2]) + rest;
    assert RenderChildren(c2[2..]) == RenderElement(c2[2]) + rest;
    assert RenderChildren(c1) == RenderElement(c1[0]) + (RenderElement(c1[1]) + (RenderElement(c1[2]) + rest));
    assert RenderChildren(c2) == RenderElement(c2[0]) + (RenderElement(c2[1]) + (RenderElement(c2[2]) + rest));
    ShiftAcrossBoundary("5", "X", "Y", rest);
  }

  // ---------------------------------------------------------------------------
  // `make_payment` and `PaymentException`.

  /** `PaymentException(message, details)`: an empty or missing message is
      replaced by the default. */
  function NewPaymentException(message: Option<string>, details: RequestError): (e: Exception)
    ensures e.PaymentException? && e.details == details
    ensures e.message != ""
    ensures message.Some? && message.value != "" ==> e.message == message.value
    ensures message.None? || message.value == "" ==> e.message == "Payment failed"
  {
    PaymentException(if message.None? || message.value == "" then "Payment failed" else message.value, details)
  }

  /** `make_payment`: build the body, post it, and wrap any `RequestException`.
      A missing register id fails on `None.replace` before anything is sent,
      with an exception that the `except` clause does not catch. */
  function MakePayment(transactionReference: string, user: string, key: string, registerId: Option<string>,
                       currency: string, amount: string, stationId: int,
                       post: string -> HttpOutcome): (r: Outcome<HttpResponse>)
    ensures registerId.None? ==> r == Raised(AttributeError)
    ensures registerId.Some? ==>
      var o := post(Render(PurchaseEnvelope(transactionReference, user, key, registerId.value, currency, amount, stationId)));
      && (r.Returned? <==> o.Responded? && !(400 <= o.response.status < 600))
      && (r.Returned? ==> r.value == o.response)
      && (o.Unreachable? ==> r == Raised(PaymentException("Payment failed", ConnectionFailure(o.reason))))
      && (o.Responded? && r.Raised? ==> r == Raised(PaymentException("Payment failed", HTTPError(o.response.status))))
  {
    match registerId
    case None => Raised(AttributeError)
    case Some(rid) =>
      var body := Render(PurchaseEnvelope(transactionReference, user, key, rid, currency, amount, stationId));
      match Exchange(post(body))
      case Failed(err) => Raised(NewPaymentException(None, err))
      case Delivered(response) => Returned(response)
  }

  // ---------------------------------------------------------------------------
  // `lambda_handler`.

  datatype PurchaseEvent = PurchaseEvent(transactionReference: Option<string>, registerId: Option<string>, amount: Option<string>)

  const Currency: string := "NZD"
  const User: string := "ask_username"
  const Key: string := "ask_for_key"
  const StationId: int := 1

  /** The envelope the handler sends for an event, if it gets as far as
      sending one. Currency, credentials and station are fixed, whatever the
      event holds. */
  function RequestEnvelope(event: PurchaseEvent): (env: Option<Envelope>)
    ensures env.Some? <==> event.registerId.Some?
    // the envelope is the one `make_payment` builds from the fixed arguments
    ensures env.Some? ==>
      env.value == PurchaseEnvelope(Str(event.transactionReference), User, Key, event.registerId.value, Currency, Str(event.amount), StationId)
    ensures env.Some? ==>
      && env.value.user == "ask_username" && env.value.key == "ask_for_key"
      && FindText(env.value.children, "Cur") == Some("NZD")
      && FindText(env.value.children, "Station") == Some("1")
      && FindText(env.value.children, "TxnRef") == Some(Str(event.transactionReference))
      && FindText(env.value.children, "Amount") == Some(Str(event.amount))
      && FindText(env.value.children, "DeviceId") == Some(StripDashes(event.registerId.value))
  {
    match event.registerId
    case None => None
    case Some(rid) =>
      PurchaseEnvelopeFields(Str(event.transactionReference), User, Key, rid, Currency, Str(event.amount), StationId);
      Some(PurchaseEnvelope(Str(event.transactionReference), User, Key, rid, Currency, Str(event.amount), StationId))
  }

  /** The result dict built from the parsed response. */
  function ResultOf(children: seq<Element>): (r: TerminalResult)
    ensures r.transactionReference.None? <==> forall j :: 0 <= j < |children| ==> children[j].tag != "TxnRef"
    ensures forall i :: IsFirst(children, "TxnRef", i) ==> r.transactionReference == Some(children[i].text)
    ensures r.terminalStep.None? <==> forall j :: 0 <= j < |children| ==> children[j].tag != "TxnStatusId"
    ensures forall i :: IsFirst(children, "TxnStatusId", i) ==> r.terminalStep == Some(children[i].text)
    ensures r.done <==> exists i :: IsFirst(children, "Complete", i) && children[i].text == "1"
  {
    var done := FindText(children, "Complete") == Some("1");
    assert done ==> IsFirst(children, "Complete", FirstIndex(children, "Complete"));
    TerminalResult(FindText(children, "TxnRef"), FindText(children, "TxnStatusId"), done)
  }

  /** `lambda_handler`: every exception is re-raised, so a result is returned
      only for a delivered, parsed response. */
  function Handle(event: PurchaseEvent, post: string -> HttpOutcome): (r: Outcome<TerminalResult>)
    ensures RequestEnvelope(event).None? ==> r == Raised(AttributeError)
    ensures RequestEnvelope(event).Some? ==>
      var o := post(Render(RequestEnvelope(event).value));
      && (o.Unreachable? ==> r == Raised(PaymentException("Payment failed", ConnectionFailure(o.reason))))
      && (o.Responded? && 400 <= o.response.status < 600 ==>
            r == Raised(PaymentException("Payment failed", HTTPError(o.response.status))))
      && (o.Responded? && !(400 <= o.response.status < 600) && o.response.body.NotXml? ==> r == Raised(ParseError))
      && (o.Responded? && !(400 <= o.response.status < 600) && o.response.body.Xml? ==>
            r == Returned(ResultOf(o.response.body.children)))
  {
    match MakePayment(Str(event.transactionReference), User, Key, event.registerId, Currency, Str(event.amount), StationId, post)
    case Raised(e) => Raised(e)
    case Returned(response) =>
      match response.body
      case NotXml => Raised(ParseError)
      case Xml(children) => Returned(ResultOf(children))
  }

  /** A gateway that answers every request with the same parsed XML reply and
      a status outside 400-599: the handler returns `ResultOf` that reply. */
  lemma HandleOfParsedReply(event: PurchaseEvent, status: int, answer: seq<Element>)
    requires event.registerId.Some? && !(400 <= status < 600)
    ensures Handle(event, _ => Responded(HttpResponse(status, Xml(answer)))) == Returned(ResultOf(answer))
  {
  }

  /** Example: register "12-34" is sent as device id "1234". */
  lemma PurchaseExampleDeviceId()
    ensures FindText(RequestEnvelope(PurchaseEvent(Some("T1"), Some("12-34"), Some("10.0"))).value.children, "DeviceId")
         == Some("1234")
  {
    var rid := "12-34";
    assert rid[1..] == "2-34" && rid[2..] == "-34" && rid[3..] == "34" && rid[4..] == "4" && rid[5..] == "";
    assert StripDashes(rid) == "1234";
  }

  /** Example: a gateway answering TxnRef T1, TxnStatusId 5 and Complete 0
      gives an unfinished result at step 5, whatever purchase was asked for. */
  lemma PurchaseExampleResult(event: PurchaseEvent)
    requires event.registerId.Some?
    ensures var answer := [Element("TxnRef", "T1"), Element("TxnStatusId", "5"), Element("Complete", "0")];
            Handle(event, _ => Responded(HttpResponse(200, Xml(answer))))
            == Returned(TerminalResult(Some("T1"), Some("5"), false))
  {
    var answer := [Element("TxnRef", "T1"), Element("TxnStatusId", "5"), Element("Complete", "0")];
    HandleOfParsedReply(event, 200, answer);
    assert ResultOf(answer) == TerminalResult(Some("T1"), Some("5"), false) by {
      assert IsFirst(answer, "TxnRef", 0);
      assert IsFirst(answer, "TxnStatusId", 1);
      assert IsFirst(answer, "Complete", 2);
    }
  }
}

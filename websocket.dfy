/** functions/websocket/connect.py and functions/websocket/terminal_event.py:
    the connection table `transactionReference ↦ connectionId` that both
    handlers share, the registration of a browser connection, and the relay of
    a terminal event to the connection registered for its transaction. */
module Websocket {
  import opened Runtime

  /** A value decoded by `json.loads`. */
  datatype Json =
    | JNull
    | JBool(b: bool)
    | JNumber(literal: string)
    | JString(s: string)
    | JArray(elements: seq<Json>)
    | JObject(fields: map<string, Json>)

  /** The parts of the API Gateway connect event the handler reads; a part is
      None when the event has no such key. */
  datatype ConnectEvent = ConnectEvent(queryStringParameters: Option<map<string, string>>,
                                       requestContext: Option<map<string, string>>)

  /** A handler's HTTP-style answer. */
  datatype Response = Response(statusCode: int, body: string)

  /** One SNS record; `message` is None when `['Sns']['Message']` is missing. */
  datatype SnsRecord = SnsRecord(message: Option<string>)

  /** The SNS event; `records` is None when `['Records']` is missing. */
  datatype SnsEvent = SnsEvent(records: Option<seq<SnsRecord>>)

  /** One `post_to_connection` call: the connection and the data sent. */
  datatype Push = Push(connectionId: string, data: string)

  /** The item `put_item` writes. The connection id is None when the request
      context has none; boto3 then stores a null attribute. */
  datatype Entry = Entry(transactionReference: string, connectionId: Option<string>)

  /** `d.get(k)`. */
  function Get<V>(d: map<string, V>, k: string): Option<V> {
    if k in d then Some(d[k]) else None
  }

  /** The table refuses a key that is not a string, or is the empty string,
      with a `ValidationException`. */
  const Validation: string := "ValidationException"

  /** The table refuses the empty string as a key, so no stored key is empty. */
  ghost predicate NoEmptyKey(items: map<string, Option<string>>) {
    forall k :: k in items ==> k != ""
  }

  // ---------------------------------------------------------------------------
  // connect.py

  /** What `lambda_handler` of connect.py writes, or what it raises: the Item
      dict is evaluated first (`None.get` raises), then the table checks the
      key, then the write itself may fail with `storeFault`. */
  function ConnectWrite(event: ConnectEvent, storeFault: Option<string>): (r: Outcome<Entry>)
    ensures r.Returned? <==>
      && event.queryStringParameters.Some? && event.requestContext.Some?
      && Get(event.queryStringParameters.value, "transactionReference").Some?
      && Get(event.queryStringParameters.value, "transactionReference").value != ""
      && storeFault.None?
    ensures r.Returned? ==>
      && r.value.transactionReference == event.queryStringParameters.value["transactionReference"]
      && r.value.connectionId == Get(event.requestContext.value, "connectionId")
    ensures event.queryStringParameters.None? || event.requestContext.None? ==> r == Raised(AttributeError)
    // the table refuses a missing or empty reference
    ensures event.queryStringParameters.Some? && event.requestContext.Some?
      && (Get(event.queryStringParameters.value, "transactionReference").None?
          || Get(event.queryStringParameters.value, "transactionReference").value == "")
      ==> r == Raised(ClientError(Validation))
    // a refused write re-raises the store's own error
    ensures event.queryStringParameters.Some? && event.requestContext.Some?
      && Get(event.queryStringParameters.value, "transactionReference").Some?
      && Get(event.queryStringParameters.value, "transactionReference").value != ""
      && storeFault.Some?
      ==> r == Raised(ClientError(storeFault.value))
  {
    match event.queryStringParameters
    case None => Raised(AttributeError)
    case Some(query) =>
      match event.requestContext
      case None => Raised(AttributeError)
      case Some(context) =>
        match Get(query, "transactionReference")
        case None => Raised(ClientError(Validation))
        case Some(reference) =>
          if reference == "" then Raised(ClientError(Validation))
          else if storeFault.Some? then Raised(ClientError(storeFault.value))
          else Returned(Entry(reference, Get(context, "connectionId")))
  }

  /** The table after a connect: the written entry replaces any earlier one
      for the same reference, every other entry is kept, and a failed connect
      changes nothing. */
  function TableAfterConnect(items: map<string, Option<string>>, event: ConnectEvent, storeFault: Option<string>)
    : (after: map<string, Option<string>>)
    ensures forall k :: k in items ==> k in after
    ensures ConnectWrite(event, storeFault).Raised? ==> after == items
    ensures ConnectWrite(event, storeFault).Returned? ==>
      var e := ConnectWrite(event, storeFault).value;
      && e.transactionReference in after && after[e.transactionReference] == e.connectionId
      && forall k :: k != e.transactionReference ==> (k in after <==> k in items) && (k in items ==> after[k] == items[k])
  {
    match ConnectWrite(event, storeFault)
    case Raised(_) => items
    case Returned(e) => items[e.transactionReference := e.connectionId]
  }

  /** Connecting twice with the same reference: the last write wins, and the
      first leaves no trace. */
  lemma ConnectLastWriteWins(items: map<string, Option<string>>, first: ConnectEvent, second: ConnectEvent)
    requires ConnectWrite(first, None).Returned? && ConnectWrite(second, None).Returned?
    requires ConnectWrite(first, None).value.transactionReference == ConnectWrite(second, None).value.transactionReference
    ensures TableAfterConnect(TableAfterConnect(items, first, None), second, None) == TableAfterConnect(items, second, None)
    ensures TableAfterConnect(TableAfterConnect(items, first, None), second, None)[ConnectWrite(second, None).value.transactionReference]
         == ConnectWrite(second, None).value.connectionId
  {
  }

  // ---------------------------------------------------------------------------
  // terminal_event.py

  /** The message of the first SNS record, decoded as JSON; a missing key, an
      empty record list or text that does not decode raise. */
  function DecodeMessage(event: SnsEvent, loads: string -> Option<Json>): (r: Outcome<Json>)
    ensures r.Returned? <==>
      && event.records.Some? && |event.records.value| > 0
      && event.records.value[0].message.Some?
      && loads(event.records.value[0].message.value).Some?
    ensures r.Returned? ==> loads(event.records.value[0].message.value) == Some(r.value)
  {
    match event.records
    case None => Raised(KeyError)
    case Some(records) =>
      if |records| == 0 then Raised(IndexError)
      else
        match records[0].message
        case None => Raised(KeyError)
        case Some(text) =>
          match loads(text)
          case None => Raised(JSONDecodeError)
          case Some(message) => Returned(message)
  }

  /** The table key the relay looks up: the message's `transactionReference`,
      read with `message.get` (which raises unless the message is an object)
      and accepted by the table only as a non-empty string. */
  function LookupKey(event: SnsEvent, loads: string -> Option<Json>): (r: Outcome<string>)
    ensures r.Returned? <==>
      && DecodeMessage(event, loads).Returned?
      && DecodeMessage(event, loads).value.JObject?
      && Get(DecodeMessage(event, loads).value.fields, "transactionReference").Some?
      && Get(DecodeMessage(event, loads).value.fields, "transactionReference").value.JString?
      && Get(DecodeMessage(event, loads).value.fields, "transactionReference").value.s != ""
    ensures r.Returned? ==> DecodeMessage(event, loads).value.fields["transactionReference"] == JString(r.value)
    ensures DecodeMessage(event, loads).Raised? ==> r == Raised(DecodeMessage(event, loads).exception)
    // only an object has `get`
    ensures DecodeMessage(event, loads).Returned? && !DecodeMessage(event, loads).value.JObject?
      ==> r == Raised(AttributeError)
    // the table refuses a missing, non-string or empty key
    ensures DecodeMessage(event, loads).Returned? && DecodeMessage(event, loads).value.JObject? && r.Raised?
      ==> r == Raised(ClientError(Validation))
  {
    match DecodeMessage(event, loads)
    case Raised(e) => Raised(e)
    case Returned(message) =>
      if !message.JObject? then Raised(AttributeError)
      else
        var reference := Get(message.fields, "transactionReference");
        if reference.Some? && reference.value.JString? && reference.value.s != "" then Returned(reference.value.s)
        else Raised(ClientError(Validation))
  }

  /** The push `lambda_handler` of terminal_event.py makes, or what it raises.
      `getFault` and `pushFault` are errors returned by the table read and by
      `post_to_connection`. */
  function RelayPush(items: map<string, Option<string>>, event: SnsEvent, loads: string -> Option<Json>,
                     dumps: Json -> string, getFault: Option<string>, pushFault: Option<string>): (r: Outcome<Push>)
    // a push goes to the connection stored for the message's reference and
    // carries the whole message, re-serialised
    ensures r.Returned? ==>
      && LookupKey(event, loads).Returned? && getFault.None? && pushFault.None?
      && LookupKey(event, loads).value in items
      && items[LookupKey(event, loads).value] == Some(r.value.connectionId)
      && r.value.data == dumps(DecodeMessage(event, loads).value)
    // a stored connection with no fault is always reached
    ensures (LookupKey(event, loads).Returned? && getFault.None? && pushFault.None?
             && LookupKey(event, loads).value in items && items[LookupKey(event, loads).value].Some?)
      ==> r == Returned(Push(items[LookupKey(event, loads).value].value, dumps(DecodeMessage(event, loads).value)))
    // every way the lookup fails is raised
    ensures LookupKey(event, loads).Raised? ==> r == Raised(LookupKey(event, loads).exception)
    ensures LookupKey(event, loads).Returned? && getFault.Some? ==> r == Raised(ClientError(getFault.value))
    // no entry: `None.get` raises
    ensures LookupKey(event, loads).Returned? && getFault.None? && LookupKey(event, loads).value !in items
      ==> r == Raised(AttributeError)
    // an entry without a connection id: botocore refuses the call
    ensures (LookupKey(event, loads).Returned? && getFault.None? && LookupKey(event, loads).value in items
             && items[LookupKey(event, loads).value].None?) ==> r == Raised(ParamValidationError)
    // a failed push is re-raised
    ensures (LookupKey(event, loads).Returned? && getFault.None? && LookupKey(event, loads).value in items
             && items[LookupKey(event, loads).value].Some? && pushFault.Some?) ==> r == Raised(ClientError(pushFault.value))
  {
    match LookupKey(event, loads)
    case Raised(e) => Raised(e)
    case Returned(key) =>
      if getFault.Some? then Raised(ClientError(getFault.value))
      else if key !in items then Raised(AttributeError)
      else
        match items[key]
        case None => Raised(ParamValidationError)
        case Some(connectionId) =>
          if pushFault.Some? then Raised(ClientError(pushFault.value))
          else Returned(Push(connectionId, dumps(DecodeMessage(event, loads).value)))
  }

  /** A relay for the reference of a successful connect pushes the message to
      the connection that connect registered. */
  lemma ConnectThenRelayReachesConnection(items: map<string, Option<string>>, connect: ConnectEvent, relay: SnsEvent,
                                          loads: string -> Option<Json>, dumps: Json -> string)
    requires ConnectWrite(connect, None).Returned? && ConnectWrite(connect, None).value.connectionId.Some?
    requires LookupKey(relay, loads) == Returned(ConnectWrite(connect, None).value.transactionReference)
    ensures RelayPush(TableAfterConnect(items, connect, None), relay, loads, dumps, None, None)
         == Returned(Push(ConnectWrite(connect, None).value.connectionId.value, dumps(DecodeMessage(relay, loads).value)))
  {
  }

  /** Connect keeps the table free of empty keys. */
  lemma ConnectKeepsKeysNonEmpty(items: map<string, Option<string>>, event: ConnectEvent, storeFault: Option<string>)
    requires NoEmptyKey(items)
    ensures NoEmptyKey(TableAfterConnect(items, event, storeFault))
  {
  }

  /** In a table without empty keys, a terminal event that names any stored
      key is never refused by the table: with a connection id and no fault,
      the message is pushed to that connection. */
  lemma RelayReachesStoredKey(items: map<string, Option<string>>, event: SnsEvent,
                              loads: string -> Option<Json>, dumps: Json -> string, k: string)
    requires NoEmptyKey(items) && k in items && items[k].Some?
    requires DecodeMessage(event, loads).Returned? && DecodeMessage(event, loads).value.JObject?
    requires Get(DecodeMessage(event, loads).value.fields, "transactionReference") == Some(JString(k))
    ensures RelayPush(items, event, loads, dumps, None, None) == Returned(Push(items[k].value, dumps(DecodeMessage(event, loads).value)))
  {
  }

  // ---------------------------------------------------------------------------
  // The shared table and the two handlers that use it.

  class ConnectionTable {
    /** The table: transaction reference ↦ connection id attribute. */
    var items: map<string, Option<string>>
    /** Every successful `post_to_connection`, in order. */
    var outbox: seq<Push>

    /** The table never holds an empty key. */
    ghost predicate Valid()
      reads this
    {
      NoEmptyKey(items)
    }

    constructor ()
      ensures Valid() && items == map[] && outbox == []
    {
      items := map[];
      outbox := [];
    }

    /** `lambda_handler` of connect.py. */
    method Connect(event: ConnectEvent, storeFault: Option<string>) returns (r: Outcome<Response>)
      requires Valid()
      modifies this
      ensures Valid()
      ensures items == TableAfterConnect(old(items), event, storeFault)
      ensures outbox == old(outbox)
      ensures r.Returned? <==> ConnectWrite(event, storeFault).Returned?
      ensures r.Returned? ==> r.value == Response(200, "Connected.")
      ensures r.Raised? ==> r.exception == ConnectWrite(event, storeFault).exception
    {
      // Build the Item dict.
      if event.queryStringParameters.None? {
        return Raised(AttributeError);
      }
      var reference := Get(event.queryStringParameters.value, "transactionReference");
      if event.requestContext.None? {
        return Raised(AttributeError);
      }
      var connectionId := Get(event.requestContext.value, "connectionId");
      // Write the item; the table checks the key first.
      if reference.None? || reference.value == "" {
        return Raised(ClientError(Validation));
      }
      if storeFault.Some? {
        return Raised(ClientError(storeFault.value));
      }
      items := items[reference.value := connectionId];
      r := Returned(Response(200, "Connected."));
    }

    /** `lambda_handler` of terminal_event.py. It only reads the table. */
    method Relay(event: SnsEvent, loads: string -> Option<Json>, dumps: Json -> string,
                 getFault: Option<string>, pushFault: Option<string>) returns (r: Outcome<()>)
      requires Valid()
      modifies this`outbox
      ensures Valid() && items == old(items)
      ensures RelayPush(items, event, loads, dumps, getFault, pushFault).Returned? ==>
        && r == Returned(())
        && outbox == old(outbox) + [RelayPush(items, event, loads, dumps, getFault, pushFault).value]
      ensures RelayPush(items, event, loads, dumps, getFault, pushFault).Raised? ==>
        && r == Raised(RelayPush(items, event, loads, dumps, getFault, pushFault).exception)
        && outbox == old(outbox)
    {
      // Decode the first record's message as JSON.
      if event.records.None? {
        return Raised(KeyError);
      }
      var records := event.records.value;
      if |records| == 0 {
        return Raised(IndexError);
      }
      if records[0].message.None? {
        return Raised(KeyError);
      }
      var decoded := loads(records[0].message.value);
      if decoded.None? {
        return Raised(JSONDecodeError);
      }
      var message := decoded.value;
      // Read the message's transaction reference.
      if !message.JObject? {
        return Raised(AttributeError);
      }
      var reference := Get(message.fields, "transactionReference");
      // Look the reference up in the table.
      if reference.None? || !reference.value.JString? || reference.value.s == "" {
        return Raised(ClientError(Validation));
      }
      var key := reference.value.s;
      if getFault.Some? {
        return Raised(ClientError(getFault.value));
      }
      // A missing item fails on the chained lookup.
      if key !in items {
        return Raised(AttributeError);
      }
      var connectionId := items[key];
      // Push the re-serialised message to the stored connection.
      if connectionId.None? {
        return Raised(ParamValidationError);
      }
      if pushFault.Some? {
        return Raised(ClientError(pushFault.value));
      }
      outbox := outbox + [Push(connectionId.value, dumps(message))];
      r := Returned(());
    }
  }

  /** A fresh table, one connect, then the terminal event for the same
      reference: exactly one push, to the registered connection, carrying the
      whole message. */
  method ConnectThenRelay(connect: ConnectEvent, relay: SnsEvent, loads: string -> Option<Json>, dumps: Json -> string)
    returns (pushes: seq<Push>)
    requires ConnectWrite(connect, None).Returned? && ConnectWrite(connect, None).value.connectionId.Some?
    requires LookupKey(relay, loads) == Returned(ConnectWrite(connect, None).value.transactionReference)
    ensures pushes == [Push(ConnectWrite(connect, None).value.connectionId.value, dumps(DecodeMessage(relay, loads).value))]
  {
    var table := new ConnectionTable();
    var connected := table.Connect(connect, None);
    ConnectThenRelayReachesConnection(map[], connect, relay, loads, dumps);
    var relayed := table.Relay(relay, loads, dumps, None, None);
    pushes := table.outbox;
  }
}

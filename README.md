# swipeless: Windcave terminal protocol and transaction-to-connection relay, in Dafny

This project models the core of swipeless. Swipeless lets a browser start a card payment on a
Windcave terminal and later receive the terminal's completion event over a websocket. The core
has two parts.

1. **Windcave protocol translation** (`functions/windcave/purchase.py`, `functions/windcave/status.py`).
   The handlers build an XML `Scr` envelope for a purchase or a status poll and post it to the
   gateway. They wrap every transport failure into `PaymentException` or `PaymentStatusException`,
   and they turn the parsed reply into `{transactionReference, terminalStep, done}`.
   Modules `Scr`, `Purchase` and `Status` model this part as pure functions.
   The HTTP exchange is a function parameter `post: string -> HttpOutcome`, so the reply may depend
   on the body sent. The parsed reply is the root's direct children, searched as `findtext` does.
2. **Connection table** (`functions/websocket/connect.py`, `functions/websocket/terminal_event.py`).
   Both handlers share one table, `transactionReference ↦ connectionId`. Connect writes to it and
   the last write wins. The terminal-event relay looks up the reference in the first SNS record's
   message and pushes the whole re-serialised message to the stored connection.
   Module `Websocket` models this part as a class `ConnectionTable`. Its `items` field is the map
   and its `outbox` field is the sequence of pushes. The methods `Connect` and `Relay` are
   specified by the pure functions `ConnectWrite`, `TableAfterConnect` and `RelayPush`.

Module `Runtime` holds the Python-level vocabulary: `Option`, the exceptions that can escape a
handler, and `Outcome` (a value is returned or an exception is raised).

The request body is reproduced character for character as the f-strings produce it, with every
value interpolated raw. The model makes no claim that the body is well-formed XML. XML 1.0
section 2.4 requires `<` and `&` in character data to be escaped, and the code does not escape
them. `Scr.RenderInjective` proves that the body identifies its fields when no text contains `<`
and no attribute contains `"`. `Purchase.UnescapedBodyIsAmbiguous` exhibits two different
(amount, reference) pairs that produce the same body.

The model follows the code as written:

- A missing `TxnStatusId` gives `None` in the purchase handler and the step `'done'` in the status
  handler.
- A missing `TxnRef` is returned as `None`.
- A relay for a reference with no table entry raises `AttributeError`, because the chained
  lookup calls `get` on `None`.
- The credentials (`ask_username`, `ask_for_key`), the currency `NZD` and the station `1` are
  hard-coded in the handlers.
- `raise_for_status` raises only for status codes 400 to 599. A 1xx or 3xx final response is
  handed back and parsed.
- Nothing ever deletes a table entry. The disconnect handler's table access is commented out.

## Model

| member | source | states |
|---|---|---|
| `Purchase.StripDashes` | functions/windcave/purchase.py:31-32 | the device id contains no `-` |
| `Purchase.StripDashesKeepsOthers` | functions/windcave/purchase.py:32 | every character other than `-` is kept exactly as often as it occurs; the length drops by exactly the number of dashes |
| `Purchase.StripDashesConcat` | functions/windcave/purchase.py:32 | stripping distributes over concatenation, so the kept characters stay in their original order |
| `Purchase.StripDashesKeepsClean` | functions/windcave/purchase.py:32 | a register id without dashes is sent unchanged (so stripping is idempotent) |
| `Purchase.PurchaseEnvelope` | functions/windcave/purchase.py:34-45 | root `Scr` with `action="doScrHIT"` and the given `user` and `key`; exactly eight children tagged TxnType, Amount, TxnRef, Cur, Station, DeviceId, PosName, VendorId, in that order |
| `Purchase.PurchaseEnvelopeFields` | functions/windcave/purchase.py:36-43 | the gateway reads TxnType `Purchase`, the amount, reference and currency verbatim, the station as its decimal text, the register id without dashes, PosName `Vend` and VendorId `1` |
| `Scr.Render` | functions/windcave/purchase.py:34-45 | the body opens with the `Scr` tag, the action attribute and the user value, and ends with the closing `</Scr>` line and the eight-space indent |
| `Scr.IntToDecimal` | functions/windcave/purchase.py:40 | `str()` of the station id: non-empty, all digits except a leading `-` exactly for a negative id, and canonical (no leading zero except the text `0` itself, none after the `-`) |
| `Scr.RenderShowsChild` | functions/windcave/purchase.py:34-45 | the children's text is the lines of the children before a child, then that child as `<tag>text</tag>` with its text unescaped, then the lines of the children after it |
| `Scr.RenderInjective` | functions/windcave/purchase.py:34-45 | two envelopes of the same shape with no `<` in any text and no `"` in user or key render to different bodies |
| `Purchase.PurchaseBodyIdentifiesFields` | functions/windcave/purchase.py:34-45 | with markup-free values, equal purchase bodies have equal reference, credentials, currency, amount, station and device id |
| `Purchase.UnescapedBodyIsAmbiguous` | functions/windcave/purchase.py:37-38 | without escaping, amount `5</Amount>…<TxnRef>X` with reference `Y` and amount `5` with reference `X</Amount>…<TxnRef>Y` give the same body |
| `Scr.DecimalRoundTrip` | functions/windcave/purchase.py:40 | the Station text read back as a number is the station id |
| `Scr.RaiseForStatus` | functions/windcave/purchase.py:48 | an `HTTPError` carrying the status is raised exactly for status codes 400 to 599 |
| `Scr.Exchange` | functions/windcave/purchase.py:47-48 | a failed post or a 4xx/5xx status becomes a `RequestException` with its cause; any other response is handed back unchanged |
| `Purchase.NewPaymentException` | functions/windcave/purchase.py:16-19 | the message is never empty: a missing or empty one becomes "Payment failed", a given one is kept; the details are the cause |
| `Purchase.MakePayment` | functions/windcave/purchase.py:22-56 | a missing register id raises `AttributeError` before sending; otherwise the rendered envelope is posted, a response is returned iff it is not 4xx/5xx, and every failure is `PaymentException("Payment failed", cause)` |
| `Purchase.RequestEnvelope` | functions/windcave/purchase.py:64-74 | it is `make_payment`'s envelope for the event's reference, register id and amount, so every shape and field fact of `PurchaseEnvelope` and `PurchaseEnvelopeFields` holds for it; whatever the event holds, the handler sends currency `NZD`, station `1` and the fixed credentials; the reference and amount are `str()` of the event values, so an absent one is sent as `None`; nothing is sent without a register id |
| `Scr.FindText` | functions/windcave/purchase.py:92-94 | the text of the first child with the tag, and None exactly when no child has it |
| `Scr.FindTextOr` | functions/windcave/status.py:87 | the first matching child's text, or the default when no child has the tag |
| `Purchase.ResultOf` | functions/windcave/purchase.py:91-95 | `transactionReference` and `terminalStep` are the first TxnRef and TxnStatusId texts, None when absent, with no default; `done` holds iff the first Complete text is exactly `"1"` |
| `Purchase.Handle` | functions/windcave/purchase.py:62-101 | a transport failure or a 4xx/5xx status raises `PaymentException` and returns no result; a reply that is not XML raises `ParseError`; otherwise the result is `ResultOf` the parsed children |
| `Purchase.PurchaseExampleDeviceId` | functions/windcave/purchase.py:32 | register id `12-34` is sent as device id `1234` |
| `Purchase.HandleOfParsedReply` | functions/windcave/purchase.py:62-101 | for any event with a register id, a gateway replying with a non-4xx/5xx status and parsed children makes the handler return `ResultOf` those children |
| `Purchase.PurchaseExampleResult` | functions/windcave/purchase.py:89-95 | for any event with a register id, the reply TxnRef T1, TxnStatusId 5, Complete 0 gives `{T1, 5, false}` |
| `Status.StatusEnvelope` | functions/windcave/status.py:37-43 | root `Scr` with `action="doScrHIT"`, `user`, `key`; exactly three children TxnType, TxnRef, Station, in that order |
| `Status.StatusEnvelopeFields` | functions/windcave/status.py:39-41 | TxnType is `Status`; the reference and station are sent verbatim; there is no Amount, Cur or DeviceId |
| `Status.StatusBodyIdentifiesFields` | functions/windcave/status.py:37-43 | with a markup-free reference and credentials, equal status bodies have equal reference, credentials and station |
| `Status.NewPaymentStatusException` | functions/windcave/status.py:17-20 | the message is never empty: a missing or empty one becomes "Payment status failed"; the details are the cause |
| `Status.MakePaymentStatus` | functions/windcave/status.py:24-54 | the rendered envelope is posted; a response is returned iff it is not 4xx/5xx; every failure is `PaymentStatusException("Payment status failed", cause)` |
| `Status.RequestEnvelope` | functions/windcave/status.py:62-68 | it is `make_payment_status`'s envelope for the event's reference, so every shape and field fact of `StatusEnvelope` and `StatusEnvelopeFields` holds for it; station `1` and the fixed credentials whatever the event holds; the reference is `str()` of the event value |
| `Status.ResultOf` | functions/windcave/status.py:85-89 | `terminalStep` is never None: the first TxnStatusId text, or `'done'` when there is none; `transactionReference` is the first TxnRef text or None; `done` iff the first Complete text is exactly `"1"` |
| `Status.Handle` | functions/windcave/status.py:60-95 | a transport failure or a 4xx/5xx status raises `PaymentStatusException` and returns no result; non-XML raises `ParseError`; otherwise the result is `ResultOf` the children |
| `Websocket.ConnectWrite` | functions/websocket/connect.py:19-29 | a write happens iff the event has query parameters with a non-empty `transactionReference`, has a request context, and the store does not fail; the entry is that reference and the context's `connectionId`; a missing part raises `AttributeError`, a missing or empty reference raises the table's `ValidationException`, and a store refusal re-raises the store's own `ClientError` |
| `Websocket.TableAfterConnect` | functions/websocket/connect.py:20-25 | after a successful connect the reference maps to the connection id; every other entry is unchanged; nothing is deleted; a failed connect leaves the table unchanged |
| `Websocket.ConnectLastWriteWins` | functions/websocket/connect.py:20-25 | two connects with the same reference leave the table exactly as the second alone would |
| `Websocket.ConnectKeepsKeysNonEmpty` | functions/websocket/connect.py:20-25 | a connect never stores an empty key, so a table without empty keys stays so |
| `Websocket.ConnectionTable.Connect` | functions/websocket/connect.py:18-34 | the table becomes `TableAfterConnect`, no push is made, and the result is `{200, "Connected."}` on success; otherwise the `ConnectWrite` exception is re-raised and no response is produced |
| `Websocket.DecodeMessage` | functions/websocket/terminal_event.py:27 | the message is the JSON decoding of the first SNS record's message; a missing key, an empty record list or bad JSON raise |
| `Websocket.LookupKey` | functions/websocket/terminal_event.py:27-31 | the looked-up key is the `transactionReference` string of that message; a decoding failure is re-raised, a non-object message raises `AttributeError`, and a missing, non-string or empty reference raises the table's `ValidationException` |
| `Websocket.RelayPush` | functions/websocket/terminal_event.py:30-42 | a push is made iff the reference has a stored connection id and neither the read nor the push fails; it goes to that connection and carries `dumps` of the whole message; a missing entry raises `AttributeError`; an entry without a connection id raises `ParamValidationError`; table and push `ClientError`s are re-raised |
| `Websocket.ConnectionTable.Relay` | functions/websocket/terminal_event.py:26-42 | the table is unchanged; on success exactly one push, `RelayPush`, is appended to the outbox; on any exception nothing is pushed and the exception is re-raised |
| `Websocket.RelayReachesStoredKey` | functions/websocket/terminal_event.py:28-35 | in a table without empty keys, a message naming any stored key with a connection id is pushed, whole, to that connection when nothing fails |
| `Websocket.ConnectThenRelayReachesConnection` | functions/websocket/terminal_event.py:31-35 | after `connect(ref, c)`, a relay whose message carries `ref` pushes the whole message to `c` |
| `Websocket.ConnectThenRelay` | functions/websocket/connect.py:20-25 | on a fresh table, a connect followed by the terminal event for the same reference produces exactly one push, to the registered connection, carrying the whole message |

## Left out

- HTTP transport (`requests.post`): modelled as the parameter `post`, which yields a failure or a response.
- XML parsing (`ET.fromstring`): the reply is given already parsed into the root's direct children. Nested elements, attributes and tails of the children are not modelled.
- `json.loads` / `json.dumps`: they are the parameters `loads` and `dumps`. Python's JSON text format is not modelled. A decoded object is a `map`, which has no key order, so the model cannot say that the pushed text keeps the key order of the incoming message; it states the pushed data only as `dumps` of the decoded value.
- The float formatting of `amount`: the amount is taken as the string `str()` already produced. Event values are modelled as strings or absent; the model does not say how a number in the event would be formatted.
- The AWS clients (DynamoDB, API Gateway management API), the hard-coded endpoint and the environment variables: only the map semantics of the table is kept. Store and push errors are the inputs `storeFault`, `getFault` and `pushFault`.
- Websocket.LookupKey: every unusable reference (missing, not a string, empty) is modelled as the table's `ValidationException`. For a float reference boto3 raises a `TypeError` instead. The handler re-raises either one.
- Logging, metrics and tracing decorators, `print`, `put_metadata` and `add_metric`: they do not affect results.
- `functions/websocket/disconnect.py`: it returns a constant and never touches the table. It is not part of this model.
- `functions/pairing/create_pairing.py`: unfinished stub with no behaviour to state. It is not part of this model.
- Concurrency between Lambda invocations: each handler is one sequential operation on the table.

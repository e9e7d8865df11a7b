/** The Windcave "Scr" terminal protocol as both handlers use it: the request
    envelope, its exact text as the f-strings of purchase.py and status.py lay
    it out, the HTTP exchange with `raise_for_status`, and `findtext` on the
    children of the parsed response. */
module Scr {
  import opened Runtime

  /** A child element of the `Scr` root: its tag and its text content. */
  datatype Element = Element(tag: string, text: string)

  /** The `Scr` root element: its three attributes and its children in order. */
  datatype Envelope = Envelope(action: string, user: string, key: string, children: seq<Element>)

  /** The response, as `xml.etree.ElementTree.fromstring` sees it: the root's
      direct children, or text that does not parse. */
  datatype ParsedBody = Xml(children: seq<Element>) | NotXml

  datatype HttpResponse = HttpResponse(status: int, body: ParsedBody)

  /** What `requests.post` does: fail, or return a response. */
  datatype HttpOutcome = Unreachable(reason: string) | Responded(response: HttpResponse)

  /** The normalised handler result `{transactionReference, terminalStep, done}`. */
  datatype TerminalResult = TerminalResult(transactionReference: Option<string>, terminalStep: Option<string>, done: bool)

  const Action: string := "doScrHIT"

  // ---------------------------------------------------------------------------
  // The request text. Every line of the f-string is indented by eight spaces;
  // the values are interpolated without any escaping.

  const Indent: string := "        "

  function Head(action: string): string {
    "\n" + Indent + "<Scr action=\"" + action + "\" user=\""
  }

  const Tail: string := Indent + "</Scr>\n" + Indent

  function Open(tag: string): string {
    Indent + "<" + tag + ">"
  }

  function Close(tag: string): string {
    "</" + tag + ">\n"
  }

  function RenderElement(e: Element): string {
    Open(e.tag) + (e.text + Close(e.tag))
  }

  function RenderChildren(children: seq<Element>): string {
    if children == [] then "" else RenderElement(children[0]) + RenderChildren(children[1..])
  }

  /** The request body exactly as the f-string produces it: the root's opening
      tag with its attributes, one line per child, and the closing tag. */
  function Render(env: Envelope): (body: string)
    ensures Head(env.action) + env.user <= body
    ensures |body| >= |Tail| && body[|body| - |Tail|..] == Tail
  {
    Head(env.action) + (env.user + ("\" key=\"" + (env.key + ("\">\n" + (RenderChildren(env.children) + Tail)))))
  }

  /** Each child appears in the body as `<tag>text</tag>`, text verbatim,
      between the lines of the children before it and after it. */
  lemma {:induction false} RenderShowsChild(children: seq<Element>, i: nat)
    requires i < |children|
    ensures RenderChildren(children)
         == RenderChildren(children[..i]) + RenderElement(children[i]) + RenderChildren(children[i + 1..])
  {
    if i > 0 {
      var tail := children[1..];
      RenderShowsChild(tail, i - 1);
      assert tail[..i - 1] == children[..i][1..];
      assert tail[i - 1] == children[i];
      assert tail[i..] == children[i + 1..];
      assert RenderChildren(children[..i]) == RenderElement(children[0]) + RenderChildren(tail[..i - 1]);
    }
  }

  // ---------------------------------------------------------------------------
  // Because nothing is escaped, the body identifies its fields only when no
  // text contains '<' and no attribute value contains '"'.

  ghost predicate SafeText(s: string) { '<' !in s }

  ghost predicate SafeAttribute(s: string) { '"' !in s }

  ghost predicate Unambiguous(env: Envelope) {
    && SafeAttribute(env.user)
    && SafeAttribute(env.key)
    && forall i :: 0 <= i < |env.children| ==> SafeText(env.children[i].text)
  }

  /** Same action and the same tags in the same order. */
  ghost predicate SameShape(a: Envelope, b: Envelope) {
    && a.action == b.action
    && |a.children| == |b.children|
    && forall i :: 0 <= i < |a.children| ==> a.children[i].tag == b.children[i].tag
  }

  lemma CancelPrefix(p: string, a: string, b: string)
    requires p + a == p + b
    ensures a == b
  {
    assert a == (p + a)[|p|..];
    assert b == (p + b)[|p|..];
  }

  /** Two texts that each end before the first occurrence of the same
      delimiter character are equal, and so are the remainders. */
  lemma SplitAtDelimiter(x: string, a: string, y: string, b: string)
    requires |a| > 0 && |b| > 0 && a[0] == b[0]
    requires a[0] !in x && a[0] !in y
    requires x + a == y + b
    ensures x == y && a == b
  {
    assert x == (x + a)[..|x|];
    assert y == (y + b)[..|y|];
    assert a == (x + a)[|x|..];
    assert b == (y + b)[|y|..];
  }

  /** The first child's line, then the rest. */
  lemma RenderChildrenFirst(children: seq<Element>, t: string)
    requires children != []
    ensures RenderChildren(children) + t
         == Open(children[0].tag) + (children[0].text + (Close(children[0].tag) + (RenderChildren(children[1..]) + t)))
  {
  }

  lemma {:induction false} RenderChildrenInjective(c1: seq<Element>, c2: seq<Element>, t: string)
    requires |c1| == |c2| && forall i :: 0 <= i < |c1| ==> c1[i].tag == c2[i].tag
    requires forall i :: 0 <= i < |c1| ==> SafeText(c1[i].text)
    requires forall i :: 0 <= i < |c2| ==> SafeText(c2[i].text)
    requires RenderChildren(c1) + t == RenderChildren(c2) + t
    ensures c1 == c2
  {
    if c1 != [] {
      var tag := c1[0].tag;
      var r1, r2 := RenderChildren(c1[1..]) + t, RenderChildren(c2[1..]) + t;
      RenderChildrenFirst(c1, t);
      RenderChildrenFirst(c2, t);
      CancelPrefix(Open(tag), c1[0].text + (Close(tag) + r1), c2[0].text + (Close(tag) + r2));
      SplitAtDelimiter(c1[0].text, Close(tag) + r1, c2[0].text, Close(tag) + r2);
      CancelPrefix(Close(tag), r1, r2);
      RenderChildrenInjective(c1[1..], c2[1..], t);
      assert c1 == [c1[0]] + c1[1..];
      assert c2 == [c2[0]] + c2[1..];
    }
  }

  /** Envelopes of the same shape whose values contain no markup characters
      have different bodies: the gateway can recover every field. */
  lemma RenderInjective(a: Envelope, b: Envelope)
    requires SameShape(a, b) && Unambiguous(a) && Unambiguous(b)
    requires Render(a) == Render(b)
    ensures a == b
  {
    var rk1 := "\">\n" + (RenderChildren(a.children) + Tail);
    var rk2 := "\">\n" + (RenderChildren(b.children) + Tail);
    var ru1 := "\" key=\"" + (a.key + rk1);
    var ru2 := "\" key=\"" + (b.key + rk2);
    CancelPrefix(Head(a.action), a.user + ru1, b.user + ru2);
    SplitAtDelimiter(a.user, ru1, b.user, ru2);
    CancelPrefix("\" key=\"", a.key + rk1, b.key + rk2);
    SplitAtDelimiter(a.key, rk1, b.key, rk2);
    CancelPrefix("\">\n", RenderChildren(a.children) + Tail, RenderChildren(b.children) + Tail);
    RenderChildrenInjective(a.children, b.children, Tail);
  }

  // ---------------------------------------------------------------------------
  // `str()` of the integer station id.

  function DigitChar(d: nat): (c: char)
    requires d < 10
    ensures '0' <= c <= '9'
  {
    ('0' as int + d) as char
  }

  function NatToDecimal(n: nat): (s: string)
    ensures |s| > 0
    ensures forall i :: 0 <= i < |s| ==> '0' <= s[i] <= '9'
    ensures s[0] == '0' ==> n == 0
  {
    if n < 10 then [DigitChar(n)] else NatToDecimal(n / 10) + [DigitChar(n % 10)]
  }

  function IntToDecimal(n: int): (s: string)
    ensures |s| > 0 && (s[0] == '-' <==> n < 0)
    ensures forall i :: 0 <= i < |s| ==> ('0' <= s[i] <= '9' || (i == 0 && s[i] == '-'))
    // no leading zeros: the text is canonical, as `str()` gives it
    ensures s[0] == '0' ==> s == "0"
    ensures s[0] == '-' ==> |s| > 1 && s[1] != '0'
  {
    if n < 0 then "-" + NatToDecimal(-n) else NatToDecimal(n)
  }

  function NatValue(s: string): int {
    if s == [] then 0 else NatValue(s[..|s| - 1]) * 10 + (s[|s| - 1] as int - '0' as int)
  }

  function IntValue(s: string): int {
    if |s| > 0 && s[0] == '-' then -NatValue(s[1..]) else NatValue(s)
  }

  lemma {:induction false} NatDecimalRoundTrip(n: nat)
    ensures NatValue(NatToDecimal(n)) == n
  {
    if n >= 10 {
      NatDecimalRoundTrip(n / 10);
      var s := NatToDecimal(n);
      assert s[..|s| - 1] == NatToDecimal(n / 10);
    }
  }

  /** The station id text reads back as the station id. */
  lemma DecimalRoundTrip(n: int)
    ensures IntValue(IntToDecimal(n)) == n
  {
    if n < 0 {
      NatDecimalRoundTrip(-n);
      assert IntToDecimal(n)[1..] == NatToDecimal(-n);
    } else {
      NatDecimalRoundTrip(n);
    }
  }

  // ---------------------------------------------------------------------------
  // `findtext` on the root of the parsed response.

  /** `i` is the first child with tag `tag`. */
  ghost predicate IsFirst(children: seq<Element>, tag: string, i: int) {
    && 0 <= i < |children|
    && children[i].tag == tag
    && forall j :: 0 <= j < i ==> children[j].tag != tag
  }

  function FirstIndex(children: seq<Element>, tag: string): (i: nat)
    ensures i <= |children|
    ensures i < |children| ==> children[i].tag == tag
    ensures forall j :: 0 <= j < i ==> children[j].tag != tag
  {
    if children == [] then 0
    else if children[0].tag == tag then 0
    else 1 + FirstIndex(children[1..], tag)
  }

  /** `root.findtext(tag)`: the text of the first child with that tag, or None
      when there is none. */
  function FindText(children: seq<Element>, tag: string): (r: Option<string>)
    ensures r.None? <==> forall j :: 0 <= j < |children| ==> children[j].tag != tag
    ensures forall i :: IsFirst(children, tag, i) ==> r == Some(children[i].text)
  {
    var i := FirstIndex(children, tag);
    if i < |children| then Some(children[i].text) else None
  }

  /** `root.findtext(tag, default)`. */
  function FindTextOr(children: seq<Element>, tag: string, default: string): (r: string)
    ensures (forall j :: 0 <= j < |children| ==> children[j].tag != tag) ==> r == default
    ensures forall i :: IsFirst(children, tag, i) ==> r == children[i].text
  {
    match FindText(children, tag)
    case Some(t) => t
    case None => default
  }

  // ---------------------------------------------------------------------------
  // The HTTP exchange inside the `try` of make_payment / make_payment_status.

  /** `response.raise_for_status()`: an `HTTPError` for 4xx and 5xx codes. */
  function RaiseForStatus(status: int): (e: Option<RequestError>)
    ensures e.Some? <==> 400 <= status < 600
    ensures e.Some? ==> e.value == HTTPError(status)
  {
    if 400 <= status < 600 then Some(HTTPError(status)) else None
  }

  datatype Exchanged = Delivered(response: HttpResponse) | Failed(error: RequestError)

  /** `requests.post` followed by `raise_for_status`: every failure is a
      `RequestException`, anything else hands the response back untouched. */
  function Exchange(o: HttpOutcome): (x: Exchanged)
    ensures x.Delivered? <==> o.Responded? && !(400 <= o.response.status < 600)
    ensures x.Delivered? ==> x.response == o.response
    ensures o.Unreachable? ==> x == Failed(ConnectionFailure(o.reason))
    ensures o.Responded? && x.Failed? ==> x.error == HTTPError(o.response.status)
  {
    match o
    case Unreachable(reason) => Failed(ConnectionFailure(reason))
    case Responded(response) =>
      match RaiseForStatus(response.status)
      case Some(e) => Failed(e)
      case None => Delivered(response)
  }
}

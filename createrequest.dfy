/** The request primitive of the dashboard (`public/js/api/createRequest.js`):
    `handleError`, which turns a business error into one line of text, and
    `createRequest`, which configures one XMLHttpRequest, sends it and decides
    on completion whether the caller's callback fires. */
module Requests {
  import opened Wrappers

  /** One key/value pair of a JavaScript object, in `Object.entries` order. */
  type Entry = (string, string)

  /** The value a server reply carries in its `error` field. */
  datatype ErrorValue =
    | ObjectError(entries: seq<Entry>)  // a key -> message mapping
    | StringError(text: string)         // a plain message

  /** `Object.keys(error).length`: an object has one key per entry, a string
      one key per character. */
  function KeyCount(e: ErrorValue): nat {
    match e
    case ObjectError(entries) => |entries|
    case StringError(text) => |text|
  }

  /** JavaScript truthiness of the `error` argument a callback receives:
      absent and the empty string are falsy, every object is truthy. */
  predicate Truthy(e: Option<ErrorValue>) {
    match e
    case None => false
    case Some(StringError(text)) => text != ""
    case Some(ObjectError(_)) => true
  }

  // ---------------------------------------------------------------------
  // handleError
  // ---------------------------------------------------------------------

  const ErrorPrefix := "Сервер сообщил об ошибке: "

  /** `Object.values` of an object error. */
  function Values(entries: seq<Entry>): (r: seq<string>)
    ensures |r| == |entries|
    ensures forall i :: 0 <= i < |entries| ==> r[i] == entries[i].1
  {
    if entries == [] then [] else [entries[0].1] + Values(entries[1..])
  }

  /** `Array.prototype.join(sep)`. */
  function Join(parts: seq<string>, sep: string): string {
    if |parts| == 0 then ""
    else if |parts| == 1 then parts[0]
    else parts[0] + sep + Join(parts[1..], sep)
  }

  /** What an error contributes after the prefix: an object's values joined
      by single spaces, a string verbatim. */
  function Detail(e: ErrorValue): string {
    match e
    case ObjectError(entries) => Join(Values(entries), " ")
    case StringError(text) => text
  }

  /** `/[^.]$/.test(s)`: there is a last character and it is not a period. */
  predicate LacksPeriod(s: string) {
    |s| > 0 && s[|s| - 1] != '.'
  }

  /** The terminal-period rule: a period is appended exactly when the text
      does not already end in one. */
  function Terminate(s: string): (r: string)
    ensures |s| > 0 ==> |r| > 0 && r[|r| - 1] == '.'
    ensures LacksPeriod(s) ==> r == s + "."
    ensures !LacksPeriod(s) ==> r == s
  {
    if LacksPeriod(s) then s + "." else s
  }

  /** The line `handleError` writes to the console, or None when it writes
      nothing. `state` is the global application state `App.state`. */
  function HandleError(state: string, error: ErrorValue): (r: Option<string>)
    ensures r.None? <==> state == "init" || KeyCount(error) == 0
    ensures r.Some? ==> ErrorPrefix <= r.value
    ensures r.Some? ==> r.value[|r.value| - 1] == '.'
    ensures r.Some? ==>
      var content := ErrorPrefix + Detail(error);
      (r.value == content <==> content[|content| - 1] == '.') &&
      (r.value == content || r.value == content + ".")
  {
    if state != "init" && KeyCount(error) > 0 then
      Some(Terminate(ErrorPrefix + Detail(error)))
    else
      None
  }

  /** Normalisation is idempotent: a reported line already ends in a period,
      so running the terminal-period rule on it again changes nothing. */
  lemma TerminateIdempotent(s: string)
    ensures Terminate(Terminate(s)) == Terminate(s)
  {
  }

  /** The values of an object error appear in key order: the first value
      opens the detail and the last one closes it. */
  lemma {:induction false} JoinInOrder(parts: seq<string>, sep: string)
    requires |parts| > 0
    ensures parts[0] <= Join(parts, sep)
    ensures |Join(parts, sep)| >= |parts[|parts| - 1]|
    ensures Join(parts, sep)[|Join(parts, sep)| - |parts[|parts| - 1]|..] == parts[|parts| - 1]
  {
    var last := parts[|parts| - 1];
    if |parts| > 1 {
      var rest := Join(parts[1..], sep);
      JoinInOrder(parts[1..], sep);
      assert Join(parts, sep) == (parts[0] + sep) + rest;
      assert parts[1..][|parts| - 2] == last;
      var j := Join(parts, sep);
      assert j[|j| - |last|..] == rest[|rest| - |last|..];
    }
  }

  // ---------------------------------------------------------------------
  // Status decision (xhr.onloadend)
  // ---------------------------------------------------------------------

  function DigitChar(d: nat): char
    requires d < 10
  {
    ('0' as int + d) as char
  }

  /** `String(status)`: the decimal numeral of a status code. */
  function Decimal(n: nat): (s: string)
    ensures |s| > 0
  {
    if n < 10 then [DigitChar(n)] else Decimal(n / 10) + [DigitChar(n % 10)]
  }

  /** The most significant decimal digit of `n`. */
  function Leading(n: nat): (d: nat)
    ensures d < 10
  {
    if n < 10 then n else Leading(n / 10)
  }

  /** `String(status).startsWith('2')`. */
  predicate StartsWithTwo(status: nat) {
    Decimal(status)[0] == '2'
  }

  /** The numeral opens with the most significant digit. */
  lemma {:induction false} DecimalOpensWithLeading(n: nat)
    ensures Decimal(n)[0] == DigitChar(Leading(n))
  {
    if n >= 10 {
      DecimalOpensWithLeading(n / 10);
    }
  }

  /** For the three-digit codes HTTP defines, the first-character test is
      exactly the 2xx "Successful" class of section 15.3 of RFC 9110. */
  lemma SuccessfulClass(status: nat)
    requires 100 <= status <= 999
    ensures StartsWithTwo(status) <==> 200 <= status <= 299
  {
    DecimalOpensWithLeading(status);
    assert Leading(status) == Leading(status / 10) == status / 100;
  }

  /** A parsed JSON reply: its conventional `error` field and the field the
      caller goes on to read (`data` or `user`). */
  datatype Response<T> = Response(error: Option<ErrorValue>, body: Option<T>)

  /** `response?.error`: a reply that failed to parse (`null`) has none. */
  function ErrorOf<T>(response: Option<Response<T>>): (e: Option<ErrorValue>)
    ensures response.None? ==> e.None?
    ensures response.Some? ==> e == response.value.error
  {
    match response
    case None => None
    case Some(r) => r.error
  }

  /** The field a success branch reads, or None when reading it would throw
      (the reply is `null`) or find nothing (the field is absent). */
  function BodyOf<T>(response: Option<Response<T>>): (b: Option<T>)
    ensures response.None? ==> b.None?
  {
    match response
    case None => None
    case Some(r) => r.body
  }

  /** What `xhr.onloadend` does. */
  datatype Completion<T> =
    | Callback(error: Option<ErrorValue>, response: Option<Response<T>>)  // callback(response?.error, response)
    | Rejected(line: string)  // the transport error line logged instead

  const RejectedPrefix := "Сервер не принял запрос. "

  function OnLoadEnd<T>(status: nat, statusText: string, response: Option<Response<T>>): (c: Completion<T>)
    ensures c.Callback? <==> StartsWithTwo(status)
    ensures c.Callback? ==> c.error == ErrorOf(response) && c.response == response
    ensures c.Rejected? ==>
      RejectedPrefix <= c.line && c.line[|c.line| - 1] == '.' &&
      c.line == RejectedPrefix + "Ошибка " + Decimal(status) + ": " + statusText + "."
  {
    if StartsWithTwo(status) then
      Callback(ErrorOf(response), response)
    else
      Rejected(RejectedPrefix + "Ошибка " + Decimal(status) + ": " + statusText + ".")
  }

  /** The callback fires for a three-digit status exactly when it is 2xx,
      with the reply's own `error` field; every other status only logs. */
  lemma CallbackIffSuccessful<T>(status: nat, statusText: string, response: Option<Response<T>>)
    requires 100 <= status <= 999
    ensures OnLoadEnd(status, statusText, response).Callback? <==> 200 <= status <= 299
  {
    SuccessfulClass(status);
  }

  /** A status of 0, which a browser reports for a network failure, never
      reaches the callback. */
  lemma NetworkFailureNeverCalledBack<T>(statusText: string, response: Option<Response<T>>)
    ensures OnLoadEnd(0, statusText, response).Rejected?
  {
  }

  // ---------------------------------------------------------------------
  // createRequest
  // ---------------------------------------------------------------------

  /** The `data` option: left out, `null`, or an object's own entries. */
  datatype RequestData = Undefined | Null | Fields(entries: seq<Entry>)

  /** A request descriptor `{url, method, responseType, headers?, data?, callback}`. */
  datatype Options<C> = Options(
    url: string,
    verb: string,
    responseType: string,
    headers: Option<seq<Entry>>,
    data: RequestData,
    callback: C)

  /** What `xhr.send` is given: nothing, or a FormData with these entries. */
  datatype Body = NoBody | Form(entries: seq<Entry>)

  /** One configuring step taken on the XMLHttpRequest, in order. */
  datatype XhrCall =
    | Open(verb: string, url: string)
    | SetResponseType(kind: string)
    | EnableCredentials
    | SetHeader(name: string, value: string)
    | ListenLoadEnd
    | Send(body: Body)

  /** How `createRequest` returns to its caller. */
  datatype Outcome =
    | Thrown  // `options` missing: an Error is thrown to the caller
    | Caught  // an exception inside the try block was caught and logged
    | Sent    // the request went out

  /** The calls that setting each header entry makes, one per entry. */
  function HeaderCalls(headers: seq<Entry>): (r: seq<XhrCall>)
    ensures |r| == |headers|
    ensures forall i :: 0 <= i < |headers| ==> r[i] == SetHeader(headers[i].0, headers[i].1)
  {
    if headers == [] then []
    else HeaderCalls(headers[..|headers| - 1]) + [SetHeader(headers[|headers| - 1].0, headers[|headers| - 1].1)]
  }

  /** Everything done before `send`: open, response type, credentials, the
      headers (when given) and the completion listener. */
  function Preamble<C>(o: Options<C>): (r: seq<XhrCall>)
    ensures |r| >= 4
    ensures r[..3] == [Open(o.verb, o.url), SetResponseType(o.responseType), EnableCredentials]
    ensures r[3..|r| - 1] == (match o.headers case None => [] case Some(h) => HeaderCalls(h))
    ensures r[|r| - 1] == ListenLoadEnd
  {
    [Open(o.verb, o.url), SetResponseType(o.responseType), EnableCredentials]
    + (match o.headers case None => [] case Some(h) => HeaderCalls(h))
    + [ListenLoadEnd]
  }

  /** A stand-in for the browser's XMLHttpRequest: it records the calls made
      on it, in order. */
  class Xhr {
    var calls: seq<XhrCall>

    constructor ()
      ensures calls == []
    {
      calls := [];
    }

    method Perform(c: XhrCall)
      modifies this
      ensures calls == old(calls) + [c]
    {
      calls := calls + [c];
    }
  }

  /** `createRequest(options)`. The returned Xhr is the configured request
      (null when `options` is missing). */
  method CreateRequest<C>(options: Option<Options<C>>) returns (outcome: Outcome, xhr: Xhr?)
    ensures outcome == Thrown <==> options.None?
    ensures outcome == Thrown <==> xhr == null
    ensures xhr != null ==> fresh(xhr)
    ensures options.Some? && options.value.data.Null? ==>
      outcome == Caught && xhr.calls == Preamble(options.value)
    ensures options.Some? && options.value.data.Undefined? ==>
      outcome == Sent && xhr.calls == Preamble(options.value) + [Send(NoBody)]
    ensures options.Some? && options.value.data.Fields? ==>
      outcome == Sent && xhr.calls == Preamble(options.value) + [Send(Form(options.value.data.entries))]
  {
    if options.None? {
      return Thrown, null;
    }
    var o := options.value;
    xhr := new Xhr();
    xhr.Perform(Open(o.verb, o.url));
    xhr.Perform(SetResponseType(o.responseType));
    xhr.Perform(EnableCredentials);
    if o.headers.Some? {
      var h := o.headers.value;
      for i := 0 to |h|
        invariant xhr.calls == [Open(o.verb, o.url), SetResponseType(o.responseType), EnableCredentials]
                               + HeaderCalls(h[..i])
      {
        assert h[..i + 1][..i] == h[..i];
        xhr.Perform(SetHeader(h[i].0, h[i].1));
      }
      assert h[..|h|] == h;
    }
    xhr.Perform(ListenLoadEnd);
    match o.data {
      case Undefined =>
        xhr.Perform(Send(NoBody));
        outcome := Sent;
      case Null =>
        // Object.entries(null) throws; the catch block logs it
        outcome := Caught;
      case Fields(entries) =>
        var form: seq<Entry> := [];
        for i := 0 to |entries|
          invariant form == entries[..i]
        {
          assert entries[..i + 1] == entries[..i] + [entries[i]];
          form := form + [entries[i]];
        }
        assert entries[..|entries|] == entries;
        xhr.Perform(Send(Form(form)));
        outcome := Sent;
    }
  }

  /** Every request, whatever its descriptor, carries credentials and is
      opened with the descriptor's method and URL before anything else. */
  lemma CredentialsAlwaysEnabled<C>(o: Options<C>)
    ensures EnableCredentials in Preamble(o)
    ensures Preamble(o)[0] == Open(o.verb, o.url)
  {
  }

  /** Nothing is sent before the completion listener is installed. */
  lemma NoSendInPreamble<C>(o: Options<C>)
    ensures forall c :: c in Preamble(o) ==> !c.Send?
  {
  }

  /** Each header entry is set exactly once, in the order given. */
  lemma {:induction false} EachHeaderOnce(headers: seq<Entry>, i: nat)
    requires i < |headers|
    requires forall j, k :: 0 <= j < k < |headers| ==> headers[j].0 != headers[k].0
    ensures forall j :: 0 <= j < |headers| && HeaderCalls(headers)[j].name == headers[i].0 ==> j == i
  {
  }
}

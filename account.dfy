/** The account resource client (`public/js/api/Account.js`): its base path
    and the descriptor `Account.get` builds. `list`, `create` and `remove`
    come from the `Entity` base, which is not part of this model. */
module AccountApi {
  import opened Wrappers
  import opened Requests

  const URL := "/account"

  /** `Account.get(id, callback)`: the descriptor handed to `createRequest`. */
  function Get<C>(id: string, callback: C): (o: Options<C>)
    ensures o.verb == "GET" && o.responseType == "json" && o.headers.None?
    ensures o.data == Undefined     // no data: the request goes out with an empty body
    ensures o.callback == callback  // the caller's callback, untouched
    ensures |o.url| == |URL| + 1 + |id| && URL + "/" <= o.url
  {
    Options(URL + "/" + id, "GET", "json", None, Undefined, callback)
  }

  /** The account id a URL names under the base path, if it is one. */
  function IdOfUrl(url: string): (id: Option<string>)
    ensures id.Some? ==> url == URL + "/" + id.value
  {
    var base := URL + "/";
    if base <= url then Some(url[|base|..]) else None
  }

  /** The URL `get` requests names exactly the id it was given, so two
      different ids never share a request. */
  lemma GetUrlNamesId<C>(id: string, callback: C)
    ensures IdOfUrl(Get(id, callback).url) == Some(id)
  {
  }

  /** A `get` descriptor, dispatched, opens a GET of its URL and sends an
      empty body. */
  method Fetch<C>(id: string, callback: C) returns (outcome: Outcome, calls: seq<XhrCall>)
    ensures outcome == Sent
    ensures |calls| >= 5 && calls[0] == Open("GET", URL + "/" + id) && calls[|calls| - 1] == Send(NoBody)
  {
    var xhr;
    outcome, xhr := CreateRequest(Some(Get(id, callback)));
    calls := xhr.calls;
  }
}

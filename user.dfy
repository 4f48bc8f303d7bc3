/** The session store and identity operations (`public/js/api/User.js`).
    The browser's `localStorage` slot `'user'` is a field of `UserStore`; the
    JSON round trip through it is taken to be faithful. */
module UserApi {
  import opened Wrappers
  import opened Requests
  import opened Entities

  const URL := "/user"

  /** The storage slot. `Unreadable` is the text `"undefined"` that
      `JSON.stringify(undefined)` leaves behind, which `JSON.parse` rejects. */
  datatype Slot = Vacant | Stored(user: User) | Unreadable

  /** What `User.current()` gives: `null`, a user, or a failure (the catch
      block calls a `callback` that is not in scope, so the call throws). */
  datatype Lookup = Anonymous | LoggedIn(user: User) | Unparseable

  /** The filter `Account.list(User.current(), ...)` receives, or None when
      `User.current()` throws before the list call is made. */
  function ListFilter(l: Lookup): (f: Option<Option<User>>)
    ensures f.None? <==> l.Unparseable?
    ensures l.Anonymous? ==> f == Some(None)
    ensures l.LoggedIn? ==> f == Some(Some(l.user))
  {
    match l
    case Anonymous => Some(None)
    case LoggedIn(u) => Some(Some(u))
    case Unparseable => None
  }

  /** One observable step of an identity operation, in order: a write to
      the slot, or the caller's callback being invoked with its argument. */
  datatype Step = Wrote(slot: Slot) | CalledBack(error: Option<ErrorValue>)

  /** The callbacks `User` itself hands to `createRequest`. */
  datatype Adapter = FetchAdapter | LoginAdapter | RegisterAdapter | LogoutAdapter

  /** The descriptor `User.fetch` sends: GET `/user/current`, no data. */
  function FetchRequest(): Options<Adapter> {
    Options(URL + "/current", "GET", "json", None, Undefined, FetchAdapter)
  }

  /** The descriptors `login`, `register` and `logout` send: POST with the
      caller's data. */
  function LoginRequest(data: RequestData): Options<Adapter> {
    Options(URL + "/login", "POST", "json", None, data, LoginAdapter)
  }

  function RegisterRequest(data: RequestData): Options<Adapter> {
    Options(URL + "/register", "POST", "json", None, data, RegisterAdapter)
  }

  function LogoutRequest(data: RequestData): Options<Adapter> {
    Options(URL + "/logout", "POST", "json", None, data, LogoutAdapter)
  }

  /** The four descriptors: `fetch` is the only GET and carries no data; the
      others POST exactly the caller's data; all expect JSON; the four URLs
      are distinct paths under `/user`. */
  lemma Descriptors(data: RequestData)
    ensures FetchRequest().verb == "GET" && FetchRequest().data == Undefined
    ensures FetchRequest().url == "/user/current"
    ensures LoginRequest(data).url == "/user/login" && LoginRequest(data).verb == "POST" && LoginRequest(data).data == data
    ensures RegisterRequest(data).url == "/user/register" && RegisterRequest(data).verb == "POST" && RegisterRequest(data).data == data
    ensures LogoutRequest(data).url == "/user/logout" && LogoutRequest(data).verb == "POST" && LogoutRequest(data).data == data
    ensures forall o :: o in {FetchRequest(), LoginRequest(data), RegisterRequest(data), LogoutRequest(data)} ==>
      o.responseType == "json" && URL + "/" <= o.url
  {
  }

  /** Hands a descriptor to `createRequest` and returns what it reports and
      the calls made on the request object. */
  method Dispatch(o: Options<Adapter>) returns (outcome: Outcome, calls: seq<XhrCall>)
    ensures |calls| >= 4 && calls[0] == Open(o.verb, o.url)
    ensures o.data.Null? ==> outcome == Caught && calls == Preamble(o)
    ensures o.data.Undefined? ==> outcome == Sent && calls == Preamble(o) + [Send(NoBody)]
    ensures o.data.Fields? ==> outcome == Sent && calls == Preamble(o) + [Send(Form(o.data.entries))]
  {
    var xhr;
    outcome, xhr := CreateRequest(Some(o));
    calls := xhr.calls;
  }

  /** `User.fetch`: a GET of `/user/current` with an empty body. */
  method Fetch() returns (outcome: Outcome, calls: seq<XhrCall>)
    ensures outcome == Sent
    ensures |calls| >= 4 && calls[0] == Open("GET", "/user/current") && calls[|calls| - 1] == Send(NoBody)
  {
    outcome, calls := Dispatch(FetchRequest());
  }

  /** `User.login`: the caller's data goes out as the form body. */
  method Login(data: RequestData) returns (outcome: Outcome, calls: seq<XhrCall>)
    ensures |calls| >= 4 && calls[0] == Open("POST", "/user/login")
    ensures data.Fields? ==> outcome == Sent && calls[|calls| - 1] == Send(Form(data.entries))
    ensures data.Undefined? ==> outcome == Sent && calls[|calls| - 1] == Send(NoBody)
    ensures data.Null? ==> outcome == Caught && forall c :: c in calls ==> !c.Send?
  {
    outcome, calls := Dispatch(LoginRequest(data));
    NoSendInPreamble(LoginRequest(data));
  }

  /** `User.register`: as login, against `/user/register`. */
  method Register(data: RequestData) returns (outcome: Outcome, calls: seq<XhrCall>)
    ensures |calls| >= 4 && calls[0] == Open("POST", "/user/register")
    ensures data.Fields? ==> outcome == Sent && calls[|calls| - 1] == Send(Form(data.entries))
    ensures data.Undefined? ==> outcome == Sent && calls[|calls| - 1] == Send(NoBody)
    ensures data.Null? ==> outcome == Caught && forall c :: c in calls ==> !c.Send?
  {
    outcome, calls := Dispatch(RegisterRequest(data));
    NoSendInPreamble(RegisterRequest(data));
  }

  /** `User.logout`. Logging out while `User.current()` is `null` sends
      `null` as data, which `Object.entries` rejects: nothing is sent, so
      the callback never fires. */
  method Logout(data: RequestData) returns (outcome: Outcome, calls: seq<XhrCall>)
    ensures |calls| >= 4 && calls[0] == Open("POST", "/user/logout")
    ensures data.Fields? ==> outcome == Sent && calls[|calls| - 1] == Send(Form(data.entries))
    ensures data.Undefined? ==> outcome == Sent && calls[|calls| - 1] == Send(NoBody)
    ensures data.Null? ==> outcome == Caught && forall c :: c in calls ==> !c.Send?
  {
    outcome, calls := Dispatch(LogoutRequest(data));
    NoSendInPreamble(LogoutRequest(data));
  }

  class UserStore {
    var slot: Slot
    var log: seq<Step>

    constructor (initial: Slot)
      ensures slot == initial && log == []
    {
      slot := initial;
      log := [];
    }

    /** `User.current()`. */
    function Current(): (l: Lookup)
      reads this
      ensures l == Anonymous <==> slot == Vacant
      ensures l.LoggedIn? <==> slot.Stored?
      ensures slot.Stored? ==> l.user == slot.user
    {
      match slot
      case Vacant => Anonymous
      case Stored(u) => LoggedIn(u)
      case Unreadable => Unparseable
    }

    /** `User.setCurrent(user)`; `None` is `undefined`. */
    method SetCurrent(user: Option<User>)
      modifies this
      ensures slot == (if user.Some? then Stored(user.value) else Unreadable)
      ensures log == old(log) + [Wrote(slot)]
      ensures user.Some? ==> Current() == LoggedIn(user.value)
    {
      slot := if user.Some? then Stored(user.value) else Unreadable;
      log := log + [Wrote(slot)];
    }

    /** `User.unsetCurrent()`. */
    method UnsetCurrent()
      modifies this
      ensures slot == Vacant && log == old(log) + [Wrote(Vacant)]
      ensures Current() == Anonymous
    {
      slot := Vacant;
      log := log + [Wrote(Vacant)];
    }

    /** The callback `User.fetch` installs: the server's answer replaces
        the stored user whatever its `error` field says, and the caller is
        then called back with no arguments. */
    method OnFetchReply(response: Option<Response<User>>)
      modifies this
      ensures BodyOf(response).Some? ==> slot == Stored(BodyOf(response).value)
      ensures BodyOf(response).None? ==> slot == Vacant
      ensures log == old(log) + [Wrote(slot), CalledBack(None)]
    {
      match BodyOf(response) {
        case Some(u) => SetCurrent(Some(u));
        case None => UnsetCurrent();
      }
      log := log + [CalledBack(None)];
    }

    /** The shared shape of the `login` and `register` callbacks: a truthy
        error is forwarded and nothing is stored; otherwise `response.user`
        is stored first and the caller is then called back with no error.
        A `null` reply on the success path throws at `response.user`, before
        anything is stored or called. */
    method AcceptUser(response: Option<Response<User>>)
      modifies this
      ensures Truthy(ErrorOf(response)) ==>
        slot == old(slot) && log == old(log) + [CalledBack(ErrorOf(response))]
      ensures !Truthy(ErrorOf(response)) && response.None? ==>
        slot == old(slot) && log == old(log)
      ensures !Truthy(ErrorOf(response)) && response.Some? ==>
        slot == (if BodyOf(response).Some? then Stored(BodyOf(response).value) else Unreadable) &&
        log == old(log) + [Wrote(slot), CalledBack(None)]
    {
      var error := ErrorOf(response);
      if Truthy(error) {
        log := log + [CalledBack(error)];
      } else if response.Some? {
        SetCurrent(response.value.body);
        log := log + [CalledBack(None)];
      }
    }

    /** The callback `User.login` installs. */
    method OnLoginReply(response: Option<Response<User>>)
      modifies this
      ensures Truthy(ErrorOf(response)) ==>
        slot == old(slot) && log == old(log) + [CalledBack(ErrorOf(response))]
      ensures !Truthy(ErrorOf(response)) && response.None? ==>
        slot == old(slot) && log == old(log)
      ensures !Truthy(ErrorOf(response)) && response.Some? ==>
        slot == (if BodyOf(response).Some? then Stored(BodyOf(response).value) else Unreadable) &&
        log == old(log) + [Wrote(slot), CalledBack(None)]
    {
      AcceptUser(response);
    }

    /** The callback `User.register` installs; it behaves as login's. */
    method OnRegisterReply(response: Option<Response<User>>)
      modifies this
      ensures Truthy(ErrorOf(response)) ==>
        slot == old(slot) && log == old(log) + [CalledBack(ErrorOf(response))]
      ensures !Truthy(ErrorOf(response)) && response.None? ==>
        slot == old(slot) && log == old(log)
      ensures !Truthy(ErrorOf(response)) && response.Some? ==>
        slot == (if BodyOf(response).Some? then Stored(BodyOf(response).value) else Unreadable) &&
        log == old(log) + [Wrote(slot), CalledBack(None)]
    {
      AcceptUser(response);
    }

    /** The callback `User.logout` installs; it reads only the error. */
    method OnLogoutReply(error: Option<ErrorValue>)
      modifies this
      ensures Truthy(error) ==> slot == old(slot) && log == old(log) + [CalledBack(error)]
      ensures !Truthy(error) ==> slot == Vacant && log == old(log) + [Wrote(Vacant), CalledBack(None)]
    {
      if Truthy(error) {
        log := log + [CalledBack(error)];
      } else {
        UnsetCurrent();
        log := log + [CalledBack(None)];
      }
    }
  }
}

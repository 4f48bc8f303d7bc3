/** The sidebar (`public/js/ui/Sidebar.js`): the handler each menu item
    gets, what the handlers do, and the toggle button's class flip. */
module SidebarUi {
  import opened Wrappers
  import opened Requests
  import opened Entities
  import opened UserApi

  datatype Handler = ShowLogin | ShowRegister | LogOut

  const LoginClass := "menu-item_login"
  const RegisterClass := "menu-item_register"
  const LogoutClass := "menu-item_logout"

  /** The handler a menu item with these classes gets: the first matching
      class, checked in the order login, register, logout; none otherwise. */
  function HandlerFor(classes: set<string>): (h: Option<Handler>)
    ensures h == Some(ShowLogin) <==> LoginClass in classes
    ensures h == Some(ShowRegister) <==> RegisterClass in classes && LoginClass !in classes
    ensures h == Some(LogOut) <==>
      LogoutClass in classes && RegisterClass !in classes && LoginClass !in classes
    ensures h.None? <==>
      LoginClass !in classes && RegisterClass !in classes && LogoutClass !in classes
  {
    if LoginClass in classes then Some(ShowLogin)
    else if RegisterClass in classes then Some(ShowRegister)
    else if LogoutClass in classes then Some(LogOut)
    else None
  }

  /** A `.menu-item` element and its `onclick` property. */
  class MenuItem {
    const classes: set<string>
    var onclick: Option<Handler>

    constructor (classes: set<string>)
      ensures this.classes == classes && onclick.None?
    {
      this.classes := classes;
      onclick := None;
    }
  }

  /** `initAuthLinks()`: give every menu item its handler. */
  method InitAuthLinks(items: seq<MenuItem>)
    modifies set i | i in items
    ensures forall i :: 0 <= i < |items| ==> items[i].onclick == HandlerFor(items[i].classes)
  {
    for n := 0 to |items|
      invariant forall i :: 0 <= i < n ==> items[i].onclick == HandlerFor(items[i].classes)
    {
      items[n].onclick := HandlerFor(items[n].classes);
    }
  }

  /** The logout request's data: `User.current()` itself, or None when that
      call throws before `User.logout` is reached. */
  function LogoutData(current: Lookup): (d: Option<RequestData>)
    ensures d.None? <==> current.Unparseable?
    ensures current.LoggedIn? ==> d == Some(Fields(current.user.fields))
    ensures current.Anonymous? ==> d == Some(Null)
  {
    match current
    case Anonymous => Some(Null)
    case LoggedIn(u) => Some(Fields(u.fields))
    case Unparseable => None
  }

  class Sidebar {
    var effects: seq<Effect>

    constructor ()
      ensures effects == []
    {
      effects := [];
    }

    /** Running a menu item's handler. */
    method Click(h: Handler, current: Lookup)
      modifies this
      ensures h == ShowLogin ==> effects == old(effects) + [OpenModal("login")]
      ensures h == ShowRegister ==> effects == old(effects) + [OpenModal("register")]
      ensures h == LogOut && LogoutData(current).Some? ==>
        effects == old(effects) + [Request(UserLogout(LogoutData(current).value))]
      ensures h == LogOut && LogoutData(current).None? ==> effects == old(effects)
    {
      match h {
        case ShowLogin => effects := effects + [OpenModal("login")];
        case ShowRegister => effects := effects + [OpenModal("register")];
        case LogOut =>
          var data := LogoutData(current);
          if data.Some? {
            effects := effects + [Request(UserLogout(data.value))];
          }
      }
    }

    /** The logout callback: report, or return to the `init` state. */
    method OnLoggedOut(error: Option<ErrorValue>)
      modifies this
      ensures Truthy(error) ==> effects == old(effects) + [Report(error.value)]
      ensures !Truthy(error) ==> effects == old(effects) + [SetState("init")]
    {
      if Truthy(error) {
        effects := effects + [Report(error.value)];
      } else {
        effects := effects + [SetState("init")];
      }
    }
  }

  const OpenClass := "sidebar-open"
  const CollapseClass := "sidebar-collapse"

  /** `classList.toggle(c)`. */
  function Toggle(classes: set<string>, c: string): (r: set<string>)
    ensures c in r <==> c !in classes
    ensures forall d :: d != c ==> (d in r <==> d in classes)
  {
    if c in classes then classes - {c} else classes + {c}
  }

  /** What one click of `.sidebar-toggle` does to the body's classes. */
  function Flip(classes: set<string>): set<string> {
    Toggle(Toggle(classes, OpenClass), CollapseClass)
  }

  /** Two clicks restore the original class set. */
  lemma FlipTwice(classes: set<string>)
    ensures Flip(Flip(classes)) == classes
  {
  }

  /** A body that shows exactly one of the two states shows exactly the
      other one after a click; no other class changes. */
  lemma FlipSwapsState(classes: set<string>)
    requires (OpenClass in classes) != (CollapseClass in classes)
    ensures OpenClass in Flip(classes) <==> CollapseClass in classes
    ensures (OpenClass in Flip(classes)) != (CollapseClass in Flip(classes))
    ensures forall d :: d != OpenClass && d != CollapseClass ==> (d in Flip(classes) <==> d in classes)
  {
  }

  /** `document.body` and its class list. */
  class DocumentBody {
    var classes: set<string>

    constructor (classes: set<string>)
      ensures this.classes == classes
    {
      this.classes := classes;
    }

    /** The `.sidebar-toggle` click handler. */
    method ToggleSidebar()
      modifies this
      ensures classes == Flip(old(classes))
    {
      classes := Toggle(classes, OpenClass);
      classes := Toggle(classes, CollapseClass);
    }
  }
}

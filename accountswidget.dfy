/** The sidebar accounts widget (`public/js/ui/widgets/AccountsWidget.js`):
    the widget's children, of which the `.account` entries are replaced on
    every successful update, the single `active` marker, and selection by
    name. */
module AccountsWidgetUi {
  import opened Wrappers
  import opened Requests
  import opened Entities
  import opened UserApi

  /** A child of the widget element: an `.account` entry (with or without
      the `active` class) or anything else (the header, the create button). */
  datatype Child = AccountItem(account: Account, active: bool) | Other(name: string)

  /** The accounts shown, in order. */
  function Accounts(children: seq<Child>): (r: seq<Account>)
    ensures |r| <= |children|
  {
    if children == [] then []
    else Accounts(children[..|children| - 1])
         + (if children[|children| - 1].AccountItem? then [children[|children| - 1].account] else [])
  }

  /** The children that are not account entries, in order. */
  function Others(children: seq<Child>): (r: seq<Child>)
  {
    if children == [] then []
    else Others(children[..|children| - 1])
         + (if children[|children| - 1].Other? then [children[|children| - 1]] else [])
  }

  /** The entries `renderItem` appends for these accounts, none active. */
  function Items(accounts: seq<Account>): (r: seq<Child>)
    ensures |r| == |accounts|
    ensures forall i :: 0 <= i < |accounts| ==> r[i] == AccountItem(accounts[i], false)
  {
    if accounts == [] then [] else Items(accounts[..|accounts| - 1]) + [AccountItem(accounts[|accounts| - 1], false)]
  }

  /** How many entries carry the `active` class. */
  function ActiveCount(children: seq<Child>): nat {
    if children == [] then 0
    else ActiveCount(children[..|children| - 1])
         + (if children[|children| - 1].AccountItem? && children[|children| - 1].active then 1 else 0)
  }

  predicate IsActive(c: Child) {
    c.AccountItem? && c.active
  }

  /** `querySelector('.account.active')`: the first active entry. */
  function FirstActive(children: seq<Child>): (r: Option<nat>)
    ensures r.Some? ==> r.value < |children| && IsActive(children[r.value])
    ensures r.Some? ==> forall j :: 0 <= j < r.value ==> !IsActive(children[j])
    ensures r.None? ==> forall j :: 0 <= j < |children| ==> !IsActive(children[j])
  {
    if children == [] then None
    else if IsActive(children[0]) then Some(0)
    else match FirstActive(children[1..])
         case None => None
         case Some(k) => Some(k + 1)
  }

  /** `response.data.find(a => a.name === name)`: the index of the first
      listed account with that name. */
  function FindByName(accounts: seq<Account>, name: string): (r: Option<nat>)
    ensures r.Some? ==> r.value < |accounts| && accounts[r.value].name == name
    ensures r.Some? ==> forall j :: 0 <= j < r.value ==> accounts[j].name != name
    ensures r.None? <==> forall j :: 0 <= j < |accounts| ==> accounts[j].name != name
  {
    if accounts == [] then None
    else if accounts[0].name == name then Some(0)
    else match FindByName(accounts[1..], name)
         case None => None
         case Some(k) => Some(k + 1)
  }

  /** Two accounts with the same name always resolve to the first of them. */
  lemma DuplicateNamesResolveToFirst(accounts: seq<Account>, i: nat, j: nat)
    requires i < j < |accounts| && accounts[i].name == accounts[j].name
    ensures FindByName(accounts, accounts[j].name) != Some(j)
    ensures FindByName(accounts, accounts[j].name).Some?
    ensures FindByName(accounts, accounts[j].name).value <= i
  {
  }

  /** The three views of the children distribute over concatenation. */
  lemma {:induction false} ViewsOfConcat(s: seq<Child>, t: seq<Child>)
    ensures Accounts(s + t) == Accounts(s) + Accounts(t)
    ensures Others(s + t) == Others(s) + Others(t)
    ensures ActiveCount(s + t) == ActiveCount(s) + ActiveCount(t)
  {
    if t == [] {
      assert s + t == s;
    } else {
      var init := t[..|t| - 1];
      ViewsOfConcat(s, init);
      assert (s + t)[..|s + t| - 1] == s + init;
      assert (s + t)[|s + t| - 1] == t[|t| - 1];
    }
  }

  /** Clearing leaves no account entry and keeps every other child. */
  lemma {:induction false} OthersHaveNoAccounts(children: seq<Child>)
    ensures Accounts(Others(children)) == []
    ensures Others(Others(children)) == Others(children)
    ensures ActiveCount(Others(children)) == 0
  {
    if children != [] {
      var init := children[..|children| - 1];
      var last := children[|children| - 1];
      OthersHaveNoAccounts(init);
      if last.Other? {
        assert Others(children) == Others(init) + [last];
        ViewsOfConcat(Others(init), [last]);
        assert [last][..0] == [];
      } else {
        assert Others(children) == Others(init);
      }
    }
  }

  /** The rendered entries show exactly the accounts they were made from. */
  lemma {:induction false} ViewsOfItems(accounts: seq<Account>)
    ensures Accounts(Items(accounts)) == accounts
    ensures Others(Items(accounts)) == []
    ensures ActiveCount(Items(accounts)) == 0
  {
    if accounts != [] {
      var init := accounts[..|accounts| - 1];
      ViewsOfItems(init);
      assert Items(accounts)[..|accounts| - 1] == Items(init);
      assert accounts == init + [accounts[|accounts| - 1]];
    }
  }

  /** After clearing and rendering `accounts`, the entries shown are exactly
      `accounts`, in order, none is active, and the other children are
      untouched. */
  lemma RenderedAfterClear(children: seq<Child>, accounts: seq<Account>)
    ensures Accounts(Others(children) + Items(accounts)) == accounts
    ensures Others(Others(children) + Items(accounts)) == Others(children)
    ensures ActiveCount(Others(children) + Items(accounts)) == 0
  {
    ViewsOfConcat(Others(children), Items(accounts));
    OthersHaveNoAccounts(children);
    ViewsOfItems(accounts);
  }

  /** Changing one entry's marker changes the count by exactly that entry. */
  lemma {:induction false} ActiveCountUpdate(children: seq<Child>, k: nat, c: Child)
    requires k < |children|
    ensures ActiveCount(children[k := c]) ==
      ActiveCount(children) - (if IsActive(children[k]) then 1 else 0) + (if IsActive(c) then 1 else 0)
  {
    var n := |children|;
    if k == n - 1 {
      assert children[k := c][..n - 1] == children[..n - 1];
    } else {
      ActiveCountUpdate(children[..n - 1], k, c);
      assert children[k := c][..n - 1] == children[..n - 1][k := c];
    }
  }

  /** With no entry active, the count is zero, and conversely. */
  lemma {:induction false} ActiveCountZero(children: seq<Child>)
    ensures ActiveCount(children) == 0 <==> forall j :: 0 <= j < |children| ==> !IsActive(children[j])
  {
    if children != [] {
      ActiveCountZero(children[..|children| - 1]);
    }
  }

  /** Moving the marker: if at most one entry was active, exactly one is
      afterwards, and it is the clicked entry. */
  lemma MarkerMoved(children: seq<Child>, k: nat)
    requires k < |children| && children[k].AccountItem?
    requires ActiveCount(children) <= 1
    ensures var cleared := if FirstActive(children).Some? then
                             children[FirstActive(children).value := AccountItem(children[FirstActive(children).value].account, false)]
                           else children;
            var after := cleared[k := AccountItem(children[k].account, true)];
            ActiveCount(after) == 1 && IsActive(after[k]) &&
            forall j :: 0 <= j < |after| && j != k ==> !IsActive(after[j])
  {
    var cleared := children;
    if FirstActive(children).Some? {
      var a := FirstActive(children).value;
      ActiveCountUpdate(children, a, AccountItem(children[a].account, false));
      cleared := children[a := AccountItem(children[a].account, false)];
    } else {
      ActiveCountZero(children);
    }
    assert ActiveCount(cleared) == 0;
    ActiveCountZero(cleared);
    ActiveCountUpdate(cleared, k, AccountItem(children[k].account, true));
  }

  class AccountsWidget {
    const element: Element
    var children: seq<Child>
    var effects: seq<Effect>

    constructor (element: Element, children: seq<Child>)
      ensures this.element == element && this.children == children && effects == []
    {
      this.element := element;
      this.children := children;
      effects := [];
    }

    /** `update()`: only for a logged-in user, list that user's accounts.
        When `User.current()` throws, nothing is asked for. */
    method Update(current: Lookup)
      modifies this
      ensures current.LoggedIn? ==> effects == old(effects) + [Request(AccountList(Some(current.user)))]
      ensures !current.LoggedIn? ==> effects == old(effects)
      ensures children == old(children)
    {
      if current.LoggedIn? {
        effects := effects + [Request(AccountList(Some(current.user)))];
      }
    }

    /** The callback of `Account.list` in `update`: report and keep the
        entries, or clear them and render the listed accounts. A reply
        without `data` throws after the clear. */
    method OnListReply(response: Option<Response<seq<Account>>>)
      modifies this
      ensures Truthy(ErrorOf(response)) ==>
        effects == old(effects) + [Report(ErrorOf(response).value)] && children == old(children)
      ensures !Truthy(ErrorOf(response)) ==> effects == old(effects)
      ensures !Truthy(ErrorOf(response)) && BodyOf(response).None? ==>
        children == Others(old(children))
      ensures !Truthy(ErrorOf(response)) && BodyOf(response).Some? ==>
        children == Others(old(children)) + Items(BodyOf(response).value)
    {
      var error := ErrorOf(response);
      if Truthy(error) {
        effects := effects + [Report(error.value)];
      } else {
        Clear();
        if BodyOf(response).Some? {
          var data := BodyOf(response).value;
          ghost var cleared := children;
          for i := 0 to |data|
            invariant children == cleared + Items(data[..i])
            invariant effects == old(effects)
          {
            assert data[..i + 1][..i] == data[..i];
            RenderItem(data[i]);
          }
          assert data[..|data|] == data;
        }
      }
    }

    /** `clear()`: remove every `.account` entry, one by one. */
    method Clear()
      modifies this
      ensures children == Others(old(children))
      ensures effects == old(effects)
    {
      var kept: seq<Child> := [];
      for i := 0 to |children|
        invariant kept == Others(children[..i])
      {
        assert children[..i + 1][..i] == children[..i];
        if children[i].Other? {
          kept := kept + [children[i]];
        }
      }
      assert children[..|children|] == children;
      children := kept;
    }

    /** `renderItem(account)`: append one entry at the end. */
    method RenderItem(account: Account)
      modifies this
      ensures children == old(children) + [AccountItem(account, false)]
      ensures effects == old(effects)
    {
      children := children + [AccountItem(account, false)];
    }

    /** `onSelectAccount(element)` for the entry at index `k`: move the
        `active` marker to it, then list accounts to resolve its name. When
        `User.current()` throws, the marker has moved but nothing is asked
        for. */
    method OnSelectAccount(k: nat, current: Lookup) returns (accountName: string)
      requires k < |children| && children[k].AccountItem?
      modifies this
      ensures accountName == old(children)[k].account.name
      ensures |children| == |old(children)|
      ensures forall j :: 0 <= j < |children| ==>
        children[j].AccountItem? == old(children)[j].AccountItem? &&
        (children[j].AccountItem? ==> children[j].account == old(children)[j].account)
      ensures IsActive(children[k])
      ensures children ==
        (var c := if FirstActive(old(children)).Some? then
                    old(children)[FirstActive(old(children)).value :=
                      AccountItem(old(children)[FirstActive(old(children)).value].account, false)]
                  else old(children);
         c[k := AccountItem(old(children)[k].account, true)])
      ensures forall j :: 0 <= j < |children| && j != k && FirstActive(old(children)) != Some(j) ==>
        children[j] == old(children)[j]
      ensures ActiveCount(old(children)) <= 1 ==>
        ActiveCount(children) == 1 && forall j :: 0 <= j < |children| && j != k ==> !IsActive(children[j])
      ensures ListFilter(current).Some? ==>
        effects == old(effects) + [Request(AccountList(ListFilter(current).value))]
      ensures ListFilter(current).None? ==> effects == old(effects)
    {
      ghost var before := children;
      var active := FirstActive(children);
      if active.Some? {
        children := children[active.value := AccountItem(children[active.value].account, false)];
      }
      children := children[k := AccountItem(children[k].account, true)];
      if ActiveCount(before) <= 1 {
        MarkerMoved(before, k);
      }
      accountName := children[k].account.name;
      var filter := ListFilter(current);
      if filter.Some? {
        effects := effects + [Request(AccountList(filter.value))];
      }
    }

    /** The callback of the selection's `Account.list`: report, or show the
        transactions page for the first account named `accountName`. No
        match (or no `data`) throws before the page is shown. */
    method OnSelectReply(accountName: string, response: Option<Response<seq<Account>>>)
      modifies this
      ensures children == old(children)
      ensures Truthy(ErrorOf(response)) ==> effects == old(effects) + [Report(ErrorOf(response).value)]
      ensures !Truthy(ErrorOf(response)) && BodyOf(response).Some? &&
              FindByName(BodyOf(response).value, accountName).Some? ==>
        var accounts := BodyOf(response).value;
        effects == old(effects) + [ShowPage("transactions", accounts[FindByName(accounts, accountName).value].id)]
      ensures !Truthy(ErrorOf(response)) &&
              (BodyOf(response).None? || FindByName(BodyOf(response).value, accountName).None?) ==>
        effects == old(effects)
    {
      var error := ErrorOf(response);
      if Truthy(error) {
        effects := effects + [Report(error.value)];
      } else if BodyOf(response).Some? {
        var accounts := BodyOf(response).value;
        var found := FindByName(accounts, accountName);
        if found.Some? {
          effects := effects + [ShowPage("transactions", accounts[found.value].id)];
        }
      }
    }
  }

  /** The constructor: a missing element throws (null here), and so does a
      failing `User.current()` in the update it starts; otherwise the widget
      updates itself at once. Registering the click handlers, which comes
      next, is DOM wiring. */
  method NewAccountsWidget(element: Option<Element>, children: seq<Child>, current: Lookup)
    returns (widget: AccountsWidget?)
    ensures widget == null <==> element.None? || current.Unparseable?
    ensures widget != null ==> fresh(widget) && widget.children == children
    ensures widget != null && current.LoggedIn? ==> widget.effects == [Request(AccountList(Some(current.user)))]
    ensures widget != null && current.Anonymous? ==> widget.effects == []
  {
    if element.None? || current.Unparseable? {
      return null;
    }
    widget := new AccountsWidget(element.value, children);
    widget.Update(current);
  }

  /** Two successful updates in a row show exactly the second listing:
      nothing is duplicated and nothing stale survives. */
  method UpdateTwice(widget: AccountsWidget, first: seq<Account>, second: seq<Account>)
    modifies widget
    ensures Accounts(widget.children) == second
    ensures Others(widget.children) == Others(old(widget.children))
    ensures widget.effects == old(widget.effects)
  {
    widget.OnListReply(Some(Response(None, Some(first))));
    widget.OnListReply(Some(Response(None, Some(second))));
    ghost var others := Others(old(widget.children));
    RenderedAfterClear(old(widget.children), first);
    RenderedAfterClear(others + Items(first), second);
  }
}

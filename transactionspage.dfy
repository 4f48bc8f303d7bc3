/** The transactions page (`public/js/ui/pages/TransactionsPage.js`): the
    title and list regions of one account's page, the cached `lastOptions`
    that `update` replays, and the confirmation-gated removals. Each reply
    of the asynchronous calls is delivered to its own `On...` method, with no
    ordering between them. */
module TransactionsPageUi {
  import opened Wrappers
  import opened Requests
  import opened Entities

  /** The routing parameter `{account_id}`. */
  datatype PageOptions = PageOptions(accountId: string)

  const DefaultTitle := "Название счёта"

  class TransactionsPage {
    const element: Element
    var lastOptions: Option<PageOptions>
    var title: string               // the `.content-title` region
    var rows: seq<Transaction>      // the `.content` region, one entry per transaction
    var effects: seq<Effect>

    constructor (element: Element, title: string, rows: seq<Transaction>)
      ensures this.element == element && this.title == title && this.rows == rows
      ensures lastOptions.None? && effects == []
    {
      this.element := element;
      this.title := title;
      this.rows := rows;
      lastOptions := None;
      effects := [];
    }

    /** `render(options)`: with options, cache them and ask for the
        account's name and its transactions, both for the same account. */
    method Render(options: Option<PageOptions>)
      modifies this
      ensures options.None? ==>
        lastOptions == old(lastOptions) && effects == old(effects)
      ensures options.Some? ==>
        lastOptions == options &&
        effects == old(effects) + [Request(AccountGet(options.value.accountId)),
                                   Request(TransactionList(options.value.accountId))]
      ensures title == old(title) && rows == old(rows)
    {
      if options.Some? {
        lastOptions := options;
        effects := effects + [Request(AccountGet(options.value.accountId))];
        effects := effects + [Request(TransactionList(options.value.accountId))];
      }
    }

    /** `update()`: replay `render` with the cached options. */
    method Update()
      modifies this
      ensures lastOptions == old(lastOptions)
      ensures old(lastOptions).None? ==> effects == old(effects)
      ensures old(lastOptions).Some? ==>
        effects == old(effects) + [Request(AccountGet(old(lastOptions).value.accountId)),
                                   Request(TransactionList(old(lastOptions).value.accountId))]
      ensures title == old(title) && rows == old(rows)
    {
      Render(lastOptions);
    }

    /** The callback of `Account.get`: report, or show the account's name.
        A reply without `data` throws before the title changes. */
    method OnAccountReply(response: Option<Response<Account>>)
      modifies this
      ensures Truthy(ErrorOf(response)) ==>
        effects == old(effects) + [Report(ErrorOf(response).value)] && title == old(title)
      ensures !Truthy(ErrorOf(response)) ==>
        effects == old(effects) &&
        title == (if BodyOf(response).Some? then BodyOf(response).value.name else old(title))
      ensures rows == old(rows) && lastOptions == old(lastOptions)
    {
      var error := ErrorOf(response);
      if Truthy(error) {
        effects := effects + [Report(error.value)];
      } else if BodyOf(response).Some? {
        RenderTitle(BodyOf(response).value.name);
      }
    }

    /** The callback of `Transaction.list`: report, or replace the list. */
    method OnTransactionsReply(response: Option<Response<seq<Transaction>>>)
      modifies this
      ensures Truthy(ErrorOf(response)) ==>
        effects == old(effects) + [Report(ErrorOf(response).value)] && rows == old(rows)
      ensures !Truthy(ErrorOf(response)) ==>
        effects == old(effects) &&
        rows == (if BodyOf(response).Some? then BodyOf(response).value else old(rows))
      ensures title == old(title) && lastOptions == old(lastOptions)
    {
      var error := ErrorOf(response);
      if Truthy(error) {
        effects := effects + [Report(error.value)];
      } else if BodyOf(response).Some? {
        RenderTransactions(BodyOf(response).value);
      }
    }

    /** `clear()`: empty list, default title, no cached options. */
    method Clear()
      modifies this
      ensures rows == [] && title == DefaultTitle && lastOptions.None?
      ensures effects == old(effects)
    {
      RenderTransactions([]);
      RenderTitle(DefaultTitle);
      lastOptions := None;
    }

    /** `removeAccount()`, with the answer to the confirmation dialog. The
        dialog is only shown when options are cached. */
    method RemoveAccount(confirmed: bool)
      modifies this
      ensures old(lastOptions).Some? && confirmed ==>
        effects == old(effects) + [Request(AccountRemove(IdData(old(lastOptions).value.accountId)))]
      ensures old(lastOptions).None? || !confirmed ==> effects == old(effects)
      ensures lastOptions == old(lastOptions) && title == old(title) && rows == old(rows)
    {
      if lastOptions.Some? {
        if confirmed {
          effects := effects + [Request(AccountRemove(IdData(lastOptions.value.accountId)))];
        }
      }
    }

    /** The callback of `Account.remove`: report and keep everything, or
        refresh the widgets and then clear the page. */
    method OnAccountRemoved(error: Option<ErrorValue>)
      modifies this
      ensures Truthy(error) ==>
        effects == old(effects) + [Report(error.value)] &&
        lastOptions == old(lastOptions) && title == old(title) && rows == old(rows)
      ensures !Truthy(error) ==>
        effects == old(effects) + [UpdateWidgets] &&
        lastOptions.None? && title == DefaultTitle && rows == []
    {
      if Truthy(error) {
        effects := effects + [Report(error.value)];
      } else {
        effects := effects + [UpdateWidgets];
        Clear();
      }
    }

    /** `removeTransaction(id)`, with the answer to the confirmation dialog. */
    method RemoveTransaction(id: string, confirmed: bool)
      modifies this
      ensures confirmed ==> effects == old(effects) + [Request(TransactionRemove(IdData(id)))]
      ensures !confirmed ==> effects == old(effects)
      ensures lastOptions == old(lastOptions) && title == old(title) && rows == old(rows)
    {
      if confirmed {
        effects := effects + [Request(TransactionRemove(IdData(id)))];
      }
    }

    /** The callback of `Transaction.remove`: report, or refresh the
        accounts widget and then this page. */
    method OnTransactionRemoved(error: Option<ErrorValue>)
      modifies this
      ensures Truthy(error) ==> effects == old(effects) + [Report(error.value)]
      ensures !Truthy(error) && old(lastOptions).None? ==>
        effects == old(effects) + [UpdateWidget("accounts")]
      ensures !Truthy(error) && old(lastOptions).Some? ==>
        effects == old(effects) + [UpdateWidget("accounts"),
                                   Request(AccountGet(old(lastOptions).value.accountId)),
                                   Request(TransactionList(old(lastOptions).value.accountId))]
      ensures lastOptions == old(lastOptions) && title == old(title) && rows == old(rows)
    {
      if Truthy(error) {
        effects := effects + [Report(error.value)];
      } else {
        effects := effects + [UpdateWidget("accounts")];
        Update();
      }
    }

    /** `renderTitle(name)`. */
    method RenderTitle(name: string)
      modifies this
      ensures title == name
      ensures rows == old(rows) && effects == old(effects) && lastOptions == old(lastOptions)
    {
      title := name;
    }

    /** `renderTransactions(data)`: build one entry per item, then empty the
        region and insert them, so nothing rendered before survives. */
    method RenderTransactions(data: seq<Transaction>)
      modifies this
      ensures rows == data
      ensures title == old(title) && effects == old(effects) && lastOptions == old(lastOptions)
    {
      var html: seq<Transaction> := [];
      for i := 0 to |data|
        invariant html == data[..i]
      {
        assert data[..i + 1] == data[..i] + [data[i]];
        html := html + [data[i]];
      }
      assert data[..|data|] == data;
      rows := [];
      rows := rows + html;
    }
  }

  /** The constructor: a missing element throws (null here); otherwise the
      element is kept. Registering the click handlers is DOM wiring. */
  method NewTransactionsPage(element: Option<Element>, title: string, rows: seq<Transaction>)
    returns (page: TransactionsPage?)
    ensures element.None? <==> page == null
    ensures page != null ==>
      fresh(page) && page.element == element.value && page.lastOptions.None? && page.effects == [] &&
      page.title == title && page.rows == rows
  {
    if element.None? {
      return null;
    }
    page := new TransactionsPage(element.value, title, rows);
  }

  /** Once the page is cleared, `update` asks for nothing and changes
      nothing. */
  method ClearThenUpdate(page: TransactionsPage)
    modifies page
    ensures page.lastOptions.None? && page.rows == [] && page.title == DefaultTitle
    ensures page.effects == old(page.effects)
  {
    page.Clear();
    page.Update();
  }

  /** Declining either removal dialog leaves the page's whole state as it
      was. */
  method DeclinedRemovals(page: TransactionsPage, id: string)
    modifies page
    ensures page.lastOptions == old(page.lastOptions) && page.effects == old(page.effects)
    ensures page.title == old(page.title) && page.rows == old(page.rows)
  {
    page.RemoveAccount(false);
    page.RemoveTransaction(id, false);
  }
}

/** The transaction-creation form
    (`public/js/ui/forms/CreateTransactionForm.js`): its account selector,
    filled on construction and replaced on every successful listing, and the
    effects of a submission's callback. Submit interception and field
    serialisation belong to the `AsyncForm` base, which is not part of this
    model: a submission arrives here as its form data. */
module CreateTransactionFormUi {
  import opened Wrappers
  import opened Requests
  import opened Entities
  import opened UserApi

  /** One `<option value="id">name</option>` of the `.accounts-select` box. */
  datatype SelectOption = SelectOption(value: string, text: string)

  /** The options the listing loop accumulates: one per account, in order. */
  method OptionsHtml(accounts: seq<Account>) returns (html: seq<SelectOption>)
    ensures |html| == |accounts|
    ensures forall i :: 0 <= i < |accounts| ==>
      html[i].value == accounts[i].id && html[i].text == accounts[i].name
  {
    html := [];
    for i := 0 to |accounts|
      invariant |html| == i
      invariant forall j :: 0 <= j < i ==>
        html[j].value == accounts[j].id && html[j].text == accounts[j].name
    {
      html := html + [SelectOption(accounts[i].id, accounts[i].name)];
    }
  }

  class CreateTransactionForm {
    const element: Element
    var select: seq<SelectOption>
    var effects: seq<Effect>

    constructor (element: Element, select: seq<SelectOption>)
      ensures this.element == element && this.select == select && effects == []
    {
      this.element := element;
      this.select := select;
      effects := [];
    }

    /** `renderAccountsList()`: list the current user's accounts. When
        `User.current()` throws, nothing is asked for. */
    method RenderAccountsList(current: Lookup)
      modifies this
      ensures ListFilter(current).Some? ==>
        effects == old(effects) + [Request(AccountList(ListFilter(current).value))]
      ensures ListFilter(current).None? ==> effects == old(effects)
      ensures select == old(select)
    {
      var filter := ListFilter(current);
      if filter.Some? {
        effects := effects + [Request(AccountList(filter.value))];
      }
    }

    /** The listing's callback: report and keep the options, or empty the
        box and fill it with one option per account. A reply without `data`
        throws after the box was emptied. */
    method OnAccountsReply(response: Option<Response<seq<Account>>>)
      modifies this
      ensures Truthy(ErrorOf(response)) ==>
        effects == old(effects) + [Report(ErrorOf(response).value)] && select == old(select)
      ensures !Truthy(ErrorOf(response)) ==> effects == old(effects)
      ensures !Truthy(ErrorOf(response)) && BodyOf(response).None? ==> select == []
      ensures !Truthy(ErrorOf(response)) && BodyOf(response).Some? ==>
        var accounts := BodyOf(response).value;
        |select| == |accounts| &&
        forall i :: 0 <= i < |accounts| ==>
          select[i] == SelectOption(accounts[i].id, accounts[i].name)
    {
      var error := ErrorOf(response);
      if Truthy(error) {
        effects := effects + [Report(error.value)];
      } else {
        select := [];
        if BodyOf(response).Some? {
          var html := OptionsHtml(BodyOf(response).value);
          select := select + html;
        }
      }
    }

    /** `onSubmit(data)`: create the transaction from the submitted data. */
    method OnSubmit(data: RequestData)
      modifies this
      ensures effects == old(effects) + [Request(TransactionCreate(data))]
      ensures select == old(select)
    {
      effects := effects + [Request(TransactionCreate(data))];
    }

    /** The creation callback. `modals` are the names `App.getModal`
        resolves; only those of the two transaction modals are closed. */
    method OnCreated(error: Option<ErrorValue>, modals: set<string>)
      modifies this
      ensures Truthy(error) ==> effects == old(effects) + [Report(error.value)]
      ensures !Truthy(error) ==>
        effects == old(effects) + [ResetForm]
                   + (if "newIncome" in modals then [CloseModal("newIncome")] else [])
                   + (if "newExpense" in modals then [CloseModal("newExpense")] else [])
                   + [UpdateWidget("accounts"), UpdatePage("transactions")]
      ensures select == old(select)
    {
      if Truthy(error) {
        effects := effects + [Report(error.value)];
      } else {
        effects := effects + [ResetForm];
        if "newIncome" in modals {
          effects := effects + [CloseModal("newIncome")];
        }
        if "newExpense" in modals {
          effects := effects + [CloseModal("newExpense")];
        }
        effects := effects + [UpdateWidget("accounts")];
        effects := effects + [UpdatePage("transactions")];
      }
    }
  }

  /** The constructor: a missing element throws (null here), and so does a
      failing `User.current()` in the account listing it starts; otherwise
      the listing is asked for at once, before any submission. */
  method NewCreateTransactionForm(element: Option<Element>, select: seq<SelectOption>, current: Lookup)
    returns (form: CreateTransactionForm?)
    ensures form == null <==> element.None? || current.Unparseable?
    ensures form != null ==>
      fresh(form) && form.select == select &&
      form.effects == [Request(AccountList(ListFilter(current).value))]
  {
    if element.None? || current.Unparseable? {
      return null;
    }
    form := new CreateTransactionForm(element.value, select);
    form.RenderAccountsList(current);
  }
}

/** The account-creation form (`public/js/ui/forms/CreateAccountForm.js`). */
module CreateAccountFormUi {
  import opened Wrappers
  import opened Requests
  import opened Entities

  class CreateAccountForm {
    var effects: seq<Effect>

    constructor ()
      ensures effects == []
    {
      effects := [];
    }

    /** `onSubmit(data)`: create the account from the submitted data. */
    method OnSubmit(data: RequestData)
      modifies this
      ensures effects == old(effects) + [Request(AccountCreate(data))]
    {
      effects := effects + [Request(AccountCreate(data))];
    }

    /** The creation callback: exactly one of the two branches runs. */
    method OnCreated(error: Option<ErrorValue>)
      modifies this
      ensures Truthy(error) ==> effects == old(effects) + [Report(error.value)]
      ensures !Truthy(error) ==>
        effects == old(effects) + [ResetForm, CloseModal("createAccount"), UpdateWidget("accounts"), UpdateForms]
    {
      if Truthy(error) {
        effects := effects + [Report(error.value)];
      } else {
        effects := effects + [ResetForm];
        effects := effects + [CloseModal("createAccount")];
        effects := effects + [UpdateWidget("accounts")];
        effects := effects + [UpdateForms];
      }
    }
  }
}

/** The registration form (`public/js/ui/forms/RegisterForm.js`). */
module RegisterFormUi {
  import opened Wrappers
  import opened Requests
  import opened Entities

  class RegisterForm {
    var effects: seq<Effect>

    constructor ()
      ensures effects == []
    {
      effects := [];
    }

    /** `onSubmit(data)`: register with the submitted data. */
    method OnSubmit(data: RequestData)
      modifies this
      ensures effects == old(effects) + [Request(UserRegister(data))]
    {
      effects := effects + [Request(UserRegister(data))];
    }

    /** The registration callback: report only, or reset, close the modal
        and enter the logged-in state. */
    method OnRegistered(error: Option<ErrorValue>)
      modifies this
      ensures Truthy(error) ==> effects == old(effects) + [Report(error.value)]
      ensures !Truthy(error) ==>
        effects == old(effects) + [ResetForm, CloseModal("register"), SetState("user-logged")]
    {
      if Truthy(error) {
        effects := effects + [Report(error.value)];
      } else {
        effects := effects + [ResetForm];
        effects := effects + [CloseModal("register")];
        effects := effects + [SetState("user-logged")];
      }
    }
  }
}

/** The records the server hands out and the vocabulary of observable
    effects the view components produce. Collaborators that are not part of
    the model (the `App` registry, `Entity`-based `Account.list`/`create`/
    `remove`, `Transaction`, the `AsyncForm` base) appear only as the calls
    recorded here. */
module Entities {
  import opened Wrappers
  import opened Requests

  /** A server-defined user record (`{id, name, email, ...}`), kept as its
      own entries so that it can be sent back as form data. */
  datatype User = User(fields: seq<Entry>)

  datatype Account = Account(id: string, name: string, sum: int)

  datatype Transaction = Transaction(id: string, kind: string, name: string, sum: int, createdAt: string)

  /** A DOM element handed to a component's constructor. */
  datatype Element = Element(selector: string)

  /** A call into a resource client, with the arguments it was given. */
  datatype Call =
    | AccountGet(id: string)
    | AccountList(filter: Option<User>)
    | AccountCreate(data: RequestData)
    | AccountRemove(data: RequestData)
    | TransactionList(accountId: string)
    | TransactionCreate(data: RequestData)
    | TransactionRemove(data: RequestData)
    | UserRegister(data: RequestData)
    | UserLogout(data: RequestData)

  /** One observable effect of a component, in the order it happens. */
  datatype Effect =
    | Request(call: Call)
    | Report(error: ErrorValue)             // handleError(error)
    | ResetForm                             // this.element.reset()
    | OpenModal(modal: string)              // App.getModal(name).open()
    | CloseModal(modal: string)             // App.getModal(name).close()
    | UpdateWidget(widget: string)          // App.getWidget(name).update()
    | UpdatePage(page: string)              // App.getPage(name).update()
    | UpdateWidgets                         // App.updateWidgets()
    | UpdateForms                           // App.updateForms()
    | SetState(state: string)               // App.setState(state)
    | ShowPage(page: string, accountId: string)  // App.showPage(name, {account_id})

  /** The form data `{id}` that the removal operations send. */
  function IdData(id: string): (d: RequestData)
    ensures d.Fields? && |d.entries| == 1 && d.entries[0] == ("id", id)
  {
    Fields([("id", id)])
  }
}

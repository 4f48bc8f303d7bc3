/** End-to-end sequences across components: the identity operation writes
    the session slot, then invokes its caller's callback with the argument
    recorded in the store's log. Each flow also returns one timeline that
    interleaves the store's steps and the component's effects in the order
    the calls happened, so a contract can say which came first. */
module Flows {
  import opened Wrappers
  import opened Requests
  import opened Entities
  import opened UserApi
  import opened RegisterFormUi
  import opened SidebarUi

  /** One entry of a cross-component timeline: a step of the session store
      or an effect of a view component. */
  datatype Event = Session(step: Step) | Ui(effect: Effect)

  /** The store steps `steps` as timeline entries, in order. */
  function Sessions(steps: seq<Step>): (r: seq<Event>)
    ensures |r| == |steps|
    ensures forall i :: 0 <= i < |r| ==> r[i] == Session(steps[i])
  {
    if steps == [] then [] else Sessions(steps[..|steps| - 1]) + [Session(steps[|steps| - 1])]
  }

  /** The component effects `effects` as timeline entries, in order. */
  function Uis(effects: seq<Effect>): (r: seq<Event>)
    ensures |r| == |effects|
    ensures forall i :: 0 <= i < |r| ==> r[i] == Ui(effects[i])
  {
    if effects == [] then [] else Uis(effects[..|effects| - 1]) + [Ui(effects[|effects| - 1])]
  }

  /** A registration reply reaches `User.register`'s callback, which then
      calls the form's callback. `timeline` records what the store and the
      form did, in the order they did it: on success the slot is written
      before the form resets, closes and enters the logged-in state (with an
      unreadable slot when the reply carries no user); a `null` reply throws
      before anything happens. */
  method RegisterReplyArrives(store: UserStore, form: RegisterForm, response: Option<Response<User>>)
    returns (timeline: seq<Event>)
    modifies store, form
    ensures Truthy(ErrorOf(response)) ==>
      store.slot == old(store.slot) &&
      store.log == old(store.log) + [CalledBack(ErrorOf(response))] &&
      form.effects == old(form.effects) + [Report(ErrorOf(response).value)] &&
      timeline == [Session(CalledBack(ErrorOf(response))), Ui(Report(ErrorOf(response).value))]
    ensures !Truthy(ErrorOf(response)) && BodyOf(response).Some? ==>
      store.Current() == LoggedIn(BodyOf(response).value)
    ensures !Truthy(ErrorOf(response)) && response.Some? ==>
      var written := if BodyOf(response).Some? then Stored(BodyOf(response).value) else Unreadable;
      store.slot == written &&
      store.log == old(store.log) + [Wrote(written), CalledBack(None)] &&
      form.effects == old(form.effects) + [ResetForm, CloseModal("register"), SetState("user-logged")] &&
      timeline == [Session(Wrote(written)), Session(CalledBack(None)),
                   Ui(ResetForm), Ui(CloseModal("register")), Ui(SetState("user-logged"))]
    ensures !Truthy(ErrorOf(response)) && response.None? ==>
      store.slot == old(store.slot) && store.log == old(store.log) &&
      form.effects == old(form.effects) && timeline == []
  {
    var logged := |store.log|;
    store.OnRegisterReply(response);
    timeline := Sessions(store.log[logged..]);
    if |store.log| > logged && store.log[|store.log| - 1].CalledBack? {
      var shown := |form.effects|;
      form.OnRegistered(store.log[|store.log| - 1].error);
      timeline := timeline + Uis(form.effects[shown..]);
    }
  }

  /** A logout reply reaches `User.logout`'s callback, which then calls the
      sidebar's. `timeline` records that on success the slot is emptied
      before the state becomes `init`; on error the slot is kept and the
      sidebar only reports. */
  method LogoutReplyArrives(store: UserStore, sidebar: Sidebar, error: Option<ErrorValue>)
    returns (timeline: seq<Event>)
    modifies store, sidebar
    ensures Truthy(error) ==>
      store.slot == old(store.slot) &&
      store.log == old(store.log) + [CalledBack(error)] &&
      sidebar.effects == old(sidebar.effects) + [Report(error.value)] &&
      timeline == [Session(CalledBack(error)), Ui(Report(error.value))]
    ensures !Truthy(error) ==>
      store.Current() == Anonymous &&
      store.log == old(store.log) + [Wrote(Vacant), CalledBack(None)] &&
      sidebar.effects == old(sidebar.effects) + [SetState("init")] &&
      timeline == [Session(Wrote(Vacant)), Session(CalledBack(None)), Ui(SetState("init"))]
  {
    var logged := |store.log|;
    store.OnLogoutReply(error);
    timeline := Sessions(store.log[logged..]);
    var shown := |sidebar.effects|;
    sidebar.OnLoggedOut(store.log[|store.log| - 1].error);
    timeline := timeline + Uis(sidebar.effects[shown..]);
  }
}

// The list behind the watch's phone-battery settings screen: a title row,
// then one row chosen by the view model's state.
module PhoneBatteryConfigurationAdapter {
  import opened Base
  import opened PhoneBatteryConfigurationViewModel

  const ViewTypeTitle: int := 0
  const ViewTypeConnecting: int := 1
  const ViewTypeConnected: int := 2
  const ViewTypeError: int := 3
  const ViewTypeSyncing: int := 4

  /** `getItemViewType`: the title first, then the row the state calls for (none yet reads as connecting). */
  function ItemViewType(state: Option<State>, position: int): (t: int)
    ensures position == 0 ==> t == ViewTypeTitle
    ensures position != 0 ==> ViewTypeConnecting <= t <= ViewTypeSyncing
    ensures position != 0 ==>
      (t == ViewTypeError <==> state.Some? && (state.value.Error? || state.value.PhoneNotFound?))
      && (t == ViewTypeConnecting <==> state.None? || state.value.Loading?)
      && (t == ViewTypeConnected <==> state.Some? && state.value.PhoneStatusResponse?)
      && (t == ViewTypeSyncing <==> state.Some? && (state.value.PhoneFound? || state.value.SendingStatusSyncToPhone?
                                                    || state.value.WaitingForPhoneStatusResponse?))
  {
    if position == 0 then ViewTypeTitle
    else match state
      case None => ViewTypeConnecting
      case Some(Error(_, _)) => ViewTypeError
      case Some(Loading) => ViewTypeConnecting
      case Some(PhoneFound(_)) => ViewTypeSyncing
      case Some(PhoneNotFound(_)) => ViewTypeError
      case Some(PhoneStatusResponse(_, _)) => ViewTypeConnected
      case Some(SendingStatusSyncToPhone(_, _)) => ViewTypeSyncing
      case Some(WaitingForPhoneStatusResponse(_)) => ViewTypeSyncing
  }

  /** The view holders `onCreateViewHolder` builds. */
  datatype Holder = TitleHolder | ConnectingHolder | ConnectedHolder | ErrorHolder | SyncingHolder

  datatype UnknownViewType = UnknownViewType(viewType: int)

  /** `onCreateViewHolder`: one holder per view type; any other type throws. */
  function CreateViewHolder(viewType: int): (r: Result<Holder, UnknownViewType>)
    ensures r.Err? <==> !(ViewTypeTitle <= viewType <= ViewTypeSyncing)
    ensures r.Err? ==> r.error == UnknownViewType(viewType)
  {
    if viewType == ViewTypeTitle then Ok(TitleHolder)
    else if viewType == ViewTypeConnecting then Ok(ConnectingHolder)
    else if viewType == ViewTypeConnected then Ok(ConnectedHolder)
    else if viewType == ViewTypeError then Ok(ErrorHolder)
    else if viewType == ViewTypeSyncing then Ok(SyncingHolder)
    else Err(UnknownViewType(viewType))
  }

  /** Whether the force-deactivate button shows: only on an error or not-found screen whose sync is on. */
  function CanDeactivateSync(state: Option<State>): (b: bool)
    ensures b <==> state.Some? && (state.value.Error? || state.value.PhoneNotFound?) && state.value.syncActivated
  {
    match state
    case Some(Error(_, syncActivated)) => syncActivated
    case Some(PhoneNotFound(syncActivated)) => syncActivated
    case _ => false
  }

  /** What `onBindViewHolder` sets on a holder. */
  datatype Binding = NoBinding | SwitchBinding(syncActivated: bool) | ErrorBinding(deactivateVisible: bool)

  /** `onBindViewHolder`: the connected row shows the state's answer, and only in `PhoneStatusResponse`. */
  function Bind(holder: Holder, state: Option<State>): (b: Binding)
    ensures b.SwitchBinding? <==> holder == ConnectedHolder && state.Some? && state.value.PhoneStatusResponse?
    ensures b.SwitchBinding? ==> b.syncActivated == state.value.syncActivated
    ensures b.ErrorBinding? <==> holder == ErrorHolder
    ensures b.ErrorBinding? ==> b.deactivateVisible == CanDeactivateSync(state)
  {
    match holder
    case ConnectedHolder =>
      if state.Some? && state.value.PhoneStatusResponse? then SwitchBinding(state.value.syncActivated) else NoBinding
    case ErrorHolder => ErrorBinding(CanDeactivateSync(state))
    case _ => NoBinding
  }

  /**
   * The row a state produces binds consistently: the connected row always
   * finds its answer, and the force-deactivate button only ever shows on the
   * error row.
   */
  lemma RowForStateBinds(state: State)
    ensures var h := CreateViewHolder(ItemViewType(Some(state), 1));
      h.Ok?
      && (h.value == ConnectedHolder ==> Bind(h.value, Some(state)) == SwitchBinding(state.syncActivated))
      && (CanDeactivateSync(Some(state)) ==> h.value == ErrorHolder)
  {
  }

  /**
   * While the view model keeps its error screens in step with the stored
   * flag, the button shows exactly when the error row is up and sync is
   * stored as on; after a force-deactivation it is gone.
   */
  lemma DeactivateButtonFollowsStoredFlag(v: VmState)
    requires ShowsStoredFlag(v)
    ensures CanDeactivateSync(Some(v.state)) <==>
              ItemViewType(Some(v.state), 1) == ViewTypeError && v.shouldShowPhoneBattery
    ensures !CanDeactivateSync(Some(AfterForceDeactivate(v).state))
  {
  }

  class Adapter {
    var state: Option<State>

    constructor ()
      ensures state == None
    {
      state := None;
    }

    method SetState(state: State)
      modifies this
      ensures this.state == Some(state)
    {
      this.state := Some(state);
    }

    /** `getItemCount`: the title alone until a state arrives, then the title and one row. */
    function ItemCount(): (n: int)
      reads this
      ensures n == 1 || n == 2
      ensures n == 2 <==> state.Some?
    {
      if state.Some? then 2 else 1
    }
  }
}

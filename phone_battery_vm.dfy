// The watch's phone-battery settings screen: a seven-state machine driven by
// node discovery, the phone's `syncActivated` answers, the results of the
// messages the screen sends, 5-second timeouts and the user's buttons.
//
// Coroutines are modelled by their continuations: a launched block runs up
// to its first suspension when launched; the rest runs when its event
// arrives.  The status query job (`syncStatusQueryJob`) is a field and
// cancelling it drops its pending continuation; the activate/deactivate
// jobs are not stored by the source and are never cancelled, so they are
// kept as a list of pending jobs.  Each 5-second delay is an explicit
// timeout event for the job that scheduled it, which carries the node that
// job captured.  The watch storage's `shouldShowPhoneBattery` is a boolean
// cell.
module PhoneBatteryConfigurationViewModel {
  import opened Base
  import opened SyncImpl
  import WatchMessageReceiver

  const DataKeySyncActivated: string := "/batterySync/syncActivated"
  const QuerySyncStatusPath: string := "/batterySync/queryStatus"
  const QueryActivatedSyncPath: string := "/batterySync/activate"
  const QueryDeactivatedSyncPath: string := "/batterySync/deactivate"

  /** The watch and phone sides name the same message paths. */
  lemma PathsAgreeWithPhone()
    ensures DataKeySyncActivated == SyncActivatedPath
    ensures QuerySyncStatusPath == WatchMessageReceiver.QuerySyncStatusPath
    ensures QueryActivatedSyncPath == WatchMessageReceiver.QueryActivatedSyncPath
    ensures QueryDeactivatedSyncPath == WatchMessageReceiver.QueryDeactivatedSyncPath
  {
  }

  datatype ErrorType = UnableToSendSyncQueryMessage | NoResponseFromPhone

  datatype State =
    | Loading
    | PhoneNotFound(syncActivated: bool)
    | PhoneFound(node: Node)
    | WaitingForPhoneStatusResponse(node: Node)
    | PhoneStatusResponse(node: Node, syncActivated: bool)
    | SendingStatusSyncToPhone(node: Node, activating: bool)
    | Error(errorType: ErrorType, syncActivated: bool)

  /** Where the status query job is suspended: on its send, or on its 5-second delay. */
  datatype QueryJob = NoQuery | QuerySending(node: Node) | QueryWaiting(node: Node)

  /** Where an activate/deactivate job is suspended. */
  datatype ToggleJob = ToggleSending(node: Node) | ToggleWaiting(node: Node)

  /**
   * The view model as a value: its state, its jobs, the stored flag, how
   * many `PHONE_CHANGED` and retry events it emitted, and the messages it
   * handed to the message client (a null payload is empty).
   */
  datatype VmState = VmState(
    state: State,
    queryJob: QueryJob,
    toggleJobs: seq<ToggleJob>,
    initTimeoutPending: bool,
    shouldShowPhoneBattery: bool,
    phoneChangedEvents: nat,
    retryEvents: nat,
    sent: seq<Message>)

  /** A new view model: `Loading`, with the initial 5-second timeout pending. */
  function Initial(shouldShowPhoneBattery: bool): VmState {
    VmState(Loading, NoQuery, [], true, shouldShowPhoneBattery, 0, 0, [])
  }

  function Without<T>(s: seq<T>, k: nat): (r: seq<T>)
    requires k < |s|
    ensures |r| == |s| - 1
  {
    s[..k] + s[k + 1..]
  }

  /** The error state the source builds, with the stored flag read at that moment. */
  function ErrorWithFlag(v: VmState, t: ErrorType): State {
    State.Error(t, v.shouldShowPhoneBattery)
  }

  /** The initial timeout: only a screen still `Loading` becomes `PhoneNotFound`. */
  function AfterInitTimeout(v: VmState): (r: VmState)
    ensures !v.initTimeoutPending ==> r == v
    ensures v.initTimeoutPending && v.state == Loading ==> r.state == PhoneNotFound(v.shouldShowPhoneBattery)
    ensures v.state != Loading ==> r.state == v.state
    ensures r.(initTimeoutPending := v.initTimeoutPending, state := v.state) == v
  {
    if !v.initTimeoutPending then v
    else v.(initTimeoutPending := false,
            state := if v.state == Loading then PhoneNotFound(v.shouldShowPhoneBattery) else v.state)
  }

  /**
   * `onMessageReceived`: a `syncActivated` message matters only while
   * waiting for the phone; its first byte being 1 means activated, and the
   * answer is both shown and stored.  An empty payload is an error showing
   * the stored flag.
   */
  function AfterMessage(v: VmState, path: string, data: seq<int>): (r: VmState)
    ensures r != v ==> path == DataKeySyncActivated && v.state.WaitingForPhoneStatusResponse?
    ensures path == DataKeySyncActivated && v.state.WaitingForPhoneStatusResponse? && |data| > 0 ==>
              r == v.(state := PhoneStatusResponse(v.state.node, data[0] == 1), shouldShowPhoneBattery := data[0] == 1)
    ensures path == DataKeySyncActivated && v.state.WaitingForPhoneStatusResponse? && |data| == 0 ==>
              r == v.(state := State.Error(NoResponseFromPhone, v.shouldShowPhoneBattery))
  {
    if path != DataKeySyncActivated then v
    else match v.state
      case WaitingForPhoneStatusResponse(node) =>
        if |data| == 0 then v.(state := ErrorWithFlag(v, NoResponseFromPhone))
        else
          var syncActivated := data[0] == 1;
          v.(state := PhoneStatusResponse(node, syncActivated), shouldShowPhoneBattery := syncActivated)
      case _ => v
  }

  /**
   * `checkPhoneStatus`: the previous query job is cancelled and a new one
   * sends the stored flag as one byte to the node.
   */
  function StatusChecked(v: VmState, node: Node): (r: VmState)
    ensures r.queryJob == QuerySending(node)
    ensures r.sent == v.sent + [Message(node.id, QuerySyncStatusPath, [FlagByte(v.shouldShowPhoneBattery)])]
    ensures r.(queryJob := v.queryJob, sent := v.sent) == v
  {
    v.(queryJob := QuerySending(node),
       sent := v.sent + [Message(node.id, QuerySyncStatusPath, [FlagByte(v.shouldShowPhoneBattery)])])
  }

  /** The states in which a found node is taken: searching, failed, or showing another node. */
  predicate Takes(state: State, node: Node) {
    state.Loading? || state.PhoneNotFound? || state.Error? || (state.PhoneFound? && state.node != node)
  }

  /**
   * `onPhoneNodeFound`: from `Loading`, `PhoneNotFound` or `Error` the node
   * is taken and queried; from `PhoneFound` a different node is taken and
   * queried with one `PHONE_CHANGED` event; anything else is left alone.
   */
  function AfterNodeFound(v: VmState, node: Node): (r: VmState)
    ensures r.phoneChangedEvents == v.phoneChangedEvents + (if v.state.PhoneFound? && v.state.node != node then 1 else 0)
    ensures Takes(v.state, node) ==> r.state == PhoneFound(node) && r.queryJob == QuerySending(node)
    ensures !Takes(v.state, node) ==> r == v
  {
    match v.state
    case Loading => StatusChecked(v.(state := PhoneFound(node)), node)
    case PhoneNotFound(_) => StatusChecked(v.(state := PhoneFound(node)), node)
    case Error(_, _) => StatusChecked(v.(state := PhoneFound(node)), node)
    case PhoneFound(current) =>
      if current != node then
        StatusChecked(v.(state := PhoneFound(node), phoneChangedEvents := v.phoneChangedEvents + 1), node)
      else v
    case _ => v
  }

  /** `onPhoneAppDetectionResult` and `onCapabilityChanged`: the best node, if any, is found. */
  function AfterNodesDetected(v: VmState, nodes: seq<Node>): (r: VmState)
    ensures |nodes| == 0 ==> r == v
  {
    match FindBestNode(nodes)
    case None => v
    case Some(node) => AfterNodeFound(v, node)
  }

  /** `onPhoneAppDetectionFailed`. */
  function AfterDetectionFailed(v: VmState): VmState {
    v.(state := PhoneNotFound(v.shouldShowPhoneBattery))
  }

  /** The query job's send completes: waiting on success, an error showing the stored flag otherwise. */
  function AfterQuerySent(v: VmState, ok: bool): (r: VmState)
    ensures !v.queryJob.QuerySending? ==> r == v
    ensures v.queryJob.QuerySending? && ok ==>
              r.state == WaitingForPhoneStatusResponse(v.queryJob.node) && r.queryJob == QueryWaiting(v.queryJob.node)
    ensures v.queryJob.QuerySending? && !ok ==>
              r.state == State.Error(UnableToSendSyncQueryMessage, v.shouldShowPhoneBattery) && r.queryJob == NoQuery
  {
    match v.queryJob
    case QuerySending(node) =>
      if ok then v.(state := WaitingForPhoneStatusResponse(node), queryJob := QueryWaiting(node))
      else v.(state := ErrorWithFlag(v, UnableToSendSyncQueryMessage), queryJob := NoQuery)
    case _ => v
  }

  /** A timeout ends waiting only when the screen still waits on the node (by id) that scheduled it. */
  function TimedOut(v: VmState, node: Node): (r: State)
    ensures r != v.state <==> v.state.WaitingForPhoneStatusResponse? && v.state.node.id == node.id
    ensures r != v.state ==> r == State.Error(NoResponseFromPhone, v.shouldShowPhoneBattery)
  {
    if v.state.WaitingForPhoneStatusResponse? && v.state.node.id == node.id then ErrorWithFlag(v, NoResponseFromPhone)
    else v.state
  }

  /** The query job's 5-second delay ends. */
  function AfterQueryTimeout(v: VmState): (r: VmState)
    ensures !v.queryJob.QueryWaiting? ==> r == v
    ensures v.queryJob.QueryWaiting? ==> r == v.(state := TimedOut(v, v.queryJob.node), queryJob := NoQuery)
  {
    match v.queryJob
    case QueryWaiting(node) => v.(state := TimedOut(v, node), queryJob := NoQuery)
    case _ => v
  }

  /**
   * `onSyncWithPhoneActivated` / `onSyncWithPhoneDeactivated`: only from
   * `PhoneStatusResponse`; a new job shows the sending state and sends the
   * (de)activation request to the node.
   */
  function AfterToggleRequested(v: VmState, activating: bool): (r: VmState)
    ensures !v.state.PhoneStatusResponse? ==> r == v
    ensures v.state.PhoneStatusResponse? ==>
              r.state == SendingStatusSyncToPhone(v.state.node, activating)
              && r.toggleJobs == v.toggleJobs + [ToggleSending(v.state.node)]
              && r.sent == v.sent + [Message(v.state.node.id, if activating then QueryActivatedSyncPath else QueryDeactivatedSyncPath, [])]
              && r.shouldShowPhoneBattery == v.shouldShowPhoneBattery && r.queryJob == v.queryJob
  {
    match v.state
    case PhoneStatusResponse(node, _) =>
      v.(state := SendingStatusSyncToPhone(node, activating),
         toggleJobs := v.toggleJobs + [ToggleSending(node)],
         sent := v.sent + [Message(node.id, if activating then QueryActivatedSyncPath else QueryDeactivatedSyncPath, [])])
    case _ => v
  }

  /** The send of toggle job `k` completes. */
  function AfterToggleSent(v: VmState, k: nat, ok: bool): (r: VmState)
    ensures !(k < |v.toggleJobs| && v.toggleJobs[k].ToggleSending?) ==> r == v
    ensures k < |v.toggleJobs| && v.toggleJobs[k].ToggleSending? && ok ==>
              r.state == WaitingForPhoneStatusResponse(v.toggleJobs[k].node)
    ensures k < |v.toggleJobs| && v.toggleJobs[k].ToggleSending? && !ok ==>
              r.state == State.Error(UnableToSendSyncQueryMessage, v.shouldShowPhoneBattery) && |r.toggleJobs| == |v.toggleJobs| - 1
  {
    if k < |v.toggleJobs| && v.toggleJobs[k].ToggleSending? then
      var node := v.toggleJobs[k].node;
      if ok then v.(state := WaitingForPhoneStatusResponse(node), toggleJobs := v.toggleJobs[k := ToggleWaiting(node)])
      else v.(state := ErrorWithFlag(v, UnableToSendSyncQueryMessage), toggleJobs := Without(v.toggleJobs, k))
    else v
  }

  /** The 5-second delay of toggle job `k` ends. */
  function AfterToggleTimeout(v: VmState, k: nat): (r: VmState)
    ensures !(k < |v.toggleJobs| && v.toggleJobs[k].ToggleWaiting?) ==> r == v
    ensures k < |v.toggleJobs| && v.toggleJobs[k].ToggleWaiting? ==>
              r == v.(state := TimedOut(v, v.toggleJobs[k].node), toggleJobs := Without(v.toggleJobs, k))
  {
    if k < |v.toggleJobs| && v.toggleJobs[k].ToggleWaiting? then
      v.(state := TimedOut(v, v.toggleJobs[k].node), toggleJobs := Without(v.toggleJobs, k))
    else v
  }

  /**
   * `onForceDeactivateSyncClicked`: the stored flag becomes false, and the
   * two screens that show it (`Error`, `PhoneNotFound`) follow; every other
   * state is kept.
   */
  function AfterForceDeactivate(v: VmState): (r: VmState)
    ensures !r.shouldShowPhoneBattery
    ensures v.state.Error? ==> r.state == State.Error(v.state.errorType, false)
    ensures v.state.PhoneNotFound? ==> r.state == PhoneNotFound(false)
    ensures !v.state.Error? && !v.state.PhoneNotFound? ==> r.state == v.state
    ensures r.(state := v.state, shouldShowPhoneBattery := v.shouldShowPhoneBattery) == v
  {
    var state := match v.state
      case Error(t, _) => State.Error(t, false)
      case PhoneNotFound(_) => PhoneNotFound(false)
      case s => s;
    v.(shouldShowPhoneBattery := false, state := state)
  }

  /** `onRetryConnectionClicked`: back to `Loading`, with one retry event. */
  function AfterRetry(v: VmState): VmState {
    v.(state := Loading, retryEvents := v.retryEvents + 1)
  }

  /** `onCleared`, after the framework has cancelled the view model's scope: no job is left. */
  function AfterCleared(v: VmState): VmState {
    v.(queryJob := NoQuery, toggleJobs := [], initTimeoutPending := false)
  }

  /** Everything that can happen to the view model. */
  datatype VmEvent =
    | InitTimeout
    | MessageReceived(path: string, data: seq<int>)
    | NodesDetected(nodes: seq<Node>)
    | DetectionFailed
    | QuerySent(ok: bool)
    | QueryTimeout
    | ToggleRequested(activating: bool)
    | ToggleSent(k: nat, ok: bool)
    | ToggleTimeout(k: nat)
    | ForceDeactivate
    | Retry
    | Cleared

  function Step(v: VmState, e: VmEvent): VmState {
    match e
    case InitTimeout => AfterInitTimeout(v)
    case MessageReceived(path, data) => AfterMessage(v, path, data)
    case NodesDetected(nodes) => AfterNodesDetected(v, nodes)
    case DetectionFailed => AfterDetectionFailed(v)
    case QuerySent(ok) => AfterQuerySent(v, ok)
    case QueryTimeout => AfterQueryTimeout(v)
    case ToggleRequested(activating) => AfterToggleRequested(v, activating)
    case ToggleSent(k, ok) => AfterToggleSent(v, k, ok)
    case ToggleTimeout(k) => AfterToggleTimeout(v, k)
    case ForceDeactivate => AfterForceDeactivate(v)
    case Retry => AfterRetry(v)
    case Cleared => AfterCleared(v)
  }

  function Run(v: VmState, events: seq<VmEvent>): VmState
    decreases |events|
  {
    if |events| == 0 then v else Run(Step(v, events[0]), events[1..])
  }

  /**
   * The two screens that carry a `syncActivated` of their own (the error
   * and not-found screens, where the force-deactivate button depends on
   * it) show the stored flag.
   */
  predicate ShowsStoredFlag(v: VmState) {
    (v.state.Error? || v.state.PhoneNotFound?) ==> v.state.syncActivated == v.shouldShowPhoneBattery
  }

  lemma StepShowsStoredFlag(v: VmState, e: VmEvent)
    requires ShowsStoredFlag(v)
    ensures ShowsStoredFlag(Step(v, e))
  {
    match e
    case NodesDetected(nodes) =>
      if FindBestNode(nodes).Some? {
        var node := FindBestNode(nodes).value;
        assert AfterNodeFound(v, node).shouldShowPhoneBattery == v.shouldShowPhoneBattery;
      }
    case _ =>
  }

  /** Whatever happens, the error and not-found screens never show a stale flag. */
  lemma {:induction false} RunShowsStoredFlag(v: VmState, events: seq<VmEvent>)
    requires ShowsStoredFlag(v)
    ensures ShowsStoredFlag(Run(v, events))
    decreases |events|
  {
    if |events| > 0 {
      StepShowsStoredFlag(v, events[0]);
      RunShowsStoredFlag(Step(v, events[0]), events[1..]);
    }
  }

  /**
   * A status query that the phone answers in time ends on
   * `PhoneStatusResponse` with the answer stored, and its later timeout
   * changes nothing.
   */
  lemma AnsweredQueryIsNotTimedOut(v: VmState, node: Node, answer: int)
    requires v.state.Loading?
    ensures var s1 := AfterQuerySent(AfterNodeFound(v, node), true);
            var s2 := AfterMessage(s1, DataKeySyncActivated, [answer]);
            var s3 := AfterQueryTimeout(s2);
      s2.state == PhoneStatusResponse(node, answer == 1) && s2.shouldShowPhoneBattery == (answer == 1)
      && s3.state == s2.state && s3.queryJob == NoQuery
  {
  }

  class ViewModel {
    var state: State
    var queryJob: QueryJob
    var toggleJobs: seq<ToggleJob>
    var initTimeoutPending: bool
    var shouldShowPhoneBattery: bool
    var phoneChangedEvents: nat
    var retryEvents: nat
    var sent: seq<Message>

    function Snapshot(): VmState
      reads this
    {
      VmState(state, queryJob, toggleJobs, initTimeoutPending, shouldShowPhoneBattery, phoneChangedEvents, retryEvents, sent)
    }

    constructor (shouldShowPhoneBattery: bool)
      ensures Snapshot() == Initial(shouldShowPhoneBattery)
    {
      state := Loading;
      queryJob := NoQuery;
      toggleJobs := [];
      initTimeoutPending := true;
      this.shouldShowPhoneBattery := shouldShowPhoneBattery;
      phoneChangedEvents := 0;
      retryEvents := 0;
      sent := [];
    }

    /** The continuation of the `init` block's delay. */
    method OnInitTimeout()
      modifies this
      ensures Snapshot() == AfterInitTimeout(old(Snapshot()))
    {
      if !initTimeoutPending {
        return;
      }
      initTimeoutPending := false;
      if state == Loading {
        state := PhoneNotFound(shouldShowPhoneBattery);
      }
    }

    method OnMessageReceived(path: string, data: seq<int>)
      modifies this
      ensures Snapshot() == AfterMessage(old(Snapshot()), path, data)
    {
      if path == DataKeySyncActivated {
        var currentState := state;
        if currentState.WaitingForPhoneStatusResponse? {
          if |data| == 0 {
            state := State.Error(NoResponseFromPhone, shouldShowPhoneBattery);
            return;
          }
          var syncActivated := data[0] == 1;
          state := PhoneStatusResponse(currentState.node, syncActivated);
          shouldShowPhoneBattery := syncActivated;
        }
      }
    }

    method CheckPhoneStatus(phoneNode: Node)
      modifies this
      ensures Snapshot() == StatusChecked(old(Snapshot()), phoneNode)
    {
      queryJob := QuerySending(phoneNode);
      sent := sent + [Message(phoneNode.id, QuerySyncStatusPath, [if shouldShowPhoneBattery then 1 else 0])];
    }

    method OnPhoneNodeFound(node: Node)
      modifies this
      ensures Snapshot() == AfterNodeFound(old(Snapshot()), node)
    {
      match state {
        case Loading =>
          state := PhoneFound(node);
          CheckPhoneStatus(node);
        case PhoneNotFound(_) =>
          state := PhoneFound(node);
          CheckPhoneStatus(node);
        case Error(_, _) =>
          state := PhoneFound(node);
          CheckPhoneStatus(node);
        case PhoneFound(current) =>
          if current != node {
            phoneChangedEvents := phoneChangedEvents + 1;
            state := PhoneFound(node);
            CheckPhoneStatus(node);
          }
        case _ =>
      }
    }

    /** `onCapabilityChanged` (given the capability's nodes) and `onPhoneAppDetectionResult`. */
    method OnPhoneAppDetectionResult(nodes: seq<Node>)
      modifies this
      ensures Snapshot() == AfterNodesDetected(old(Snapshot()), nodes)
    {
      var best := FindBestNode(nodes);
      if best.Some? {
        OnPhoneNodeFound(best.value);
      }
    }

    method OnPhoneAppDetectionFailed()
      modifies this
      ensures Snapshot() == AfterDetectionFailed(old(Snapshot()))
    {
      state := PhoneNotFound(shouldShowPhoneBattery);
    }

    /** The status query job resumes after its send. */
    method OnQuerySendResult(ok: bool)
      modifies this
      ensures Snapshot() == AfterQuerySent(old(Snapshot()), ok)
    {
      if queryJob.QuerySending? {
        var node := queryJob.node;
        if ok {
          state := WaitingForPhoneStatusResponse(node);
          queryJob := QueryWaiting(node);
        } else {
          state := State.Error(UnableToSendSyncQueryMessage, shouldShowPhoneBattery);
          queryJob := NoQuery;
        }
      }
    }

    /** The status query job resumes after its delay. */
    method OnQueryTimeout()
      modifies this
      ensures Snapshot() == AfterQueryTimeout(old(Snapshot()))
    {
      if queryJob.QueryWaiting? {
        var phoneNode := queryJob.node;
        var currentState := state;
        if currentState.WaitingForPhoneStatusResponse? && phoneNode.id == currentState.node.id {
          state := State.Error(NoResponseFromPhone, shouldShowPhoneBattery);
        }
        queryJob := NoQuery;
      }
    }

    method OnSyncWithPhoneToggled(activating: bool)
      modifies this
      ensures Snapshot() == AfterToggleRequested(old(Snapshot()), activating)
    {
      var currentState := state;
      if !currentState.PhoneStatusResponse? {
        return;
      }
      state := SendingStatusSyncToPhone(currentState.node, activating);
      toggleJobs := toggleJobs + [ToggleSending(currentState.node)];
      var path := if activating then QueryActivatedSyncPath else QueryDeactivatedSyncPath;
      sent := sent + [Message(currentState.node.id, path, [])];
    }

    method OnSyncWithPhoneActivated()
      modifies this
      ensures Snapshot() == AfterToggleRequested(old(Snapshot()), true)
    {
      OnSyncWithPhoneToggled(true);
    }

    method OnSyncWithPhoneDeactivated()
      modifies this
      ensures Snapshot() == AfterToggleRequested(old(Snapshot()), false)
    {
      OnSyncWithPhoneToggled(false);
    }

    /** Toggle job `k` resumes after its send. */
    method OnToggleSendResult(k: nat, ok: bool)
      modifies this
      ensures Snapshot() == AfterToggleSent(old(Snapshot()), k, ok)
    {
      if k < |toggleJobs| && toggleJobs[k].ToggleSending? {
        var node := toggleJobs[k].node;
        if ok {
          state := WaitingForPhoneStatusResponse(node);
          toggleJobs := toggleJobs[k := ToggleWaiting(node)];
        } else {
          state := State.Error(UnableToSendSyncQueryMessage, shouldShowPhoneBattery);
          toggleJobs := toggleJobs[..k] + toggleJobs[k + 1..];
        }
      }
    }

    /** Toggle job `k` resumes after its delay. */
    method OnToggleTimeout(k: nat)
      modifies this
      ensures Snapshot() == AfterToggleTimeout(old(Snapshot()), k)
    {
      if k < |toggleJobs| && toggleJobs[k].ToggleWaiting? {
        var node := toggleJobs[k].node;
        var newState := state;
        if newState.WaitingForPhoneStatusResponse? && newState.node.id == node.id {
          state := State.Error(NoResponseFromPhone, shouldShowPhoneBattery);
        }
        toggleJobs := toggleJobs[..k] + toggleJobs[k + 1..];
      }
    }

    method OnForceDeactivateSyncClicked()
      modifies this
      ensures Snapshot() == AfterForceDeactivate(old(Snapshot()))
    {
      shouldShowPhoneBattery := false;
      match state {
        case Error(t, _) => state := State.Error(t, false);
        case PhoneNotFound(_) => state := PhoneNotFound(false);
        case _ =>
      }
    }

    method OnRetryConnectionClicked()
      modifies this
      ensures Snapshot() == AfterRetry(old(Snapshot()))
    {
      state := Loading;
      retryEvents := retryEvents + 1;
    }

    method OnCleared()
      modifies this
      ensures Snapshot() == AfterCleared(old(Snapshot()))
    {
      queryJob := NoQuery;
      toggleJobs := [];
      initTimeoutPending := false;
    }
  }
}

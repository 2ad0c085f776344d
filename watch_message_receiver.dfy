// The phone app's listener for messages from the watch: the watch asks for
// battery sync to be switched on or off (or tells its own setting), and the
// phone persists the choice, (un)subscribes to battery broadcasts, and
// confirms over the link.
module WatchMessageReceiver {
  import opened Base
  import opened SyncImpl
  import opened PhoneApp
  import opened BatteryStatusBroadcastReceiver

  const QuerySyncStatusPath: string := "/batterySync/queryStatus"
  const QueryActivatedSyncPath: string := "/batterySync/activate"
  const QueryDeactivatedSyncPath: string := "/batterySync/deactivate"

  /**
   * What the coroutines launched by one callback meet: the link of the
   * sync-status send, the link of the battery-status send, and the sticky
   * battery intent `getCurrentBatteryLevel` finds.
   */
  datatype Environment = Environment(statusLink: Link, batteryLink: Link, sticky: Option<Intent>)

  predicate EnvironmentOk(env: Environment) {
    env.sticky.Some? ==> WellFormed(env.sticky.value)
  }

  /**
   * The messages `activateSync`'s coroutine delivers, in order:
   * `syncActivated = 1`, then the current percentage.  The first failure
   * (no watch, failed send, no battery intent) ends it.
   */
  function ActivationMessages(env: Environment): (r: seq<Message>)
    requires EnvironmentOk(env)
    ensures |r| <= 2
    ensures |r| >= 1 <==> env.statusLink.watch.Some? && env.statusLink.delivers
    ensures |r| >= 1 ==> r[0].path == SyncActivatedPath && r[0].data == [1]
    ensures |r| == 2 ==> r[1].path == BatteryStatusPath
  {
    match SendBatterySyncStatus(env.statusLink, true)
    case Err(_) => []
    case Ok(m) =>
      match CurrentBatteryLevel(env.sticky)
      case Err(_) => [m]
      case Ok(p) =>
        match SendBatteryStatus(env.batteryLink, p)
        case Err(_) => [m]
        case Ok(m2) => [m, m2]
  }

  /**
   * The percentage follows the confirmation exactly when the confirmation
   * went through, the sticky intent yields a percentage and the second send
   * succeeds; it carries that percentage as one byte.
   */
  lemma ActivationSendsPercent(env: Environment)
    requires EnvironmentOk(env)
    ensures var r := ActivationMessages(env);
      (|r| == 2 <==> env.statusLink.watch.Some? && env.statusLink.delivers
                     && CurrentBatteryLevel(env.sticky).Ok?
                     && env.batteryLink.watch.Some? && env.batteryLink.delivers)
      && (|r| == 2 ==> r[1] == Message(env.batteryLink.watch.value.id, BatteryStatusPath,
                                       [ToByte(CurrentBatteryLevel(env.sticky).value)]))
  {
  }

  /** The message `deactivateSync`'s coroutine delivers: `syncActivated = 0`, if the send succeeds. */
  function DeactivationMessages(env: Environment): (r: seq<Message>)
    ensures |r| <= 1
    ensures |r| == 1 <==> env.statusLink.watch.Some? && env.statusLink.delivers
    ensures |r| == 1 ==> r[0].path == SyncActivatedPath && r[0].data == [0]
  {
    match SendBatterySyncStatus(env.statusLink, false)
    case Err(_) => []
    case Ok(m) => [m]
  }

  /** The phone after `activateSync`: flag on, subscribed, confirmation messages appended. */
  function AfterActivate(s: PhoneState, env: Environment): PhoneState
    requires EnvironmentOk(env)
  {
    s.(batterySyncActivated := true, isSubscribed := true, registered := true,
       registerCalls := s.registerCalls + (if s.isSubscribed then 0 else 1),
       outbox := s.outbox + ActivationMessages(env))
  }

  /** The phone after `deactivateSync`: flag off, unsubscribed, confirmation appended. */
  function AfterDeactivate(s: PhoneState, env: Environment): PhoneState {
    s.(batterySyncActivated := false, isSubscribed := false, registered := false,
       outbox := s.outbox + DeactivationMessages(env))
  }

  /**
   * The phone after a message from the watch: dispatch on the path; a
   * status query activates when its first byte is 1 and deactivates on any
   * other first byte; an empty query and an unknown path change nothing.
   */
  function AfterMessage(s: PhoneState, path: string, data: seq<int>, env: Environment): PhoneState
    requires EnvironmentOk(env)
  {
    if path == QuerySyncStatusPath then
      if |data| == 0 then s
      else if data[0] == 1 then AfterActivate(s, env)
      else AfterDeactivate(s, env)
    else if path == QueryActivatedSyncPath then AfterActivate(s, env)
    else if path == QueryDeactivatedSyncPath then AfterDeactivate(s, env)
    else s
  }

  /**
   * After any message from the watch the persisted flag equals the
   * subscription, whatever happened to the confirmation sends; and the
   * battery receiver's memory of the last percentage is never touched.
   */
  lemma {:induction false} MessageKeepsFlagAndSubscriptionEqual(s: PhoneState, path: string, data: seq<int>, env: Environment)
    requires EnvironmentOk(env)
    requires s.isSubscribed == s.registered
    ensures var t := AfterMessage(s, path, data, env);
      t.isSubscribed == t.registered
      && (t != s ==> t.batterySyncActivated == t.isSubscribed)
      && t.lastBatteryLevelPercentSent == s.lastBatteryLevelPercentSent
      && |s.outbox| <= |t.outbox| <= |s.outbox| + 2 && t.outbox[..|s.outbox|] == s.outbox
  {
  }

  /** `activateSync`. */
  method ActivateSync(app: Phone, env: Environment)
    requires app.Valid() && EnvironmentOk(env)
    modifies app
    ensures app.Valid()
    ensures app.State() == AfterActivate(old(app.State()), env)
  {
    app.batterySyncActivated := true;
    SubscribeToUpdates(app);
    var status := SendBatterySyncStatus(env.statusLink, true);
    if status.Ok? {
      app.outbox := app.outbox + [status.value];
      var percent := CurrentBatteryLevel(env.sticky);
      if percent.Ok? {
        var battery := SendBatteryStatus(env.batteryLink, percent.value);
        if battery.Ok? {
          app.outbox := app.outbox + [battery.value];
        }
      }
    }
  }

  /** `deactivateSync`. */
  method DeactivateSync(app: Phone, env: Environment)
    modifies app
    ensures app.Valid()
    ensures app.State() == AfterDeactivate(old(app.State()), env)
  {
    app.batterySyncActivated := false;
    UnsubscribeFromUpdates(app);
    var status := SendBatterySyncStatus(env.statusLink, false);
    if status.Ok? {
      app.outbox := app.outbox + [status.value];
    }
  }

  /** `sendSyncStatus`: reading the first byte of an empty payload throws, and the error is only logged. */
  method SendSyncStatus(app: Phone, watchData: seq<int>, env: Environment)
    requires app.Valid() && EnvironmentOk(env)
    modifies app
    ensures app.Valid()
    ensures app.State() == AfterMessage(old(app.State()), QuerySyncStatusPath, watchData, env)
  {
    if |watchData| > 0 {
      if watchData[0] == 1 {
        ActivateSync(app, env);
      } else {
        DeactivateSync(app, env);
      }
    }
  }

  /** `onMessageReceived`: dispatch on the message path. */
  method OnMessageReceived(app: Phone, path: string, data: seq<int>, env: Environment)
    requires app.Valid() && EnvironmentOk(env)
    modifies app
    ensures app.Valid()
    ensures app.State() == AfterMessage(old(app.State()), path, data, env)
  {
    if path == QuerySyncStatusPath {
      SendSyncStatus(app, data, env);
    } else if path == QueryActivatedSyncPath {
      ActivateSync(app, env);
    } else if path == QueryDeactivatedSyncPath {
      DeactivateSync(app, env);
    }
  }

  /**
   * `onCapabilityChanged`: a null or foreign capability is ignored;
   * otherwise sync is re-activated when some node advertises the watch
   * capability and the persisted flag is on.
   */
  method OnCapabilityChanged(app: Phone, capabilityInfo: Option<CapabilityInfo>, watchCapability: string, env: Environment)
    requires app.Valid() && EnvironmentOk(env)
    modifies app
    ensures app.Valid()
    ensures if capabilityInfo.Some? && capabilityInfo.value.name == watchCapability
               && |capabilityInfo.value.nodes| > 0 && old(app.batterySyncActivated)
            then app.State() == AfterActivate(old(app.State()), env)
            else app.State() == old(app.State())
  {
    if capabilityInfo.None? {
      return;
    }
    if capabilityInfo.value.name != watchCapability {
      return;
    }
    var watchNode := FindBestNode(capabilityInfo.value.nodes);
    if watchNode.Some? {
      if app.batterySyncActivated {
        ActivateSync(app, env);
      }
    }
  }
}

// The two broadcast receivers that restore the battery subscription after
// the phone reboots or the app is updated, when sync was left on.
module BootCompleteBroadcastReceiver {
  import opened PhoneApp
  import opened BatteryStatusBroadcastReceiver

  const ActionBootCompleted: string := "android.intent.action.BOOT_COMPLETED"
  const ActionQuickbootPowerOn: string := "android.intent.action.QUICKBOOT_POWERON"

  /** `onReceive`: either boot action with the flag on subscribes; nothing else happens, and the flag is only read. */
  method OnReceive(app: Phone, action: string)
    requires app.Valid()
    modifies app
    ensures app.Valid()
    ensures if (action == ActionBootCompleted || action == ActionQuickbootPowerOn) && old(app.batterySyncActivated)
            then app.isSubscribed && app.registerCalls == old(app.registerCalls) + (if old(app.isSubscribed) then 0 else 1)
            else app.State() == old(app.State())
    ensures app.batterySyncActivated == old(app.batterySyncActivated)
    ensures app.outbox == old(app.outbox) && app.lastBatteryLevelPercentSent == old(app.lastBatteryLevelPercentSent)
  {
    if action == ActionBootCompleted || action == ActionQuickbootPowerOn {
      if app.batterySyncActivated {
        SubscribeToUpdates(app);
      }
    }
  }
}

module AppUpdateBroadcastReceiver {
  import opened Base
  import opened PhoneApp
  import opened BatteryStatusBroadcastReceiver

  const ActionMyPackageReplaced: string := "android.intent.action.MY_PACKAGE_REPLACED"

  /** `onReceive`: `action` is None for a null intent; only a package replacement with the flag on subscribes. */
  method OnReceive(app: Phone, action: Option<string>)
    requires app.Valid()
    modifies app
    ensures app.Valid()
    ensures if action == Some(ActionMyPackageReplaced) && old(app.batterySyncActivated)
            then app.isSubscribed && app.registerCalls == old(app.registerCalls) + (if old(app.isSubscribed) then 0 else 1)
            else app.State() == old(app.State())
    ensures app.batterySyncActivated == old(app.batterySyncActivated)
    ensures app.outbox == old(app.outbox) && app.lastBatteryLevelPercentSent == old(app.lastBatteryLevelPercentSent)
  {
    if action != Some(ActionMyPackageReplaced) {
      return;
    }
    if app.batterySyncActivated {
      SubscribeToUpdates(app);
    }
  }
}

// The watch face's reaction to its own update: the stored app version moves
// up to the installed version, and users upgrading from version 33 or older
// who are premium get the battery-indicator notification, once.
module AppUpdateReceiver {
  import opened Base
  import opened WatchStorage

  const ActionMyPackageReplaced: string := "android.intent.action.MY_PACKAGE_REPLACED"

  /** The last version code before the battery indicator existed. */
  const LastVersionWithoutBatteryIndicator: int := 33

  /** The stored version after an update to `versionCode`: it only ever moves up. */
  function VersionAfter(latestKnownVersion: int, versionCode: int): (r: int)
    ensures r >= latestKnownVersion && r >= versionCode
    ensures r == latestKnownVersion || r == versionCode
  {
    if versionCode > latestKnownVersion then versionCode else latestKnownVersion
  }

  /**
   * Whether an update from `latestKnownVersion` to `versionCode` shows the
   * notification: a real upgrade (not a first install, where the stored
   * version is still the default -1, nor a reinstall of the same version)
   * from 33 or older, for a premium user who has not seen it yet.
   */
  function Notifies(latestKnownVersion: int, versionCode: int, premium: bool, shown: bool): (b: bool)
    ensures b ==> 0 < latestKnownVersion < versionCode && !shown && premium
    ensures latestKnownVersion <= 0 || versionCode <= latestKnownVersion ==> !b
  {
    versionCode > latestKnownVersion && latestKnownVersion > 0
    && latestKnownVersion <= LastVersionWithoutBatteryIndicator && premium && !shown
  }

  /** One package-replaced broadcast as seen by the receiver: the installed version and the premium flag then. */
  datatype Update = Update(action: Option<string>, versionCode: int, premium: bool)

  /** The receiver's bookkeeping: stored version, notification-shown flag, notifications shown. */
  datatype Bookkeeping = Bookkeeping(appVersion: int, shown: bool, notified: nat)

  function AfterUpdate(b: Bookkeeping, u: Update): Bookkeeping {
    if u.action != Some(ActionMyPackageReplaced) then b
    else
      var notify := Notifies(b.appVersion, u.versionCode, u.premium, b.shown);
      Bookkeeping(VersionAfter(b.appVersion, u.versionCode), b.shown || notify,
                  b.notified + (if notify then 1 else 0))
  }

  function Replay(b: Bookkeeping, updates: seq<Update>): Bookkeeping
    decreases |updates|
  {
    if |updates| == 0 then b else Replay(AfterUpdate(b, updates[0]), updates[1..])
  }

  /**
   * Over any sequence of updates the stored version never decreases, the
   * notification is shown at most once in total, and once shown it is never
   * shown again.
   */
  lemma {:induction false} NotifiedAtMostOnce(b: Bookkeeping, updates: seq<Update>)
    ensures Replay(b, updates).appVersion >= b.appVersion
    ensures Replay(b, updates).notified <= b.notified + (if b.shown then 0 else 1)
    ensures b.shown ==> Replay(b, updates).shown
    decreases |updates|
  {
    if |updates| > 0 {
      NotifiedAtMostOnce(AfterUpdate(b, updates[0]), updates[1..]);
    }
  }

  /**
   * The notification-shown flag (not part of Storage.kt) and the number of
   * times `showBatteryIndicatorNotification` ran.
   */
  class Notifications {
    var batteryIndicatorNotificationShown: bool
    var shownCount: nat

    constructor (shown: bool)
      ensures batteryIndicatorNotificationShown == shown && shownCount == 0
    {
      batteryIndicatorNotificationShown := shown;
      shownCount := 0;
    }
  }

  /** `onAppUpgrade`: the flag is set before the notification is shown. */
  method OnAppUpgrade(storage: StorageImpl, notes: Notifications, oldVersion: int)
    requires storage.Valid() && storage.initialized
    modifies storage, notes
    ensures storage.Valid() && storage.initialized
    ensures var notify := oldVersion <= LastVersionWithoutBatteryIndicator
                          && StoredBool(storage.bools, UserPremium) && !old(notes.batteryIndicatorNotificationShown);
      notes.batteryIndicatorNotificationShown == (old(notes.batteryIndicatorNotificationShown) || notify)
      && notes.shownCount == old(notes.shownCount) + (if notify then 1 else 0)
    ensures storage.bools == old(storage.bools) && storage.ints == old(storage.ints) && storage.colors == old(storage.colors)
    ensures storage.res == old(storage.res) && storage.intCache == old(storage.intCache)
  {
    if oldVersion <= LastVersionWithoutBatteryIndicator {
      var premium := storage.GetBool(UserPremium);
      if premium && !notes.batteryIndicatorNotificationShown {
        notes.batteryIndicatorNotificationShown := true;
        notes.shownCount := notes.shownCount + 1;
      }
    }
  }

  /** `onReceive`, for the installed `versionCode`: its effect is `AfterUpdate` on the stored values. */
  method OnReceive(storage: StorageImpl, notes: Notifications, action: Option<string>, versionCode: int)
    requires storage.Valid() && storage.initialized
    modifies storage, notes
    ensures storage.Valid() && storage.initialized
    ensures var before := Bookkeeping(StoredInt(old(storage.ints), AppVersion, old(storage.res)),
                                      old(notes.batteryIndicatorNotificationShown), old(notes.shownCount));
            var after := AfterUpdate(before, Update(action, versionCode, StoredBool(old(storage.bools), UserPremium)));
      StoredInt(storage.ints, AppVersion, storage.res) == after.appVersion
      && notes.batteryIndicatorNotificationShown == after.shown && notes.shownCount == after.notified
    ensures storage.bools == old(storage.bools) && storage.colors == old(storage.colors) && storage.res == old(storage.res)
    ensures forall s | s != AppVersion :: StoredInt(storage.ints, s, storage.res) == StoredInt(old(storage.ints), s, storage.res)
  {
    if action != Some(ActionMyPackageReplaced) {
      return;
    }
    var latestKnownVersion := storage.GetInt(AppVersion);
    if versionCode > latestKnownVersion {
      if latestKnownVersion > 0 {
        OnAppUpgrade(storage, notes, latestKnownVersion);
      }
      storage.SetInt(AppVersion, versionCode);
    }
  }
}

// The state the phone app's broadcast and message receivers share.
module PhoneApp {
  import opened Base
  import opened SyncImpl

  /**
   * - `batterySyncActivated`: the persisted flag of the phone app's storage
   *   (`isBatterySyncActivated` / `setBatterySyncActivated`);
   * - `isSubscribed`: the static flag of `BatteryStatusBroadcastReceiver`;
   * - `registered`: whether Android currently holds the battery receiver;
   * - `registerCalls`: how many times it was handed to `registerReceiver`;
   * - `lastBatteryLevelPercentSent`: the receiver's memory of the last
   *   percentage that reached the watch;
   * - `outbox`: the messages delivered to the watch, oldest first.
   */
  /** The fields of a `Phone`, as a value. */
  datatype PhoneState = PhoneState(
    batterySyncActivated: bool,
    isSubscribed: bool,
    registered: bool,
    registerCalls: nat,
    lastBatteryLevelPercentSent: Option<int>,
    outbox: seq<Message>)

  class Phone {
    var batterySyncActivated: bool
    var isSubscribed: bool
    var registered: bool
    var registerCalls: nat
    var lastBatteryLevelPercentSent: Option<int>
    var outbox: seq<Message>

    function State(): PhoneState
      reads this
    {
      PhoneState(batterySyncActivated, isSubscribed, registered, registerCalls, lastBatteryLevelPercentSent, outbox)
    }

    /** The static flag tells the truth about the registration. */
    predicate Valid()
      reads this
    {
      isSubscribed == registered
    }

    /** A fresh process: the flag as persisted, nothing registered, nothing sent. */
    constructor (batterySyncActivated: bool)
      ensures Valid()
      ensures this.batterySyncActivated == batterySyncActivated
      ensures !isSubscribed && !registered && registerCalls == 0
      ensures lastBatteryLevelPercentSent == None && outbox == []
    {
      this.batterySyncActivated := batterySyncActivated;
      isSubscribed := false;
      registered := false;
      registerCalls := 0;
      lastBatteryLevelPercentSent := None;
      outbox := [];
    }
  }
}

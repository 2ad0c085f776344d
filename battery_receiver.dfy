// The phone's battery broadcast receiver: turns each battery-changed
// broadcast into a percentage, forwards it to the watch unless it equals the
// last one forwarded, and can be registered and unregistered idempotently.
module BatteryStatusBroadcastReceiver {
  import opened Base
  import opened SyncImpl
  import opened PhoneApp

  const ActionBatteryChanged: string := "android.intent.action.BATTERY_CHANGED"

  /**
   * A broadcast intent with its battery extras as `getIntExtra(key, -1)`
   * yields them: -1 stands for an absent extra.
   */
  datatype Intent = Intent(action: string, level: int, scale: int)

  predicate WellFormed(intent: Intent) {
    IsInt32(intent.level) && IsInt32(intent.scale)
  }

  datatype BatteryError = MissingExtra | NoStickyIntent

  /**
   * `(n / d.toFloat()).toInt()` for 32-bit `n` and `d`: truncation toward
   * zero, saturating at the Int range; a zero divisor gives an infinity
   * (saturated) or NaN (0).
   */
  function FloatQuotientToInt(n: int, d: int): (r: int)
    requires IsInt32(n) && IsInt32(d)
    ensures IsInt32(r)
    ensures d == 0 ==> r == (if n > 0 then IntMax else if n < 0 then IntMin else 0)
    ensures 0 <= n && 0 < d ==> r == n / d
  {
    if d == 0 then (if n > 0 then IntMax else if n < 0 then IntMin else 0)
    else
      var q := TruncDiv(n, d);
      if q > IntMax then IntMax else if q < IntMin then IntMin else q
  }

  /**
   * `getBatteryLevelPercent`: fails when either extra is missing; otherwise
   * `level * 100` (32-bit) divided by the scale.
   */
  function BatteryLevelPercent(level: int, scale: int): (r: Result<int, BatteryError>)
    requires IsInt32(level) && IsInt32(scale)
    ensures r.Err? <==> level == -1 || scale == -1
    ensures r.Ok? ==> IsInt32(r.value)
  {
    if level == -1 || scale == -1 then Err(MissingExtra)
    else Ok(FloatQuotientToInt(Wrap32(level * 100), scale))
  }

  /** A level within a positive scale gives the truncated percentage, between 0 and 100. */
  lemma PercentInRange(level: int, scale: int)
    requires IsInt32(level) && IsInt32(scale)
    requires 0 <= level <= scale && 0 < scale && level * 100 <= IntMax
    ensures BatteryLevelPercent(level, scale) == Ok(level * 100 / scale)
    ensures 0 <= level * 100 / scale <= 100
  {
    var n := level * 100;
    assert IsInt32(n);
    assert Wrap32(n) == n;
    PercentAtMostHundred(level, scale, n);
  }

  lemma PercentAtMostHundred(level: int, scale: int, n: int)
    requires 0 <= level <= scale && 0 < scale && n == level * 100
    ensures 0 <= n / scale <= 100
  {
    assert n <= scale * 100;
    assert (n / scale) * scale <= n;
  }

  /** `getCurrentBatteryLevel`: the percentage of the sticky battery intent, which may be missing. */
  function CurrentBatteryLevel(sticky: Option<Intent>): (r: Result<int, BatteryError>)
    requires sticky.Some? ==> WellFormed(sticky.value)
    ensures sticky.None? ==> r == Err(NoStickyIntent)
    ensures sticky.Some? ==> r == BatteryLevelPercent(sticky.value.level, sticky.value.scale)
  {
    match sticky
    case None => Err(NoStickyIntent)
    case Some(i) => BatteryLevelPercent(i.level, i.scale)
  }

  /** The percentage a broadcast carries, when it is a battery-changed intent with both extras. */
  function Reading(intent: Intent): (r: Option<int>)
    requires WellFormed(intent)
    ensures r.Some? <==> intent.action == ActionBatteryChanged && intent.level != -1 && intent.scale != -1
    ensures r.Some? ==> Ok(r.value) == BatteryLevelPercent(intent.level, intent.scale)
  {
    if intent.action != ActionBatteryChanged then None
    else match BatteryLevelPercent(intent.level, intent.scale)
      case Err(_) => None
      case Ok(p) => Some(p)
  }

  /**
   * The percentage `onReceive` gets through to the watch, if any: only a
   * reading other than the last one sent, and only when the send succeeds.
   */
  function SentPercent(last: Option<int>, reading: Option<int>, link: Link): (r: Option<int>)
    ensures r.Some? <==> reading.Some? && reading != last && link.watch.Some? && link.delivers
    ensures r.Some? ==> r == reading
  {
    match reading
    case None => None
    case Some(p) =>
      if Some(p) == last then None
      else if SendBatteryStatus(link, p).Err? then None
      else Some(p)
  }

  /** `onReceive`: forwards the percentage and remembers it, only after a successful send. */
  method OnReceive(app: Phone, intent: Intent, link: Link)
    requires WellFormed(intent)
    modifies app
    ensures var p := SentPercent(old(app.lastBatteryLevelPercentSent), Reading(intent), link);
      if p.Some? then
        app.lastBatteryLevelPercentSent == p
        && app.outbox == old(app.outbox) + [Message(link.watch.value.id, BatteryStatusPath, [ToByte(p.value)])]
      else
        app.lastBatteryLevelPercentSent == old(app.lastBatteryLevelPercentSent) && app.outbox == old(app.outbox)
    ensures app.batterySyncActivated == old(app.batterySyncActivated) && app.isSubscribed == old(app.isSubscribed)
    ensures app.registered == old(app.registered) && app.registerCalls == old(app.registerCalls)
  {
    if intent.action == ActionBatteryChanged {
      var percent := BatteryLevelPercent(intent.level, intent.scale);
      if percent.Ok? && Some(percent.value) != app.lastBatteryLevelPercentSent {
        var sent := SendBatteryStatus(link, percent.value);
        if sent.Ok? {
          app.outbox := app.outbox + [sent.value];
          app.lastBatteryLevelPercentSent := Some(percent.value);
        }
      }
    }
  }

  /** One delivered broadcast: its reading, and the link its send would use. */
  datatype Broadcast = Broadcast(reading: Option<int>, link: Link)

  /**
   * Replaying broadcasts from a remembered percentage: the memory at the end
   * and the percentages sent, in order.  No percentage is sent twice in a
   * row, the first differs from the remembered one, the memory ends on the
   * last one sent, and only percentages that were read are sent.
   */
  function Replay(last: Option<int>, events: seq<Broadcast>): (r: (Option<int>, seq<int>))
    decreases |events|
    ensures forall i | 0 <= i < |r.1| - 1 :: r.1[i] != r.1[i + 1]
    ensures |r.1| > 0 && last.Some? ==> r.1[0] != last.value
    ensures r.0 == if |r.1| > 0 then Some(r.1[|r.1| - 1]) else last
    ensures forall x <- r.1 :: exists e <- events :: e.reading == Some(x)
  {
    if |events| == 0 then (last, [])
    else
      var p := SentPercent(last, events[0].reading, events[0].link);
      var next := if p.Some? then p else last;
      var rest := Replay(next, events[1..]);
      assert forall e <- events[1..] :: e in events;
      (rest.0, (if p.Some? then [p.value] else []) + rest.1)
  }

  /** Once a percentage has been sent, broadcasts reading only that percentage send nothing more. */
  lemma {:induction false} NothingSentAgain(p: int, events: seq<Broadcast>)
    requires forall e <- events :: e.reading.Some? ==> e.reading.value == p
    ensures Replay(Some(p), events).1 == []
  {
    if |events| > 0 {
      assert forall e <- events[1..] :: e in events;
      NothingSentAgain(p, events[1..]);
    }
  }

  /** A run of broadcasts that all read the same percentage sends it at most once. */
  lemma {:induction false} EqualReadingsSentOnce(last: Option<int>, events: seq<Broadcast>, p: int)
    requires forall e <- events :: e.reading.Some? ==> e.reading.value == p
    ensures |Replay(last, events).1| <= 1
  {
    if |events| > 0 {
      assert forall e <- events[1..] :: e in events;
      if SentPercent(last, events[0].reading, events[0].link).Some? {
        NothingSentAgain(p, events[1..]);
      } else {
        EqualReadingsSentOnce(last, events[1..], p);
      }
    }
  }

  /** `unsubscribeFromUpdates`: unregisters (a receiver that was not registered is ignored) and clears the flag. */
  method UnsubscribeFromUpdates(app: Phone)
    modifies app
    ensures app.Valid() && !app.isSubscribed && !app.registered
    ensures app.registerCalls == old(app.registerCalls)
    ensures app.batterySyncActivated == old(app.batterySyncActivated) && app.outbox == old(app.outbox)
    ensures app.lastBatteryLevelPercentSent == old(app.lastBatteryLevelPercentSent)
  {
    if app.registered {
      app.registered := false;
    }
    app.isSubscribed := false;
  }

  /** `subscribeToUpdates`: registers only when not already subscribed, so calling it again changes nothing. */
  method SubscribeToUpdates(app: Phone)
    requires app.Valid()
    modifies app
    ensures app.Valid() && app.isSubscribed && app.registered
    ensures app.registerCalls == old(app.registerCalls) + (if old(app.isSubscribed) then 0 else 1)
    ensures app.batterySyncActivated == old(app.batterySyncActivated) && app.outbox == old(app.outbox)
    ensures app.lastBatteryLevelPercentSent == old(app.lastBatteryLevelPercentSent)
  {
    if !app.isSubscribed {
      UnsubscribeFromUpdates(app);
      app.registered := true;
      app.registerCalls := app.registerCalls + 1;
    }
    app.isSubscribed := true;
  }
}

# Pixel Minimal Watch Face — a Dafny model

Pixel Minimal Watch Face is a Wear OS watch face with a companion phone app.
This project models the logic of both apps in Dafny and proves properties of it.

**Watch face:**
- the four complication slots and their colours (palette, labels, storage encoding, parcel encoding);
- the settings store with its read-once caches;
- the time-size table;
- the frame drawer (cache rebuild, complications drawn, battery indicator, weather tap region);
- the settings adapters and the widget configuration screen;
- the phone-battery configuration screen's view model, which talks to the phone.

**Companion app:**
- the message layer to the watch;
- the listener that answers the watch's sync messages;
- the battery broadcast receiver that forwards the phone's battery percentage;
- the boot and app-update receivers;
- the in-app billing state machine.

Code that works by changing state is modelled with classes whose methods carry `modifies` clauses. Each such method is specified by a pure transition function on a snapshot of the class's state, for example `ensures Snapshot() == AfterMessage(old(Snapshot()), ...)`. The properties are proved about those functions: invariants kept by every event, round trips and table facts. Code that only computes is modelled with functions and lemmas.

Base (integer-width helpers) and Parcels (an Android `Parcel` as a cursor over a sequence of values) are shared support modules.

## Model

| member | source | states |
|---|---|---|
| ComplicationColors.Slots | android/watchface/src/main/java/com/benoitletondor/pixelminimalwatchface/model/ComplicationColors.kt:22-27 | the four slot colours as a sequence of exactly four, in the order left, middle, right, bottom |
| ComplicationColors.ReadFrom | android/watchface/src/main/java/com/benoitletondor/pixelminimalwatchface/model/ComplicationColors.kt:34-38 | a successful read takes the colour from the int at the position, requires a string next, and sets the default flag exactly when the following byte is non-zero |
| ComplicationColors.ReadWritten | android/watchface/src/main/java/com/benoitletondor/pixelminimalwatchface/model/ComplicationColors.kt:34-44 | reading back what writeToParcel wrote, wherever it sits in the parcel, gives the same colour and the position three values further on |
| ComplicationColors.WriteToParcel | android/watchface/src/main/java/com/benoitletondor/pixelminimalwatchface/model/ComplicationColors.kt:40-44 | the parcel gains exactly the three written values (colour, label, default flag as a byte) and its cursor does not move |
| ComplicationColors.CreateFromParcel | android/watchface/src/main/java/com/benoitletondor/pixelminimalwatchface/model/ComplicationColors.kt:34-38 | returns a colour exactly when the values at the cursor encode one; the cursor then moves past them, and the data is unchanged |
| ComplicationColors.ParcelRoundTrip | android/watchface/src/main/java/com/benoitletondor/pixelminimalwatchface/model/ComplicationColors.kt:34-53 | writing a colour into an empty parcel and reading it back from the start yields the same colour |
| ComplicationColors.NewArray | android/watchface/src/main/java/com/benoitletondor/pixelminimalwatchface/model/ComplicationColors.kt:55-57 | an array of the requested size holding no colour |
| ComplicationColorsProvider.DefaultComplicationColors | android/watchface/src/main/java/com/benoitletondor/pixelminimalwatchface/model/ComplicationColorsProvider.kt:26-38 | each slot takes the colour of its own resource, and every slot is flagged as default with the "Default" label |
| ComplicationColorsProvider.AllComplicationColors | android/watchface/src/main/java/com/benoitletondor/pixelminimalwatchface/model/ComplicationColorsProvider.kt:66-169 | the palette has exactly 20 entries |
| ComplicationColorsProvider.PaletteEntryNotDefault | android/watchface/src/main/java/com/benoitletondor/pixelminimalwatchface/model/ComplicationColorsProvider.kt:66-169 | no palette entry is flagged as default or carries the "Default" label |
| ComplicationColorsProvider.LabelOfPaletteEntry | android/watchface/src/main/java/com/benoitletondor/pixelminimalwatchface/model/ComplicationColorsProvider.kt:40-64 | the label the lookup gives a palette colour is the label that palette entry carries |
| ComplicationColorsProvider.DefaultLabelIffNotInPalette | android/watchface/src/main/java/com/benoitletondor/pixelminimalwatchface/model/ComplicationColorsProvider.kt:40-64 | the lookup answers "Default" exactly when the colour is not in the palette (both directions) |
| ComplicationColorsProvider.LabelForColor | android/watchface/src/main/java/com/benoitletondor/pixelminimalwatchface/model/ComplicationColorsProvider.kt:40-64 | a label other than the default one is only given to a palette colour |
| ComplicationColorsProvider.PaletteColorsDistinct | android/watchface/src/main/java/com/benoitletondor/pixelminimalwatchface/model/ComplicationColorsProvider.kt:42-61 | the palette's colour values are pairwise distinct, so the label lookup is unambiguous |
| TimeSizeHelper.ScaleTable | android/watchface/src/main/java/com/benoitletondor/pixelminimalwatchface/helper/TimeSizeHelper.kt:23-32 | a known size s scales the time text by 80 + 2s/5 percent; any other size is treated like the default size, scale 100 |
| TimeSizeHelper.ScalePercent | android/watchface/src/main/java/com/benoitletondor/pixelminimalwatchface/helper/TimeSizeHelper.kt:23-32 | the scale is a multiple of 10 percent between 80 and 120, and 100 for any size outside the five known ones |
| TimeSizeHelper.ScaleStrictlyIncreasing | android/watchface/src/main/java/com/benoitletondor/pixelminimalwatchface/helper/TimeSizeHelper.kt:25-29 | a larger known size always gives a strictly larger scale |
| TimeSizeHelper.ReadableNameTable | android/watchface/src/main/java/com/benoitletondor/pixelminimalwatchface/helper/TimeSizeHelper.kt:34-43 | the known sizes have pairwise distinct names, and an unknown size takes the default size's name |
| TimeSizeHelper.ReadableName | android/watchface/src/main/java/com/benoitletondor/pixelminimalwatchface/helper/TimeSizeHelper.kt:34-43 | a size outside the five known ones takes the name of size 50 |
| WatchStorage.KeyNamesDistinct | android/watchface/src/main/java/com/benoitletondor/pixelminimalwatchface/model/Storage.kt:31-53 | two different preferences never share a key name |
| WatchStorage.UnsetDefaults | android/watchface/src/main/java/com/benoitletondor/pixelminimalwatchface/model/Storage.kt:224-490 | an unset boolean reads true exactly for 24-hour time, the Wear OS logo and the date in ambient mode; an unset time size reads 50 and an unset app version -1 |
| WatchStorage.EncodeSlot | android/watchface/src/main/java/com/benoitletondor/pixelminimalwatchface/model/Storage.kt:194-222 | a slot is stored as the sentinel exactly when it is a default colour or its colour value is the sentinel |
| WatchStorage.DecodeSlot | android/watchface/src/main/java/com/benoitletondor/pixelminimalwatchface/model/Storage.kt:183-188 | the sentinel decodes to the slot's default colour; any other value decodes to that colour, not default, with the label the palette lookup gives |
| WatchStorage.StoredSlot | android/watchface/src/main/java/com/benoitletondor/pixelminimalwatchface/model/Storage.kt:156-179 | a slot's own key wins; failing that the legacy base-colour key; failing both, the sentinel |
| WatchStorage.SlotRoundTrip | android/watchface/src/main/java/com/benoitletondor/pixelminimalwatchface/model/Storage.kt:183-220 | decoding the stored form of a slot gives it back exactly when it is canonical (both directions) |
| WatchStorage.ColorsRoundTrip | android/watchface/src/main/java/com/benoitletondor/pixelminimalwatchface/model/Storage.kt:150-222 | storing then loading the four colours gives them back exactly when they are canonical, and whatever is loaded is canonical |
| WatchStorage.SentinelNotInPalette | android/watchface/src/main/java/com/benoitletondor/pixelminimalwatchface/model/Storage.kt:30 | the sentinel value is not a palette colour |
| WatchStorage.SetThenGet | android/watchface/src/main/java/com/benoitletondor/pixelminimalwatchface/model/Storage.kt:233-238 | after writing a boolean or integer setting, reading it gives the written value and every other setting reads as before |
| WatchStorage.StorageImpl.constructor | android/watchface/src/main/java/com/benoitletondor/pixelminimalwatchface/model/Storage.kt:97-133 | a new store holds the given file contents, is not initialised, and has empty caches and no file reads |
| WatchStorage.StorageImpl.InstallTimestamp | android/watchface/src/main/java/com/benoitletondor/pixelminimalwatchface/model/Storage.kt:256-258 | the recorded install timestamp, or -1 when none was recorded |
| WatchStorage.StorageImpl.Init | android/watchface/src/main/java/com/benoitletondor/pixelminimalwatchface/model/Storage.kt:135-148 | the first call records the given time as install timestamp when none is stored and counts one file read; later calls change nothing; settings and caches are untouched |
| WatchStorage.StorageImpl.GetBool | android/watchface/src/main/java/com/benoitletondor/pixelminimalwatchface/model/Storage.kt:224-231 | returns the stored value or its default; cached settings enter the cache, and only a setting not yet cached reads the file |
| WatchStorage.StorageImpl.SetBool | android/watchface/src/main/java/com/benoitletondor/pixelminimalwatchface/model/Storage.kt:233-238 | the value is written to the file and, for cached settings, to the cache; everything else is unchanged |
| WatchStorage.StorageImpl.SetFeatureDrop2021NotificationShown | android/watchface/src/main/java/com/benoitletondor/pixelminimalwatchface/model/Storage.kt:456-458 | only the notification-shown flag changes, to true, and it then reads true |
| WatchStorage.StorageImpl.GetInt | android/watchface/src/main/java/com/benoitletondor/pixelminimalwatchface/model/Storage.kt:316-323 | returns the stored integer or its default; the app version is never cached, and only a setting not yet cached reads the file |
| WatchStorage.StorageImpl.GetColorFilter | android/watchface/src/main/java/com/benoitletondor/pixelminimalwatchface/model/Storage.kt:406-414 | returns a source-in filter of the stored colour and caches that colour; only an uncached read touches the file |
| WatchStorage.StorageImpl.SetInt | android/watchface/src/main/java/com/benoitletondor/pixelminimalwatchface/model/Storage.kt:325-330 | the integer is written to the file and, unless it is the app version, to the cache; everything else is unchanged |
| WatchStorage.StorageImpl.GetComplicationColors | android/watchface/src/main/java/com/benoitletondor/pixelminimalwatchface/model/Storage.kt:150-192 | returns the cached colours if any, otherwise the colours decoded from the file with one file read, and caches the result |
| WatchStorage.StorageImpl.SetComplicationColors | android/watchface/src/main/java/com/benoitletondor/pixelminimalwatchface/model/Storage.kt:194-222 | the four slot keys hold the encoded colours, the legacy key is kept, and the cache holds the colours given |
| SyncImpl.FirstNearby | android/companionapp/src/main/java/com/benoitletondor/pixelminimalwatchfacecompanion/sync/SyncImpl.kt:167 | None exactly when no node is nearby; otherwise the nearby node that comes before every other nearby node |
| SyncImpl.FindBestNode | android/companionapp/src/main/java/com/benoitletondor/pixelminimalwatchfacecompanion/sync/SyncImpl.kt:166-168 | None exactly for an empty set; a nearby node whenever one exists; otherwise the first node |
| SyncImpl.GetWearableStatus | android/companionapp/src/main/java/com/benoitletondor/pixelminimalwatchfacecompanion/sync/SyncImpl.kt:68-85 | an error when the connected-nodes query fails, not available when no node is connected, otherwise installed or not according to the capability query |
| SyncImpl.GetConnectedWatchNode | android/companionapp/src/main/java/com/benoitletondor/pixelminimalwatchfacecompanion/sync/SyncImpl.kt:143-156 | a node only when the capability query answers for the watch capability; then a node of that answer, and None exactly when it lists no node |
| SyncImpl.Send | android/companionapp/src/main/java/com/benoitletondor/pixelminimalwatchfacecompanion/sync/SyncImpl.kt:126-130 | cannot reach the watch without a node; fails when delivery fails; otherwise the message carries that node, the path and the payload unchanged |
| SyncImpl.FlagByte | android/companionapp/src/main/java/com/benoitletondor/pixelminimalwatchfacecompanion/sync/SyncImpl.kt:129 | 1 exactly for true, otherwise 0 |
| SyncImpl.SendBatterySyncStatus | android/companionapp/src/main/java/com/benoitletondor/pixelminimalwatchfacecompanion/sync/SyncImpl.kt:123-131 | succeeds exactly when a reachable watch accepts it; then one flag byte on the sync path |
| SyncImpl.SendBatteryStatus | android/companionapp/src/main/java/com/benoitletondor/pixelminimalwatchfacecompanion/sync/SyncImpl.kt:133-141 | succeeds exactly when a reachable watch accepts it; then one byte on the battery path, equal to the percentage when it lies in 0..127 |
| SyncImpl.PremiumStatusMessage | android/companionapp/src/main/java/com/benoitletondor/pixelminimalwatchfacecompanion/sync/SyncImpl.kt:58-65 | a message exactly when a watch node is found, carrying the premium flag byte on the premium path |
| PhoneApp.Phone.constructor | android/companionapp/src/main/java/com/benoitletondor/pixelminimalwatchfacecompanion/BatteryStatusBroadcastReceiver.kt:35-37 | a phone starts unsubscribed and unregistered, with the given sync flag, nothing sent and no last percentage |
| BatteryStatusBroadcastReceiver.FloatQuotientToInt | android/companionapp/src/main/java/com/benoitletondor/pixelminimalwatchfacecompanion/BatteryStatusBroadcastReceiver.kt:75 | the float quotient converted to Int stays in 32 bits, saturates on division by zero, and is the integer quotient for non-negative operands |
| BatteryStatusBroadcastReceiver.BatteryLevelPercent | android/companionapp/src/main/java/com/benoitletondor/pixelminimalwatchfacecompanion/BatteryStatusBroadcastReceiver.kt:68-76 | an error exactly when the level or the scale extra is missing (-1); otherwise a 32-bit result |
| BatteryStatusBroadcastReceiver.PercentInRange | android/companionapp/src/main/java/com/benoitletondor/pixelminimalwatchfacecompanion/BatteryStatusBroadcastReceiver.kt:75 | a level between 0 and a positive scale gives level * 100 / scale, which lies between 0 and 100 |
| BatteryStatusBroadcastReceiver.PercentAtMostHundred | android/companionapp/src/main/java/com/benoitletondor/pixelminimalwatchfacecompanion/BatteryStatusBroadcastReceiver.kt:75 | the integer percentage of a level within the scale lies between 0 and 100 |
| BatteryStatusBroadcastReceiver.CurrentBatteryLevel | android/companionapp/src/main/java/com/benoitletondor/pixelminimalwatchfacecompanion/BatteryStatusBroadcastReceiver.kt:58-64 | an error without a sticky intent; otherwise the percentage that intent gives |
| BatteryStatusBroadcastReceiver.Reading | android/companionapp/src/main/java/com/benoitletondor/pixelminimalwatchfacecompanion/BatteryStatusBroadcastReceiver.kt:19-23 | a percentage exactly for a battery-changed intent with both extras, and then the one the computation gives |
| BatteryStatusBroadcastReceiver.SentPercent | android/companionapp/src/main/java/com/benoitletondor/pixelminimalwatchfacecompanion/BatteryStatusBroadcastReceiver.kt:23-27 | a percentage is sent exactly when there is one, it differs from the last one sent, and the watch takes it |
| BatteryStatusBroadcastReceiver.OnReceive | android/companionapp/src/main/java/com/benoitletondor/pixelminimalwatchfacecompanion/BatteryStatusBroadcastReceiver.kt:19-33 | when a percentage is sent it is remembered and appended to the outbox as one byte; otherwise nothing changes; the sync flag and subscription never change |
| BatteryStatusBroadcastReceiver.Replay | android/companionapp/src/main/java/com/benoitletondor/pixelminimalwatchfacecompanion/BatteryStatusBroadcastReceiver.kt:24-26 | over a run of broadcasts, no two consecutive sent values are equal, the first differs from the last sent, every sent value was read, and the last one sent is remembered |
| BatteryStatusBroadcastReceiver.NothingSentAgain | android/companionapp/src/main/java/com/benoitletondor/pixelminimalwatchfacecompanion/BatteryStatusBroadcastReceiver.kt:24-26 | broadcasts that only repeat the last sent percentage send nothing |
| BatteryStatusBroadcastReceiver.EqualReadingsSentOnce | android/companionapp/src/main/java/com/benoitletondor/pixelminimalwatchfacecompanion/BatteryStatusBroadcastReceiver.kt:24-26 | a run of broadcasts all reading the same percentage sends at most one message |
| BatteryStatusBroadcastReceiver.UnsubscribeFromUpdates | android/companionapp/src/main/java/com/benoitletondor/pixelminimalwatchfacecompanion/BatteryStatusBroadcastReceiver.kt:48-56 | leaves the phone unsubscribed and unregistered; the flag, the outbox and the last percentage are unchanged |
| BatteryStatusBroadcastReceiver.SubscribeToUpdates | android/companionapp/src/main/java/com/benoitletondor/pixelminimalwatchfacecompanion/BatteryStatusBroadcastReceiver.kt:39-46 | leaves the phone subscribed and registered, registering the receiver only if it was not subscribed already |
| WatchMessageReceiver.ActivationMessages | android/companionapp/src/main/java/com/benoitletondor/pixelminimalwatchfacecompanion/WatchMessageReceiver.kt:112-123 | at most two messages: a first one, sync on, exactly when the status reaches the watch; a second one on the battery path |
| WatchMessageReceiver.ActivationSendsPercent | android/companionapp/src/main/java/com/benoitletondor/pixelminimalwatchfacecompanion/WatchMessageReceiver.kt:115 | the battery message is sent exactly when the status went out, the current level is readable and the watch takes it; it carries that level |
| WatchMessageReceiver.DeactivationMessages | android/companionapp/src/main/java/com/benoitletondor/pixelminimalwatchfacecompanion/WatchMessageReceiver.kt:95-105 | at most one message, sync off, sent exactly when it reaches the watch |
| WatchMessageReceiver.MessageKeepsFlagAndSubscriptionEqual | android/companionapp/src/main/java/com/benoitletondor/pixelminimalwatchfacecompanion/WatchMessageReceiver.kt:38-47 | a message keeps subscription and registration equal; when it changes anything, the sync flag equals the subscription; the outbox only grows, by at most two |
| WatchMessageReceiver.ActivateSync | android/companionapp/src/main/java/com/benoitletondor/pixelminimalwatchfacecompanion/WatchMessageReceiver.kt:108-124 | the phone moves to the activated state with the activation messages sent |
| WatchMessageReceiver.DeactivateSync | android/companionapp/src/main/java/com/benoitletondor/pixelminimalwatchfacecompanion/WatchMessageReceiver.kt:91-106 | the phone moves to the deactivated state with the deactivation message sent |
| WatchMessageReceiver.SendSyncStatus | android/companionapp/src/main/java/com/benoitletondor/pixelminimalwatchfacecompanion/WatchMessageReceiver.kt:72-89 | handles the watch's status query as the message transition does: first byte 1 activates, any other deactivates, an empty query changes nothing |
| WatchMessageReceiver.OnMessageReceived | android/companionapp/src/main/java/com/benoitletondor/pixelminimalwatchfacecompanion/WatchMessageReceiver.kt:38-47 | the phone moves by the message transition, which dispatches on the path and ignores unknown paths |
| WatchMessageReceiver.OnCapabilityChanged | android/companionapp/src/main/java/com/benoitletondor/pixelminimalwatchfacecompanion/WatchMessageReceiver.kt:49-66 | when the watch capability appears with a node and sync is on, activation is redone; otherwise nothing changes |
| BootCompleteBroadcastReceiver.OnReceive | android/companionapp/src/main/java/com/benoitletondor/pixelminimalwatchfacecompanion/BootCompleteBroadcastReceiver.kt:12-18 | after boot, or a quick-boot power-on, the phone resubscribes exactly when sync is activated; the flag and the outbox are unchanged |
| AppUpdateBroadcastReceiver.OnReceive | android/companionapp/src/main/java/com/benoitletondor/pixelminimalwatchfacecompanion/AppUpdateBroadcastReceiver.kt:12-20 | after the app's package is replaced, the phone resubscribes exactly when sync is activated; the flag and the outbox are unchanged |
| AppUpdateReceiver.VersionAfter | android/watchface/src/main/java/com/benoitletondor/pixelminimalwatchface/AppUpdateReceiver.kt:39-46 | the stored version becomes the larger of the known and the new version |
| AppUpdateReceiver.Notifies | android/watchface/src/main/java/com/benoitletondor/pixelminimalwatchface/AppUpdateReceiver.kt:40-58 | a notification only on a real upgrade from a known version, for a premium user not notified yet; never when the version does not increase |
| AppUpdateReceiver.NotifiedAtMostOnce | android/watchface/src/main/java/com/benoitletondor/pixelminimalwatchface/AppUpdateReceiver.kt:33-58 | over any sequence of update broadcasts the stored version never decreases, the feature notification is shown at most once, and once shown stays shown |
| AppUpdateReceiver.OnAppUpgrade | android/watchface/src/main/java/com/benoitletondor/pixelminimalwatchface/AppUpdateReceiver.kt:50-59 | the battery-indicator notification is shown, once, exactly when upgrading from an old enough version as a premium user who has not seen it; the settings are unchanged |
| AppUpdateReceiver.OnReceive | android/watchface/src/main/java/com/benoitletondor/pixelminimalwatchface/AppUpdateReceiver.kt:33-47 | the stored version and the notification bookkeeping follow the update transition; every other setting reads as before |
| AppUpdateReceiver.Notifications.constructor | android/watchface/src/main/java/com/benoitletondor/pixelminimalwatchface/AppUpdateReceiver.kt:54-56 | the notification bookkeeping starts from the given shown flag with nothing shown yet |
| BillingImpl.Posted | android/companionapp/src/main/java/com/benoitletondor/pixelminimalwatchfacecompanion/billing/BillingImpl.kt:95-101 | the posted status is Premium exactly when the status is Premium, or NotPremium while premium is stored; any other status is posted as it is |
| BillingImpl.FirstWithSku | android/companionapp/src/main/java/com/benoitletondor/pixelminimalwatchfacecompanion/billing/BillingImpl.kt:301-306 | None exactly when no purchase has the product; otherwise the purchase at the first position with that product (every earlier purchase has another product) |
| BillingImpl.Unacknowledged | android/companionapp/src/main/java/com/benoitletondor/pixelminimalwatchfacecompanion/billing/BillingImpl.kt:330-356 | at most one token per purchase; a token is listed exactly when some unacknowledged purchase carries it, so the list is empty exactly when every purchase is acknowledged |
| BillingImpl.HistoryStatus | android/companionapp/src/main/java/com/benoitletondor/pixelminimalwatchfacecompanion/billing/BillingImpl.kt:252-269 | Error exactly when the query failed; Premium exactly when it succeeded with the premium product in the history; NotPremium otherwise |
| BillingImpl.DonationsSkus | android/companionapp/src/main/java/com/benoitletondor/pixelminimalwatchfacecompanion/billing/BillingImpl.kt:175-205 | refused as not set up exactly while initializing or in error; succeeds exactly when the store answers with details, returning them |
| BillingImpl.WithStatusKeepsCoherent | android/companionapp/src/main/java/com/benoitletondor/pixelminimalwatchfacecompanion/billing/BillingImpl.kt:88-102 | setting a status keeps the invariant, and premium becomes stored when the status is Premium |
| BillingImpl.PremiumResumedKeepsCoherent | android/companionapp/src/main/java/com/benoitletondor/pixelminimalwatchfacecompanion/billing/BillingImpl.kt:279-289 | resuming the premium continuation and clearing it keeps the invariant |
| BillingImpl.DonationResumedKeepsCoherent | android/companionapp/src/main/java/com/benoitletondor/pixelminimalwatchfacecompanion/billing/BillingImpl.kt:316-321 | resuming the donation continuation and clearing it keeps the invariant |
| BillingImpl.StepKeepsCoherent | android/companionapp/src/main/java/com/benoitletondor/pixelminimalwatchfacecompanion/billing/BillingImpl.kt:68-379 | every billing event keeps the invariant (a Premium status is stored; each continuation is resumed at most once) and never unstores premium |
| BillingImpl.PurchasesUpdatedKeepsCoherent | android/companionapp/src/main/java/com/benoitletondor/pixelminimalwatchfacecompanion/billing/BillingImpl.kt:272-365 | a purchase update, in each of its branches, keeps the invariant and never unstores premium |
| BillingImpl.RunKeepsCoherent | android/companionapp/src/main/java/com/benoitletondor/pixelminimalwatchfacecompanion/billing/BillingImpl.kt:45-380 | any sequence of events from a coherent state keeps the invariant and never unstores premium |
| BillingImpl.PremiumIsPersisted | android/companionapp/src/main/java/com/benoitletondor/pixelminimalwatchfacecompanion/billing/BillingImpl.kt:109-112 | in a coherent state the user is premium exactly when premium is stored |
| BillingImpl.AlreadyOwnedResumesTwice | android/companionapp/src/main/java/com/benoitletondor/pixelminimalwatchfacecompanion/billing/BillingImpl.kt:280-284 | as written, an already-owned response and then a donation purchase resume the premium continuation twice, never resume the donation and break the invariant |
| BillingImpl.AlreadyOwnedResumesOnce | android/companionapp/src/main/java/com/benoitletondor/pixelminimalwatchfacecompanion/billing/BillingImpl.kt:280-284 | with the continuation cleared, the same events resume the premium continuation once and consume the donation |
| BillingImpl.DisconnectResumesTwice | android/companionapp/src/main/java/com/benoitletondor/pixelminimalwatchfacecompanion/billing/BillingImpl.kt:241-246 | as written, a disconnection while an acknowledgement is pending and then the acknowledgement resume the premium continuation twice and break the invariant |
| BillingImpl.DisconnectResumesOnce | android/companionapp/src/main/java/com/benoitletondor/pixelminimalwatchfacecompanion/billing/BillingImpl.kt:241-246 | with the continuation cleared, the same events resume it once, with the lost connection, and the user still becomes premium |
| BillingImpl.ScanForPremium | android/companionapp/src/main/java/com/benoitletondor/pixelminimalwatchfacecompanion/billing/BillingImpl.kt:258-265 | the loop over the history finds premium exactly when the premium product occurs in it |
| BillingImpl.Billing.constructor | android/companionapp/src/main/java/com/benoitletondor/pixelminimalwatchfacecompanion/billing/BillingImpl.kt:68-70 | a coherent fresh client with the stored premium flag, already started (initializing, or in error when starting throws) |
| BillingImpl.Billing.SetIabStatusAndNotify | android/companionapp/src/main/java/com/benoitletondor/pixelminimalwatchfacecompanion/billing/BillingImpl.kt:88-102 | keeps the invariant and moves the object by the status-change transition |
| BillingImpl.Billing.StartBillingClient | android/companionapp/src/main/java/com/benoitletondor/pixelminimalwatchfacecompanion/billing/BillingImpl.kt:72-81 | keeps the invariant and moves the object by the start transition |
| BillingImpl.Billing.IsUserPremium | android/companionapp/src/main/java/com/benoitletondor/pixelminimalwatchfacecompanion/billing/BillingImpl.kt:109-112 | on a coherent object, true exactly when premium is stored |
| BillingImpl.Billing.UpdatePremiumStatusIfNeeded | android/companionapp/src/main/java/com/benoitletondor/pixelminimalwatchfacecompanion/billing/BillingImpl.kt:117-126 | keeps the invariant and moves the object by the re-check transition |
| BillingImpl.Billing.LaunchPremiumPurchaseFlow | android/companionapp/src/main/java/com/benoitletondor/pixelminimalwatchfacecompanion/billing/BillingImpl.kt:133-173 | keeps the invariant; the new state and the immediate result are those of the launch transition |
| BillingImpl.Billing.GetDonationsSkus | android/companionapp/src/main/java/com/benoitletondor/pixelminimalwatchfacecompanion/billing/BillingImpl.kt:175-205 | returns what the donation query gives for the current status |
| BillingImpl.Billing.LaunchDonationPurchaseFlow | android/companionapp/src/main/java/com/benoitletondor/pixelminimalwatchfacecompanion/billing/BillingImpl.kt:207-216 | keeps the invariant and moves the object by the donation-launch transition |
| BillingImpl.Billing.OnBillingSetupFinished | android/companionapp/src/main/java/com/benoitletondor/pixelminimalwatchfacecompanion/billing/BillingImpl.kt:226-239 | keeps the invariant and moves the object by the setup transition |
| BillingImpl.Billing.OnBillingServiceDisconnected | android/companionapp/src/main/java/com/benoitletondor/pixelminimalwatchfacecompanion/billing/BillingImpl.kt:241-246 | keeps the invariant and moves the object by the corrected disconnection transition |
| BillingImpl.Billing.OnPurchaseHistoryResponse | android/companionapp/src/main/java/com/benoitletondor/pixelminimalwatchfacecompanion/billing/BillingImpl.kt:248-270 | keeps the invariant and moves the object by the history transition |
| BillingImpl.Billing.OnPurchasesUpdated | android/companionapp/src/main/java/com/benoitletondor/pixelminimalwatchfacecompanion/billing/BillingImpl.kt:272-365 | keeps the invariant and moves the object by the corrected purchases-updated transition |
| BillingImpl.Billing.OnConsumeResponse | android/companionapp/src/main/java/com/benoitletondor/pixelminimalwatchfacecompanion/billing/BillingImpl.kt:341-354 | keeps the invariant and moves the object by the consume transition |
| BillingImpl.Billing.OnAcknowledgePurchaseResponse | android/companionapp/src/main/java/com/benoitletondor/pixelminimalwatchfacecompanion/billing/BillingImpl.kt:367-379 | keeps the invariant and moves the object by the acknowledgement transition |
| BillingImpl.Billing.ResumePremium | android/companionapp/src/main/java/com/benoitletondor/pixelminimalwatchfacecompanion/billing/BillingImpl.kt:307-309 | the pending premium flow, if any, is resumed with the result and cleared; the billing state stays coherent |
| BillingImpl.Billing.ResumeDonation | android/companionapp/src/main/java/com/benoitletondor/pixelminimalwatchfacecompanion/billing/BillingImpl.kt:315-320 | the pending donation flow, if any, is resumed with the outcome and cleared; the billing state stays coherent |
| PhoneBatteryConfigurationViewModel.PathsAgreeWithPhone | android/watchface/src/main/java/com/benoitletondor/pixelminimalwatchface/settings/phonebattery/PhoneBatteryConfigurationViewModel.kt:32-35 | the watch uses the same message paths as the phone app |
| PhoneBatteryConfigurationViewModel.AfterInitTimeout | android/watchface/src/main/java/com/benoitletondor/pixelminimalwatchface/settings/phonebattery/PhoneBatteryConfigurationViewModel.kt:60-66 | without a pending timeout nothing changes; a screen still loading shows phone not found with the stored flag; nothing else changes |
| PhoneBatteryConfigurationViewModel.AfterMessage | android/watchface/src/main/java/com/benoitletondor/pixelminimalwatchface/settings/phonebattery/PhoneBatteryConfigurationViewModel.kt:76-95 | only the sync-status path while waiting for an answer changes anything; a first byte shows and stores the flag it carries, and an empty payload shows no response |
| PhoneBatteryConfigurationViewModel.StatusChecked | android/watchface/src/main/java/com/benoitletondor/pixelminimalwatchface/settings/phonebattery/PhoneBatteryConfigurationViewModel.kt:190-198 | starts a query job to the node and sends it the status query with the stored flag; nothing else changes |
| PhoneBatteryConfigurationViewModel.AfterNodeFound | android/watchface/src/main/java/com/benoitletondor/pixelminimalwatchface/settings/phonebattery/PhoneBatteryConfigurationViewModel.kt:172-188 | a node is taken while searching, failed or showing another node: it shows as found and a query starts; a change of node counts one event; otherwise nothing changes |
| PhoneBatteryConfigurationViewModel.AfterNodesDetected | android/watchface/src/main/java/com/benoitletondor/pixelminimalwatchface/settings/phonebattery/PhoneBatteryConfigurationViewModel.kt:101-103 | an empty detection result changes nothing |
| PhoneBatteryConfigurationViewModel.AfterQuerySent | android/watchface/src/main/java/com/benoitletondor/pixelminimalwatchface/settings/phonebattery/PhoneBatteryConfigurationViewModel.kt:193-214 | only a query being sent reacts: success waits for the answer, failure shows the send error with the stored flag and ends the job |
| PhoneBatteryConfigurationViewModel.TimedOut | android/watchface/src/main/java/com/benoitletondor/pixelminimalwatchface/settings/phonebattery/PhoneBatteryConfigurationViewModel.kt:203-206 | the screen changes exactly when it still waits for that node's answer, and then shows no response with the stored flag |
| PhoneBatteryConfigurationViewModel.AfterQueryTimeout | android/watchface/src/main/java/com/benoitletondor/pixelminimalwatchface/settings/phonebattery/PhoneBatteryConfigurationViewModel.kt:201-206 | only a waiting query times out, and then the job ends |
| PhoneBatteryConfigurationViewModel.AfterToggleRequested | android/watchface/src/main/java/com/benoitletondor/pixelminimalwatchface/settings/phonebattery/PhoneBatteryConfigurationViewModel.kt:110-119 | only a screen showing the phone's answer reacts: it shows sending, starts a toggle job and sends the activate or deactivate request; the flag and the query are kept |
| PhoneBatteryConfigurationViewModel.AfterToggleSent | android/watchface/src/main/java/com/benoitletondor/pixelminimalwatchface/settings/phonebattery/PhoneBatteryConfigurationViewModel.kt:120-137 | only a toggle job being sent reacts: success waits for the answer, failure shows the send error with the stored flag and removes the job |
| PhoneBatteryConfigurationViewModel.AfterToggleTimeout | android/watchface/src/main/java/com/benoitletondor/pixelminimalwatchface/settings/phonebattery/PhoneBatteryConfigurationViewModel.kt:124-129 | only a waiting toggle job times out: it is removed and the screen shows the timeout |
| PhoneBatteryConfigurationViewModel.AfterForceDeactivate | android/watchface/src/main/java/com/benoitletondor/pixelminimalwatchface/settings/phonebattery/PhoneBatteryConfigurationViewModel.kt:218-226 | the stored flag becomes off, error and not-found screens show the flag off, other screens are unchanged, nothing else changes |
| PhoneBatteryConfigurationViewModel.StepShowsStoredFlag | android/watchface/src/main/java/com/benoitletondor/pixelminimalwatchface/settings/phonebattery/PhoneBatteryConfigurationViewModel.kt:57-233 | every event keeps the flag each screen displays equal to the stored flag |
| PhoneBatteryConfigurationViewModel.RunShowsStoredFlag | android/watchface/src/main/java/com/benoitletondor/pixelminimalwatchface/settings/phonebattery/PhoneBatteryConfigurationViewModel.kt:57-233 | any sequence of events keeps the displayed flag equal to the stored flag |
| PhoneBatteryConfigurationViewModel.AnsweredQueryIsNotTimedOut | android/watchface/src/main/java/com/benoitletondor/pixelminimalwatchface/settings/phonebattery/PhoneBatteryConfigurationViewModel.kt:190-206 | after a found node is queried and answers, the screen and the stored flag show the answer, and the later timeout leaves the screen alone |
| PhoneBatteryConfigurationViewModel.ViewModel.constructor | android/watchface/src/main/java/com/benoitletondor/pixelminimalwatchface/settings/phonebattery/PhoneBatteryConfigurationViewModel.kt:42-66 | starts loading with no jobs, the init timeout pending and the stored flag |
| PhoneBatteryConfigurationViewModel.ViewModel.OnInitTimeout | android/watchface/src/main/java/com/benoitletondor/pixelminimalwatchface/settings/phonebattery/PhoneBatteryConfigurationViewModel.kt:60-66 | the view model moves by the init-timeout transition |
| PhoneBatteryConfigurationViewModel.ViewModel.OnMessageReceived | android/watchface/src/main/java/com/benoitletondor/pixelminimalwatchface/settings/phonebattery/PhoneBatteryConfigurationViewModel.kt:76-95 | the view model moves by the message transition |
| PhoneBatteryConfigurationViewModel.ViewModel.CheckPhoneStatus | android/watchface/src/main/java/com/benoitletondor/pixelminimalwatchface/settings/phonebattery/PhoneBatteryConfigurationViewModel.kt:190-216 | the view model moves by the status-check transition |
| PhoneBatteryConfigurationViewModel.ViewModel.OnPhoneNodeFound | android/watchface/src/main/java/com/benoitletondor/pixelminimalwatchface/settings/phonebattery/PhoneBatteryConfigurationViewModel.kt:172-188 | the view model moves by the node-found transition |
| PhoneBatteryConfigurationViewModel.ViewModel.OnPhoneAppDetectionResult | android/watchface/src/main/java/com/benoitletondor/pixelminimalwatchface/settings/phonebattery/PhoneBatteryConfigurationViewModel.kt:97-103 | the view model moves by the nodes-detected transition |
| PhoneBatteryConfigurationViewModel.ViewModel.OnPhoneAppDetectionFailed | android/watchface/src/main/java/com/benoitletondor/pixelminimalwatchface/settings/phonebattery/PhoneBatteryConfigurationViewModel.kt:105-108 | the view model shows phone not found with the stored flag |
| PhoneBatteryConfigurationViewModel.ViewModel.OnQuerySendResult | android/watchface/src/main/java/com/benoitletondor/pixelminimalwatchface/settings/phonebattery/PhoneBatteryConfigurationViewModel.kt:193-214 | the view model moves by the query-sent transition |
| PhoneBatteryConfigurationViewModel.ViewModel.OnQueryTimeout | android/watchface/src/main/java/com/benoitletondor/pixelminimalwatchface/settings/phonebattery/PhoneBatteryConfigurationViewModel.kt:201-206 | the view model moves by the query-timeout transition |
| PhoneBatteryConfigurationViewModel.ViewModel.OnSyncWithPhoneToggled | android/watchface/src/main/java/com/benoitletondor/pixelminimalwatchface/settings/phonebattery/PhoneBatteryConfigurationViewModel.kt:110-170 | the view model moves by the toggle-request transition in the chosen direction |
| PhoneBatteryConfigurationViewModel.ViewModel.OnSyncWithPhoneActivated | android/watchface/src/main/java/com/benoitletondor/pixelminimalwatchface/settings/phonebattery/PhoneBatteryConfigurationViewModel.kt:110-139 | the view model moves by the toggle-request transition for activation |
| PhoneBatteryConfigurationViewModel.ViewModel.OnSyncWithPhoneDeactivated | android/watchface/src/main/java/com/benoitletondor/pixelminimalwatchface/settings/phonebattery/PhoneBatteryConfigurationViewModel.kt:141-170 | the view model moves by the toggle-request transition for deactivation |
| PhoneBatteryConfigurationViewModel.ViewModel.OnToggleSendResult | android/watchface/src/main/java/com/benoitletondor/pixelminimalwatchface/settings/phonebattery/PhoneBatteryConfigurationViewModel.kt:120-137 | the view model moves by the toggle-sent transition |
| PhoneBatteryConfigurationViewModel.ViewModel.OnToggleTimeout | android/watchface/src/main/java/com/benoitletondor/pixelminimalwatchface/settings/phonebattery/PhoneBatteryConfigurationViewModel.kt:124-129 | the view model moves by the toggle-timeout transition |
| PhoneBatteryConfigurationViewModel.ViewModel.OnForceDeactivateSyncClicked | android/watchface/src/main/java/com/benoitletondor/pixelminimalwatchface/settings/phonebattery/PhoneBatteryConfigurationViewModel.kt:218-226 | the view model moves by the force-deactivate transition |
| PhoneBatteryConfigurationViewModel.ViewModel.OnRetryConnectionClicked | android/watchface/src/main/java/com/benoitletondor/pixelminimalwatchface/settings/phonebattery/PhoneBatteryConfigurationViewModel.kt:228-233 | the screen goes back to loading and one retry event is counted |
| PhoneBatteryConfigurationViewModel.ViewModel.OnCleared | android/watchface/src/main/java/com/benoitletondor/pixelminimalwatchface/settings/phonebattery/PhoneBatteryConfigurationViewModel.kt:69-74 | no query, no toggle job and no init timeout is left |
| PhoneBatteryConfigurationAdapter.ItemViewType | android/watchface/src/main/java/com/benoitletondor/pixelminimalwatchface/settings/phonebattery/PhoneBatteryConfigurationAdapter.kt:93-108 | row 0 is the title; row 1 is the error row exactly for error and not-found, connecting exactly before any state or while loading, connected exactly for an answer, syncing exactly for the found, sending and waiting states |
| PhoneBatteryConfigurationAdapter.CreateViewHolder | android/watchface/src/main/java/com/benoitletondor/pixelminimalwatchface/settings/phonebattery/PhoneBatteryConfigurationAdapter.kt:40-65 | fails exactly for a view type outside the five known ones, naming it |
| PhoneBatteryConfigurationAdapter.CanDeactivateSync | android/watchface/src/main/java/com/benoitletondor/pixelminimalwatchface/settings/phonebattery/PhoneBatteryConfigurationAdapter.kt:79-83 | the deactivate button shows exactly on an error or not-found screen whose flag is on |
| PhoneBatteryConfigurationAdapter.Bind | android/watchface/src/main/java/com/benoitletondor/pixelminimalwatchface/settings/phonebattery/PhoneBatteryConfigurationAdapter.kt:68-91 | the switch is bound exactly for the connected holder on an answer, showing its flag; the error binding is used exactly for the error holder, and its deactivate button is visible exactly when sync can be deactivated |
| PhoneBatteryConfigurationAdapter.RowForStateBinds | android/watchface/src/main/java/com/benoitletondor/pixelminimalwatchface/settings/phonebattery/PhoneBatteryConfigurationAdapter.kt:68-108 | row 1 always gets a holder; a connected holder shows the phone's flag, and the deactivate button only appears on the error holder |
| PhoneBatteryConfigurationAdapter.DeactivateButtonFollowsStoredFlag | android/watchface/src/main/java/com/benoitletondor/pixelminimalwatchface/settings/phonebattery/PhoneBatteryConfigurationAdapter.kt:78-89 | with the view model's invariant, the button shows exactly on an error row while sync is stored as on, and never after force-deactivation |
| PhoneBatteryConfigurationAdapter.Adapter.constructor | android/watchface/src/main/java/com/benoitletondor/pixelminimalwatchface/settings/phonebattery/PhoneBatteryConfigurationAdapter.kt:33 | starts with no state |
| PhoneBatteryConfigurationAdapter.Adapter.SetState | android/watchface/src/main/java/com/benoitletondor/pixelminimalwatchface/settings/phonebattery/PhoneBatteryConfigurationAdapter.kt:35-38 | the given state becomes the one shown |
| PhoneBatteryConfigurationAdapter.Adapter.ItemCount | android/watchface/src/main/java/com/benoitletondor/pixelminimalwatchface/settings/phonebattery/PhoneBatteryConfigurationAdapter.kt:110 | one row before any state, two rows exactly once a state is set |
| WatchFaceDrawer.BatteryIconFor | android/watchface/src/main/java/com/benoitletondor/pixelminimalwatchface/WatchFaceDrawer.kt:522-532 | at most 10 percent shows the lowest icon and above 90 percent the full one |
| WatchFaceDrawer.CountBelowMonotone | android/watchface/src/main/java/com/benoitletondor/pixelminimalwatchface/WatchFaceDrawer.kt:522-532 | a larger percentage is above at least as many thresholds |
| WatchFaceDrawer.IconIsRankOfPercent | android/watchface/src/main/java/com/benoitletondor/pixelminimalwatchface/WatchFaceDrawer.kt:522-532 | the icon chosen is the one whose rank is the number of thresholds (10, 25, 40, 50, 70, 90) the percentage exceeds |
| WatchFaceDrawer.BatteryIconMonotone | android/watchface/src/main/java/com/benoitletondor/pixelminimalwatchface/WatchFaceDrawer.kt:522-532 | a higher percentage never shows a lower battery icon |
| WatchFaceDrawer.PrimaryColor | android/watchface/src/main/java/com/benoitletondor/pixelminimalwatchface/WatchFaceDrawer.kt:251-258 | a complication takes the colour of its own slot, and any other id that of the right slot |
| WatchFaceDrawer.PrimaryColorPerSlot | android/watchface/src/main/java/com/benoitletondor/pixelminimalwatchface/WatchFaceDrawer.kt:251-258 | the four complications use different slots, so changing one slot's colour leaves the other complications' colours alone |
| WatchFaceDrawer.DigitsAppend | android/watchface/src/main/java/com/benoitletondor/pixelminimalwatchface/WatchFaceDrawer.kt:487-493 | keeping the digits of two joined strings is joining the digits kept from each |
| WatchFaceDrawer.DigitsOfDigits | android/watchface/src/main/java/com/benoitletondor/pixelminimalwatchface/WatchFaceDrawer.kt:487-493 | keeping the digits of an all-digit string changes nothing |
| WatchFaceDrawer.Digits | android/watchface/src/main/java/com/benoitletondor/pixelminimalwatchface/WatchFaceDrawer.kt:487-493 | the result holds only digits, no more characters than the text, exactly the text's digit characters, and a one-character text is kept exactly when it is a digit |
| WatchFaceDrawer.ParseInt | android/watchface/src/main/java/com/benoitletondor/pixelminimalwatchface/WatchFaceDrawer.kt:487-493 | a digit string parses exactly when it is non-empty and fits in 32 bits, and then to its decimal value |
| WatchFaceDrawer.DecimalRoundTrip | android/watchface/src/main/java/com/benoitletondor/pixelminimalwatchface/WatchFaceDrawer.kt:487-493 | the decimal text of a natural number has that number as its value |
| WatchFaceDrawer.ReadBattery | android/watchface/src/main/java/com/benoitletondor/pixelminimalwatchface/WatchFaceDrawer.kt:487-493 | the percentage lies in 32 bits; the reading is "N/A" at 50 percent exactly when the text's digits do not parse, and otherwise the percentage is the digits' value and the text is that value followed by "%" |
| WatchFaceDrawer.ReadOwnLabel | android/watchface/src/main/java/com/benoitletondor/pixelminimalwatchface/WatchFaceDrawer.kt:487-493 | a label such as "57%" keeps its text and reads back as the percentage 57 |
| WatchFaceDrawer.UnreadableText | android/watchface/src/main/java/com/benoitletondor/pixelminimalwatchface/WatchFaceDrawer.kt:487-493 | text without digits, or with too many, reads "N/A" and shows the half-battery icon |
| WatchFaceDrawer.BatteryIndicator | android/watchface/src/main/java/com/benoitletondor/pixelminimalwatchface/WatchFaceDrawer.kt:482-497 | drawn exactly for a premium user with the battery shown and a non-blank short text; the reading comes from that text and the icon from the reading |
| WatchFaceDrawer.TextStyleFor | android/watchface/src/main/java/com/benoitletondor/pixelminimalwatchface/WatchFaceDrawer.kt:196-223 | title size exactly for a non-bottom complication with an icon and no short title; title colour exactly with an icon unless the bottom one has a long title, the same when ambient; otherwise the slot's colour, dimmed when ambient |
| WatchFaceDrawer.WeatherDisplayRect | android/watchface/src/main/java/com/benoitletondor/pixelminimalwatchface/WatchFaceDrawer.kt:703-714 | a rectangle exactly when the icon, the bitmap and the text end are known; it is the icon rectangle stretched to the end of the text |
| WatchFaceDrawer.TapOnWeather | android/watchface/src/main/java/com/benoitletondor/pixelminimalwatchface/WatchFaceDrawer.kt:225-235 | a tap hits weather exactly when weather is shown to a premium user, its rectangle is known and contains the point |
| WatchFaceDrawer.AfterWeatherDrawn | android/watchface/src/main/java/com/benoitletondor/pixelminimalwatchface/WatchFaceDrawer.kt:454-473 | keeps the cache and the size; the weather rectangle is the drawn layout's when weather is drawn, and unknown otherwise |
| WatchFaceDrawer.TapOnlyOnDrawnWeather | android/watchface/src/main/java/com/benoitletondor/pixelminimalwatchface/WatchFaceDrawer.kt:225-235 | a tap hits weather only if the last frame drew weather and the point lies in the rectangle drawn |
| WatchFaceDrawer.CacheChosen | android/watchface/src/main/java/com/benoitletondor/pixelminimalwatchface/WatchFaceDrawer.kt:272-277 | without screen data nothing is built; otherwise a cache is available, and an existing cache is kept while the time size is unchanged |
| WatchFaceDrawer.ShownOf | android/watchface/src/main/java/com/benoitletondor/pixelminimalwatchface/WatchFaceDrawer.kt:591-603 | the complications kept are no more than those given |
| WatchFaceDrawer.ShownOfMembers | android/watchface/src/main/java/com/benoitletondor/pixelminimalwatchface/WatchFaceDrawer.kt:591-603 | a complication is kept exactly when it is given and not hidden by the logo or the battery (both directions) |
| WatchFaceDrawer.DrawnComplications | android/watchface/src/main/java/com/benoitletondor/pixelminimalwatchface/WatchFaceDrawer.kt:591-603 | nothing is drawn for a non-premium user, or in ambient mode when complications are hidden there |
| WatchFaceDrawer.SkippedSlotsNotDrawn | android/watchface/src/main/java/com/benoitletondor/pixelminimalwatchface/WatchFaceDrawer.kt:591-603 | the middle complication is never drawn under the logo, the bottom one never under the battery, and the left one always for a premium user when active |
| WatchFaceDrawer.Drawer.constructor | android/watchface/src/main/java/com/benoitletondor/pixelminimalwatchface/WatchFaceDrawer.kt:112-116 | starts without screen data or complications, with the stored time size; settings are unchanged |
| WatchFaceDrawer.Drawer.OnSurfaceChanged | android/watchface/src/main/java/com/benoitletondor/pixelminimalwatchface/WatchFaceDrawer.kt:159-166 | records the new size with no cache; nothing else changes |
| WatchFaceDrawer.Drawer.SetComplicationDrawable | android/watchface/src/main/java/com/benoitletondor/pixelminimalwatchface/WatchFaceDrawer.kt:168-170 | the complication joins the drawable set, and nothing else joins or changes |
| WatchFaceDrawer.Drawer.BuildCache | android/watchface/src/main/java/com/benoitletondor/pixelminimalwatchface/WatchFaceDrawer.kt:297-319 | a fresh cache for the size, built with the stored time size; settings are unchanged |
| WatchFaceDrawer.Drawer.DrawComplications | android/watchface/src/main/java/com/benoitletondor/pixelminimalwatchface/WatchFaceDrawer.kt:585-609 | the loop draws exactly the complications the drawing rule selects from the stored settings, and reports the logo setting |
| WatchFaceDrawer.Drawer.EnsureCache | android/watchface/src/main/java/com/benoitletondor/pixelminimalwatchface/WatchFaceDrawer.kt:272-277 | the cache is the one the rebuild rule chooses, and the time size follows storage once screen data exists |
| WatchFaceDrawer.Drawer.ReadFrameSettings | android/watchface/src/main/java/com/benoitletondor/pixelminimalwatchface/WatchFaceDrawer.kt:288-290 | returns the stored premium, seconds-ring and battery settings, changing none |
| WatchFaceDrawer.Drawer.DrawFromCache | android/watchface/src/main/java/com/benoitletondor/pixelminimalwatchface/WatchFaceDrawer.kt:423-520 | the frame holds the complications drawn, the logo, the seconds ring only when active, and the battery indicator; the weather rectangle is recorded |
| WatchFaceDrawer.Drawer.Draw | android/watchface/src/main/java/com/benoitletondor/pixelminimalwatchface/WatchFaceDrawer.kt:260-295 | no frame exactly without screen data; otherwise the cache is chosen, the frame is drawn from the stored settings, and the weather rectangle is recorded |
| WatchFaceDrawer.Drawer.TapIsOnWeather | android/watchface/src/main/java/com/benoitletondor/pixelminimalwatchface/WatchFaceDrawer.kt:225-235 | a tap hits weather exactly as the stored settings and the last recorded rectangle say |
| ComplicationConfigAdapter.CreateViewHolder | android/watchface/src/main/java/com/benoitletondor/pixelminimalwatchface/settings/ComplicationConfigRecyclerViewAdapter.kt:90-249 | a holder exactly for the codes 0..15 other than 2, of the view type with that code; any other code is an error naming it |
| ComplicationConfigAdapter.HolderForEveryViewType | android/watchface/src/main/java/com/benoitletondor/pixelminimalwatchface/settings/ComplicationConfigRecyclerViewAdapter.kt:90-249 | every view type's code gives a holder of that view type, and no two view types share a code |
| ComplicationConfigAdapter.GenerateSettingsList | android/watchface/src/main/java/com/benoitletondor/pixelminimalwatchface/settings/ComplicationConfigRecyclerViewAdapter.kt:343-376 | the header first, feedback and footer last, each row at most once, 10 to 14 rows, and a row present exactly when premium, screen shape and weather availability allow it |
| ComplicationConfigAdapter.SettingsAdapter.constructor | android/watchface/src/main/java/com/benoitletondor/pixelminimalwatchface/settings/ComplicationConfigRecyclerViewAdapter.kt:88 | reads premium from storage and keeps the screen shape and weather availability; stored settings are unchanged |
| ComplicationConfigAdapter.SettingsAdapter.ItemViewType | android/watchface/src/main/java/com/benoitletondor/pixelminimalwatchface/settings/ComplicationConfigRecyclerViewAdapter.kt:339 | a code exactly for a listed position, and the holder created for it is that row's |
| ComplicationConfigAdapter.SettingsAdapter.ItemCount | android/watchface/src/main/java/com/benoitletondor/pixelminimalwatchface/settings/ComplicationConfigRecyclerViewAdapter.kt:341 | 10 to 14 rows, and a position has a view type exactly when it is below the count |
| ComplicationConfigAdapter.SnapTimeSize | android/watchface/src/main/java/com/benoitletondor/pixelminimalwatchface/settings/ComplicationConfigRecyclerViewAdapter.kt:674 | the result is a multiple of 25 lying within one step of the progress, toward zero |
| ComplicationConfigAdapter.SnapIdempotent | android/watchface/src/main/java/com/benoitletondor/pixelminimalwatchface/settings/ComplicationConfigRecyclerViewAdapter.kt:672-678 | snapping an already snapped value changes nothing |
| ComplicationConfigAdapter.SnapGivesKnownSize | android/watchface/src/main/java/com/benoitletondor/pixelminimalwatchface/settings/ComplicationConfigRecyclerViewAdapter.kt:674 | a progress between 0 and 100 snaps to a size the time-size table knows |
| ComplicationConfigAdapter.FilledTimeSwitchChecked | android/watchface/src/main/java/com/benoitletondor/pixelminimalwatchface/settings/ComplicationConfigRecyclerViewAdapter.kt:660-662 | the switch shows the negation of the stored setting |
| ComplicationConfigAdapter.FilledTimeReported | android/watchface/src/main/java/com/benoitletondor/pixelminimalwatchface/settings/ComplicationConfigRecyclerViewAdapter.kt:654-658 | the listener reports the negation of the switch's state |
| ComplicationConfigAdapter.FilledTimeInversion | android/watchface/src/main/java/com/benoitletondor/pixelminimalwatchface/settings/ComplicationConfigRecyclerViewAdapter.kt:654-662 | reporting the bound switch state gives the stored setting back, and flipping the switch reports its negation |
| ComplicationConfigAdapter.Ordinal | android/watchface/src/main/java/com/benoitletondor/pixelminimalwatchface/settings/ComplicationConfigRecyclerViewAdapter.kt:410-415 | each location's ordinal lies in 0..3 |
| ComplicationConfigAdapter.LocationAt | android/watchface/src/main/java/com/benoitletondor/pixelminimalwatchface/settings/ComplicationConfigRecyclerViewAdapter.kt:422-424 | a location exactly for 0..3, and it is the one with that ordinal |
| ComplicationConfigAdapter.WriteLocation | android/watchface/src/main/java/com/benoitletondor/pixelminimalwatchface/settings/ComplicationConfigRecyclerViewAdapter.kt:413-415 | the parcel gains exactly the location's ordinal, and its cursor does not move |
| ComplicationConfigAdapter.CreateLocationFromParcel | android/watchface/src/main/java/com/benoitletondor/pixelminimalwatchface/settings/ComplicationConfigRecyclerViewAdapter.kt:421-424 | returns the location of the int at the cursor and moves past it; the data is unchanged |
| ComplicationConfigAdapter.LocationReadWritten | android/watchface/src/main/java/com/benoitletondor/pixelminimalwatchface/settings/ComplicationConfigRecyclerViewAdapter.kt:413-424 | the ordinal written, wherever it sits in the parcel, reads back as the same location |
| ComplicationConfigAdapter.LocationParcelRoundTrip | android/watchface/src/main/java/com/benoitletondor/pixelminimalwatchface/settings/ComplicationConfigRecyclerViewAdapter.kt:413-424 | writing a location into a parcel and reading it back yields the same location |
| WidgetConfigAdapter.ItemViewTypeAt | android/watchface/src/main/java/com/benoitletondor/pixelminimalwatchface/settings/WidgetConfigRecyclerViewAdapter.kt:93-100 | positions 0, 1 and 2 have view types 0, 1 and 2; any other position is an error naming it |
| WidgetConfigAdapter.WidgetHolderFor | android/watchface/src/main/java/com/benoitletondor/pixelminimalwatchface/settings/WidgetConfigRecyclerViewAdapter.kt:52-73 | a holder exactly for the codes 0..2, of the view type with that code; any other code is an error naming it |
| WidgetConfigAdapter.SlotOf | android/watchface/src/main/java/com/benoitletondor/pixelminimalwatchface/settings/WidgetConfigRecyclerViewAdapter.kt:83-88 | the colour of the location's own slot |
| WidgetConfigAdapter.WidgetAdapter.constructor | android/watchface/src/main/java/com/benoitletondor/pixelminimalwatchface/settings/WidgetConfigRecyclerViewAdapter.kt:39-50 | keeps the location and title, shows the colour row, and has no colour holder or colour yet |
| WidgetConfigAdapter.WidgetAdapter.ItemCount | android/watchface/src/main/java/com/benoitletondor/pixelminimalwatchface/settings/WidgetConfigRecyclerViewAdapter.kt:102-104 | two or three rows, each with a holder, and the last is the colour row exactly when it is shown |
| WidgetConfigAdapter.WidgetAdapter.UpdateComplication | android/watchface/src/main/java/com/benoitletondor/pixelminimalwatchface/settings/WidgetConfigRecyclerViewAdapter.kt:122-125 | the colour row is shown exactly when a provider is set; nothing else changes |
| WidgetConfigAdapter.WidgetAdapter.OnCreateViewHolder | android/watchface/src/main/java/com/benoitletondor/pixelminimalwatchface/settings/WidgetConfigRecyclerViewAdapter.kt:52-73 | returns the holder for the code, or the error, and remembers when a colour holder was made |
| WidgetConfigAdapter.WidgetAdapter.BindColorRow | android/watchface/src/main/java/com/benoitletondor/pixelminimalwatchface/settings/WidgetConfigRecyclerViewAdapter.kt:81-88 | binds and shows the location's slot of the store's colours, loading and caching them if needed; the file is unchanged |
| WidgetConfigAdapter.WidgetAdapter.UpdatePreviewColors | android/watchface/src/main/java/com/benoitletondor/pixelminimalwatchface/settings/WidgetConfigRecyclerViewAdapter.kt:127-129 | the new colour is shown only if a colour holder exists; nothing else changes |
| WidgetConfiguration.TitlesDistinct | android/watchface/src/main/java/com/benoitletondor/pixelminimalwatchface/settings/WidgetConfigurationActivity.kt:46-51 | different locations have different titles |
| WidgetConfiguration.DefaultColorFor | android/watchface/src/main/java/com/benoitletondor/pixelminimalwatchface/settings/WidgetConfigurationActivity.kt:58-63 | a location's default is its slot of the default colours, flagged default with the "Default" label |
| WidgetConfiguration.WithSlot | android/watchface/src/main/java/com/benoitletondor/pixelminimalwatchface/settings/WidgetConfigurationActivity.kt:100-105 | the chosen location takes the new colour and the other three keep theirs |
| WidgetConfiguration.DecodedSlot | android/watchface/src/main/java/com/benoitletondor/pixelminimalwatchface/settings/WidgetConfigurationActivity.kt:98-99 | a location's loaded colour is its stored slot decoded against its default |
| WidgetConfiguration.SelectedColorStored | android/watchface/src/main/java/com/benoitletondor/pixelminimalwatchface/settings/WidgetConfigurationActivity.kt:98-105 | after storing a chosen colour, the other locations load as before and the chosen one loads as chosen whenever the choice is canonical |
| WidgetConfiguration.PickableColorsStorable | android/watchface/src/main/java/com/benoitletondor/pixelminimalwatchface/settings/WidgetConfigurationActivity.kt:94-105 | the default and every palette colour are canonical for every slot, so each survives storage |
| WidgetConfiguration.WidgetConfigurationActivity.constructor | android/watchface/src/main/java/com/benoitletondor/pixelminimalwatchface/settings/WidgetConfigurationActivity.kt:41-84 | a fresh adapter with the location's title shows the colour row; no result is set |
| WidgetConfiguration.WidgetConfigurationActivity.OnActivityResult | android/watchface/src/main/java/com/benoitletondor/pixelminimalwatchface/settings/WidgetConfigurationActivity.kt:86-110 | other results change nothing; a provider result shows the colour row exactly when a provider was chosen; a chosen colour is stored in its slot, cached and previewed |

## Left out

- Drawing on the Android canvas (paints, bitmaps, text measurement, float geometry) is not modelled. The weather layout and the surface size enter as parameters, and the cache is a record of the settings it was built from.
- BatteryStatusBroadcastReceiver.BatteryLevelPercent: the percentage is computed on unbounded integers. Float rounding for levels too large for a float's mantissa is not captured.
- WatchFaceDrawer.ReadBattery: treats only ASCII '0'-'9' as digits and only ASCII spaces as whitespace. Kotlin's isDigit and isWhitespace also accept other Unicode characters.
- The 24-hour and short-date formats read during drawing are not modelled, because they come from system settings.
- The complication ids are defined outside the modelled files; the model names the four slots and lets every other id be any integer.
- The time-size SeekBar's re-entrant onProgressChanged and its maximum are not modelled; the slider value enters as a parameter.
- The PorterDuff colour filter is represented by the colour it applies.
- Reading a `lateinit` property before it is set throws in Kotlin; every getter and setter of `StorageImpl` requires that `init` has run (its `initialized` flag), so the model never reads the store before that.
- Coroutine interleavings, the launch delay and thread switching are not modelled; each callback runs as one atomic transition.
- The premium data item (putDataItem) and its timestamp are left out; only the premium message is modelled.
- Kotlin `Set`s of nodes are modelled as sequences in the order the system returns them, and capability node lists are never null.
- The companion app's Storage and its notification-shown flag are cells holding a value; their SharedPreferences plumbing is not modelled.
- The wallpaper check and the building of the notification itself are not modelled, because they are Android services.
- `Node` equality is value equality of the id and the nearby flag.
- The billing client is abstract: its asynchronous replies arrive as events. SKU detail queries and multiple consume callbacks for one purchase are reduced to one reply each.
- The `!!` on the location extra of the widget configuration intent is taken to succeed; the location is a parameter.
- `Injection.storage` is taken once, at construction.
- View-holder visibility, animations and other view mutations are not modelled; only the data bound is.
- onComplicationColorsUpdate (WatchFaceDrawer.kt:172-194) and tapIsInCenterOfScreen (WatchFaceDrawer.kt:237-248) are not modelled: the first only rebuilds paints, and the second is plain float geometry.
- openPlayStoreOnWatch, the capability listener subscription calls, onDestroy and onConnectedNodes are not modelled, because they only forward to Android services.
- WatchFaceDrawer.PrimaryColor: getComplicationPrimaryColor is declared to return an Int colour, but the model returns the slot's ComplicationColor, whose `color` field is that Int.
- SyncImpl.SendBatteryStatus: the contract states the byte only for percentages from 0 to 127. Above that, the value is the 8-bit truncation `ToByte` gives, which the contract does not restate.
- The ProviderInfoRetriever attach and detach calls and the permission callbacks (weatherComplicationPermissionFinished, batteryComplicationPermissionFinished) are not modelled, because they only call into Android.
- onBindViewHolder of the settings adapter is not modelled beyond the filled-time switch; the other rows only copy stored values into views.
- describeContents is not modelled, because it always returns 0 and nothing depends on it.

## Findings

| source | as written | input that shows it | evidently intended | confidence | as-written member | corrected member |
|---|---|---|---|---|---|---|
| android/companionapp/src/main/java/com/benoitletondor/pixelminimalwatchfacecompanion/billing/BillingImpl.kt:280-284 | on ITEM_ALREADY_OWNED the premium continuation is resumed but not set to null | a pending premium flow gets ITEM_ALREADY_OWNED; then a donation flow is launched and its purchase arrives; the update resumes the premium continuation a second time and never resumes the donation | clear the continuation after resuming it, as the other branches do | not executed | BillingImpl.AlreadyOwnedResumesTwice | BillingImpl.AlreadyOwnedResumesOnce |
| android/companionapp/src/main/java/com/benoitletondor/pixelminimalwatchfacecompanion/billing/BillingImpl.kt:241-246 | onBillingServiceDisconnected resumes the premium continuation with an error but leaves it set | a premium purchase awaiting acknowledgement, then a disconnection, then the acknowledgement: the continuation is resumed twice | clear the continuation after resuming it | not executed | BillingImpl.DisconnectResumesTwice | BillingImpl.DisconnectResumesOnce |

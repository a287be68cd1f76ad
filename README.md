# RFID reader client: connection/scan state machine and tag ledger

This project models the sequential logic of an Android client for an RFID
sled reader. It has two parts.

- `RFIDManager` owns two flags, `isConnected` and `isScanning`, and one
  listener. It posts four kinds of events to the main thread:
  connection-changed, scanning-changed, tag-found and error. Its driver is a
  placeholder. While scanning, a simulated loop reports a tag every few
  seconds. The tag ID is `"E200"` followed by the loop's counter in eight
  upper-case hexadecimal digits. The RSSI is −50 minus a random offset below 30.
- `MainActivity` keeps a tag ledger. `foundTags` is the set of IDs seen.
  `tagList` holds one record per ID, newest first sighting on top. A repeat
  sighting updates its record's RSSI and time in place. The screen's buttons
  are enabled or disabled from the manager's callbacks.

Files:

- `tag_ids.dfy` (module `TagIds`): the ID encoder `TagId` and a parser
  `ParseTagId` that inverts it, the RSSI formula, and the wrapping counter.
  A Java `int` is modelled by its 32-bit two's-complement pattern, which is
  exactly what `%08X` prints.
- `rfid_manager.dfy` (module `Rfid`): one step function per public
  operation. Each gives the new flags and the events posted, in order.
  `Run` chains operations. The class `Manager` performs the same steps in
  place, on fields `connected`, `scanning`, `tagCount`, `listener`, `posted`
  (what went to the main handler) and `delivered` (what a listener received).
  Each method's postcondition equates the new state with its step function.
- `tag_ledger.dfy` (module `Ledger`): the class `TagLedger` with
  `foundTags: set<string>` and `tagList: seq<TagInfo>`. `Observe` specifies
  one sighting. The invariant `Valid()` says the set is exactly the IDs in the
  list and the list has no duplicate IDs.
- `buttons.dfy` (module `Buttons`): the button rules of `onError`,
  `onConnectionStatusChanged` and `onScanningStatusChanged`. A lemma shows
  that after any run that issues `connect` only while disconnected, starting
  with the buttons in step with the flags from a state that scans only while
  connected (such as the initial one), the buttons are exactly what `onError`
  would set for the manager's flags.

Each operation is one atomic step. Posting an event and delivering it happen
together, and the listener is checked at that moment. The model follows the
code as written. Some consequences:

- `connect` has no guard against being called while connected or connecting.
  A failed `connect` clears `isConnected` but not `isScanning`
  (`Rfid.FailedConnectWhileScanning`). So the invariant "scanning only while
  connected" is proved for runs that issue `connect` only while disconnected
  (`Rfid.ConnectsOnlyWhenDisconnected`). The screen's buttons enforce this.
- A failed `connect` reports the message "連接失敗: 連接失敗". This is the
  prefix "連接失敗: " plus the message of the exception that `connect` throws
  itself.
- `disconnect` has no driver call that can fail. It always ends disconnected
  and posts no error.
- `startScanning` checks its guards on the caller's thread. It sets
  `isScanning` inside the new thread. If the scan thread failed, the code would
  post an error but no scanning-changed(false). No such failure can happen in
  this code.

## Model

| member | source | states |
|---|---|---|
| `TagIds.DigitChar` | app/src/main/java/com/hohsiang/rfid/RFIDManager.java:220 | each value below 16 becomes an upper-case hex digit that reads back as that value |
| `TagIds.HexDigits` | app/src/main/java/com/hohsiang/rfid/RFIDManager.java:220 | for n < 16^k, `%0kX` prints exactly k hex digits (always the case here: the counter is below 2^32 and k = 8) |
| `TagIds.HexValueOfDigits` | app/src/main/java/com/hohsiang/rfid/RFIDManager.java:220 | printing a number below 16^k in k digits and reading it back gives the number |
| `TagIds.HexDigitsOfValue` | app/src/main/java/com/hohsiang/rfid/RFIDManager.java:220 | reading k hex digits and printing the value in k digits gives the same string |
| `TagIds.TagId` | app/src/main/java/com/hohsiang/rfid/RFIDManager.java:220 | a simulated tag ID is 12 characters: "E200" then eight hex digits |
| `TagIds.ParseTagIdRoundTrip` | app/src/main/java/com/hohsiang/rfid/RFIDManager.java:220 | parsing the ID of a counter gives back that counter |
| `TagIds.TagIdOfParse` | app/src/main/java/com/hohsiang/rfid/RFIDManager.java:220 | every string the parser accepts is the ID of the counter it returns |
| `TagIds.TagIdInjective` | app/src/main/java/com/hohsiang/rfid/RFIDManager.java:220 | distinct counters give distinct tag IDs |
| `TagIds.NextCounter` | app/src/main/java/com/hohsiang/rfid/RFIDManager.java:219 | `tagCount++` adds one and wraps from the last 32-bit pattern to 0 |
| `TagIds.Rssi` | app/src/main/java/com/hohsiang/rfid/RFIDManager.java:221 | the simulated RSSI lies in [−79, −50], and the offset can be recovered from it |
| `Rfid.StartScanningRules` | app/src/main/java/com/hohsiang/rfid/RFIDManager.java:124-147 | when not connected: exactly one error "設備未連接" and no state change; when already scanning: no event and no change; otherwise: scanning on, the counter reset, and one scanning-changed(true) |
| `Rfid.StopScanningRules` | app/src/main/java/com/hohsiang/rfid/RFIDManager.java:160-176 | when not scanning: no event and no change; otherwise: scanning off, connection untouched, and one scanning-changed(false) |
| `Rfid.ConnectRules` | app/src/main/java/com/hohsiang/rfid/RFIDManager.java:63-96 | the new state is the old one with the connected flag set to the driver's result (scanning and the counter untouched); success posts connection-changed(true); failure posts an error, then connection-changed(false) |
| `Rfid.FailedConnectWhileScanning` | app/src/main/java/com/hohsiang/rfid/RFIDManager.java:85-93 | a failed connect while scanning leaves the manager scanning but disconnected |
| `Rfid.DisconnectRules` | app/src/main/java/com/hohsiang/rfid/RFIDManager.java:98-122 | the new state is the old one with both flags false (the counter untouched); when scanning, scanning-changed(false) comes before connection-changed(false) |
| `Rfid.CleanupIdempotent` | app/src/main/java/com/hohsiang/rfid/RFIDManager.java:236-240 | cleanup leaves the manager disconnected (and not scanning, under the invariant); a second cleanup posts nothing and changes nothing |
| `Rfid.ScanTickRules` | app/src/main/java/com/hohsiang/rfid/RFIDManager.java:214-228 | one pass of the scan loop reports a tag only if still scanning; the tag carries the incremented counter's ID and an RSSI in [−79, −50] |
| `Rfid.ScanTicksEmitCounters` | app/src/main/java/com/hohsiang/rfid/RFIDManager.java:211-234 | while scanning and before the counter wraps, the k-th tag of a scan loop has the ID of its start counter plus k, and the counter rises by one per tag |
| `Rfid.ScanTicksDistinctIds` | app/src/main/java/com/hohsiang/rfid/RFIDManager.java:213-220 | the tags of one scan loop all have distinct IDs until the counter wraps |
| `Rfid.ApplyKeepsInvariant` | app/src/main/java/com/hohsiang/rfid/RFIDManager.java:63-182 | every operation keeps "scanning only while connected" when connect starts disconnected |
| `Rfid.RunKeepsInvariant` | app/src/main/java/com/hohsiang/rfid/RFIDManager.java:63-240 | any run that calls connect only while disconnected keeps "scanning only while connected" |
| `Rfid.ApplyEventsTrackFlags` | app/src/main/java/com/hohsiang/rfid/RFIDManager.java:63-234 | each operation's events leave a listener's view of both flags equal to the real flags, and no tag is reported while that view is "not scanning" |
| `Rfid.RunEventsTrackFlags` | app/src/main/java/com/hohsiang/rfid/RFIDManager.java:63-240 | over any run, the events keep the listener's view of both flags exact, and no tag-found follows scanning-changed(false) until scanning-changed(true) |
| `Rfid.Deliver` | app/src/main/java/com/hohsiang/rfid/RFIDManager.java:76-80 | a posted event reaches the registered listener in posting order, and nothing is delivered when there is no listener |
| `Rfid.Manager.constructor` | app/src/main/java/com/hohsiang/rfid/RFIDManager.java:19-22 | a new manager is disconnected, not scanning, has no listener and has posted nothing |
| `Rfid.Manager.SetConnectionListener` | app/src/main/java/com/hohsiang/rfid/RFIDManager.java:59-61 | replaces the single listener and changes nothing else |
| `Rfid.Manager.Post` | app/src/main/java/com/hohsiang/rfid/RFIDManager.java:172-176 | appends the event to the posted events, and to the delivered events when a listener is set |
| `Rfid.Manager.NotifyError` | app/src/main/java/com/hohsiang/rfid/RFIDManager.java:192-198 | posts one error event and changes no flag |
| `Rfid.Manager.Connect` | app/src/main/java/com/hohsiang/rfid/RFIDManager.java:63-96 | new flags and events are those of the connect step for the driver's result |
| `Rfid.Manager.Disconnect` | app/src/main/java/com/hohsiang/rfid/RFIDManager.java:98-122 | new flags and events are those of the disconnect step, stopping the scan first |
| `Rfid.Manager.StartScanning` | app/src/main/java/com/hohsiang/rfid/RFIDManager.java:124-158 | new flags, counter and events are those of the start-scanning step |
| `Rfid.Manager.StopScanning` | app/src/main/java/com/hohsiang/rfid/RFIDManager.java:160-182 | new flags and events are those of the stop-scanning step |
| `Rfid.Manager.Cleanup` | app/src/main/java/com/hohsiang/rfid/RFIDManager.java:236-240 | disconnects only when connected |
| `Rfid.Manager.EmitNextTag` | app/src/main/java/com/hohsiang/rfid/RFIDManager.java:218-228 | one pass re-checks the flag and has the effect of one scan-tick step |
| `Rfid.Manager.ScanLoop` | app/src/main/java/com/hohsiang/rfid/RFIDManager.java:211-234 | the loop's passes have the effect of the scan-tick steps in order |
| `Ledger.UpdateFirst` | app/src/main/java/com/hohsiang/rfid/MainActivity.java:247-253 | the update of a repeat sighting keeps the list length |
| `Ledger.UpdateFirstAt` | app/src/main/java/com/hohsiang/rfid/MainActivity.java:247-253 | the search stops at the first record with the ID, and only that record's RSSI and time change |
| `Ledger.UpdateFirstChangesOnlyMatch` | app/src/main/java/com/hohsiang/rfid/MainActivity.java:247-253 | with no duplicate IDs, exactly the record with the ID gets the new RSSI and time; every other record stays as it was |
| `Ledger.UpdateFirstKeepsIds` | app/src/main/java/com/hohsiang/rfid/MainActivity.java:247-253 | a repeat sighting keeps every record's ID in place, the ID set, and the absence of duplicates |
| `Ledger.ObserveNew` | app/src/main/java/com/hohsiang/rfid/MainActivity.java:236-239 | an unseen ID gets a new record at index 0; the length grows by one, older records shift down unchanged, and the ID joins the set |
| `Ledger.ObserveSeen` | app/src/main/java/com/hohsiang/rfid/MainActivity.java:245-254 | a seen ID keeps length, order and ID set, and updates the RSSI and time of its record only |
| `Ledger.ObserveKeepsNoDuplicates` | app/src/main/java/com/hohsiang/rfid/MainActivity.java:236-254 | every sighting keeps the list free of duplicate IDs, and the list's IDs become the old IDs plus the sighted one |
| `Ledger.CountIsLength` | app/src/main/java/com/hohsiang/rfid/MainActivity.java:204-206 | with no duplicate IDs, the number of distinct IDs equals the number of records |
| `Ledger.ScenarioABAC` | app/src/main/java/com/hohsiang/rfid/MainActivity.java:233-257 | sightings A, B, A, C give the order C, B, A and a count of 3, and A holds its last RSSI and time |
| `Ledger.ScenarioT1T1T2` | app/src/main/java/com/hohsiang/rfid/MainActivity.java:233-257 | sightings T1, T1, T2: new, update, new; the order is T2, T1 and the count is 2 |
| `Ledger.TagLedger.constructor` | app/src/main/java/com/hohsiang/rfid/MainActivity.java:38-39 | the ledger starts empty and valid |
| `Ledger.TagLedger.OnTagFound` | app/src/main/java/com/hohsiang/rfid/MainActivity.java:233-257 | keeps the ledger invariant; reports "new" exactly for an unseen ID; the list becomes the sighting's result, and the set gains the ID |
| `Ledger.TagLedger.ClearTags` | app/src/main/java/com/hohsiang/rfid/MainActivity.java:144-149 | both the set and the list become empty, so the count is 0 |
| `Ledger.TagLedger.TagCount` | app/src/main/java/com/hohsiang/rfid/MainActivity.java:204-206 | the count shown (the set's size) equals the number of records |
| `Buttons.AfterErrorRules` | app/src/main/java/com/hohsiang/rfid/MainActivity.java:265-268 | after an error: Start-Scan exactly when connected and not scanning, Stop-Scan exactly when scanning, Connect exactly when not connected, Disconnect exactly when connected |
| `Buttons.AfterErrorConsistent` | app/src/main/java/com/hohsiang/rfid/MainActivity.java:265-268 | under the manager's invariant, the reset never enables both scan buttons, enables exactly one of Connect and Disconnect, and enables a scan button only together with Disconnect |
| `Buttons.AfterScanningChangedRules` | app/src/main/java/com/hohsiang/rfid/MainActivity.java:273-290 | scanning turns Start-Scan off and Stop-Scan on; not scanning turns Start-Scan on and Stop-Scan off; Connect and Disconnect are untouched |
| `Buttons.AfterConnectionChangedRules` | app/src/main/java/com/hohsiang/rfid/MainActivity.java:212-224 | on disconnection only Connect is enabled; on connection Connect is disabled, Disconnect and Start-Scan are enabled, and Stop-Scan is untouched |
| `Buttons.ApplyKeepsButtonsInStep` | app/src/main/java/com/hohsiang/rfid/MainActivity.java:209-291 | if the buttons match the manager's flags before an operation that is not `connect` while connected, from a state that scans only while connected, they match them again once its events are delivered |
| `Buttons.RunKeepsButtonsInStep` | app/src/main/java/com/hohsiang/rfid/MainActivity.java:209-291 | over any run that calls connect only while disconnected, starting with the buttons in step from a state that scans only while connected (such as the initial one), the buttons end as `onError` would set them for the flags |

## Left out

- Threads, `Handler.post` and `runOnUiThread` are not modelled. Each operation is one atomic step, and its events are delivered at once in posting order. Races are not modelled: a stop racing an in-flight poll, a stop followed by a start within the loop's 3-second sleep (the old `simulateScanning` thread then wakes to `isScanning` true and keeps reporting from its own counter beside the new loop, which starts at 0; the model has one scan loop and one counter, reset by `startScanning`), two `startScanning` calls that both pass the guard before the flag is set, or a listener replaced between posting and delivery.
- `Thread.sleep` delays and the `InterruptedException` paths in `simulateConnection` and `simulateScanning` are not modelled. The driver's connect result is an input flag. Each pass of the scan loop is an explicit step.
- `Math.random` is floating point. The model takes the RSSI offset `(int)(Math.random() * 30)` as an integer input in [0, 30).
- `System.currentTimeMillis` is the `now` parameter.
- The placeholder SDK objects and `initializeSDK` have no behaviour, so they are left out. The `catch` blocks of `disconnect`, `stopScanning` and the scanning thread cannot be reached in this code, because nothing in their `try` blocks throws. They are left out.
- The getters `isConnected()` and `isScanning()` are plain field reads of `Manager.connected` and `Manager.scanning`.
- `Ledger.TagLedger.OnTagFound`: a `TagInfo` is modelled as a value, and its update replaces the element of `tagList`. The identity of the Java object, and aliasing of it, are not modelled. Nothing else holds a reference to it.
- The buttons' own click handlers (`connectRFID`, `disconnectRFID`, `startScanning`, `stopScanning` in the activity) briefly disable buttons before the manager answers. The model does not include them. Their effect is overwritten by the callbacks that follow. Views, text, colours, Toasts and the delayed hide of the scan status are not modelled.
- The permission request and result handling is Android platform glue and is not modelled.

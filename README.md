# MqttTester core, modelled in Dafny

MqttTester is an iOS app for exercising an MQTT broker by hand: it connects
with a chosen profile, publishes accelerometer readings to a topic and logs
what the broker sends back. The MQTT protocol itself lives in the CocoaMQTT
library. This model covers the logic the app implements around it:

- **Event registry** (`events.dfy`, module `Events`): `Event<T>`, a map from
  listener identity to a weakly held listener and its action. Identity is
  Dafny object identity; a weak reference is an `alive` flag, cleared by
  `ListenerReleased` when the environment deallocates the object. `Notify`
  prunes dead entries and returns the calls it makes (`Call(listener, action,
  subject)`), exactly one per live entry, in no stated order.
- **Sensor window** (`sensor.dfy`, module `Sensor`): each axis keeps a
  200-slot `array<real>`; `Add` shifts it left by one and puts the new
  reading last. `SlideAllKeepsLatest` proves the window always holds the
  latest readings. `UpdateProperties` feeds one sample to x, y and z,
  notifies the change listeners and republishes the three snapshots.
- **Publish markers** (`sender.dfy`, module `Sender`): one marker per
  published message, aged on each sensor change and filtered out once
  `value > -count` fails; an acknowledgement marks the first marker with
  that packet identifier. `FilterRemovesExpired` ties the filter to
  index-based removal, so the survivors keep their order, and
  `MarkerLifetimeInList` shows that every marker, wherever it stands in the
  list, stays for as many updates as it is inside the window; a new marker
  stays for `count - 1`.
- **Profiles** (`profiles.dfy`, module `Profiles`): the item rules
  (`Init`, `Forward`, `UpdateTo`, title), Save, Add, delete with the
  fallback of the selection to a fresh forward item.
- **Topics** (`topics.dfy`, module `Topics`): add, delete, rename and
  tap-selection, the current-topic holder and its `TopicString`. Topic
  identities stay unique. Containment compares identity and title, so
  `RenamedSelectionIsDropped` shows that a selected topic renamed in the
  list is deselected by the next deletion of any rows.
- **View model** (`mqtt.dfy`, module `Mqtt`): the credentials `connect`
  hands to the client, `connected == (status == .connected)` as an
  invariant, and the message log, which the delegate callbacks only append to.
  The rendering of a non-text payload as `[b0, b1, ...]` is proved lossless
  (`Text.RenderBytesRoundTrip`).
- Shared pieces: `common.dfy` (Option, UUID, `UInt16`, byte), `lists.dfy`
  (`remove(atOffsets:)` as `RemoveAtOffsets`, which keeps the elements at
  the ascending indices `Kept`; `map`), `text.dfy` (decimal rendering,
  `joined(separator:)`, and a parser for the byte-list rendering).

The CocoaMQTT client is an abstract collaborator. Each call the view model
makes on it is appended to `requests`. What the client reports comes in as
parameters of the delegate methods. These are the subscription snapshot,
the payload bytes and their UTF-8 decoding, and the error description. UUIDs
come from a counter field (`nextUuid`) that stands for the generator.

## Model

| member | source | states |
|---|---|---|
| `Lists.RemoveAtOffsets` | MqttTester/View/ProfileSelector.swift:204 | `remove(atOffsets:)` leaves the elements at the kept indices, which ascend, so the survivors keep their relative order |
| `Lists.RemoveAtOffsetsLength` | MqttTester/View/TopicSelector.swift:82 | with in-range offsets exactly `|offsets|` elements are removed |
| `Lists.InRemoveAtOffsets` | MqttTester/View/TopicSelector.swift:82-84 | an element is still present after removal iff it stood at some index that was not removed |
| `Events.Event.constructor` | MqttTester/Core/Sahred.swift:104 | a new event has no listeners |
| `Events.Event.AddListener` | MqttTester/Core/Sahred.swift:106-109 | the entry for the listener's identity is set to a live listener with the action; re-adding replaces, so the count grows only for a new identity |
| `Events.Event.RemoveListener` | MqttTester/Core/Sahred.swift:111-114 | only that identity's entry goes; an absent identity leaves the map unchanged |
| `Events.Event.ListenerReleased` | MqttTester/Core/Sahred.swift:100 | deallocating a listener clears its weak reference and nothing else |
| `Events.Event.Notify` | MqttTester/Core/Sahred.swift:116-125 | afterwards the map holds exactly the previously live entries; every live entry's action is called exactly once with the subject; no dead entry's action is called |
| `Text.Decimal` | MqttTester/Core/MqttViewModel.swift:117 | `String(n)`: a non-empty string of digits without a leading zero |
| `Text.DecimalRoundTrip` | MqttTester/Core/MqttViewModel.swift:117 | reading back the decimal rendering gives the number |
| `Text.RenderBytesRoundTrip` | MqttTester/Core/MqttViewModel.swift:117 | parsing the `[b0, b1, ...]` rendering gives the payload bytes back |
| `Text.CanonicalRoundTrip` | MqttTester/Core/MqttViewModel.swift:117 | a digit string without a leading zero is `String(n)` of the number it denotes, so `String(n)` is the only such way to write `n` |
| `Text.ParseBytesRendered` | MqttTester/Core/MqttViewModel.swift:117 | conversely, a string that parses to a payload is exactly that payload's rendering, so the rendering is fixed character for character |
| `Text.Join` | MqttTester/Core/MqttViewModel.swift:117 | `joined(separator:)` starts with the first part and is as long as the parts plus one separator between each neighbouring two |
| `Text.JoinSnoc` | MqttTester/Core/MqttViewModel.swift:117 | appending a part to a non-empty list appends the separator and then the part, which with the one-part case fixes the joined text |
| `Text.Decimals` | MqttTester/Core/MqttViewModel.swift:117 | `payload.map({ String($0) })`: one decimal rendering per byte, in order |
| `Text.RenderBytes` | MqttTester/Core/MqttViewModel.swift:117 | the byte list is bracketed, and is `[]` exactly for the empty payload; by `RenderBytesRoundTrip` and `ParseBytesRendered` it is the one string that parses to the payload |
| `Sensor.Slide` | MqttTester/Core/SensorViewModel.swift:23-26 | `add` keeps the length, drops the oldest value, keeps the rest in order and puts the new value last |
| `Sensor.SlideAllKeepsLatest` | MqttTester/Core/SensorViewModel.swift:21-26 | after k additions the window is the old values not yet pushed out followed by the k readings, or the last n readings once k ≥ n |
| `Sensor.DataModel.constructor` | MqttTester/Core/SensorViewModel.swift:18-21 | a new axis window holds exactly 200 zeros |
| `Sensor.DataModel.Add` | MqttTester/Core/SensorViewModel.swift:23-26 | the array in place becomes `Slide` of its old contents (requires a non-empty window) |
| `Sensor.DataModel.Snapshot` | MqttTester/Core/SensorViewModel.swift:59 | the value copy of an axis published in `data` |
| `Sensor.SensorViewModel.constructor` | MqttTester/Core/SensorViewModel.swift:31-41 | `count` is 200 and equals the window length; axes x, y, z start at zero; no data, no listeners |
| `Sensor.SensorViewModel.UpdateProperties` | MqttTester/Core/SensorViewModel.swift:51-61 | with a sample, each axis gets its component, each live listener is called once with 0 and its registered action, and `data` becomes `[x, y, z]`; without one nothing changes |
| `Sensor.SensorViewModel.Subscribe` | MqttTester/Core/SensorViewModel.swift:70-72 | registers the listener on the change event |
| `Sender.Init` | MqttTester/Core/SenderViewModel.swift:14-16 | a new marker is at 0 and not acknowledged |
| `Sender.Move` | MqttTester/Core/SenderViewModel.swift:18-20 | `move` lowers `value` by exactly 1 and keeps `id` and `sended` |
| `Sender.Send` | MqttTester/Core/SenderViewModel.swift:22-24 | `send` sets `sended` and keeps `id` and `value` |
| `Sender.SendIdempotent` | MqttTester/Core/SenderViewModel.swift:22-24 | sending twice is sending once |
| `Sender.Filter` | MqttTester/Core/SenderViewModel.swift:42 | the filter is no longer than its input, keeps only markers with `value > -count` and keeps every such marker |
| `Sender.FilterRemovesExpired` | MqttTester/Core/SenderViewModel.swift:42 | the filter removes exactly the expired indices, so survivors keep their relative order |
| `Sender.Tick` | MqttTester/Core/SenderViewModel.swift:37-44 | one update never lengthens the list; what remains is exactly the aged markers still inside the window |
| `Sender.TickAppend` | MqttTester/Core/SenderViewModel.swift:37-44 | an update treats each marker independently: it distributes over concatenation |
| `Sender.TicksAppend` | MqttTester/Core/SenderViewModel.swift:37-44 | any number of updates distribute over concatenation |
| `Sender.MarkerLifetime` | MqttTester/Core/SenderViewModel.swift:37-44 | a lone marker in the window stays, one step older per update, while `value > -count`, then disappears |
| `Sender.MarkerLifetimeInList` | MqttTester/Core/SenderViewModel.swift:37-44 | the same holds for a marker anywhere in the list, and its neighbours age independently |
| `Sender.IndexOfId` | MqttTester/Core/SenderViewModel.swift:52-53 | the search finds the first marker with the packet id, or reports that none has it |
| `Sender.MarkFirst` | MqttTester/Core/SenderViewModel.swift:50-59 | an ack marks the marker at `IndexOfId` and changes nothing else; an unknown id changes nothing |
| `Sender.SenderViewModel.constructor` | MqttTester/Core/SenderViewModel.swift:33-60 | registers itself on the sensor change event and both publish events, one handler each |
| `Sender.SenderViewModel.OnSensorChange` | MqttTester/Core/SenderViewModel.swift:37-44 | every marker moves by one in the index loop, then the expired ones are filtered out |
| `Sender.SenderViewModel.OnPublished` | MqttTester/Core/SenderViewModel.swift:46-48 | exactly one new marker `(id, 0, false)` is appended; earlier markers are unchanged |
| `Sender.SenderViewModel.OnAck` | MqttTester/Core/SenderViewModel.swift:50-59 | the search loop with early return leaves `data == MarkFirst(old data, id)` |
| `Profiles.Init` | MqttTester/View/ProfileSelector.swift:25-31 | the default item: empty strings and `isForward == false` |
| `Profiles.Forward` | MqttTester/View/ProfileSelector.swift:21-23 | `.forward` has `isForward` set and all strings empty |
| `Profiles.UpdateTo` | MqttTester/View/ProfileSelector.swift:33-38 | login, password, label and client id come from the item; identity and kind stay |
| `Profiles.Title` | MqttTester/View/ProfileSelector.swift:40-42 | the title is the label when the label is non-empty, else the login; it is empty exactly when both are |
| `Profiles.CanAdd` | MqttTester/View/ProfileSelector.swift:185 | Add is enabled only when the label or the login is non-empty, and a disabled item would have an empty title |
| `Profiles.UpdateToIdempotent` | MqttTester/View/ProfileSelector.swift:33-42 | updating twice is updating once, and the title becomes the item's title |
| `Profiles.AddableIffTitled` | MqttTester/View/ProfileSelector.swift:40-42 | the Add button's enabling rule (line 185) holds exactly when the title is non-empty |
| `Profiles.FirstIndexOfId` | MqttTester/View/ProfileSelector.swift:145 | `firstIndex(where:)` finds the first profile with the id, and finds none exactly when no profile has it |
| `Profiles.Saved` | MqttTester/View/ProfileSelector.swift:145 | the first profile with the id takes the edited fields; other profiles, identities and order are unchanged |
| `Profiles.SelectionSurvivesDelete` | MqttTester/View/ProfileSelector.swift:206-208 | after a deletion the current identity is still listed iff it was at a row that was not deleted |
| `Profiles.ProfileSelector.constructor` | MqttTester/View/ProfileSelector.swift:46-53 | starts from the stored list and the bound selection, not editing, with a blank editing item; every identity is below the UUID counter, which every method keeps |
| `Profiles.ProfileSelector.ToggleEditMode` | MqttTester/View/ProfileSelector.swift:108-109 | the Edit button flips edit mode |
| `Profiles.ProfileSelector.ChooseForward` | MqttTester/View/ProfileSelector.swift:59-63 | selects a fresh forward item, whose identity no listed profile has, only outside edit mode |
| `Profiles.ProfileSelector.TapProfile` | MqttTester/View/ProfileSelector.swift:77-98 | outside edit mode selects the row; in edit mode loads it into the edit sheet |
| `Profiles.ProfileSelector.EditForm` | MqttTester/View/ProfileSelector.swift:127-137 | the text fields change only the editing item's four strings |
| `Profiles.ProfileSelector.Save` | MqttTester/View/ProfileSelector.swift:143-146 | closes the sheet and applies `Saved`; requires a profile with the edited id (force unwrap) |
| `Profiles.ProfileSelector.CancelEdit` | MqttTester/View/ProfileSelector.swift:150-153 | closes the edit sheet |
| `Profiles.ProfileSelector.OnAdd` | MqttTester/View/ProfileSelector.swift:198-201 | in edit mode (the + button is shown only there): a blank item whose identity neither a listed nor the selected profile has, and the add sheet toggled |
| `Profiles.ProfileSelector.Add` | MqttTester/View/ProfileSelector.swift:180-186 | enabled only for a labelled or named item, which is appended at the end |
| `Profiles.ProfileSelector.CancelAdd` | MqttTester/View/ProfileSelector.swift:188-191 | closes the add sheet |
| `Profiles.ProfileSelector.OnDelete` | MqttTester/View/ProfileSelector.swift:203-209 | removes exactly the indexed rows; the selection falls back to a fresh forward item iff its identity is gone, and that item's identity is not listed |
| `Topics.DeletePreservesUniqueIds` | MqttTester/View/TopicSelector.swift:82 | deleting rows keeps topic identities unique |
| `Topics.RenamedSelectionIsDropped` | MqttTester/View/TopicSelector.swift:84-86 | containment compares id and title, so a renamed selected topic is deselected by the next deletion |
| `Topics.CurrentItem.constructor` | MqttTester/View/TopicSelector.swift:93 | no topic is selected at first |
| `Topics.CurrentItem.TopicString` | MqttTester/View/TopicSelector.swift:95-97 | the selected topic's title, or empty when none is selected |
| `Topics.TopicSelectorContent.constructor` | MqttTester/View/TopicSelector.swift:18-19 | starts from the stored topics, not editing, with the UUID counter at its first value |
| `Topics.TopicSelectorContent.ToggleEditMode` | MqttTester/View/TopicSelector.swift:62-63 | the Edit button flips edit mode |
| `Topics.TopicSelectorContent.OnAdd` | MqttTester/View/TopicSelector.swift:77-79 | in edit mode (the + button is shown only there): appends exactly one untitled topic with a fresh identity |
| `Topics.TopicSelectorContent.EditTitle` | MqttTester/View/TopicSelector.swift:44-45 | in edit mode a row's text field changes that topic's title only |
| `Topics.TopicSelectorContent.TapTopic` | MqttTester/View/TopicSelector.swift:25-29 | a tap selects the topic outside edit mode and does nothing in edit mode |
| `Topics.TopicSelectorContent.OnDelete` | MqttTester/View/TopicSelector.swift:81-87 | removes exactly the indexed rows; the selection becomes nil iff it is no longer contained |
| `Mqtt.ConnectConfig` | MqttTester/Core/MqttViewModel.swift:59-65 | the forward profile takes the app-level client id, user name and password, a stored profile its own; TLS on; untrusted CAs as `allowSerts` says |
| `Mqtt.AsUInt16` | MqttTester/Core/MqttViewModel.swift:126 | `as? UInt16` succeeds exactly for numbers in range, and then gives that number |
| `Mqtt.RenderPayload` | MqttTester/Core/MqttViewModel.swift:117 | the text when the payload decodes, else a byte list that parses back to the payload, which by `ParseBytesRendered` is exactly `[String(b0), String(b1), ...]` joined with ", " |
| `Mqtt.AsString` | MqttTester/Core/MqttViewModel.swift:126 | `as? String` succeeds exactly for strings, and then gives that string |
| `Mqtt.SuccessContentReadsBack` | MqttTester/Core/MqttViewModel.swift:129 | the success text carries the topic right after its fixed prefix and ends with the granted QoS in decimal, which reads back as that QoS |
| `Mqtt.SuccessLine` | MqttTester/Core/MqttViewModel.swift:126-131 | a pair gives a line iff its key is a `String` and its value a `UInt16`, and then exactly the success line for that topic and QoS |
| `Mqtt.SuccessEntries` | MqttTester/Core/MqttViewModel.swift:126-132 | at most one success line per pair, all at success level |
| `Mqtt.SuccessEntriesSingle` | MqttTester/Core/MqttViewModel.swift:126-132 | a one-pair result gives exactly that pair's `SuccessLine` |
| `Mqtt.SuccessEntriesAppend` | MqttTester/Core/MqttViewModel.swift:126-132 | the lines of a concatenation are the lines of each part in order, so with `SuccessEntriesSingle` any mixed list gives its pairs' lines in order |
| `Mqtt.SuccessEntriesWellTyped` | MqttTester/Core/MqttViewModel.swift:126-132 | with only `String`/`UInt16` pairs, each pair gives its line, in order |
| `Mqtt.SuccessEntriesSkipsIllTyped` | MqttTester/Core/MqttViewModel.swift:128-131 | pairs whose key is not a `String` or whose value is not a `UInt16` give no line |
| `Mqtt.FailureEntries` | MqttTester/Core/MqttViewModel.swift:136-138 | one error line per failed topic, in order |
| `Mqtt.UnsubscribeEntries` | MqttTester/Core/MqttViewModel.swift:144-146 | one warning line per topic, in order |
| `Mqtt.MqttViewModel.constructor` | MqttTester/Core/MqttViewModel.swift:29-56 | default settings, disconnected and not connected, empty log, forward profile from the counter's first value, which then moves on by one |
| `Mqtt.MqttViewModel.Log` | MqttTester/Core/MqttViewModel.swift:118 | `messages.append` adds exactly one line at the end, with a fresh identity |
| `Mqtt.MqttViewModel.Connect` | MqttTester/Core/MqttViewModel.swift:58-70 | a client configured by `ConnectConfig`, asked to connect with timeout 10 |
| `Mqtt.MqttViewModel.Disconnect` | MqttTester/Core/MqttViewModel.swift:72-74 | asks the client to disconnect |
| `Mqtt.MqttViewModel.Publish` | MqttTester/Core/MqttViewModel.swift:76-78 | asks the client to publish the string on the topic |
| `Mqtt.MqttViewModel.Subscribe` | MqttTester/Core/MqttViewModel.swift:80-83 | exactly one info line, then the subscribe request (QoS 1 by default) |
| `Mqtt.MqttViewModel.Unsubscribe` | MqttTester/Core/MqttViewModel.swift:85-87 | asks the client to unsubscribe the topic |
| `Mqtt.MqttViewModel.UnsubscribeAll` | MqttTester/Core/MqttViewModel.swift:89-91 | a single unsubscribe request listing all the topics the client reports |
| `Mqtt.MqttViewModel.DidReceiveTrust` | MqttTester/Core/MqttViewModel.swift:96-98 | every certificate chain is trusted |
| `Mqtt.MqttViewModel.DidStateChangeTo` | MqttTester/Core/MqttViewModel.swift:103-106 | `status` takes the state, `connected == (status == .connected)` is kept, the subscription list is refreshed |
| `Mqtt.MqttViewModel.DidPublishMessage` | MqttTester/Core/MqttViewModel.swift:108-110 | notifies the publish event's live listeners once each, with the packet id and the action each registered |
| `Mqtt.MqttViewModel.DidPublishAck` | MqttTester/Core/MqttViewModel.swift:112-114 | notifies the ack event's live listeners once each, with the packet id and the action each registered |
| `Mqtt.MqttViewModel.DidReceiveMessage` | MqttTester/Core/MqttViewModel.swift:116-120 | appends exactly one message-level line with the rendered payload |
| `Mqtt.MqttViewModel.AppendAll` | MqttTester/Core/MqttViewModel.swift:134 | `append(contentsOf:)` adds the lines at the end, each with a fresh identity |
| `Mqtt.MqttViewModel.LogEach` | MqttTester/Core/MqttViewModel.swift:136-138 | the `forEach` appends one line per element, in order |
| `Mqtt.MqttViewModel.DidSubscribeTopics` | MqttTester/Core/MqttViewModel.swift:122-139 | refreshes the subscriptions, then appends the success lines and then the failure lines; earlier lines untouched |
| `Mqtt.MqttViewModel.DidUnsubscribeTopics` | MqttTester/Core/MqttViewModel.swift:141-147 | refreshes the subscriptions and appends one warning line per topic; earlier lines untouched |
| `Mqtt.MqttViewModel.MqttDidDisconnect` | MqttTester/Core/MqttViewModel.swift:153-158 | sets `error` only when an error is given |

## Left out

- The CocoaMQTT client: packet encoding, QoS handshakes, keep-alive and topic matching happen inside it. The model records the requests made to it and takes its reports as parameters.
- `didConnectAck`, `mqttDidPing` and `mqttDidReceivePong` have empty bodies, so there is nothing to model.
- The `print` calls in `didReceiveMessage` and `mqttDidDisconnect` are console output.
- Persistence: the `UserDefaults`-backed `Published` initialisers and the JSON `RawRepresentable` extensions. Constructors start from the declared defaults, or take the stored lists as parameters.
- `String.widthOfString` needs UIKit font metrics.
- CoreMotion: starting the accelerometer, its update interval and `getSensorData`'s floating-point formatting. A sample is an opaque `Acceleration` of reals.
- Threading and Combine: the `$status` → `connected` pipeline is applied in the same step as the state change. Main-queue dispatch is not modelled.
- Dictionary iteration order in `notify` and in the client's subscription list: no order is stated.
- Events.Event.Notify: the actions are returned as calls, not run. Re-entrant changes to the registry made by an action during the walk are not modelled. Reuse of a deallocated object's `ObjectIdentifier` by a new object is not modelled.
- The wiring from a returned call to the closure it stands for is not automatic. A caller runs `OnSensorChange`, `OnPublished` or `OnAck` on the `SenderViewModel` named by the call's `Handler`. The closures' `[weak self]` test is implied by the entry being live, because the listener is `self`.
- `SenderViewModel`'s `weak var mqqt` is never read after `init`, so it is not kept.
- The UUID generator is a counter. The profile selector's constructor requires the stored profiles and the bound selection to have identities below the counter's first value. The topic selector's constructor requires the stored topics to have distinct identities below it. Both stand for `UUID()` never repeating.
- Payload UTF-8 decoding (`message.string`) and `Error.localizedDescription` are supplied as parameters.
- Mqtt.QosDescription: the client library's QoS `description` text is assumed to be `qos0`/`qos1`/`qos2`.
- SwiftUI layout, sheets, navigation, alerts, previews and the `dismiss()` after a topic tap. `ProfileSelector`'s `@Binding currentProfile` is a field of the selector, not linked to the view model.

# Firefly Luciferin settings and MQTT logic in Dafny

Firefly Luciferin is an ambient-lighting desktop application: it captures
the screen and drives an LED strip mounted around it, and it can be started
and stopped remotely over MQTT. This project models the value logic hidden
inside two of its classes and proves what that logic promises.

From the settings window (`SettingsController`):

- `scaleResolution`, with Java's 32-bit wrap-around and truncating division;
- the listener that keeps the numeric text fields digit-only, including its
  re-entrant `setText` call;
- the broker address, written as `host:port` on save and split at the last
  `:` on load;
- the OS scaling, written as `<n>%` on load and parsed back on save;
- the whole form as it is filled from a configuration and saved back into
  one, and what happens after the configuration file is written;
- the arithmetic of the LED test pattern: colour cycling, the number shown
  on each LED (reversed in clockwise mode), and which of the five strips
  (bottom-right, right, top, left, bottom-left) each LED key falls on.

From the broker connection manager (`MQTTManager`):

- how an inbound payload becomes a start command, a stop command or
  nothing;
- the command topic and the stream topic;
- the `connected` and `reconnectionThreadRunning` fields and the global
  `communicationError` flag, as changed by the constructor,
  `attemptReconnect`, `connectionLost` and each run of the reconnection
  poll. These are modelled twice: as a class whose broker client logs every
  call, and as a pure state machine over event traces that the lemmas
  reason about.

Files:

- `java_lang.dfy` (module `JavaLang`) holds Java `int` and `String`
  semantics: wrap-around, `/`, `String.valueOf`, `Integer.parseInt`,
  `lastIndexOf`, `contains` and `replace`.
- `config.dfy` (module `Config`) holds the configuration record and the
  application's two statics.
- `settings.dfy` (module `Settings`), `test_pattern.dfy` (module
  `TestPattern`) and `mqtt.dfy` (module `Mqtt`) hold the rest.

Broker calls (connect, subscribe, publish) and the `MqttClient` constructor
may each succeed or throw. The model chooses the outcome nondeterministically
and records it in the client's call log. The values of the `Constants` class
are not part of this model. The start and stop tokens, the stream-topic
suffix, the name of the clockwise orientation and the client id are
therefore parameters. The `%` suffix is taken from the scaling choices listed
at `SettingsController.java:107`.

`connectionLost` guards the scheduling of the reconnection poll on
`reconnectionThreadRunning`, which suggests a single poll task was meant.
But nothing ever sets that flag to `true` (`MQTTManager.java:40`, `:128`),
so each lost connection schedules one more poll task. The model follows the
code (`Mqtt.RunSchedulesOnePollPerLoss`, `Mqtt.TwoLossesTwoPolls`).

The poll lambda and the two publish methods catch only `MqttException`. A
`RuntimeException` from the client reaches the caller of `publishToTopic`
and `stream`, and inside the poll lambda it ends that scheduled task for
good, since the executor suppresses the later runs of a task that threw.
Broker calls therefore end one of three ways in the model: they return,
throw an `MqttException`, or throw a `RuntimeException`.

The constructor registers the manager as the client's callback before it
subscribes (`MQTTManager.java:82-83`). A first connection that failed only
at `subscribe` therefore leaves a client that can still report a lost
connection, and the poll that follows can reconnect the manager while the
communication error stays set (`Mqtt.FailedSubscribeCanReconnect`).

## Model

| member | source | states |
|---|---|---|
| `JavaLang.JavaDiv` | src/main/java/org/dpsoftware/gui/SettingsController.java:520 | Java `int` division: the result fits in 32 bits, its magnitude is the rounded-down quotient of the magnitudes, it is negative exactly when the signs differ and the quotient is non-zero, and `MIN_VALUE / -1` gives `MIN_VALUE` |
| `JavaLang.ParseIntOfStringOf` | src/main/java/org/dpsoftware/gui/SettingsController.java:223-224 | `Integer.parseInt` of `String.valueOf(n)` gives back `n` for every `int`, negative ones included |
| `JavaLang.LastIndexOf` | src/main/java/org/dpsoftware/gui/SettingsController.java:235-236 | `lastIndexOf(':')` is -1 exactly when there is no `:`; otherwise it is a `:` with no `:` after it |
| `JavaLang.ContainsIffOccurs` | src/main/java/org/dpsoftware/MQTTManager.java:155-157 | `contains` holds exactly when the token occurs at some position of the payload |
| `Config.AppGlobals.constructor` | src/main/java/org/dpsoftware/MQTTManager.java:51 | the statics hold the stored configuration and start without a communication error, which, in the two classes modelled here, only a failed first connection raises |
| `Settings.ScaleResolutionIdentity` | src/main/java/org/dpsoftware/gui/SettingsController.java:519-521 | at a ratio of 100, `scaleResolution` returns its input, for every input whose product with 100 does not overflow |
| `Settings.ScaleResolution` | src/main/java/org/dpsoftware/gui/SettingsController.java:519-521 | with a ratio of at least 100 a non-negative size never grows, for every `int` input including those whose product with 100 wraps; it stays non-negative while the product fits |
| `Settings.ScaleResolutionOverflows` | src/main/java/org/dpsoftware/gui/SettingsController.java:519-521 | just past the overflow bound the product wraps: 21474837 at 100% comes out as -21474835 |
| `Settings.ScalingOptionsShrink` | src/main/java/org/dpsoftware/gui/SettingsController.java:107 | each offered scaling (100% to 350%) shrinks or keeps a non-negative size and reads back from its `<n>%` text as itself |
| `Settings.KeepDigits` | src/main/java/org/dpsoftware/gui/SettingsController.java:531 | removing the non-digits leaves only digits, leaves a digit-only text unchanged and never lengthens the text |
| `Settings.KeepDigitsIsDigitSubsequence` | src/main/java/org/dpsoftware/gui/SettingsController.java:531 | the filtered text is the characters at the digit positions of the input, taken in increasing order, with no digit position missed |
| `Settings.Sanitize` | src/main/java/org/dpsoftware/gui/SettingsController.java:529-532 | what the listener leaves in the field is digit-only and no longer than what was typed, and a digit-only text is left as typed |
| `Settings.SanitizeIdempotent` | src/main/java/org/dpsoftware/gui/SettingsController.java:529-532 | the listener always leaves a text matching `\d*`; a text that already matches is kept; one that does not gets strictly shorter; filtering twice equals filtering once |
| `Settings.NumericTextField.constructor` | src/main/java/org/dpsoftware/gui/SettingsController.java:155-157 | a field starts with the text it is given and no listener, because the form is filled before the listeners are attached |
| `Settings.NumericTextField.AddTextFieldListener` | src/main/java/org/dpsoftware/gui/SettingsController.java:527-534 | attaches the listener and keeps the current text |
| `Settings.NumericTextField.SetText` | src/main/java/org/dpsoftware/gui/SettingsController.java:529-532 | with the listener attached, setting a value different from the current one ends with the filtered value after the listener's nested `setText` returns; setting the current value again notifies no one and stores it as given, since a JavaFX change listener hears only of changes; a field holding only digits keeps holding only digits; without the listener the value is stored as given |
| `Settings.NumericTextField.TextChanged` | src/main/java/org/dpsoftware/gui/SettingsController.java:529-532 | the listener returns on `\d*` and otherwise sets the digits, which leaves the filtered value in the field |
| `Settings.SplitServer` | src/main/java/org/dpsoftware/gui/SettingsController.java:235-236 | splitting the stored address succeeds exactly when it contains `:`; without one, `substring(0, -1)` throws |
| `Settings.JoinServer` | src/main/java/org/dpsoftware/gui/SettingsController.java:287 | the saved address always contains `:`, and when the port has none the separator is the last `:` of the address, wherever the host has its own |
| `Settings.SplitAfterJoin` | src/main/java/org/dpsoftware/gui/SettingsController.java:287 | splitting `host + ":" + port` gives back `host` and `port` whenever the port has no `:`, even if the host has some |
| `Settings.SplitAfterJoinDigits` | src/main/java/org/dpsoftware/gui/SettingsController.java:625 | the same round trip holds for every digit-only port, which is what the digit listener on the port field leaves |
| `Settings.JoinAfterSplit` | src/main/java/org/dpsoftware/gui/SettingsController.java:235-236 | joining the two halves of a split address gives back the stored address |
| `Settings.FormatScaling` | src/main/java/org/dpsoftware/gui/SettingsController.java:225 | the scaling text ends in `%`, and removing every `%` leaves exactly `String.valueOf` of the number |
| `Settings.ParseScaling` | src/main/java/org/dpsoftware/gui/SettingsController.java:283 | reading the scaling back yields an `int` when it succeeds, and a text without `%` is parsed as it stands |
| `Settings.ScalingRoundTrip` | src/main/java/org/dpsoftware/gui/SettingsController.java:283 | parsing `osScaling + "%"` with the `%` removed gives back `osScaling`, for every `int` |
| `Settings.LoadForm` | src/main/java/org/dpsoftware/gui/SettingsController.java:221-249 | over the modelled record, filling the form from a configuration succeeds exactly when the stored broker address contains `:` |
| `Settings.SaveConfiguration` | src/main/java/org/dpsoftware/gui/SettingsController.java:256-298 | a saved configuration's broker address is `host:port` from the form, and saving succeeds only if every numeric field is non-empty |
| `Settings.SaveAfterLoad` | src/main/java/org/dpsoftware/gui/SettingsController.java:221-249 | opening the settings and saving without edits stores the configuration unchanged, for every configuration whose address contains `:` |
| `Settings.LoadAfterSaveBroker` | src/main/java/org/dpsoftware/gui/SettingsController.java:287 | after a save, reopening the settings shows the host and the digit-only port that were typed |
| `Settings.CommitSave` | src/main/java/org/dpsoftware/gui/SettingsController.java:300-312 | when the file is written, the new configuration becomes the global one, and the window closes on first start-up or the application exits otherwise; on an IOException nothing changes |
| `TestPattern.ColorToUse` | src/main/java/org/dpsoftware/gui/SettingsController.java:450-455 | for every key of at least 1 the subtract-3 loop ends in 1..3 at `(key - 1) mod 3 + 1`; smaller keys are left as they are |
| `TestPattern.FillFor` | src/main/java/org/dpsoftware/gui/SettingsController.java:456-460 | 1 is red, 2 is green, and the `default` arm paints every other value blue, non-positive ones included |
| `TestPattern.FillCycles` | src/main/java/org/dpsoftware/gui/SettingsController.java:456-460 | keys congruent to 1, 2, 0 modulo 3 are red, green, blue; colours repeat every three keys and neighbours differ |
| `TestPattern.LedLabel` | src/main/java/org/dpsoftware/gui/SettingsController.java:462-467 | each LED's text is `#` followed by at least one more character |
| `TestPattern.LabelNumber` | src/main/java/org/dpsoftware/gui/SettingsController.java:463-466 | in clockwise mode the number and the key add up to the total plus one, so keys of 1..total get numbers of 1..total; otherwise the number is the key |
| `TestPattern.LedLabelReadsBack` | src/main/java/org/dpsoftware/gui/SettingsController.java:464 | the number after `#` parses back to the LED's number |
| `TestPattern.ClockwiseLabelInRange` | src/main/java/org/dpsoftware/gui/SettingsController.java:463-464 | in clockwise mode every key of 1..total gets a number in 1..total, and numbering twice gives back the key |
| `TestPattern.ClockwiseLabelsReverseKeys` | src/main/java/org/dpsoftware/gui/SettingsController.java:463-467 | the clockwise numbers of keys 1..total are those keys in reverse order, hence a permutation of them |
| `TestPattern.SegmentOf` | src/main/java/org/dpsoftware/gui/SettingsController.java:470-502 | with non-negative counts, every key of 1..total is drawn on the strip whose block of the running sums contains it |
| `TestPattern.SegmentOfBlocks` | src/main/java/org/dpsoftware/gui/SettingsController.java:470-502 | with non-negative counts, a key of 1..total is on a strip exactly when it lies in that strip's block of the running sums; the blocks run bottom-right, right, top, left, bottom-left and end at the total |
| `TestPattern.SegmentOfMonotone` | src/main/java/org/dpsoftware/gui/SettingsController.java:470-502 | a higher key never lies on an earlier strip |
| `TestPattern.PlanTestPattern` | src/main/java/org/dpsoftware/gui/SettingsController.java:448-467 | visiting the LED keys in order gives, for each key, the colour, text and strip of the closed forms above |
| `Mqtt.MessageCommand` | src/main/java/org/dpsoftware/MQTTManager.java:155-159 | a payload in which the start token occurs starts capturing; otherwise one in which the stop token occurs stops it; otherwise nothing happens |
| `Mqtt.MessageCommandSurrounded` | src/main/java/org/dpsoftware/MQTTManager.java:155-159 | a start token surrounded by any text starts capturing, whatever else the payload holds; a surrounded stop token stops capturing when the start token is absent |
| `Mqtt.Step` | src/main/java/org/dpsoftware/MQTTManager.java:124-141 | a lost connection clears `connected` and schedules a poll unless `reconnectionThreadRunning` is set; a tick with no task or while connected changes nothing; otherwise the tick connects exactly when `subscribe` returns, and a RuntimeException ends its task; neither event touches the communication error or `reconnectionThreadRunning` |
| `Mqtt.StreamTopic` | src/main/java/org/dpsoftware/MQTTManager.java:112 | the stream topic begins with the topic `publishToTopic` uses and differs from it exactly when the suffix is non-empty |
| `Mqtt.RunSchedulesOnePollPerLoss` | src/main/java/org/dpsoftware/MQTTManager.java:127-142 | along any sequence of lost connections and poll ticks, `reconnectionThreadRunning` stays false, every lost connection adds one poll task, tasks end only through a RuntimeException of their `subscribe` (at most one per such tick), and the communication error never changes |
| `Mqtt.TwoLossesTwoPolls` | src/main/java/org/dpsoftware/MQTTManager.java:128 | two lost connections leave two poll tasks |
| `Mqtt.ConnectedTicksAreIdle` | src/main/java/org/dpsoftware/MQTTManager.java:131 | once connected, poll ticks change nothing and make no subscribe call until the next lost connection |
| `Mqtt.ReconnectsIffSomeTickSucceeds` | src/main/java/org/dpsoftware/MQTTManager.java:131-139 | a disconnected manager, with no further lost connection, is connected again exactly when some tick's `subscribe` returned while fewer RuntimeExceptions had occurred than there were poll tasks |
| `Mqtt.FailedConstructionNeverRetries` | src/main/java/org/dpsoftware/MQTTManager.java:47-57 | after a failed first connection the communication error is set, and without a lost connection no tick changes anything or subscribes |
| `Mqtt.LostThenReconnectedScenario` | src/main/java/org/dpsoftware/MQTTManager.java:124-141 | connected, then lost, then a tick whose subscribe throws an MqttException, then one that reconnects; the tick after that is a no-op without a subscribe call |
| `Mqtt.RuntimeFailureEndsPolling` | src/main/java/org/dpsoftware/MQTTManager.java:130-141 | after one lost connection, a RuntimeException from the only poll task's `subscribe` leaves no task, so a later successful tick never comes and the manager stays disconnected |
| `Mqtt.FailedSubscribeCanReconnect` | src/main/java/org/dpsoftware/MQTTManager.java:45-141 | a first connection that failed only at `subscribe` can still be restored by the poll after a lost connection, and the communication error then stays set |
| `Mqtt.MQTTManager.constructor` | src/main/java/org/dpsoftware/MQTTManager.java:45-59 | the manager is connected exactly when the client logged a successful connect, callback registration and subscribe, and then the client has the manager as its callback; whenever a client exists, it has the callback exactly when `setCallback` was called, which also happens when only the subscribe failed; after a failure the communication error is set; no poll task exists yet |
| `Mqtt.MQTTManager.AttemptReconnect` | src/main/java/org/dpsoftware/MQTTManager.java:65-87 | `connected` becomes true only after connect and subscribe both returned on a fresh client with the configured options (clean session, auto-reconnect, 10 s timeout, 1000 in flight), which then has the manager as callback; a new client has the callback exactly when `setCallback` was reached; on a throw `connected` is untouched |
| `Mqtt.MQTTManager.PublishToTopic` | src/main/java/org/dpsoftware/MQTTManager.java:93-103 | one publish on the configured topic is logged; an MqttException is caught (`Dropped`), a RuntimeException reaches the caller (`Escaped`), and without a client the NullPointerException does (`NoClient`); no flag, callback or invariant changes |
| `Mqtt.MQTTManager.Stream` | src/main/java/org/dpsoftware/MQTTManager.java:109-117 | one publish on the topic plus the stream suffix, QoS 0, not retained; an MqttException is caught, a RuntimeException and a missing client reach the caller; no flag, callback or invariant changes |
| `Mqtt.MQTTManager.ConnectionLost` | src/main/java/org/dpsoftware/MQTTManager.java:124-144 | `connected` becomes false and, since `reconnectionThreadRunning` is false, one more poll task is scheduled |
| `Mqtt.MQTTManager.PollTick` | src/main/java/org/dpsoftware/MQTTManager.java:130-141 | when connected, the tick calls nothing and reports no outcome; otherwise it re-registers the callback and subscribes once; `connected` becomes true exactly when `subscribe` returned, an MqttException is caught and retried by the next run, and a RuntimeException ends this poll task; either way the client keeps the manager as its callback; nothing else changes |
| `Mqtt.LoseThenPoll` | src/main/java/org/dpsoftware/MQTTManager.java:124-141 | driving the class itself: after the client reports a lost connection and the poll runs while a task remains, the manager is in the flag machine's state along the runs that subscribed, still has its client and callback, and is connected exactly when a `subscribe` returned before RuntimeExceptions had ended every task |
| `Mqtt.LoseThenPollTwice` | src/main/java/org/dpsoftware/MQTTManager.java:124-142 | a second lost connection can follow the first round of polling, whatever it ended in, and the manager follows the flag machine through both |
| `Mqtt.ConnectThenLose` | src/main/java/org/dpsoftware/MQTTManager.java:45-141 | the manager is new, belongs to the caller's `app`, is valid and keeps the caller's configuration, so it can be used afterwards; a manager whose client has it as callback (after a successful first connection, and also when only the first `subscribe` threw) loses the connection and polls, and is then connected exactly when a `subscribe` returned before any RuntimeException; a manager whose client never got the callback is never retried |
| `Mqtt.ConnectLoseThenPublish` | src/main/java/org/dpsoftware/MQTTManager.java:45-142 | after construction, a lost connection and its polling, the caller can still publish on the manager and let it lose the connection again; a publish reports no client exactly when there is none |
| `Mqtt.MqttClient.constructor` | src/main/java/org/dpsoftware/MQTTManager.java:73 | a new client has the configured server and client id, has made no call and has no callback |
| `Mqtt.MqttClient.Connect` | src/main/java/org/dpsoftware/MQTTManager.java:81 | each connect is logged with its options and whether it returned; the callback is untouched |
| `Mqtt.MqttClient.SetCallback` | src/main/java/org/dpsoftware/MQTTManager.java:82 | registering the manager is logged and leaves the client with its callback |
| `Mqtt.MqttClient.Subscribe` | src/main/java/org/dpsoftware/MQTTManager.java:83 | each subscribe is logged with its topic and how it ended; the callback is untouched |
| `Mqtt.MqttClient.PublishMessage` | src/main/java/org/dpsoftware/MQTTManager.java:98 | each publish is logged with its topic, payload and how it ended |
| `Mqtt.MqttClient.PublishBytes` | src/main/java/org/dpsoftware/MQTTManager.java:112 | each publish is logged with its topic, payload, QoS, retained flag and how it ended |

## Left out

- JavaFX: controls, tooltips, images, the stage and scene, the animation timer and every drawing call of the test pattern.
- Screen detection through AWT/JNA and its `double` scale factors (`initDefaultValues` with no stored configuration), and the default values it puts in the form.
- Gamma, which is parsed with `Double.parseDouble`, and the capture method, an OS-dependent enumeration; both are outside the `Configuration` record modelled here.
- The LED matrices built by `LEDCoordinate` are not part of this model. The keys of the test pattern are a parameter, and the `ledDistance` pixel geometry and the `ledMatrix.get(key + 1)` lookups are left out.
- Storage: `StorageManager` is not part of this model; whether writing the file succeeded is a parameter of `Settings.CommitSave`.
- `Settings.LoadForm`: when the address has no `:` the model gives `None` and does not track the fields filled in before the exception. Its success condition also ignores the capture method: `WindowsCaptureMethod.valueOf` or `LinuxCaptureMethod.valueOf` (SettingsController.java:227, :229) throws before the broker fields are reached when the stored name belongs to the other OS's enumeration, for example a file saved on Windows and read on Linux.
- `Settings.ScaleResolution`: requires a non-zero ratio, so the `ArithmeticException` that `/` throws when the stored scaling is 0 is not modelled; every scaling the form offers (SettingsController.java:107) is at least 100.
- `Settings.SaveConfiguration`: which `Integer.parseInt` throws first is not modelled, only that one did.
- `JavaLang.ParseInt`: only ASCII digits are accepted; Java also accepts other Unicode decimal digits.
- `TestPattern.LabelNumber`, `TestPattern.SegmentOf`: the sums of the five LED counts use unbounded integers; Java's 32-bit overflow of these sums is not modelled.
- Paho client internals: server-URI validation, topic validation, the client's own automatic reconnect, `deliveryComplete` (an empty callback) and the network. How each broker call ends is chosen nondeterministically, so the model does not say which topics or payloads the client rejects.
- `Settings.SaveAfterLoad`: a JavaFX `TextField` drops control characters from the text it is given; the model stores texts verbatim, so a configuration whose strings hold control characters is not saved back unchanged by the application, although the model says it is.
- Threads and timing: the 10-second schedule of the poll is reduced to one `PollTick` step per firing, and the unsynchronised races on `connected` are not modelled.
- `System.exit`, the error alert, logging, `Platform.isWindows()` (the client id is a parameter), and the capture threads that start and stop commands trigger.

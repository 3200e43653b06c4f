# SampleBLE in Dafny

A model of the Bluetooth Low Energy core of SampleBLE, an Android sample in
which a watch (wear) or phone (mobile) activity binds a background service,
scans for BLE devices, connects to one over GATT, subscribes to one
characteristic's notifications and shows the status messages in a short
scrolling text view.

The model follows the source's structure:

- `BluetoothStatus` holds the status codes shared by all components (`BluetoothStatus.java`).
- `HelperSpec` and `Helper` model `BluetoothHelper.java`:
  - it is a class whose fields are the scan flag, the connected flag, whether a GATT is open and the pending timed scan stops;
  - the messages it sends to its handler go into a sequence, and so do the calls it makes into the Android Bluetooth stack;
  - each command and connection or discovery callback is proved equal to a pure step function of the helper's state; OnCharacteristicChanged, which changes no state, is proved directly against the hex spelling of the notified bytes;
  - the lemmas about those step functions hold over any sequence of commands and callbacks.
- `Formatting` holds the Java text conversions the helper relies on:
  - `String.format("%02X ", b)` on signed bytes;
  - `Integer.toString`;
  - `UUID.toString`.
- `DeviceProfile` holds the device's UUIDs.
- `Service` models `BTService.java`: the lazy set-up, the handler that forwards messages, and the commands it relays to the helper.
- `LineHistory` models the `SetText` logic shared by both `BLEAct` copies, with Java's `String.split("\n")` written out.
- `ActivityCommon`, `WearActivity` and `MobileActivity` model the two `BLEAct` classes.
- `ActivityCopies` compares the two copies.

The radio, the adapter state and the framework are inputs:

- what a scan finds is not modelled;
- whether `getService`/`getCharacteristic`/`getDescriptor` return null, and what `setCharacteristicNotification` returns, are boolean parameters;
- the new connection state is an integer parameter;
- whether the adapter is enabled is the `btEnabled` parameter;
- whether a weak reference still resolves is the `serviceAlive`/`actAlive` parameter;
- the timed stop that `postDelayed` schedules is an explicit `ScanTimeout` event.

## Model

| member | source | states |
|---|---|---|
| BluetoothStatus.Code | mobile/src/main/java/com/scarviz/sampleble/BluetoothStatus.java:8-23 | every status has SUCCESS 0, FAILURE 0x9999 or one of 0x1001-0x1006 as its code |
| BluetoothStatus.StatusOf | mobile/src/main/java/com/scarviz/sampleble/BluetoothStatus.java:8-23 | a code decodes to the status that has it, and to None exactly when no status has it |
| BluetoothStatus.CodesDistinct | mobile/src/main/java/com/scarviz/sampleble/BluetoothStatus.java:8-23 | two statuses share a code only if they are the same status |
| BluetoothStatus.StatusRoundTrip | mobile/src/main/java/com/scarviz/sampleble/BluetoothStatus.java:8-23 | decoding a status's code gives the status back |
| BluetoothStatus.CodeLayout | mobile/src/main/java/com/scarviz/sampleble/BluetoothStatus.java:8-23 | the six scan, connection and notify codes run from 0x1001 to 0x1006; SUCCESS and FAILURE lie outside that range |
| Formatting.Unsigned | wear/src/main/java/com/scarviz/sampleble/BluetoothHelper.java:232 | `%02X` prints a signed Java byte as its unsigned value in 0..255, equal to it modulo 256 |
| Formatting.Signed | wear/src/main/java/com/scarviz/sampleble/BluetoothHelper.java:232 | a value in 0..255 maps back to the Java byte equal to it modulo 256 |
| Formatting.UpperDigitValue | wear/src/main/java/com/scarviz/sampleble/BluetoothHelper.java:232 | a character read as a hex digit is the digit `%X` prints for that value |
| Formatting.ByteHex | wear/src/main/java/com/scarviz/sampleble/BluetoothHelper.java:232 | `String.format("%02X ", b)`: two upper-case digits of the unsigned byte, then a space; see ByteHexRoundTrip |
| Formatting.HexString | wear/src/main/java/com/scarviz/sampleble/BluetoothHelper.java:230-235 | the StringBuilder loop's text; see HexLength, HexAlphabet and HexRoundTrip |
| Formatting.DecimalString | wear/src/main/java/com/scarviz/sampleble/BluetoothHelper.java:175 | `Integer.toString`, a minus sign before negative values; see DecimalRoundTrip |
| Formatting.UuidToString | wear/src/main/java/com/scarviz/sampleble/BluetoothHelper.java:225 | `UUID.toString`, the groups in lower-case hex joined by dashes; see UuidShape |
| Formatting.HexLength | wear/src/main/java/com/scarviz/sampleble/BluetoothHelper.java:230-235 | the notification text has three characters per byte |
| Formatting.HexAlphabet | wear/src/main/java/com/scarviz/sampleble/BluetoothHelper.java:230-235 | the notification text holds only upper-case hex digits and spaces |
| Formatting.ByteHexRoundTrip | wear/src/main/java/com/scarviz/sampleble/BluetoothHelper.java:232 | the two digits and space printed for a byte read back as that byte |
| Formatting.HexRoundTrip | wear/src/main/java/com/scarviz/sampleble/BluetoothHelper.java:230-235 | the whole notification text reads back as the notified bytes |
| Formatting.NatDigits | wear/src/main/java/com/scarviz/sampleble/BluetoothHelper.java:175 | a natural number prints as at least one decimal digit, with no leading zero |
| Formatting.NatDigitsRoundTrip | wear/src/main/java/com/scarviz/sampleble/BluetoothHelper.java:175 | the printed digits of a natural number read back as that number |
| Formatting.ParseNegative | wear/src/main/java/com/scarviz/sampleble/BluetoothHelper.java:175 | a minus sign before digits that read as m reads as -m |
| Formatting.ParseNonNegative | wear/src/main/java/com/scarviz/sampleble/BluetoothHelper.java:175 | text that starts with a digit reads as an integer exactly as it reads as a natural number |
| Formatting.DecimalRoundTrip | wear/src/main/java/com/scarviz/sampleble/BluetoothHelper.java:175 | the status appended to the GATT failure text, negative ones included, reads back as the status |
| Formatting.DecimalAlphabet | wear/src/main/java/com/scarviz/sampleble/BluetoothHelper.java:175 | a printed integer is non-empty and holds only digits and '-' |
| Formatting.LowerHex | wear/src/main/java/com/scarviz/sampleble/BluetoothHelper.java:225 | the lower-case spelling of a hex group has one character per digit |
| Formatting.LowerHexAt | wear/src/main/java/com/scarviz/sampleble/BluetoothHelper.java:225 | each character of a group's spelling is the lower-case digit at that place |
| Formatting.LowerHexConcat | wear/src/main/java/com/scarviz/sampleble/BluetoothHelper.java:225 | spelling two groups one after the other gives the joined spellings |
| Formatting.UuidShape | wear/src/main/java/com/scarviz/sampleble/BluetoothHelper.java:225 | `UUID.toString` is 36 characters, with '-' at 8, 13, 18 and 23 and a lower-case hex digit everywhere else |
| DeviceProfile.DeviceCharacteristicText | wear/src/main/java/com/scarviz/sampleble/BluetoothHelper.java:43 | `UUID.fromString(DEVICE_CHARACTERISTIC_UUID).toString()` is the constant in lower case, so the transcribed UUID is the one the constant names |
| DeviceProfile.SpelledAsLowerCase | wear/src/main/java/com/scarviz/sampleble/BluetoothHelper.java:225 | a UUID whose groups spell the parts of a dashed text in lower case prints as that text lower-cased |
| DeviceProfile.ConstantGroups | wear/src/main/java/com/scarviz/sampleble/BluetoothHelper.java:43 | the characteristic constant is its five groups joined by dashes |
| Formatting.LowerCase | wear/src/main/java/com/scarviz/sampleble/BluetoothHelper.java:225 | ASCII `toLowerCase` keeps the length of the text |
| Formatting.LowerCaseConcat | wear/src/main/java/com/scarviz/sampleble/BluetoothHelper.java:225 | lower-casing two joined texts gives the joined lower-cased texts |
| Formatting.LowerCaseDashed | wear/src/main/java/com/scarviz/sampleble/BluetoothHelper.java:225 | lower-casing a dashed text lower-cases each part and keeps the dashes |
| DeviceProfile.DeviceCharacteristicSpelling | wear/src/main/java/com/scarviz/sampleble/BluetoothHelper.java:43 | the device characteristic UUID is well formed and `toString` spells each of its groups as the constant's group in lower case |
| HelperSpec.ScanDeviceStep | wear/src/main/java/com/scarviz/sampleble/BluetoothHelper.java:88-101 | the helper's state after ScanDevice; its properties are ScanDeviceStarts and the scan invariant |
| HelperSpec.StopScanStep | wear/src/main/java/com/scarviz/sampleble/BluetoothHelper.java:106-112 | the helper's state after StopScan; see StopScanOnce |
| HelperSpec.ScanTimeoutStep | wear/src/main/java/com/scarviz/sampleble/BluetoothHelper.java:91-96 | the helper's state when a posted stop runs: one pending timer used up, then StopScan; see TimeoutAfterStopIsSilent |
| HelperSpec.ConnectStep | wear/src/main/java/com/scarviz/sampleble/BluetoothHelper.java:120-125 | the helper's state after Connect; see ConnectOrder |
| HelperSpec.DisConnectStep | wear/src/main/java/com/scarviz/sampleble/BluetoothHelper.java:130-138 | the helper's state after DisConnect; see DisConnectShape and DisConnectRepeats |
| HelperSpec.ConnectionStateChangeStep | wear/src/main/java/com/scarviz/sampleble/BluetoothHelper.java:151-163 | the helper's state after onConnectionStateChange; see ConnectionStateChangeCases |
| HelperSpec.DiscoveryEvent | wear/src/main/java/com/scarviz/sampleble/BluetoothHelper.java:171-214 | the one message onServicesDiscovered sends, after the first failed check or else the registration result; see DiscoveryOutcome |
| HelperSpec.ServicesDiscoveredStep | wear/src/main/java/com/scarviz/sampleble/BluetoothHelper.java:171-214 | the helper's state after onServicesDiscovered; see DiscoveryEmitsOne and DescriptorWrittenEitherWay |
| HelperSpec.StopScanOnce | wear/src/main/java/com/scarviz/sampleble/BluetoothHelper.java:106-112 | StopScan stops the radio scan and sends STOP_SCAN only while a scan is on; it always ends not scanning, changes nothing else, and a second call does nothing |
| HelperSpec.ScanDeviceStarts | wear/src/main/java/com/scarviz/sampleble/BluetoothHelper.java:88-101 | ScanDevice posts a stop 10000 ms ahead, then starts the radio scan, sets the scan flag and sends START_SCAN |
| HelperSpec.TimeoutAfterStopIsSilent | wear/src/main/java/com/scarviz/sampleble/BluetoothHelper.java:91-96 | the timed stop after a scan has already stopped sends nothing and leaves the scan off |
| HelperSpec.ConnectOrder | wear/src/main/java/com/scarviz/sampleble/BluetoothHelper.java:120-125 | Connect opens a GATT with the caller's address and autoConnect, then stops a running scan (STOP_SCAN) and sends CONNECTING; it does not set connected |
| HelperSpec.DisConnectShape | wear/src/main/java/com/scarviz/sampleble/BluetoothHelper.java:130-138 | DisConnect stops a running scan, closes the GATT only if one is open and always sends DISCONNECTED; afterwards nothing is scanning, connected or open |
| HelperSpec.DisConnectRepeats | wear/src/main/java/com/scarviz/sampleble/BluetoothHelper.java:130-138 | a second DisConnect makes no platform call but sends DISCONNECTED again |
| HelperSpec.ConnectionStateChangeCases | wear/src/main/java/com/scarviz/sampleble/BluetoothHelper.java:151-163 | STATE_CONNECTED starts service discovery, sets connected and sends CONNECTED; STATE_DISCONNECTED is DisConnect; any other state changes nothing |
| HelperSpec.LateConnectedCallbackAccepted | wear/src/main/java/com/scarviz/sampleble/BluetoothHelper.java:151-163 | a STATE_CONNECTED callback after DisConnect is not discarded: the helper reports connected with no GATT open |
| HelperSpec.DiscoveryEmitsOne | wear/src/main/java/com/scarviz/sampleble/BluetoothHelper.java:171-214 | service discovery sends exactly one message and changes no flag |
| HelperSpec.DescriptorWrittenEitherWay | wear/src/main/java/com/scarviz/sampleble/BluetoothHelper.java:198-204 | once the characteristic is found, notification is requested and the 0x2902 descriptor is written with ENABLE_NOTIFICATION_VALUE whatever the request returned; otherwise neither happens |
| HelperSpec.DiscoveryOutcome | wear/src/main/java/com/scarviz/sampleble/BluetoothHelper.java:171-214 | SUCCESS exactly when status, service and characteristic are all fine and the request returned true; otherwise FAILURE naming the first failed check |
| HelperSpec.GattFailureNamesStatus | wear/src/main/java/com/scarviz/sampleble/BluetoothHelper.java:173-177 | the GATT failure text starts with its fixed prefix and the rest reads back as the failing status |
| HelperSpec.OneLineConcat | wear/src/main/java/com/scarviz/sampleble/BluetoothHelper.java:175 | joining two single-line texts gives a single line |
| HelperSpec.GattFailureTextOneLine | wear/src/main/java/com/scarviz/sampleble/BluetoothHelper.java:175 | the GATT failure text is a single line, whatever the status |
| HelperSpec.ScanCodesSnoc | wear/src/main/java/com/scarviz/sampleble/BluetoothHelper.java:100 | sending one more message adds its code to the scan codes when it is START_SCAN or STOP_SCAN |
| HelperSpec.AppendOther | wear/src/main/java/com/scarviz/sampleble/BluetoothHelper.java:124 | a message other than START_SCAN/STOP_SCAN keeps the scan invariant |
| HelperSpec.AppendStart | wear/src/main/java/com/scarviz/sampleble/BluetoothHelper.java:99-100 | setting the flag and sending START_SCAN restores the scan invariant from any consistent state |
| HelperSpec.AppendStop | wear/src/main/java/com/scarviz/sampleble/BluetoothHelper.java:107-111 | STOP_SCAN sent while scanning keeps every stop right after a start |
| HelperSpec.StopScanKeepsConsistent | wear/src/main/java/com/scarviz/sampleble/BluetoothHelper.java:106-112 | StopScan keeps the scan invariant |
| HelperSpec.ApplyKeepsScanConsistent | wear/src/main/java/com/scarviz/sampleble/BluetoothHelper.java:88-163 | every command and callback keeps the scan invariant |
| HelperSpec.RunKeepsScanConsistent | wear/src/main/java/com/scarviz/sampleble/BluetoothHelper.java:88-138 | over any sequence of commands and callbacks, every STOP_SCAN answers the START_SCAN just before it, and the scan flag is on exactly when the last scan message is START_SCAN |
| HelperSpec.InitialScanConsistent | wear/src/main/java/com/scarviz/sampleble/BluetoothHelper.java:33 | a new helper, not scanning and with no messages, meets the scan invariant |
| HelperSpec.DiscoveryEventIsHelperMessage | wear/src/main/java/com/scarviz/sampleble/BluetoothHelper.java:171-214 | every discovery message is FAILURE or SUCCESS with a non-empty single-line text |
| HelperSpec.ApplyEmitsHelperMessages | wear/src/main/java/com/scarviz/sampleble/BluetoothHelper.java:286-300 | no command or callback sends anything but a lifecycle code without payload or a result code with a single-line text |
| HelperSpec.RunEmitsHelperMessages | wear/src/main/java/com/scarviz/sampleble/BluetoothHelper.java:286-300 | over any sequence of inputs, every message sent has that shape; NOTIFY_MES is never sent |
| Helper.CharacteristicMatchesAsWritten | wear/src/main/java/com/scarviz/sampleble/BluetoothHelper.java:225 | the characteristic test as written: the constant equals `toString` of the UUID; see AsWrittenNeverMatches |
| Helper.CharacteristicMatches | wear/src/main/java/com/scarviz/sampleble/BluetoothHelper.java:225 | the intended test: the UUID is the device characteristic |
| Helper.NotificationTextAsWritten | wear/src/main/java/com/scarviz/sampleble/BluetoothHelper.java:222-243 | the toast onCharacteristicChanged shows as written; see AsWrittenShowsNothing |
| Helper.AsWrittenNeverMatches | wear/src/main/java/com/scarviz/sampleble/BluetoothHelper.java:225 | the test as written, upper-case constant against lower-case `toString`, holds for no UUID |
| Helper.AsWrittenShowsNothing | wear/src/main/java/com/scarviz/sampleble/BluetoothHelper.java:222-243 | as written, no notification ever shows a toast |
| Helper.BluetoothHelper.constructor | wear/src/main/java/com/scarviz/sampleble/BluetoothHelper.java:33-34 | a new helper is not scanning or connected, has no GATT and has sent nothing |
| Helper.BluetoothHelper.SendHandlerMessage | wear/src/main/java/com/scarviz/sampleble/BluetoothHelper.java:286-300 | appends the message with the given code and payload to the handler's queue and changes nothing else |
| Helper.BluetoothHelper.ScanDevice | wear/src/main/java/com/scarviz/sampleble/BluetoothHelper.java:88-101 | ScanDevice performs ScanDeviceStep on the helper's state |
| Helper.BluetoothHelper.ScanTimeout | wear/src/main/java/com/scarviz/sampleble/BluetoothHelper.java:91-96 | the posted stop consumes one pending timer and runs StopScan; with none pending it does nothing |
| Helper.BluetoothHelper.StopScan | wear/src/main/java/com/scarviz/sampleble/BluetoothHelper.java:106-112 | StopScan performs StopScanStep on the helper's state |
| Helper.BluetoothHelper.Connect | wear/src/main/java/com/scarviz/sampleble/BluetoothHelper.java:120-125 | Connect performs ConnectStep on the helper's state |
| Helper.BluetoothHelper.DisConnect | wear/src/main/java/com/scarviz/sampleble/BluetoothHelper.java:130-138 | DisConnect performs DisConnectStep on the helper's state |
| Helper.BluetoothHelper.OnConnectionStateChange | wear/src/main/java/com/scarviz/sampleble/BluetoothHelper.java:151-163 | the callback performs ConnectionStateChangeStep on the helper's state |
| Helper.BluetoothHelper.OnServicesDiscovered | wear/src/main/java/com/scarviz/sampleble/BluetoothHelper.java:171-214 | the callback performs ServicesDiscoveredStep on the helper's state |
| Helper.BluetoothHelper.OnCharacteristicChanged | wear/src/main/java/com/scarviz/sampleble/BluetoothHelper.java:222-243 | with the UUID test corrected, the 'toast' appears exactly for the device characteristic with a non-empty value; it spells each byte as two hex digits and a space, and "Notify is empty" never appears |
| Helper.BluetoothHelper.IsConnected | wear/src/main/java/com/scarviz/sampleble/BluetoothHelper.java:278-280 | reports the connected flag |
| Service.Forward | wear/src/main/java/com/scarviz/sampleble/BTService.java:140-166 | a message goes on exactly when the service lives, a handler is set and the code is a lifecycle or result code; it goes to that handler with the same code, with the payload dropped for lifecycle codes and kept for SUCCESS/FAILURE |
| Service.ForwardAll | wear/src/main/java/com/scarviz/sampleble/BTService.java:140-166 | what the activity's handler receives for a sequence of helper messages; see HelperMessagesPassThrough and NothingForwardedWithoutTarget |
| Service.BTService.GetMessage | wear/src/main/java/com/scarviz/sampleble/BTService.java:173-187 | the message with the given code and payload |
| Service.BTService.SendMessage | wear/src/main/java/com/scarviz/sampleble/BTService.java:125-127 | the stub does nothing |
| Service.AddressedTo | wear/src/main/java/com/scarviz/sampleble/BTService.java:152-160 | each message is addressed to the one target, in the same order |
| Service.HelperMessagesPassThrough | wear/src/main/java/com/scarviz/sampleble/BTService.java:140-166 | with a live service and a handler set, every message a helper sends reaches that handler unchanged and in order |
| Service.NothingForwardedWithoutTarget | wear/src/main/java/com/scarviz/sampleble/BTService.java:141-144 | nothing is forwarded when the service is gone or no handler is set |
| Service.RunReachesActivity | wear/src/main/java/com/scarviz/sampleble/BTService.java:140-166 | whatever a new helper goes through, the activity's handler receives all its messages unchanged and in order |
| Service.BTService.constructor | wear/src/main/java/com/scarviz/sampleble/BTService.java:17-19 | a new service has no helper, no forwarding handler and no activity handler |
| Service.BTService.OnStartCommand | wear/src/main/java/com/scarviz/sampleble/BTService.java:30-36 | creates the forwarding handler and a new helper only when missing; later starts keep the existing ones |
| Service.BTService.SetHandlerAct | wear/src/main/java/com/scarviz/sampleble/BTService.java:74-76 | the new handler replaces any earlier one |
| Service.BTService.HandleProcMessage | wear/src/main/java/com/scarviz/sampleble/BTService.java:140-166 | appends to the deliveries exactly what Forward gives |
| Service.BTService.ScanDevice | wear/src/main/java/com/scarviz/sampleble/BTService.java:90-92 | relays ScanDevice to the helper |
| Service.BTService.IsConnected | wear/src/main/java/com/scarviz/sampleble/BTService.java:117-119 | reports the helper's connected flag |
| Service.BTService.Connect | wear/src/main/java/com/scarviz/sampleble/BTService.java:98-101 | relays Connect to the helper with autoConnect false |
| Service.BTService.DisConnect | wear/src/main/java/com/scarviz/sampleble/BTService.java:106-111 | relays DisConnect to the helper when there is one; otherwise does nothing |
| Service.BTService.OnDestroy | wear/src/main/java/com/scarviz/sampleble/BTService.java:41-44 | destroying the service disconnects its helper |
| LineHistory.RawSplit | wear/src/main/java/com/scarviz/sampleble/BLEAct.java:222 | splitting at newlines gives at least one piece, and no piece holds a newline |
| LineHistory.DropTrailingEmpty | wear/src/main/java/com/scarviz/sampleble/BLEAct.java:222 | keeps a prefix of the pieces that does not end in an empty one; everything dropped is empty |
| LineHistory.JavaSplit | wear/src/main/java/com/scarviz/sampleble/BLEAct.java:222 | `String.split("\n")`; see JavaSplitLines, FirstMessage and ComposeLines |
| LineHistory.KeptLines | wear/src/main/java/com/scarviz/sampleble/BLEAct.java:223-227 | the previous lines SetText copies; see KeptLinesCount |
| LineHistory.Compose | wear/src/main/java/com/scarviz/sampleble/BLEAct.java:215-236 | the text SetText leaves; see ComposeLines, ComposeOrder and ComposeBound |
| LineHistory.ComposeText | wear/src/main/java/com/scarviz/sampleble/BLEAct.java:215-236 | the loop in SetText builds the message followed by each kept previous line after a newline |
| LineHistory.RawSplitJoin | wear/src/main/java/com/scarviz/sampleble/BLEAct.java:222 | splitting two texts joined by a newline gives the pieces of each |
| LineHistory.RawSplitLine | wear/src/main/java/com/scarviz/sampleble/BLEAct.java:222 | a text without a newline splits into itself |
| LineHistory.RawSplitComposed | wear/src/main/java/com/scarviz/sampleble/BLEAct.java:229-235 | joining single lines below a single-line message and splitting again gives the message and the lines back |
| LineHistory.ComposedHasNewline | wear/src/main/java/com/scarviz/sampleble/BLEAct.java:230-233 | a message with at least one previous line below it contains a newline |
| LineHistory.JavaSplitLines | wear/src/main/java/com/scarviz/sampleble/BLEAct.java:222 | no line of the split text holds a newline |
| LineHistory.ComposeLines | wear/src/main/java/com/scarviz/sampleble/BLEAct.java:215-236 | the lines after SetText are the message followed by the kept previous lines, less any empty lines at the end |
| LineHistory.ComposeOrder | wear/src/main/java/com/scarviz/sampleble/BLEAct.java:215-236 | the new message becomes the first line and the previous lines follow in their order, oldest dropped first |
| LineHistory.KeptLinesCount | wear/src/main/java/com/scarviz/sampleble/BLEAct.java:223-227 | below MAX_LINE lines every previous line is kept; from MAX_LINE on the last (oldest) one is dropped |
| LineHistory.ComposeBound | wear/src/main/java/com/scarviz/sampleble/BLEAct.java:215-236 | a single-line message keeps a display of at most MAX_LINE lines within MAX_LINE lines |
| LineHistory.FirstMessage | wear/src/main/java/com/scarviz/sampleble/BLEAct.java:221-233 | an empty view splits into one empty line, so the first message leaves the message followed by a newline |
| ActivityCommon.DisplayText | wear/src/main/java/com/scarviz/sampleble/BLEAct.java:267-303 | handleMessage shows a line exactly for a lifecycle code, or for SUCCESS/FAILURE with a payload; for SUCCESS/FAILURE the line is the payload |
| ActivityCommon.LifecycleTextsDistinct | wear/src/main/java/com/scarviz/sampleble/BLEAct.java:273-288 | two lifecycle codes show the same line only if they are the same code |
| ActivityCommon.HelperMessageShowsOneLine | wear/src/main/java/com/scarviz/sampleble/BLEAct.java:273-298 | every message a helper sends shows one non-empty line |
| ActivityCommon.Shown | wear/src/main/java/com/scarviz/sampleble/BLEAct.java:267-303 | the view after handleMessage on a live activity; see DisplayStaysBounded |
| ActivityCommon.ShowAll | wear/src/main/java/com/scarviz/sampleble/BLEAct.java:267-303 | the view after handling a sequence of messages in order |
| ActivityCommon.DisplayStaysBounded | wear/src/main/java/com/scarviz/sampleble/BLEAct.java:267-303 | however many helper messages the activity shows, a display of at most MAX_LINE lines stays within MAX_LINE lines |
| ActivityCommon.RunDisplayBounded | mobile/src/main/java/com/scarviz/sampleble/BLEAct.java:260-296 | a new activity that shows everything a new helper sends never holds more than MAX_LINE lines |
| WearActivity.EnableCheck | wear/src/main/java/com/scarviz/sampleble/BLEAct.java:149-159 | a command goes ahead exactly when the service is set, bound and Bluetooth is enabled; "Service Not Bound" when not set or not bound, otherwise "BlueTooth Not Enable" |
| WearActivity.BLEAct.constructor | wear/src/main/java/com/scarviz/sampleble/BLEAct.java:28-41 | a new activity shows nothing and is not bound |
| WearActivity.BLEAct.OnCreate | wear/src/main/java/com/scarviz/sampleble/BLEAct.java:71-115 | starts and binds the service when it is already running |
| WearActivity.BLEAct.OnDestroy | wear/src/main/java/com/scarviz/sampleble/BLEAct.java:120-126 | unbinds only when bound |
| WearActivity.BLEAct.SetText | wear/src/main/java/com/scarviz/sampleble/BLEAct.java:215-236 | the view then holds Compose of its old text and the message with MAX_LINE 2; a single-line message keeps it within two lines |
| WearActivity.BLEAct.IsEnabledBluetooth | wear/src/main/java/com/scarviz/sampleble/BLEAct.java:149-159 | succeeds exactly when EnableCheck passes and then shows nothing; otherwise shows EnableCheck's line |
| WearActivity.BLEAct.OnSearchClick | wear/src/main/java/com/scarviz/sampleble/BLEAct.java:57-69 | scans through the service when the check passes; otherwise shows the check's line and leaves the helper alone |
| WearActivity.BLEAct.OnDeviceClick | wear/src/main/java/com/scarviz/sampleble/BLEAct.java:84-94 | connects to the device's address with autoConnect false when the check passes; otherwise shows the check's line and leaves the helper alone |
| WearActivity.BLEAct.OnTestClick | wear/src/main/java/com/scarviz/sampleble/BLEAct.java:96-108 | after the check, toasts "Send Message" when connected and shows "BlueTooth Not Connected" when not |
| WearActivity.BLEAct.StartService | wear/src/main/java/com/scarviz/sampleble/BLEAct.java:164-171 | starts the service and binds it, in that order, and marks the activity bound |
| WearActivity.BLEAct.StopService | wear/src/main/java/com/scarviz/sampleble/BLEAct.java:176-186 | when the check passes, relays DisConnect to the helper and records that relay before the unbind and the stop; otherwise shows the check's line; either way it then unbinds and stops the service, keeps the service reference and marks the activity unbound |
| WearActivity.BLEAct.OnServiceConnected | wear/src/main/java/com/scarviz/sampleble/BLEAct.java:198-208 | keeps the binder's service and registers a new handler with it; a null service shows "Service Not Bound" |
| WearActivity.BLEAct.OnServiceDisconnected | wear/src/main/java/com/scarviz/sampleble/BLEAct.java:193-196 | forgets the service |
| WearActivity.BLEAct.HandleMessage | wear/src/main/java/com/scarviz/sampleble/BLEAct.java:267-303 | a live activity shows DisplayText of the message through SetText; a collected one shows nothing |
| MobileActivity.EnableCheck | mobile/src/main/java/com/scarviz/sampleble/BLEAct.java:146-156 | a command goes ahead exactly when the service is set and Bluetooth is enabled; "Service Not Bound" only when no service is set |
| MobileActivity.BLEAct.constructor | mobile/src/main/java/com/scarviz/sampleble/BLEAct.java:30-43 | a new activity shows nothing and is not bound |
| MobileActivity.BLEAct.OnCreate | mobile/src/main/java/com/scarviz/sampleble/BLEAct.java:70-114 | starts and binds the service when it is already running |
| MobileActivity.BLEAct.OnDestroy | mobile/src/main/java/com/scarviz/sampleble/BLEAct.java:117-123 | unbinds only when bound |
| MobileActivity.BLEAct.SetText | mobile/src/main/java/com/scarviz/sampleble/BLEAct.java:208-229 | the view then holds Compose of its old text and the message with MAX_LINE 10; a single-line message keeps it within ten lines |
| MobileActivity.BLEAct.IsEnabledBluetooth | mobile/src/main/java/com/scarviz/sampleble/BLEAct.java:146-156 | succeeds exactly when EnableCheck passes and then shows nothing; otherwise shows EnableCheck's line |
| MobileActivity.BLEAct.OnSearchClick | mobile/src/main/java/com/scarviz/sampleble/BLEAct.java:56-68 | scans through the service when the check passes; otherwise shows the check's line and leaves the helper alone |
| MobileActivity.BLEAct.OnDeviceClick | mobile/src/main/java/com/scarviz/sampleble/BLEAct.java:83-93 | connects to the device's address with autoConnect false when the check passes; otherwise shows the check's line and leaves the helper alone |
| MobileActivity.BLEAct.OnTestClick | mobile/src/main/java/com/scarviz/sampleble/BLEAct.java:95-107 | after the check, toasts "Send Message" when connected and shows "BlueTooth Not Connected" when not |
| MobileActivity.BLEAct.StartService | mobile/src/main/java/com/scarviz/sampleble/BLEAct.java:161-168 | starts the service and binds it, in that order, and marks the activity bound |
| MobileActivity.BLEAct.StopService | mobile/src/main/java/com/scarviz/sampleble/BLEAct.java:173-179 | unbinds and stops the service without disconnecting, whether bound or not, keeps the service reference and marks the activity unbound |
| MobileActivity.BLEAct.OnServiceConnected | mobile/src/main/java/com/scarviz/sampleble/BLEAct.java:191-201 | keeps the binder's service and registers a new handler with it; a null service shows "Service Not Bound" |
| MobileActivity.BLEAct.OnServiceDisconnected | mobile/src/main/java/com/scarviz/sampleble/BLEAct.java:186-189 | forgets the service |
| MobileActivity.BLEAct.HandleMessage | mobile/src/main/java/com/scarviz/sampleble/BLEAct.java:260-296 | a live activity shows DisplayText of the message through SetText; a collected one shows nothing |
| ActivityCopies.MobileCheckIsLaxer | mobile/src/main/java/com/scarviz/sampleble/BLEAct.java:146-156 | the mobile check lets through everything the wear check does, with the same verdict whenever the activity is bound |
| ActivityCopies.StoppedServiceStillUsedOnMobile | mobile/src/main/java/com/scarviz/sampleble/BLEAct.java:146-179 | on both copies: start, bind, stop the service, then press search with Bluetooth on. The mobile helper ends up scanning; the wear helper does not, and the wear view shows "Service Not Bound" |
| ActivityCopies.MobileSession | mobile/src/main/java/com/scarviz/sampleble/BLEAct.java:146-179 | on the mobile copy, a search after StopService still reaches the stopped service and starts a scan on its helper |
| ActivityCopies.WearSession | wear/src/main/java/com/scarviz/sampleble/BLEAct.java:149-186 | on the wear copy, the same search after StopService shows "Service Not Bound" on an empty view and leaves the helper not scanning |

## Left out

- Android framework calls are recorded as values, not performed: the Bluetooth adapter and manager, `startLeScan`/`stopLeScan`, `connectGatt`, `close`, `discoverServices`, the descriptor write, intents and binding.
- Handler queues, `postDelayed` timing and threads are not modelled. A sent message is appended to a sequence. The delayed stop is an explicit `ScanTimeout` event that the caller may trigger in any order.
- Garbage collection of the two handlers' weak references is the `serviceAlive`/`actAlive` input.
- `BluetoothHelper.IsEnabledBluetooth` and `BTService.IsEnabledBluetooth` are not modelled. Their result is the `btEnabled` input of each activity command, because it depends only on the adapter.
- Helper.BluetoothHelper.OnServicesDiscovered: requires that `getDescriptor` finds the 0x2902 descriptor once the characteristic is found. The source dereferences it without a check, so a missing descriptor would throw.
- WearActivity.BLEAct.OnSearchClick and the other command methods of both activities require a bound service to have its helper. Without one, the source throws a null-pointer exception.
- Service.BTService.ScanDevice, Service.BTService.IsConnected and Service.BTService.Connect require the service's helper to exist. The source dereferences `mBtHelper` without a check, so calling one before `onStartCommand` throws a null-pointer exception.
- WearActivity.BLEAct.constructor and MobileActivity.BLEAct.constructor start the view empty, and so does RunDisplayBounded. The layout that sets the view's initial text is not part of this model. DisplayStaysBounded covers any initial text of at most MAX_LINE lines.
- `Connect` does not model the exceptions that `getRemoteDevice` throws on a malformed address, nor a `connectGatt` that returns null. Connect always records an open GATT.
- `onCharacteristicRead` and `onCharacteristicWrite` only log, so they are not modelled. `Log.d` calls are not modelled anywhere.
- `BTService.sendMessage` is an empty stub in the source and stays a no-op.
- The device list adapter is not modelled: `onLeScan` adding a device, clearing the list, and the item index behind a click. A device is the address passed to OnDeviceClick.
- `IsRunningBTService`, the view setup in `onCreate`, option menus and the binder class are not modelled. Whether the service runs is the `isRunning` input of OnCreate.
- A toast is modelled as its text only.
- The mobile `BTService` and `BluetoothHelper` are not part of this model. The mobile activity drives the same service model as the wear one.
- `GetMessage` and `SendHandlerMessage` build an Android `Message`; here the message is a plain `(what, obj)` value.
- A GATT callback that arrives after DisConnect is applied as the code does: no stale-callback check is modelled, because the source has none.

## Findings

| source | as written | input that shows it | evidently intended | confidence | as-written member | corrected member |
|---|---|---|---|---|---|---|
| wear/src/main/java/com/scarviz/sampleble/BluetoothHelper.java:225 | `onCharacteristicChanged` compares the upper-case constant `DEVICE_CHARACTERISTIC_UUID` with `characteristic.getUuid().toString()`, which `UUID.toString` renders in lower case, so the test never holds and no notification is ever shown | a change notification from the device characteristic E2CC9711-C6D2-464D-AC7C-25DC963F0BDE itself: `toString` gives "e2cc9711-…", which differs from "E2CC9711-…" at the first character | compare UUIDs (`characteristic.getUuid().equals(UUID.fromString(DEVICE_CHARACTERISTIC_UUID))`), as onServicesDiscovered does through `UUID.fromString` | high; not executed | Helper.AsWrittenShowsNothing | Helper.BluetoothHelper.OnCharacteristicChanged |

# PixelRadio core, modelled in Dafny

PixelRadio is ESP32 firmware that drives a QN8027 FM transmitter with RDS. It
has a web UI and several remote-control front ends: serial, HTTP, MQTT, and
FPP multisync. This project models the logic at its core and proves
properties of that model:

- **The QN8027 driver** (`qn8027_radio.dfy`). It keeps a shadow copy of the
  chip's write-only register fields and packs them into register bytes. It
  also encodes RDS: the Program Service name goes into type 0A groups and
  RadioText into type 2A groups, as in sections 3.1.5.1 and 3.1.5.3 of
  IEC 62106. I2C traffic is represented by the last byte written to each
  register and by the list of RDS groups handed to the chip.
- **Parsers and validators**:
  - `strIsUint` (`misc.dfy`);
  - the command payload handlers (`commands.dfy`) and the command dispatcher
    (`command_processor.dfy`);
  - the HTTP argument decoder (`web_server.dfy`): percent-decoding as in
    section 2.1 of RFC 3986, with `+` read as a space.
- **The UI controls**:
  - the common control (`control_common.dfy`);
  - the choice-list, binary and number controls;
  - frequency, PI code, PS name, DHCP, RadioText, test tone, uptime,
    supply voltage and GPIO pins.
- **The controllers' data structures**:
  - the round-robin message set (`controller_message_set.dfy`);
  - the message list (`controller_messages.dfy`);
  - the FPP sequence map (`controller_fppd_sequences.dfy`).
- **The state machines**:
  - the MQTT connection (`controller_mqtt.dfy`);
  - the WiFi connection (`wifi_driver.dfy`);
  - the FPP multisync packet handler (`fpp_discovery.dfy`);
  - the test-tone sequencer;
  - the RadioText display timer.
- **The serial controller's baud-rate setting** (`controller_serial.dfy`).

Two library modules support the model:

- `ints.dfy` holds the C integer widths. Every narrowing store and every
  wrapping counter of the firmware goes through one of its conversions.
- `arduino_string.dfy` holds the Arduino `String` and C-library operations
  the parsers rely on, with their edge cases written out.

`espui.dfy` holds the event codes of the ESPUI web-UI library.

State that the firmware changes in place is modelled as a class with those
fields. Each method's contract ties its new state to a pure function of the
old state, and the properties are proved as lemmas about that function.
Loops in the source are methods with loop invariants, proved against a
recursive specification function. Clocks, readings, link status, and the
values the UI passes in are parameters.

## Model

| member | source | states |
|---|---|---|
| Misc.StrIsUintResult | src/misc.cpp:225-245 | a result exists for every string of at most 255 characters; longer strings whose first 256 characters are digits never return, because the uint8_t index wraps |
| Misc.StrIsUint | src/misc.cpp:225-245 | the loop returns exactly the result StrIsUintResult gives for the string |
| Misc.FirstRejectedMonotone | src/misc.cpp:234-242 | once a rejected character is found, scanning further reports the same one |
| Misc.StrIsUintDigits | src/misc.cpp:234-244 | true exactly for non-empty strings made only of '0'..'9' |
| Misc.StrIsUintRejectsSign | src/misc.cpp:229-241 | the empty string is not a uint, and neither is a string starting with '-' or '+' |
| Commands.CutIsTruncate | src/commands.cpp:111-114 | the length check followed by substring(0, n) keeps exactly the first n characters of a longer payload and leaves a shorter one unchanged |
| Commands.AudioModeAccepts | src/commands.cpp:65-101 | audioMode accepts exactly "stereo" and "mono", selects stereo only for "stereo", and keeps the payload |
| Commands.Frequency | src/commands.cpp:104-134 | an accepted frequency lies in [881, 1079] tenths of a MHz, and the payload is cut to CMD_FREQ_MAX_SZ |
| Commands.FrequencyAccepts | src/commands.cpp:111-125 | accepted exactly when the cut payload is a non-empty run of digits whose value is in the FM band |
| Commands.FrequencyRoundTrip | src/commands.cpp:111-125 | every in-band frequency written in decimal is accepted as that same frequency |
| Commands.Gpio | src/commands.cpp:156-192 | the payload is cut to CMD_GPIO_MAX_SZ |
| Commands.GpioAccepts | src/commands.cpp:169-183 | "read" only reads the pin, "outhigh" and "outlow" drive it high or low, and nothing else is accepted |
| Commands.Info | src/commands.cpp:195-217 | the payload is cut to CMD_SYS_MAX_SZ |
| Commands.InfoRejectsSystem | src/commands.cpp:205-213 | info returns false exactly when the payload starts with "system", so "system" itself and any longer payload cut to it |
| Commands.OnOff | src/commands.cpp:265-301 | the payload is cut to the command's limit |
| Commands.Mute | src/commands.cpp:265-301 | mute succeeds exactly for "on" or "off" after the cut, and the value records which ("on" is true); only the UI mute indicator is updated with it |
| Commands.RfCarrier | src/commands.cpp:526-563 | rfCarrier succeeds exactly for "on" or "off" after the cut, and the value records which; the carrier call is commented out, so only the UI is refreshed |
| Commands.MuteAccepts | src/commands.cpp:278-295 | because of the 3-character cut, mute accepts "on" and every payload starting with "off" |
| Commands.PiCode | src/commands.cpp:304-345 | accepted exactly when the base-16 value of the cut payload, read as uint32_t, lies in [0x00FF, 0xFFFF]; the value is that code |
| Commands.PiCodeRejectsNegative | src/commands.cpp:313-325 | a negative number wraps to a large uint32_t and is refused |
| Commands.PiCodeRoundTrip | src/commands.cpp:304-345 | every valid code written as "0x" and hex digits is accepted as itself |
| Commands.RdsTimePeriod | src/commands.cpp:446-497 | the payload is cut to CMD_RT_MAX_SZ |
| Commands.RdsTimePeriodClamps | src/commands.cpp:462-478 | refused exactly when the payload is longer than 4 characters or its value is not positive; otherwise the value is clamped into [RDS_DSP_TM_MIN, RDS_DSP_TM_MAX] and kept unchanged when already inside |
| Commands.Reboot | src/commands.cpp:500-523 | accepted exactly when the cut payload is "system" |
| Commands.Start | src/commands.cpp:566-589 | accepted exactly when the cut payload is "rds" |
| Commands.Stop | src/commands.cpp:592-614 | always returns true, and the value records whether the cut payload is "rds"; the stop-flag call is commented out, so nothing is stopped |
| Commands.Log | src/commands.cpp:222-262 | accepted exactly for "silent" or "restore" after the cut, each selecting its log level |
| Commands.PtyCode | src/commands.cpp:348-390 | the payload is cut to CMD_PTY_MAX_SZ |
| Commands.PtyCodeRoundTrip | src/commands.cpp:348-390 | every programme type 0..31 written in decimal is accepted as itself |
| Commands.PtyCodeAccepts | src/commands.cpp:357-370 | accepted exactly when the value of the cut payload lies in the programme type range, so negative values are refused; the code is that value |
| Commands.ProgramServiceName | src/commands.cpp:393-416 | always succeeds; the result is a prefix of the payload of at most CMD_PSN_MAX_SZ characters, the whole payload when it fits |
| Commands.RadioText | src/commands.cpp:419-442 | always succeeds; the result is a prefix of the payload of at most CMD_RT_MAX_SZ characters, the whole payload when it fits |
| Commands.ProcessCommand | src/commands.cpp:31-61 | the result is false for every input, because the command and payload examined are fresh empty Strings |
| CommandProcessor.ListOfCommandsSize | src/CommandProcessor.cpp:27-81 | the dispatch table holds exactly 17 command names |
| CommandProcessor.ListOfCommandsKeys | src/CommandProcessor.cpp:27-81 | the table's names are exactly the 17 listed, grouped by length |
| CommandProcessor.HelpAliases | src/CommandProcessor.cpp:70-80 | a name reaches HelpCommand exactly when it is "?", "h" or "help" |
| CommandProcessor.Invoke | src/CommandProcessor.cpp:141-179 | a handler of the compiled firmware returns false and leaves the response as it was |
| CommandProcessor.ProcessCommand | src/CommandProcessor.cpp:105-137 | the command is left trimmed and lowercased, the parameter trimmed, and the result is false |
| CommandProcessor.Dispatch | src/CommandProcessor.cpp:120-131 | the lookup keeps the command and parameter it is given and returns false |
| CommandProcessor.ProcessCommandResponse | src/CommandProcessor.cpp:122-129 | an unknown command replaces the response with "->ERROR: Unknown Command: '" followed by the command; a known one appends "->" and the controller name |
| CommandProcessor.ProcessRawCommand | src/CommandProcessor.cpp:87-102 | the raw-command entry point always dispatches the empty command, so it always reports an unknown command and returns false |
| CommandProcessor.ProcessCommandNormalised | src/CommandProcessor.cpp:115-118 | handing in an already trimmed and lowercased command gives the same outcome, so the lookup ignores surrounding white space and ASCII case |
| CommandProcessor.NormaliseIdempotent | src/CommandProcessor.cpp:115-118 | trimming and lowercasing twice is the same as once |
| WebServer.UrlDecodeHex | src/webServer.cpp:788-805 | '0'..'9', 'a'..'f' and 'A'..'F' give their digit values 0..15 and every other character gives 0 |
| WebServer.UrlDecodeHexIsDigitValue | src/webServer.cpp:788-805 | the result is the hex digit value of a hex digit and 0 otherwise |
| WebServer.UrlDecodeHexRoundTrip | src/webServer.cpp:788-805 | the upper- and lowercase digit of every value below 16 decodes back to that value |
| WebServer.Escaped | src/webServer.cpp:766-771 | the character a "%XY" escape produces is a single byte |
| WebServer.EscapedIsOr | src/webServer.cpp:769 | the escape's value is hex(X) shifted left by four, ORed with hex(Y) |
| WebServer.UrlDecoded | src/webServer.cpp:755-783 | decoding never makes the text longer |
| WebServer.UrlDecode | src/webServer.cpp:755-783 | the loop over the input returns exactly the decoded text UrlDecoded defines |
| WebServer.UrlDecodedAt | src/webServer.cpp:764-780 | at each position, '%' consumes two more characters and yields their escape, '+' yields a space, and any other character is copied |
| WebServer.UrlDecodedPlain | src/webServer.cpp:773-780 | text without '%' decodes character by character, with '+' turned into a space |
| WebServer.PercentEncoded | src/webServer.cpp:766-771 | the uppercase escape of a byte is '%' followed by two characters |
| WebServer.PercentEncodedAll | src/webServer.cpp:766-771 | escaping every byte triples the length |
| WebServer.PercentRoundTrip | src/webServer.cpp:766-771 | decoding the uppercase escape of a byte yields that byte, whatever follows it |
| WebServer.PercentRoundTripAll | src/webServer.cpp:755-783 | decoding the fully escaped form of any byte string returns that string |
| WebServer.ArgStop | src/webServer.cpp:59-64 | the argument ends at the first "http/" in any case, or at the end of the request, and lies within it |
| WebServer.GetCommandArg | src/webServer.cpp:46-87 | without '=' the request is cleared and -1 returned; an empty argument returns -1 and keeps the request; otherwise the decoded, trimmed argument cut to maxSize replaces the request, and its length, at most maxSize, is returned |
| ControllerMessageSet.Added | src/Controllers/ControllerMessageSet.cpp:138-177 | AddMessage keeps the map in key order and the cursor pointing into it |
| ControllerMessageSet.Erased | src/Controllers/ControllerMessageSet.cpp:180-217 | EraseMsg keeps the map in key order and the cursor pointing into it |
| ControllerMessageSet.Scan | src/Controllers/ControllerMessageSet.cpp:233-256 | the cursor loop ends inside the map after at least one move, and a message it reports found is enabled |
| ControllerMessageSet.Info | src/Controllers/ControllerMessage.cpp:198-205 | GetMessage returns the text and the duration in milliseconds, exact whenever the uint32_t product does not wrap |
| ControllerMessageSet.Next | src/Controllers/ControllerMessageSet.cpp:220-264 | GetNextRdsMessage keeps the map in key order and the cursor pointing into it |
| ControllerMessageSet.Updated | src/Controllers/ControllerMessageSet.cpp:370-404 | UpdateMsgText, as written, keeps the map in key order and the cursor pointing into it |
| ControllerMessageSet.RestoredMessage | src/Controllers/ControllerMessage.cpp:208-230 | each of text, duration and enable flag is taken from the saved element when present and kept otherwise |
| ControllerMessageSet.RestoreOne | src/Controllers/ControllerMessageSet.cpp:283-305 | one RestoreConfig element keeps the map in key order and the cursor pointing into it |
| ControllerMessageSet.RestoreAll | src/Controllers/ControllerMessageSet.cpp:267-310 | RestoreConfig keeps the map in key order and the cursor pointing into it |
| ControllerMessageSet.ConfigOf | src/Controllers/ControllerMessage.cpp:233-243 | a saved message holds its text, duration and enable flag |
| ControllerMessageSet.Saved | src/Controllers/ControllerMessageSet.cpp:313-330 | SaveConfig writes one element per message, in key order, each the message's saved form |
| ControllerMessageSet.ActivatedMessage | src/Controllers/ControllerMessageSet.cpp:73-97 | ActivateMessage keeps the map in key order and the cursor pointing into it |
| ControllerMessageSet.Activated | src/Controllers/ControllerMessageSet.cpp:46-70 | Activate keeps the map in key order and the cursor pointing into it |
| ControllerMessageSet.ControlsAdded | src/Controllers/ControllerMessageSet.cpp:100-135 | AddControls keeps the map in key order and the cursor pointing into it |
| ControllerMessageSet.AdvanceCursor | src/Controllers/ControllerMessageSet.cpp:233-256 | the counted loop of at most size() cursor moves ends where Scan says: at the first enabled message in cyclic key order |
| ControllerMessageSet.MessageSet.constructor | src/Controllers/ControllerMessageSet.cpp:28-35 | a new set is empty, with the null cursor and no current message |
| ControllerMessageSet.MessageSet.AddMessage | src/Controllers/ControllerMessageSet.cpp:138-177 | the new state is Added of the old one, and the set stays valid |
| ControllerMessageSet.MessageSet.EraseMsg | src/Controllers/ControllerMessageSet.cpp:180-217 | the new state is Erased of the old one, and the set stays valid |
| ControllerMessageSet.MessageSet.GetNextRdsMessage | src/Controllers/ControllerMessageSet.cpp:220-264 | the new state and the response are those Next gives |
| ControllerMessageSet.MessageSet.UpdateMsgText | src/Controllers/ControllerMessageSet.cpp:370-404 | the new state is Updated of the old one, as written |
| ControllerMessageSet.MessageSet.RestoreConfig | src/Controllers/ControllerMessageSet.cpp:267-310 | the loop over the saved list leaves the state RestoreAll gives |
| ControllerMessageSet.MessageSet.RestoreMessage | src/Controllers/ControllerMessageSet.cpp:283-305 | one pass of the loop leaves the state RestoreOne gives |
| ControllerMessageSet.MessageSet.SaveConfig | src/Controllers/ControllerMessageSet.cpp:313-330 | the set's name and the list Saved gives for its messages are written |
| ControllerMessageSet.MessageSet.ActivateMessage | src/Controllers/ControllerMessageSet.cpp:73-97 | the new state is ActivatedMessage of the old one |
| ControllerMessageSet.MessageSet.Activate | src/Controllers/ControllerMessageSet.cpp:46-70 | the new state is Activated of the old one |
| ControllerMessageSet.MessageSet.AddControls | src/Controllers/ControllerMessageSet.cpp:100-135 | the new state is ControlsAdded of the old one |
| ControllerMessageSet.AddMessageEffect | src/Controllers/ControllerMessageSet.cpp:146-163 | an empty or existing text changes nothing; otherwise the text is added with a fresh message, the map grows by one, the cursor is reset and the text becomes current |
| ControllerMessageSet.EraseMsgEffect | src/Controllers/ControllerMessageSet.cpp:186-213 | erasing an absent key changes nothing; otherwise exactly that key goes and the cursor is reset, and if it was current while others remain, the least remaining key becomes current |
| ControllerMessageSet.ScanFirstEnabled | src/Controllers/ControllerMessageSet.cpp:233-256 | the loop stops at the first enabled message in cyclic order from the cursor, and when it finds none, every message it passed is disabled |
| ControllerMessageSet.NextRdsMessageChoice | src/Controllers/ControllerMessageSet.cpp:220-264 | with no message or none enabled the response is unchanged; otherwise the cursor lands on the first enabled message after it in cyclic key order, whose text and duration are returned |
| ControllerMessageSet.UpdateMsgTextRekeys | src/Controllers/ControllerMessageSet.cpp:383-400 | a successful update to a different text moves the message from the old key to the new one, and the new key becomes current when the old one was |
| ControllerMessageSet.UpdateMsgTextSameText | src/Controllers/ControllerMessageSet.cpp:383-400 | updating a text to itself erases the entry, or puts back a default message when it was current |
| ControllerMessageSet.UpdateMsgTextKeepsOldText | src/Controllers/ControllerMessageSet.cpp:388-390 | as written, renaming "a" to "b" stores the old text "a" under key "b", so the text no longer matches its key |
| ControllerMessageSet.UpdateMsgTextSaveRestore | src/Controllers/ControllerMessageSet.cpp:283-305 | saving that renamed set and restoring it brings back key "a" |
| ControllerMessageSet.UpdatedIntended | src/Controllers/ControllerMessageSet.cpp:370-404 | the corrected UpdateMsgText keeps the map in key order and the cursor pointing into it |
| ControllerMessageSet.UpdateMsgTextIntended | src/Controllers/ControllerMessageSet.cpp:383-400 | the corrected update moves the message to the new key with the new text, and every text keeps matching its key |
| ControllerMessageSet.AddEraseKeepTexts | src/Controllers/ControllerMessageSet.cpp:138-217 | AddMessage and EraseMsg keep every message's text equal to its key |
| ControllerMessageSet.RestoreOneEffect | src/Controllers/ControllerMessageSet.cpp:283-305 | an element without a name, with an empty name or with a name already present is skipped; otherwise its message is added and restored from the element |
| ControllerMessageSet.RestoreAllKeeps | src/Controllers/ControllerMessageSet.cpp:283-305 | RestoreConfig never changes a message that was already there |
| ControllerMessageSet.RestoreAllKeepsTexts | src/Controllers/ControllerMessageSet.cpp:267-310 | RestoreConfig keeps every message's text equal to its key |
| ControllerMessageSet.SaveRestoreRoundTrip | src/Controllers/ControllerMessageSet.cpp:267-330 | restoring a saved set into an empty one gives back the same messages |
| ControllerMessageSet.ActivateMessageEffect | src/Controllers/ControllerMessageSet.cpp:73-97 | the name becomes current and present: kept when it was there, otherwise added with a fresh message, or a default one for the empty name |
| ControllerMessageSet.ActivateSelectsFirst | src/Controllers/ControllerMessageSet.cpp:46-70 | activating a non-empty set, or adding its controls, makes the least key current; otherwise Activate changes nothing |
| ControllerMessages.FindByText | src/Controllers/ControllerMessages.cpp:508-530 | the position found holds the text and no earlier message does; None exactly when no message has the text |
| ControllerMessages.RestoredList | src/Controllers/ControllerMessages.cpp:580-592 | one message per saved member, each a default message restored from that member |
| ControllerMessages.MessageList.constructor | src/Controllers/ControllerMessages.h:72-74 | a new list is titled "Messages", does not offer the FSEQ name, would show it, and holds no message |
| ControllerMessages.MessageList.FindMessageByText | src/Controllers/ControllerMessages.cpp:508-530 | the loop returns the position FindByText gives |
| ControllerMessages.MessageList.ButtonCreateCb | src/Controllers/ControllerMessages.cpp:315-347 | the list becomes Created of the old one and nothing else changes |
| ControllerMessages.MessageList.ButtonDeleteCb | src/Controllers/ControllerMessages.cpp:350-413 | the list becomes Deleted of the old one and nothing else changes |
| ControllerMessages.MessageList.ButtonUpdateCb | src/Controllers/ControllerMessages.cpp:416-454 | the list becomes UpdatedText of the old one and nothing else changes |
| ControllerMessages.MessageList.TextChangeCb | src/Controllers/ControllerMessages.cpp:651-728 | the button states, status line and text reset are those TextChange decides |
| ControllerMessages.MessageList.DisplayFseqNameCb | src/Controllers/ControllerMessages.cpp:493-505 | the FSEQ name is shown exactly when the switch event is S_ACTIVE, and nothing else changes |
| ControllerMessages.MessageList.SaveConfig | src/Controllers/ControllerMessages.cpp:598-631 | title, both flags and the message list SavedAsWritten gives are written |
| ControllerMessages.MessageList.RestoreConfig | src/Controllers/ControllerMessages.cpp:550-595 | each flag and the title are taken from the configuration when present and kept otherwise, and one restored message per saved member is appended |
| ControllerMessages.AppendRestored | src/Controllers/ControllerMessages.cpp:580-592 | the loop appends exactly RestoredList of the saved members |
| ControllerMessages.RestoreConfigOf | src/Controllers/ControllerMessage.cpp:208-243 | restoring a saved message into a default one gives back the message |
| ControllerMessages.CreateAppends | src/Controllers/ControllerMessages.cpp:315-347 | create appends a message with the entered text, with no duplicate check, so that text occurs once more |
| ControllerMessages.ButtonsNeedPress | src/Controllers/ControllerMessages.cpp:315-454 | create, delete and update do nothing for any event other than a button press |
| ControllerMessages.DeleteRemovesFirst | src/Controllers/ControllerMessages.cpp:350-413 | delete removes the first message with the chosen text, so that text occurs once less and every other text as often; without a match nothing changes |
| ControllerMessages.UpdateRenamesFirst | src/Controllers/ControllerMessages.cpp:416-454 | update gives the first message with the chosen text the new text and leaves every other message, and the length, as they were |
| ControllerMessages.TextChangeDelete | src/Controllers/ControllerMessages.cpp:651-728 | delete is enabled exactly when something is chosen and the list is not empty, and update is off otherwise |
| ControllerMessages.TextChangeCreate | src/Controllers/ControllerMessages.cpp:651-728 | create is enabled exactly when the text does not contain the prompt, is not empty on an empty list, and differs from the chosen message; update exactly when both create and delete are |
| ControllerMessages.TextChangeReset | src/Controllers/ControllerMessages.cpp:651-728 | the text field is reset to the prompt exactly for an empty text on an empty list |
| ControllerMessages.SaveRestoreKeepsLast | src/Controllers/ControllerMessages.cpp:615-625 | as written, saving a non-empty list and restoring it brings back only its last message |
| ControllerMessages.SaveConfigLosesMessages | src/Controllers/ControllerMessages.cpp:615-625 | two messages "a" and "b" save and restore as the single message "b" |
| ControllerMessages.SavedIntendedMembers | src/Controllers/ControllerMessages.cpp:615-625 | with the index incremented, message i is written to member String(i), in order |
| ControllerMessages.SaveRestoreIntended | src/Controllers/ControllerMessages.cpp:550-631 | with the index incremented, saving a list and restoring it gives back the same list |
| ControllerFPPDSequences.SequenceList.constructor | src/Controllers/ControllerFPPDSequences.h:53 | a new list holds no sequence and selects "default" |
| ControllerFPPDSequences.SequenceList.AddSequence | src/Controllers/ControllerFPPDSequences.cpp:189-206 | the sequence under the name is created when missing and becomes the selected one |
| ControllerFPPDSequences.SequenceList.Begin | src/Controllers/ControllerFPPDSequences.cpp:209-218 | begin adds the "default" sequence and selects it |
| ControllerFPPDSequences.SequenceList.CbButtonCreate | src/Controllers/ControllerFPPDSequences.cpp:221-253 | a button press adds the entered name and selects it; any other event changes nothing |
| ControllerFPPDSequences.SequenceList.CbButtonDelete | src/Controllers/ControllerFPPDSequences.cpp:256-298 | the map becomes Deleted of the old one and the selection is kept |
| ControllerFPPDSequences.SequenceList.CbButtonUpdate | src/Controllers/ControllerFPPDSequences.cpp:301-338 | the map becomes Updated of the old one, as written, and the selection is kept |
| ControllerFPPDSequences.SequenceList.CbChoiceList | src/Controllers/ControllerFPPDSequences.cpp:341-366 | the chosen value becomes the selected name and the map is kept |
| ControllerFPPDSequences.SequenceList.CbTextChange | src/Controllers/ControllerFPPDSequences.cpp:369-451 | the button states and status line are those TextChange decides |
| ControllerFPPDSequences.SequenceList.RestoreConfig | src/Controllers/ControllerFPPDSequences.cpp:454-493 | the map and selection are those RestoreAll gives after "default" is added |
| ControllerFPPDSequences.AddedKeepsNames | src/Controllers/ControllerFPPDSequences.cpp:189-206 | AddSequence adds exactly the name and keeps every sequence stored under its own name |
| ControllerFPPDSequences.DeleteErasesKey | src/Controllers/ControllerFPPDSequences.cpp:256-298 | a button press erases exactly the chosen key, and every remaining sequence is unchanged |
| ControllerFPPDSequences.UpdateKeepsOriginal | src/Controllers/ControllerFPPDSequences.cpp:322-325 | as written, update keeps the original key, stores under the new key a sequence still named after the original, and renames the one left under the original key |
| ControllerFPPDSequences.UpdateBreaksNames | src/Controllers/ControllerFPPDSequences.cpp:322-325 | renaming "a" to "b" leaves "a" in the map and no longer keeps every sequence under its own name |
| ControllerFPPDSequences.UpdateIntendedRenames | src/Controllers/ControllerFPPDSequences.cpp:301-338 | the corrected update moves the sequence from the original key to the new one and keeps every sequence under its own name |
| ControllerFPPDSequences.TextChangeDelete | src/Controllers/ControllerFPPDSequences.cpp:369-451 | delete is enabled exactly when the chosen sequence is not "default", and update is off when it is |
| ControllerFPPDSequences.TextChangeCreate | src/Controllers/ControllerFPPDSequences.cpp:369-451 | create is enabled exactly for a non-empty text without the prompt that is not "default", not the chosen name and not an existing name; update exactly when create is and the choice is not "default" |
| ControllerFPPDSequences.RestoreAllEffect | src/Controllers/ControllerFPPDSequences.cpp:454-493 | restoring adds "default" and every named element, keeps every sequence under its own name, and selects "default" or one of the restored names |
| FPPDiscovery.Inc | src/Controllers/FPPDiscovery.cpp:146 | a counter increment adds one and wraps from UINT32_MAX to 0 |
| FPPDiscovery.SwapBytes | src/Controllers/FPPDiscovery.cpp:352-355 | the two bytes of the 16-bit version word are exchanged |
| FPPDiscovery.BytesLE | src/Controllers/FPPDiscovery.cpp:359-360 | the address is copied as its four bytes |
| FPPDiscovery.Discoverer.constructor | src/Controllers/FPPDiscovery.cpp:35-40 | counters start at zero, with no file name, no remote address and the network down |
| FPPDiscovery.Discoverer.ProcessSyncPacket | src/Controllers/FPPDiscovery.cpp:263-334 | the state becomes Synced of the old one, and the callback receives the current file name |
| FPPDiscovery.Discoverer.ProcessReceivedUdpPacket | src/Controllers/FPPDiscovery.cpp:130-260 | the new state, the reply and the callback argument are those Received gives |
| FPPDiscovery.Discoverer.NetworkStateChanged | src/Controllers/FPPDiscovery.cpp:75-127 | the new network state is recorded, and a ping is sent exactly when the network came up and both listens succeeded |
| FPPDiscovery.BadHeaderCountsError | src/Controllers/FPPDiscovery.cpp:140-148 | a packet without the "FPPD" header only increments the error counter |
| FPPDiscovery.PacketCounters | src/Controllers/FPPDiscovery.cpp:153-248 | CMD, PING, PLUGIN and FPPCOMMAND packets each increment their own counter and nothing else; BLANK also clears the file name; EVENT and unknown types only record the receive time |
| FPPDiscovery.SyncNotifies | src/Controllers/FPPDiscovery.cpp:164-176 | the callback is called exactly for sequence sync packets, with the packet's file name, or the empty name after STOP |
| FPPDiscovery.MediaSyncIgnored | src/Controllers/FPPDiscovery.cpp:176-187 | a media sync packet changes nothing but the receive time |
| FPPDiscovery.PingAnswers | src/Controllers/FPPDiscovery.cpp:202-236 | only a discover ping (subtype 1) is answered: to everybody when it came to a broadcast or multicast address, otherwise to its sender |
| FPPDiscovery.SwapBytesInvolution | src/Controllers/FPPDiscovery.cpp:352-355 | swapping the bytes twice gives the value back |
| FPPDiscovery.BytesLERoundTrip | src/Controllers/FPPDiscovery.cpp:359-360 | reading the four copied bytes back gives the address |
| FPPDiscovery.VersionNumbers | src/Controllers/FPPDiscovery.cpp:351-354 | atoi of the version string "1.1.0" is 1, and atoi of its tail "1.0" from index 2 is 1 |
| FPPDiscovery.PingLayout | src/Controllers/FPPDiscovery.cpp:337-372 | the ping has header "FPPD", type 4, length 294, version 3, subtype 0, hardware 0xC3 and bridge mode 8; each version word holds 1 big-endian; the address bytes read back as the local address |
| FPPDiscovery.GetSequenceMeta | src/Controllers/FPPDiscovery.cpp:506-549 | a GET is answered 200 or 404; 200 exactly when a sequence name is found, and then the path is "/api/sequence/" + name + "/meta" |
| FPPDiscovery.MetaPathAnswered | src/Controllers/FPPDiscovery.cpp:524-538 | every "/api/sequence/<name>/meta" path is answered 200 for that name |
| ControllerMqtt.AnySet | src/Controllers/ControllerMQTT.cpp:144-157 | true exactly when some value-changed flag is set |
| ControllerMqtt.Cleared | src/Controllers/ControllerMQTT.cpp:144-157 | n flags, none set |
| ControllerMqtt.ControllerMqtt.constructor | src/Controllers/ControllerMQTT.h:98 | no state until begin, the poll timer at 1000 ms, and no flag set |
| ControllerMqtt.ControllerMqtt.Begin | src/Controllers/ControllerMQTT.cpp:125-141 | begin enters the Disabled state and keeps the timer and flags |
| ControllerMqtt.ControllerMqtt.ConfigHasChanged | src/Controllers/ControllerMQTT.cpp:144-157 | the loop reports whether any flag was set and clears every flag |
| ControllerMqtt.ControllerMqtt.PollState | src/Controllers/ControllerMQTT.cpp:807-1012 | the state and flags after a state poll are those Next gives |
| ControllerMqtt.ControllerMqtt.Poll | src/Controllers/ControllerMQTT.cpp:624-655 | before the timer passes nothing changes; after it the timer moves on by 1000 ms (wrapping) and the current state, if any, is polled |
| ControllerMqtt.DisabledAndDisconnecting | src/Controllers/ControllerMQTT.cpp:807-817 | Disabled moves to ValidateConfig exactly when enabled, Disconnecting always goes to Disabled, and neither reads the flags |
| ControllerMqtt.ValidateConfigMoves | src/Controllers/ControllerMQTT.cpp:832-850 | ValidateConfig goes to Disconnecting when disabled, to WaitForWiFi with valid settings, and otherwise stays |
| ControllerMqtt.WorkingStatesDrop | src/Controllers/ControllerMQTT.cpp:865-990 | WaitForWiFi, Connecting and Connected drop to Disconnecting on disable, a changed or invalid setting, a lost WiFi link (the latter two) or a lost broker (Connected) |
| ControllerMqtt.SubscribeFailureDisconnects | src/Controllers/ControllerMQTT.cpp:915-933 | a failed subscribe never reaches Connected |
| ControllerMqtt.ConnectedNeedsAll | src/Controllers/ControllerMQTT.cpp:915-990 | Connected is reached or kept only when enabled, on WiFi, with the broker connected, valid and unchanged settings, and from Connected or a successful subscribe |
| ControllerMqtt.FlagsResetWhenRead | src/Controllers/ControllerMQTT.cpp:865-990 | a poll either keeps the flags or clears them all; disabled polls keep them, and polls that read them clear them |
| ControllerMqtt.ValidateConfigurationRules | src/Controllers/ControllerMQTT.cpp:747-791 | the settings are valid exactly with a name, a broker address, and a user and password that are neither empty nor the defaults; the first failure names the setting |
| ControllerMqtt.ClientCodeNames | src/Controllers/ControllerMQTT.cpp:670-744 | the codes -4..5 have ten distinct names and every other code is "Undefined" |
| WiFiDriver.ValidatedTimeouts | src/Network/WiFiDriver.cpp:474-496 | a station timeout below 5 s and an AP timeout below 15 s are replaced by those minimums, good values are kept, and the result counts the repairs |
| WiFiDriver.Driver.constructor | src/Network/WiFiDriver.cpp:122-204 | after Begin the driver is in Boot, not connected, not resetting, with the default timeouts and the first poll one interval away |
| WiFiDriver.Driver.SetFsm | src/Network/WiFiDriver.cpp:431-438 | the state machine becomes the given one and nothing else changes |
| WiFiDriver.Driver.Disable | src/Network/WiFiDriver.cpp:258-270 | outside Disabled, Disabled's Init runs; in Disabled nothing changes |
| WiFiDriver.Driver.Enable | src/Network/WiFiDriver.cpp:273-289 | in Disabled, ConnectionFailed's Init runs; otherwise nothing changes |
| WiFiDriver.Driver.ValidateConfig | src/Network/WiFiDriver.cpp:474-496 | the timeouts become those ValidatedTimeouts repairs, and the repair count is returned |
| WiFiDriver.Driver.WiFiReset | src/Network/WiFiDriver.cpp:499-504 | a reset is requested and the state machine is untouched |
| WiFiDriver.Driver.OnWiFiConnect | src/Network/WiFiDriver.cpp:330-337 | the state machine moves as the current state's OnConnect says |
| WiFiDriver.Driver.OnWiFiDisconnect | src/Network/WiFiDriver.cpp:340-347 | the state machine moves as the current state's OnDisconnect says |
| WiFiDriver.Driver.Poll | src/Network/WiFiDriver.cpp:350-369 | once the poll time passes it moves on by one interval and the current state is polled; a requested reset is carried out and cleared |
| WiFiDriver.BootStarts | src/Network/WiFiDriver.cpp:510-532 | Boot goes on to the configured credentials, or to the defaults when no SSID is set, with the attempt's clock started now |
| WiFiDriver.ConnectingTimesOut | src/Network/WiFiDriver.cpp:536-610 | the configured credentials give way to the defaults, and the defaults to AP mode, once 1000 * sta_timeout ms pass without a connection; until then nothing changes |
| WiFiDriver.AsApMoves | src/Network/WiFiDriver.cpp:640-697 | in AP mode a joined station leads to ConnectedToSta; otherwise the AP timeout, or a disabled AP fallback, leads to ConnectionFailed's Init |
| WiFiDriver.FailedInit | src/Network/WiFiDriver.cpp:856-887 | ConnectionFailed's Init only clears a set connection flag; otherwise it starts over at Boot unless AP reboot is set |
| WiFiDriver.IdleStates | src/Network/WiFiDriver.cpp:856-903 | ConnectionFailed and Disabled ignore polls and WiFi events |
| WiFiDriver.EnableDisable | src/Network/WiFiDriver.cpp:258-289 | disabling twice is disabling once, and enabling leaves Disabled |
| WiFiDriver.ValidateConfigIdempotent | src/Network/WiFiDriver.cpp:474-496 | a second ValidateConfig finds nothing to repair |
| WiFiDriver.ApTimeoutAlreadyExpired | src/Network/WiFiDriver.cpp:600-607 | as written, with the default timeouts AP mode, entered when the 500 s default attempt times out, falls through to ConnectionFailed and Boot at its first poll without a station, because its clock still holds the start of that attempt |
| WiFiDriver.ApTimeoutIntended | src/Network/WiFiDriver.cpp:640-697 | when AP mode's Init starts its own clock, no poll without a station within 1000 * ap_timeout ms moves it out of AP mode |
| WiFiDriver.LostConnectionStays | src/Network/WiFiDriver.cpp:784-792 | as written, after a lost connection to the access point the driver rests in ConnectionFailed, and no poll or WiFi event moves it on |
| WiFiDriver.LostConnectionRetriedIntended | src/Network/WiFiDriver.cpp:856-887 | when ConnectionFailed's Init also starts over after clearing the flag, a lost connection without AP reboot reaches Boot, whose next poll starts a new attempt |
| ControlCommon.SetWith | src/BaseControls/ControlCommon.cpp:192-245 | set keeps validate's verdict and value; a rejection gets the validator's message or a BAD VALUE one and is not printed; an acceptance reports "Set To" the new value and is printed exactly when the value changed or the update is forced |
| ControlCommon.Control.constructor | src/BaseControls/ControlCommon.cpp:63-80 | a new control holds its default value, is booting and has shown no save warning |
| ControlCommon.Control.Set | src/BaseControls/ControlCommon.cpp:192-245 | set with the base validate: the value, message and UI follow SetWith, and the save warning is raised when the UI is printed after boot |
| ControlCommon.Control.AddControls | src/BaseControls/ControlCommon.cpp:86-126 | the value is printed by a forced set (kept unprinted when it exceeds the limit), a control still booting shows no save warning, and the control has then booted |
| ControlCommon.Control.Callback | src/BaseControls/ControlCommon.cpp:129-148 | button and pad release events change nothing; any other event sets the value the UI sent, and the stored value, the UI value and the save warning are what set leaves (the UI is printed only when the value changed, and the warning is raised only after boot) |
| ControlCommon.Control.ResetToDefaults | src/BaseControls/ControlCommon.cpp:154-162 | the default value is set through validate like any other value; the stored value, the UI value and the save warning are what that set leaves |
| ControlCommon.Control.SaveConfiguration | src/BaseControls/ControlCommon.cpp:180-189 | the value is stored under the configuration name, and nothing is stored without one |
| ControlCommon.Control.RestoreConfiguration | src/BaseControls/ControlCommon.cpp:165-177 | with a configuration name, the stored value (or the current one when none is stored) is set, and the stored value, the UI value and the save warning are what that set leaves; without a name, none of the three changes |
| ControlCommon.LengthLimit | src/BaseControls/ControlCommon.cpp:348-372 | with a nonzero limit a longer value is refused with a BAD VALUE message and the stored value kept; a value within the limit, or any value with limit 0, is stored |
| ControlCommon.UiWrittenOnChange | src/BaseControls/ControlCommon.cpp:217-240 | an accepted value is printed exactly when it differs from the old one or the update is forced |
| ControlCommon.SaveRestoreRoundTrip | src/BaseControls/ControlCommon.cpp:165-189 | saving and restoring a named control gives back the value saved when it fits the limit |
| ControlCommon.UnnamedNotSaved | src/BaseControls/ControlCommon.cpp:180-189 | a control without a configuration name leaves the saved object untouched |
| ControlCommon.ReleaseEvents | src/BaseControls/ControlCommon.cpp:137-141 | the ignored events are the button and pad release codes, and not the press or switch codes |
| ChoiceListControl.IndexMap | src/BaseControls/ChoiceListControl.cpp:127-150 | the rebuilt map holds exactly the keys of the option list, each at a position where that key stands, with no later entry carrying the same key |
| ChoiceListControl.BuildKeyMap | src/BaseControls/ChoiceListControl.cpp:127-150 | the rebuild loop, entering each option's key at its running index, yields IndexMap of the list |
| ChoiceListControl.ChoiceListControl.constructor | src/BaseControls/ChoiceListControl.cpp:22-37 | a new control holds its default key and its list, with an empty key map until the first refresh |
| ChoiceListControl.ChoiceListControl.get32 | src/BaseControls/ChoiceListControl.cpp:55-71 | an unknown current key gives 0xFFFFFFFF; a known one gives the number in the value half of its entry, cast to 32 bits |
| ChoiceListControl.ChoiceListControl.Set | src/BaseControls/ChoiceListControl.cpp:209-254 | set with the choice-list validate: verdict, message, value, UI and save warning as SetWith gives them, and the list and map untouched |
| ChoiceListControl.ChoiceListControl.SetIndex | src/BaseControls/ChoiceListControl.cpp:178-206 | an index past the list is refused with a BAD VALUE message naming the index and changes nothing; any other sets the key at that position, keeping set's verdict, and the value, UI value and save warning are what that set leaves |
| ChoiceListControl.ChoiceListControl.RefreshOptionList | src/BaseControls/ChoiceListControl.cpp:96-160 | the new list replaces the old and the key map is rebuilt from it. When the old position still exists, its key in the new list is forced, which raises the save warning once the control has booted; otherwise value and warning are kept. The UI then shows the value either way |
| ChoiceListControl.GetIndexPosition | src/BaseControls/ChoiceListControl.cpp:74-93 | getIndex is 0xFFFFFFFF exactly when the current key is not in the list, and otherwise a position holding that key |
| ChoiceListControl.ValidateRules | src/BaseControls/ChoiceListControl.cpp:209-254 | a value is accepted exactly when it is a known key and not a non-forced repeat of the current one; a repeat is refused as a duplicate and an unknown value as a bad value, keeping the current key |
| ChoiceListControl.EmptyMapRejects | src/BaseControls/ChoiceListControl.cpp:22-37 | before the first refresh every value is refused |
| ChoiceListControl.DistinctKeysPositions | src/BaseControls/ChoiceListControl.cpp:127-150 | with distinct keys the rebuilt map sends each key to its own position |
| ChoiceListControl.RefreshKeepsIndex | src/BaseControls/ChoiceListControl.cpp:96-160 | refreshing with the same list of distinct keys selects the same position again |
| BinaryControl.BinarySet | src/BaseControls/BinaryControl.cpp:116-169 | empty on / off texts get their defaults; the verdict and value are validate's; a success answers with, and shows, the on or off text for the new value, a failure answers with the invalid-value message and keeps value and message; the UI is printed and the save warning raised exactly as the common set does |
| BinaryControl.InputConditions.constructor | src/BaseControls/BinaryControl.cpp:25-37 | the shared table starts as the ten accepted words |
| BinaryControl.InputConditions.AddInputCondition | src/BaseControls/BinaryControl.cpp:64-73 | as written, the name is entered as given, not lowercased |
| BinaryControl.BinaryControl.constructor | src/BaseControls/BinaryControl.cpp:40-61 | a new control holds its default as bool and as "1" / "0", with the Enabled / Disabled texts |
| BinaryControl.BinaryControl.Set | src/BaseControls/BinaryControl.cpp:116-169 | set moves the control to the state BinarySet gives, keeping the string form equal to the bool |
| BinaryControl.BinaryControl.SaveConfiguration | src/BaseControls/BinaryControl.cpp:100-113 | the bool is stored under the configuration name, and nothing is stored without one |
| BinaryControl.BinaryControl.RestoreConfiguration | src/BaseControls/BinaryControl.cpp:76-97 | as written, the current value, not the stored one, is set again: with a configuration name, the value, on/off texts, message, UI value and save warning are exactly what that set leaves; without one nothing changes. The value stays as it was while the table reads "1" and "0" as on and off |
| BinaryControl.TokenTable | src/BaseControls/BinaryControl.cpp:25-37 | exactly the ten words, in any case, are accepted, each for its value; anything else is refused with the invalid-value message and keeps the value |
| BinaryControl.BoolStringRoundTrip | src/BaseControls/BinaryControl.cpp:256-262 | the "1" / "0" a value is stored as is read back as that value |
| BinaryControl.ToLowerIdempotent | src/BaseControls/BinaryControl.cpp:245-248 | lowercasing twice is lowercasing once and leaves no capital letter |
| BinaryControl.AddedCapitalNeverMatches | src/BaseControls/BinaryControl.cpp:64-73 | as written, a condition added under a name with a capital letter changes no validate outcome |
| BinaryControl.AddedIntendedMatches | src/BaseControls/BinaryControl.cpp:64-73 | with the lowercased name stored, the name in any case is accepted with the value given |
| BinaryControl.RestoreLosesSavedValue | src/BaseControls/BinaryControl.cpp:76-97 | as written, a saved off is not restored into a control that is on |
| BinaryControl.SaveRestoreIntended | src/BaseControls/BinaryControl.cpp:76-113 | when the value read is the one set, restoring gives back the value saved |
| NumberControl.NumberControl.constructor | src/BaseControls/NumberControl.cpp:23-40 | a new control holds its default printed in decimal, with its range |
| NumberControl.NumberControl.Set | src/BaseControls/NumberControl.cpp:63-105 | set with the number validate: verdict, message, value, UI and save warning as SetWith gives them |
| NumberControl.HexPrefix | src/BaseControls/NumberControl.cpp:43-60 | input starting "0x" is read as hexadecimal from the third character and anything else as decimal, both narrowed to 32 bits |
| NumberControl.ValidateRules | src/BaseControls/NumberControl.cpp:63-105 | a value numerically equal to the current one is accepted and changes nothing; any other is accepted exactly when within [MinValue, MaxValue] and then stored in decimal, and refused with the out-of-range message keeping the current value otherwise |
| NumberControl.StoredReadsBack | src/BaseControls/NumberControl.cpp:63-105 | an accepted value up to 0x7FFFFFFF is stored so that it reads back as the number accepted |
| NumberControl.DecimalReadsBack | src/BaseControls/NumberControl.cpp:43-60 | a number up to 0x7FFFFFFF printed in decimal reads back as itself |
| NumberControl.HexInput | src/BaseControls/NumberControl.cpp:43-60 | "0x" followed by the hex digits of a number up to 0x7FFFFFFF reads as that number |
| QN8027Radio.PtyHalves | src/Radio/QN8027Radio.cpp:680-684 | the two PTY halves placed in block 2 read back as the 5-bit PTY, whatever address bits share the second byte |
| QN8027Radio.PsBlockTwo | src/Radio/QN8027Radio.cpp:680-684 | block 2 of a Program Service group decodes to group type 0, version A, the PTY, the music flag and the segment address |
| QN8027Radio.RtBlockTwo | src/Radio/QN8027Radio.cpp:742-750 | block 2 of a RadioText group decodes to group type 2, version A, the PTY, text flag A and the segment address |
| QN8027Radio.PsGroupOr | src/Radio/QN8027Radio.cpp:680-684 | the Program Service group's address byte is the OR the driver computes |
| QN8027Radio.PsGroupDecodes | src/Radio/QN8027Radio.cpp:684 | a receiver reads a Program Service group back as the PI code, type 0A, the PTY, the segment, block 3 0xE0 0xCD and the two name bytes |
| QN8027Radio.RtGroupOr | src/Radio/QN8027Radio.cpp:742-750 | the RadioText group's block 2 bytes are the ORs the driver computes |
| QN8027Radio.RtGroupDecodes | src/Radio/QN8027Radio.cpp:746-754 | a receiver reads a RadioText group back as the PI code, type 2A, the PTY, text flag A, the segment and the four text bytes |
| QN8027Radio.StationNameGroups | src/Radio/QN8027Radio.cpp:656-687 | the name cut to 8 bytes goes out in one to four groups, enough to carry it and its terminator unless it fills all 8 bytes, and no group beyond that |
| QN8027Radio.StationNameHeaders | src/Radio/QN8027Radio.cpp:656-687 | every name group is a type 0A group of this station with its PTY, and the groups are numbered 0, 1, 2, ... |
| QN8027Radio.StationNameText | src/Radio/QN8027Radio.cpp:670-686 | read in order, the name groups carry the name, its terminator and NUL padding: buffer byte i travels in group i / 2 |
| QN8027Radio.RtGroupsHeaders | src/Radio/QN8027Radio.cpp:719-757 | every RadioText group is a type 2A group of this station with its PTY and text flag A, and the groups are numbered 0, 1, 2, ... |
| QN8027Radio.RtGroupsText | src/Radio/QN8027Radio.cpp:732-756 | read in order, the RadioText groups carry the buffer: byte i travels in group i / 4 |
| QN8027Radio.RadioTextGroupsAsWritten | src/Radio/QN8027Radio.cpp:719-757 | as written, the text cut to 64 bytes goes out in one to sixteen groups that cover the text and its terminator |
| QN8027Radio.RadioTextGroups | src/Radio/QN8027Radio.cpp:719-757 | with the length rounded up to a multiple of 4, the groups cover the text and its terminator and every group but the first starts within the text |
| QN8027Radio.RadioTextExtraGroup | src/Radio/QN8027Radio.cpp:730-735 | as written, a text whose length is 2 modulo 4 and below 62 gets the intended groups and then one more that carries only NUL bytes |
| QN8027Radio.RadioTextSameGroups | src/Radio/QN8027Radio.cpp:730-735 | for every other length the code as written sends the intended groups |
| QN8027Radio.RadioTextTwoBytesExample | src/Radio/QN8027Radio.cpp:730-735 | the two-character text "ab" goes out in two groups instead of one, the second all NUL |
| QN8027Radio.SystemByteFields | src/Radio/QN8027Radio.cpp:241 | each SYSTEM field (carrier, mono, mute, RDS toggle, top channel bits) is read back from the byte written |
| QN8027Radio.GpltByteFields | src/Radio/QN8027Radio.cpp:314 | each GPLT field (pre-emphasis, private mode, PA auto-off, pilot deviation) is read back from the byte written while the pilot deviation fits in 4 bits |
| QN8027Radio.VgaByteFields | src/Radio/QN8027Radio.cpp:422 | each VGA field (crystal, input buffer gain, digital gain, impedance) is read back from the byte written |
| QN8027Radio.TopBitFields | src/Radio/QN8027Radio.cpp:531-599 | the RDS and PAC registers keep their top-bit flag and 7-bit field apart |
| QN8027Radio.Toggled | src/Radio/QN8027Radio.cpp:225-232 | the RDS toggle bit flips between 0 and 4 with every group |
| QN8027Radio.ToggledNParity | src/Radio/QN8027Radio.cpp:225-232 | after an even number of groups the toggle bit is back where it started, after an odd number it is flipped |
| QN8027Radio.ImpedanceCode | src/Radio/QN8027Radio.cpp:480-517 | any impedance outside 5, 10, 20 and 40 kOhm selects the 20 kOhm code, and every code fits the 2-bit field |
| QN8027Radio.ImpedanceRoundTrip | src/Radio/QN8027Radio.cpp:480-517 | the impedance table inverts the code-to-kOhm map |
| QN8027Radio.TxPowerBits | src/Radio/QN8027Radio.cpp:595-599 | the TX power keeps its low 7 bits and only the top bit is dropped |
| QN8027Radio.FsmStatusOf | src/Radio/QN8027Radio.cpp:615-620 | the FSM status is the low three bits of the status byte |
| QN8027Radio.AudioInpPeakOf | src/Radio/QN8027Radio.cpp:625-632 | the audio peak is the high nibble of the status byte |
| QN8027Radio.CopyToBuffer | src/Radio/QN8027Radio.cpp:670-671 | the transmit buffer holds the text, then its terminator, then NUL |
| QN8027Radio.Radio.constructor | src/Radio/QN8027Radio.cpp:137-145 | a new driver has written nothing to the chip and sent no group; its fields start cleared, the initial values in QN8027Radio.h not being part of this model |
| QN8027Radio.Radio.UpdateSystemReg | src/Radio/QN8027Radio.cpp:241 | SYSTEM receives the OR of its fields |
| QN8027Radio.Radio.SendRDS | src/Radio/QN8027Radio.cpp:213-235 | the group goes to the eight RDS data registers and the send list, the toggle bit flips, and SYSTEM is rewritten; no other register changes |
| QN8027Radio.RdsSentOverwrites | src/Radio/QN8027Radio.cpp:213-235 | a second group sent overwrites every register the first one wrote, so a run of sends leaves the chip as one send of its last group would |
| QN8027Radio.Radio.Mute | src/Radio/QN8027Radio.cpp:263-276 | ON sets the mute field, OFF clears it, other values keep it, and SYSTEM is rewritten |
| QN8027Radio.Radio.MonoAudio | src/Radio/QN8027Radio.cpp:280-294 | ON sets the mono field, OFF clears it, other values keep it, and SYSTEM is rewritten |
| QN8027Radio.Radio.Switch | src/Radio/QN8027Radio.cpp:298-311 | ON sets the carrier field, OFF clears it, other values keep it, and SYSTEM is rewritten |
| QN8027Radio.Radio.UpdateGpltReg | src/Radio/QN8027Radio.cpp:314 | GPLT receives the OR of its fields |
| QN8027Radio.Radio.ScrambleAudio | src/Radio/QN8027Radio.cpp:318-331 | ON sets private mode, OFF clears it, other values keep it, and GPLT is rewritten |
| QN8027Radio.Radio.SetPreEmphTime50 | src/Radio/QN8027Radio.cpp:335-348 | ON selects 50 us, OFF 75 us, other values keep the setting, and GPLT is rewritten |
| QN8027Radio.Radio.SetTxPilotFreqDeviation | src/Radio/QN8027Radio.cpp:357-362 | the pilot deviation is stored as given and GPLT is rewritten |
| QN8027Radio.Radio.RadioNoAudioAutoOFF | src/Radio/QN8027Radio.cpp:376-389 | ON selects the 60 s PA auto-off, OFF never, other values keep it, and GPLT is rewritten |
| QN8027Radio.Radio.SetPiCode | src/Radio/QN8027Radio.cpp:366 | the PI code is stored |
| QN8027Radio.Radio.SetPtyCode | src/Radio/QN8027Radio.cpp:369 | the PTY code is stored |
| QN8027Radio.Radio.SetClockSource | src/Radio/QN8027Radio.cpp:401-405 | the clock source's two low bits land in bits 6 and 7, and XTL is rewritten |
| QN8027Radio.Radio.UpdateVgaReg | src/Radio/QN8027Radio.cpp:422 | VGA receives the OR of its fields |
| QN8027Radio.Radio.SetCrystalFreq | src/Radio/QN8027Radio.cpp:430-442 | 24 selects the 24 MHz crystal and every other value 12 MHz, and VGA is rewritten |
| QN8027Radio.Radio.SetTxInputBufferGain | src/Radio/QN8027Radio.cpp:450-460 | the gain is clamped to 5 and shifted into bits 4 to 6, and VGA is rewritten |
| QN8027Radio.Radio.SetTxDigitalGain | src/Radio/QN8027Radio.cpp:468-478 | the gain is clamped to 2 and shifted into bits 2 and 3, and VGA is rewritten |
| QN8027Radio.Radio.SetAudioInpImp | src/Radio/QN8027Radio.cpp:480-517 | the impedance code comes from the table and VGA is rewritten |
| QN8027Radio.Radio.SetTxFreqDeviation | src/Radio/QN8027Radio.cpp:527 | FDEV receives the deviation as given |
| QN8027Radio.Radio.Rds | src/Radio/QN8027Radio.cpp:531-543 | ON enables RDS and any other value disables it, and the RDS register is rewritten |
| QN8027Radio.Radio.SetRDSFreqDeviation | src/Radio/QN8027Radio.cpp:551-555 | the RDS deviation is stored as given and the RDS register is rewritten |
| QN8027Radio.Radio.UpdatePacReg | src/Radio/QN8027Radio.cpp:581 | PAC receives the OR of the peak-clear bit and the output power |
| QN8027Radio.Radio.ClearAudioPeak | src/Radio/QN8027Radio.cpp:570-582 | the peak-clear bit flips and PAC is rewritten |
| QN8027Radio.Radio.SetTxPower | src/Radio/QN8027Radio.cpp:595-599 | the power is stored in 7 bits and PAC is rewritten |
| QN8027Radio.Radio.GetAudioInpPeak | src/Radio/QN8027Radio.cpp:625-632 | the high nibble of the status byte is returned and the peak detector restarted |
| QN8027Radio.Radio.GetStatus | src/Radio/QN8027Radio.cpp:634-641 | the status byte is returned unchanged and the peak detector restarted |
| QN8027Radio.Radio.SendPsSegment | src/Radio/QN8027Radio.cpp:680-685 | one pass of the name loop sends the next Program Service group; the chip then holds its registers from before the loop, the data bytes of this group and the current SYSTEM image |
| QN8027Radio.Radio.SendPsGroups | src/Radio/QN8027Radio.cpp:667-686 | the name loop sends exactly the groups for the name and flips the toggle bit once per group; only SYSTEM and the RDS data registers change, and they hold the current image and the last group |
| QN8027Radio.Radio.SendStationName | src/Radio/QN8027Radio.cpp:656-687 | sendStationName appends StationNameGroups of the name to what the chip was sent; only SYSTEM and the RDS data registers change, and the other registers (GPLT, XTL, VGA, FDEV, RDS, PAC, CH1) stay as they were |
| QN8027Radio.Radio.SendRtSegment | src/Radio/QN8027Radio.cpp:742-755 | one pass of the RadioText loop sends the next RadioText group; the chip then holds its registers from before the loop, the data bytes of this group and the current SYSTEM image |
| QN8027Radio.Radio.SendRtGroups | src/Radio/QN8027Radio.cpp:730-756 | the RadioText loop, as written, sends the groups for the text and flips the toggle bit once per group; only SYSTEM and the RDS data registers change, and they hold the current image and the last group |
| QN8027Radio.Radio.SendRadioText | src/Radio/QN8027Radio.cpp:719-757 | sendRadioText appends RadioTextGroupsAsWritten of the text to what the chip was sent; only SYSTEM and the RDS data registers change, and the other registers stay as they were |
| FrequencyAdjust.Clamp | src/Radio/Controls/FrequencyAdjust.cpp:141-150 | a stepped frequency above the band becomes 107.9 MHz, one below it 88.1 MHz, and one inside it is kept |
| FrequencyAdjust.FrequencyAdjust.constructor | src/Radio/Controls/FrequencyAdjust.cpp:30-38 | the control starts at 88.1 MHz, shown as "88.1" |
| FrequencyAdjust.FrequencyAdjust.Set | src/Radio/Controls/FrequencyAdjust.cpp:166-220 | a frequency above or below the band is refused with its message and changes nothing; the current one is accepted and changes nothing; a new one is stored, shown as "<MHz>.<tenth> MHz", sent to the radio and raises the save warning |
| FrequencyAdjust.FrequencyAdjust.Callback | src/Radio/Controls/FrequencyAdjust.cpp:103-163 | only the four pad presses step the frequency, by 0.1 or 1 MHz in uint32_t arithmetic. The stepped value is clamped into the band and set, so the set cannot fail; when the frequency moved, the text, the radio frequency and the save warning are updated. Every other event, and a step that stays at a band edge, changes nothing |
| FrequencyAdjust.SetRules | src/Radio/Controls/FrequencyAdjust.cpp:181-200 | set accepts exactly the frequencies of the band and stores what it accepts; too high and too low each get their own message |
| FrequencyAdjust.PadSteps | src/Radio/Controls/FrequencyAdjust.cpp:118-150 | inside the band the pad moves by exactly 0.1 or 1 MHz, and a 1 MHz step past an edge stops at that edge |
| FrequencyAdjust.OnlyPadPressesStep | src/Radio/Controls/FrequencyAdjust.cpp:114-140 | button presses, pad centre and switch events and all non-negative event types do not step |
| FrequencyAdjust.StepUpDown | src/Radio/Controls/FrequencyAdjust.cpp:118-150 | a step up followed by a step down returns to the starting frequency when both stay inside the band |
| FrequencyAdjust.BandEdgeStrings | src/Radio/Controls/FrequencyAdjust.cpp:206 | the band edges are shown as "88.1 MHz" and "107.9 MHz" |
| PiCode.PiCode.constructor | src/Radio/Controls/PiCode.cpp:32-40 | the control starts at code 0x6400, shown as "0x6400" |
| PiCode.PiCode.Set | src/Radio/Controls/PiCode.cpp:62-109 | set trims the value (handing the trimmed text back) and moves the code as PiSet decides on it; a changed code is shown as "0x" and hex digits, sent to the transmitter and raises the save warning, and otherwise nothing changes |
| PiCode.SetRules | src/Radio/Controls/PiCode.cpp:71-88 | the trimmed input, read as hex and narrowed to 32 bits, is accepted exactly when it equals the current code or lies in [0x00FF, 0xFFFF], and is then the code held; a refusal keeps the code and says "Value Out of Range" |
| PiCode.PiStringReadsBack | src/Radio/Controls/PiCode.cpp:72-73 | the text a code is shown as reads back as that code |
| PiCode.ShownCodeIsNoChange | src/Radio/Controls/PiCode.cpp:75-79 | setting the code to the text it is shown as is accepted and changes nothing |
| PiCode.EveryCodeInRangeSettable | src/Radio/Controls/PiCode.cpp:62-109 | every code in [0x00FF, 0xFFFF] can be entered as "0x" and its hex digits and is then held |
| PiCode.NegativeRefused | src/Radio/Controls/PiCode.cpp:72-88 | "-1" wraps to 0xFFFFFFFF and is refused |
| ProgramServiceName.ProgramServiceName.constructor | src/Radio/Controls/ProgramServiceName.cpp:29-38 | the control starts with the name "PixeyFM", of acceptable length |
| ProgramServiceName.ProgramServiceName.Set | src/Radio/Controls/ProgramServiceName.cpp:52-65 | the common set with this validate; on success the stored name goes to the transmitter even when unchanged |
| ProgramServiceName.ValidateRules | src/Radio/Controls/ProgramServiceName.cpp:68-105 | the current name is always accepted; a new one exactly when it has 4 to 8 characters, and is then stored; a refusal keeps the name and says whether the value was too short or too long |
| ProgramServiceName.LengthKept | src/Radio/Controls/ProgramServiceName.cpp:68-105 | whatever is set, the stored name keeps a length of 4 to 8 |
| ProgramServiceName.Limits | src/Radio/Controls/ProgramServiceName.cpp:80-95 | names of 4 and 8 characters are taken and names of 3 and 9 refused |
| Dhcp.Dhcp.constructor | src/Network/Controls/DHCP.cpp:32-39 | DHCP is wanted by default, and no static address is filled in |
| Dhcp.Dhcp.Set | src/Network/Controls/DHCP.cpp:95-136 | the binary set runs; when it succeeds and changes the switch (or is forced) the message line is refreshed, the locked text replaces the answer when static settings are wanted but incomplete, and the WiFi driver is asked to reset exactly when the mode in use changed. The UI value, save warning and on/off texts are those the binary set leaves, and the driver's state machine, timeouts and poll time are untouched |
| Dhcp.ValidateRules | src/Network/Controls/DHCP.cpp:219-267 | with DHCP wanted the static settings always validate; without it they validate exactly when address, netmask, gateway and DNS server are all non-zero |
| Dhcp.ModeInUse | src/Network/Controls/DHCP.cpp:71-92 | the mode in use is static exactly when static is wanted and all four addresses are filled in |
| Dhcp.ResetOnlyOnModeChange | src/Network/Controls/DHCP.cpp:71-136 | with incomplete static settings flipping the switch never changes the mode in use, and with complete ones it always does |
| Dhcp.LockedMessageShown | src/Network/Controls/DHCP.cpp:177-204 | the locked text is shown exactly when static is wanted but incomplete |
| VoltageStatus.ToI32 | src/Diagnostics/VoltageStatus.cpp:84-88 | storing a uint32_t value in an int32_t slot keeps its 32-bit pattern |
| VoltageStatus.VoltageStatus.constructor | src/Diagnostics/VoltageStatus.hpp:36-48 | the 16 slots, the index and the sum start at zero, so the sum is the sum of the slots |
| VoltageStatus.VoltageStatus.MeasureVoltage | src/Diagnostics/VoltageStatus.cpp:95-118 | the reading replaces the oldest slot, the running sum drops the old slot and adds the reading in uint32_t, the index moves on cyclically, and the sum stays the sum of the slots modulo 2^32 |
| VoltageStatus.VoltageStatus.InitVdcAdc | src/Diagnostics/VoltageStatus.cpp:49-90 | the next reading is due at once, one reading is taken, and every slot is then primed with the sum it left, the sum becoming 16 times that value in uint32_t |
| VoltageStatus.VoltageStatus.Poll | src/Diagnostics/VoltageStatus.cpp:121-148 | before the due time nothing changes; after it the due time moves on by one interval, a reading is taken, and the status is reprinted only when the sum changed |
| VoltageStatus.Prime | src/Diagnostics/VoltageStatus.cpp:82-88 | the priming loop gives every slot the value and accumulates it sixteen times in uint32_t |
| VoltageStatus.SumAfterUpdate | src/Diagnostics/VoltageStatus.cpp:101-109 | replacing one slot changes the sum of the slots by the difference |
| VoltageStatus.MeasureKeepsSum | src/Diagnostics/VoltageStatus.cpp:101-109 | the two uint32_t updates of the running sum keep it equal to the sum of the slots modulo 2^32 |
| VoltageStatus.ConstantSum | src/Diagnostics/VoltageStatus.cpp:82-88 | slots that all hold one value sum to that value times their number |
| VoltageStatus.WrapSum | src/Diagnostics/VoltageStatus.cpp:101-109 | adding to a value already reduced modulo 2^32 and reducing again is reducing once |
| VoltageStatus.PrimedSum | src/Diagnostics/VoltageStatus.cpp:82-88 | priming with the value stored as int32_t gives the same uint32_t sum as adding the uint32_t value sixteen times |
| VoltageStatus.IndexCycles | src/Diagnostics/VoltageStatus.cpp:112 | the index visits the 16 slots in order and returns to the first |
| RdsText.RdsText.constructor | src/Radio/Controls/RdsText.cpp:33-38 | no message is held, none has been sent and every label is empty |
| RdsText.RdsText.SetState | src/Radio/Controls/RdsText.cpp:66-114 | the control takes the given state |
| RdsText.RdsText.Set | src/Radio/Controls/RdsText.cpp:117-128 | set always succeeds: the text is remembered as sent, goes to the transmitter, and the labels are refreshed |
| RdsText.RdsText.Poll | src/Radio/Controls/RdsText.cpp:66-114 | poll moves the control to PollStep of its state at that time |
| RdsText.PollGated | src/Radio/Controls/RdsText.cpp:74-84 | poll changes nothing while the test tone is on, nor within a second of its last update |
| RdsText.PollSchedules | src/Radio/Controls/RdsText.cpp:85-100 | when poll acts it records the time; before the message's end it keeps the message and what was sent, and afterwards it takes the next message, due to end its duration from now |
| RdsText.ResentOnlyOnChange | src/Radio/Controls/RdsText.cpp:101-108 | the transmitter gets a text only when the next message's text differs from the text last sent, and then it gets that text |
| RdsText.RemainingRoundsUp | src/Radio/Controls/RdsText.cpp:186-188 | the countdown is the time left in whole seconds, rounded up, while adding 999 does not wrap |
| RdsText.RemainingOrder | src/Radio/Controls/RdsText.cpp:151-192 | the countdown reports test mode first, then a switched-off carrier, then a missing message, then an expired one |
| TestTone.TestTone.constructor | src/Radio/Controls/TestTone.cpp:61-155 | test mode starts off, the machine idle, the clock at zero, no tone playing and the first poll due a second after Init |
| TestTone.TestTone.SetMachine | src/Radio/Controls/TestTone.cpp:158-178 | the tone machine takes the given state |
| TestTone.TestTone.Set | src/Radio/Controls/TestTone.cpp:88-137 | an unknown word is refused with a BAD_VALUE message and nothing changes; a known one is accepted, and only a change of value is stored and written to the switch; the tone machine is untouched |
| TestTone.TestTone.Poll | src/Radio/Controls/TestTone.cpp:158-178 | before the timer expires nothing changes; afterwards the timer moves on by one second from its old expiry and the current state is polled; the switch value is untouched |
| TestTone.SetWords | src/Radio/Controls/TestTone.cpp:104-119 | set accepts exactly "0", "off", "1" and "on", and the last two switch test mode on |
| TestTone.ClockTicks | src/Radio/Controls/TestTone.cpp:227-257 | the clock keeps seconds and minutes below 60 and hours below 100, and each tick adds one second, wrapping at 100 hours |
| TestTone.SixtySecondsShown | src/Radio/Controls/TestTone.cpp:216-259 | the RadioText is printed after the seconds go up and before they wrap, so it shows ":60" at a minute boundary |
| TestTone.Transitions | src/Radio/Controls/TestTone.cpp:263-353 | Idle starts sending exactly when test mode is on, with the cursor and clock at zero; SendingTone returns to Idle exactly when it is off, with the tone switched off |
| TestTone.StatePollValid | src/Radio/Controls/TestTone.cpp:315-353 | a poll keeps the clock in range and the tone cursor inside the tone list |
| TestTone.ToneCycles | src/Radio/Controls/TestTone.cpp:315-353 | when the tone time is up the tone under the cursor plays, the cursor moves to the next tone wrapping to the first, and the next change is due two seconds after the previous one |
| SystemRunTime.SystemRunTime.constructor | src/Diagnostics/SystemRunTime.cpp:25-29 | the first reading is due at the given time and nothing is shown yet |
| SystemRunTime.SystemRunTime.Poll | src/Diagnostics/SystemRunTime.cpp:43-66 | before the reading is due nothing changes; afterwards the due time moves on by one second from its old value and the uptime split into days, hours, minutes and seconds is shown |
| SystemRunTime.DecomposeRoundTrip | src/Diagnostics/SystemRunTime.cpp:54-57 | seconds and minutes are below 60, hours below 24 and days below 50 (so they fit the int16_t), and together they add back up to the whole seconds elapsed |
| SystemRunTime.DayBoundary | src/Diagnostics/SystemRunTime.cpp:54-61 | 24 hours of uptime show as "Days:1 + 00:00:00" |
| GpioCommon.GpioCommon.constructor | src/Gpio/GpioCommon.cpp:39-49 | the pin's title is "GPIO PIN <n>" and its value starts as the pull-down input option |
| GpioCommon.GpioCommon.Set | src/Gpio/GpioCommon.cpp:52-91 | set, with the corrected validate and the option key map as AddControls builds it, moves the control to what GpioSet gives for its old state, and the boot flag is untouched |
| GpioCommon.SetRules | src/Gpio/GpioCommon.cpp:52-91 | of the corrected validate: the value and display follow the common set; "read" always succeeds and answers with the pin level; otherwise the verdict and message are the common set's, a success writes the chosen option's level and mode to the pin, and a failure leaves the pin alone |
| GpioCommon.TranslatedAreKeys | src/Gpio/GpioCommon.cpp:22-36 | every command other than "read" translates to an option of the list |
| GpioCommon.ValidatedIsKey | src/Gpio/GpioCommon.cpp:94-114 | of the corrected validate: whatever it accepts, other than "read", is an option of the list |
| GpioCommon.ActionParses | src/Gpio/GpioCommon.cpp:76-81 | an action "<digit>, <mode>" splits at the comma back into that level and that mode |
| GpioCommon.OutputCommands | src/Gpio/GpioCommon.cpp:98-106 | of the corrected validate: "outhigh" and "outlow", in any letter case, select the high and low output options (as written, only the lowercase forms do) |
| GpioCommon.OutputActions | src/Gpio/GpioCommon.cpp:27-28 | the output options set the pin to output mode, driven high and low |
| GpioCommon.FloatInputAction | src/Gpio/GpioCommon.cpp:24 | the floating-input option writes level 0 and selects plain input mode |
| GpioCommon.PullupInputAction | src/Gpio/GpioCommon.cpp:25 | the pull-up option writes level 0 and selects pull-up input mode |
| GpioCommon.PulldownInputAction | src/Gpio/GpioCommon.cpp:26 | the pull-down option writes level 0 and selects pull-down input mode |
| GpioCommon.OtherValues | src/Gpio/GpioCommon.cpp:107-110 | a value that is not a command is validated by the choice list |
| GpioCommon.MixedCaseIndexOutOfRange | src/Gpio/GpioCommon.cpp:99-105 | as written, "OutHigh" is accepted but stores "", which has no index in the options, so set would read past the 5-entry list |
| GpioCommon.IntendedAgreesOnLowercase | src/Gpio/GpioCommon.cpp:99-105 | looking up the lowercased value gives the same result as the code as written for every lowercase command |
| ControllerSerial.ControllerSerial.constructor | src/Controllers/ControllerSERIAL.h:54-55 | the label starts as "115.2K Baud" and the rate as 0, with the port's history and the enable flag as given |
| ControllerSerial.ControllerSerial.SetBaudrate | src/Controllers/ControllerSERIAL.cpp:389-467 | the verdict and the new enable flag, label, rate and port history are those of BaudrateSet on the old state |
| ControllerSerial.ControllerSerial.Callback | src/Controllers/ControllerSERIAL.cpp:338-386 | only a value from the controller's own selector is applied; the port is begun again whenever the rate changed and is not zero, and the save warning is shown |
| ControllerSerial.SetRules | src/Controllers/ControllerSERIAL.cpp:397-445 | each of the four labels selects its rate and enables the controller; "OFF" disables it at the default log rate; anything else is refused, disables the controller and keeps the rate, its label and the port |
| ControllerSerial.EnabledIffRateLabel | src/Controllers/ControllerSERIAL.cpp:397-445 | the controller ends up enabled exactly when a rate label was chosen, and then at one of the four selectable rates |
| ControllerSerial.ReopenRule | src/Controllers/ControllerSERIAL.cpp:451-462 | the port is begun again at the new rate exactly when the rate changed and the controller is enabled, and is otherwise left alone |
| ControllerSerial.LabelRoundTrip | src/Controllers/ControllerSERIAL.cpp:28-32 | the label of a selectable rate selects that rate, and a rate label read back from its rate is the same label |
| ControllerSerial.SetIdempotent | src/Controllers/ControllerSERIAL.cpp:389-467 | choosing the same value twice gives the same verdict and changes nothing, nor reopens the port, the second time |

## Left out

- Misc.StrIsUint: the method requires at most 255 characters. Past that, the `uint8_t` loop index wraps, and the loop may never end. Misc.StrIsUintResult still describes every length, with the non-ending case as `None`.
- WebServer.GetCommandArg: positions in the request line are `int16_t` in the firmware. The model treats them as unbounded, so request lines longer than 32767 characters are not modelled.
- ChoiceListControl.ChoiceListControl.get32: it returns `0xFFFFFFFF` when the stored index lies outside the option list. The source would read past the vector there; that read is undefined behaviour and has no model.
- GpioCommon.GpioCommon.Set: the class uses the corrected validate, which translates "outhigh" and "outlow" by their lowercased form. As written (GpioCommon.cpp:105), the translation is indexed with the original value, so a mixed-case command stores "" and reads past the option list; GpioCommon.MixedCaseIndexOutOfRange shows this. GpioCommon.SetRules, GpioCommon.ValidatedIsKey and GpioCommon.OutputCommands are stated of the corrected validate; they agree with the code as written on lowercase input (GpioCommon.IntendedAgreesOnLowercase). The model also takes the choice list's key map as already built: GpioValidate and GpioSet look names up in IndexMap(ListOfOptions), the map AddControls fills through RefreshOptionList (BaseControls/ChoiceListControl.cpp:49). In the source the constructor leaves that map empty (BaseControls/ChoiceListControl.cpp:34), so until AddControls runs every option name is refused (ChoiceListControl.EmptyMapRejects) and a translated command would index the option list at 0xFFFFFFFF; the model does not capture that window before the UI is built.
- PiCode.PiCode.Set: the firmware trims the caller's `String` in place (PiCode.cpp:74). The model does not write through the caller's reference; the method returns the trimmed text as an out-parameter instead.
- Characters and bytes: an Arduino `String` is a sequence of bytes, and the model's `char` stands for one byte 0..255. Every length, limit and position therefore counts bytes, as the firmware does: the 4..8 bounds on a station name, `PSN_SIZE`, `RADIOTEXT_SIZE` and the control length limits. Text whose characters take several bytes in UTF-8 is not modelled: "Café FM" is 8 bytes in the firmware but would be 7 characters in the model.
- Header constants: QN8027Radio.h, config.h, ESPUI.h, SystemRunTime.hpp and esp32-hal-gpio.h are not part of this model. The values the model takes for them are written as named constants next to their use:
  - the PS name and RadioText sizes;
  - the command length limits and the RDS display-time range;
  - the ESPUI event codes;
  - the uptime interval;
  - the pin-mode numbers.
- FPP packets: the packet structs are not part of this model. A received datagram is the record of fields the handler reads.
- Floating point:
  - frequencies are whole tenths of a MHz;
  - the `atof` and `String(float)` round trip between the frequency pad and set is taken to be exact;
  - setFrequency, getFrequency and setCrystalCurrent are not modelled;
  - the voltage average's float scaling and clamp are not modelled, so the shown status is the sum it was printed from.
- Hardware I/O is represented by what the firmware last wrote or by parameters:
  - I2C register reads and writes;
  - `waitForRDSSend`'s busy wait;
  - the ADC reading;
  - the tone generator and audio multiplexer;
  - `digitalRead`, `pinMode` and `digitalWrite`;
  - the serial port, recorded as the list of rates it was begun at.
- `millis()`, the WiFi link status, the broker connection, the subscribe result and the stations joined to the access point are parameters.
- The UI: ESPUI element creation, styles, labels and `print` calls are not modelled. The one exception is a control's displayed value, which is a field holding the last value written to it.
- Log lines and status-message texts are not modelled. The MQTT state Inits' status lines and the serial callback's log and RadioText refresh are among them.
- Concurrency: the message-set semaphore and the asynchronous WiFi and UDP callbacks are modelled as sequential calls.
- ControllerMessageSet: an iterator left dangling by an erase is modelled as the null cursor. MessageElementIds and the UI elements of each message are not modelled.
- ControllerFPPDSequences: SaveConfig and each sequence's own message list are not modelled. A sequence is its name.
- FPPDiscovery:
  - the JSON answers (BuildFseqResponse, ProcessFPPJson, GetSysInfoJSON) are not modelled;
  - the ping packet's host name, copied with `strcpy` from the WiFi host name, is not modelled;
  - the UDP socket is not modelled.
- ControllerMQTT: the publish and subscribe payloads and PubSubClient calls are not modelled. The settings controls' "value changed" flags are one field, which ConfigHasChanged reads and resets. Their accessor is not part of this model.
- WiFiDriver:
  - the model starts after Begin;
  - the WiFi UI, DNS and mDNS are not modelled;
  - the WiFi library calls are not modelled.
- The derived controls run the common set with a response message that starts empty.
- BinaryControl: the table of accepted words shared by every binary control is a parameter of its members.
- ControlCommon: the saved configuration is a JSON object of strings. For BinaryControl it is a map of bools.
- DHCP: save, restore and the UI are not modelled. The four static-address controls are reduced to their values.
- TestTone:
  - `toneOn`'s check of the running PWM channel is not modelled;
  - the status line shows the tone under the cursor, as `getCurrentToneFrequency` does.
- CommandProcessor: every handler body, HelpCommand's included, is compiled out of the firmware, so each handler only returns false.
- Commands: several handlers compute a value and then drop it, because the call that would use it is commented out in the firmware. The model records the value in the result and promises no further effect:
  - rfCarrier's carrier switch (commands.cpp:542) and stop's stop flag (commands.cpp:605);
  - the PI, PTY, Program Service name and RadioText setters, and the RadioText display time (commands.cpp:335, 380, 406, 432, 480-482);
  - audioMode's radio update (commands.cpp:88).
- WebServer: getCommandArg is compiled only under `oldWay` (webServer.cpp:40-92), and urlDecode and urlDecodeHex only under `OldWay` (webServer.cpp:752-807). Neither macro is defined, so these paths are not in the shipped firmware; the model describes the code as written.
- ControllerUsbSERIAL is a near-copy of the serial controller and is not modelled.
- The web-server socket loop, the file system, backups and OTA are not part of the core and are not modelled.

## Findings

The classes follow the code as written, so each method's contract describes the firmware. The corrected definitions stand beside them, with the intended property proved. GpioCommon.GpioCommon.Set is the one exception: it uses the corrected validate, because the code as written indexes past the option list.

| source | as written | input that shows it | evidently intended | confidence | as-written member | corrected member |
|---|---|---|---|---|---|---|
| src/Radio/QN8027Radio.cpp:730-735 | sendRadioText pads the text length plus its terminator by that length modulo 4, not up to a multiple of 4 | the text "ab" is sent as two groups, the second carrying only NULs | round up to a multiple of 4, so that the groups just reach the terminator | not executed | QN8027Radio.RadioTextExtraGroup, QN8027Radio.RadioTextTwoBytesExample | QN8027Radio.RadioTextSameGroups |
| src/Controllers/ControllerMessageSet.cpp:388-390 | UpdateMsgText moves the old message, old text included, to the new key | updating "a" to "b" in the set {"a"} stores text "a" under key "b" | the moved message carries the new text | not executed | ControllerMessageSet.UpdateMsgTextKeepsOldText | ControllerMessageSet.UpdateMsgTextIntended |
| src/Controllers/ControllerMessages.cpp:615-625 | SaveConfig never increments its index, so every message is saved under key "0" | saving the messages "a" and "b" and restoring them gives only "b" | one key per message | not executed | ControllerMessages.SaveConfigLosesMessages, ControllerMessages.SaveRestoreKeepsLast | ControllerMessages.SaveRestoreIntended |
| src/Controllers/ControllerFPPDSequences.cpp:322-325 | CbButtonUpdate copies the sequence under the new name and keeps the original key | renaming "a" to "b" leaves "a" in the map, and "b" holds a sequence named "a" | the sequence moves to the new key and takes the new name | not executed | ControllerFPPDSequences.UpdateBreaksNames | ControllerFPPDSequences.UpdateIntendedRenames |
| src/Network/WiFiDriver.cpp:660-697 | ConnectingAsAP::Init does not restart the state's clock | with the default timeouts, AP mode entered after the 500 s default-credentials attempt gives up at its first poll | AP mode waits its full 60 s timeout | not executed | WiFiDriver.ApTimeoutAlreadyExpired | WiFiDriver.ApTimeoutIntended |
| src/Network/WiFiDriver.cpp:856-887 | ConnectionFailed::Init with the connected flag set only clears the flag, and ConnectionFailed::Poll does nothing | losing the connection to the access point leaves the driver in ConnectionFailed for good | start over at Boot, which retries the connection | not executed | WiFiDriver.LostConnectionStays | WiFiDriver.LostConnectionRetriedIntended |
| src/BaseControls/BinaryControl.cpp:64-73 | addInputCondition lowercases the name into a temporary and then stores the original | a condition added as "Yes" is never matched, because validate looks up lowercased input | store the lowercased name | not executed | BinaryControl.AddedCapitalNeverMatches | BinaryControl.AddedIntendedMatches |
| src/BaseControls/BinaryControl.cpp:76-97 | restoreConfiguration reads the saved value and then sets the current one | a saved "off" restored into a control that is "on" leaves it "on" | set the value read | not executed | BinaryControl.RestoreLosesSavedValue | BinaryControl.SaveRestoreIntended |
| src/Gpio/GpioCommon.cpp:99-105 | validate finds the lowercased command but indexes the table with the original | "OutHigh" is accepted and stores "", whose option index 0xFFFFFFFF lies past the 5-entry list | look up and index with the lowercased command | not executed | GpioCommon.MixedCaseIndexOutOfRange | GpioCommon.IntendedAgreesOnLowercase |

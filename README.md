# gkeys-rs, modelled in Dafny

gkeys-rs is a Linux daemon for the Logitech G815 keyboard. It reads the vendor HID
interface of the keyboard and decodes each 20-byte report into a G-key, M-key or MR-key
event. A G-key runs the macro that the current memory profile (M1 to M3) stores for it:

- a shell command;
- a shortcut such as `ctrl+shift+t`;
- typed text;
- a raw key;
- a recorded sequence of chords.

The daemon lights the profile, MR and G-key LEDs. It also records macros:

1. MR arms the recorder.
2. A G-key starts capturing chords from the keyboard's evdev node on a worker thread.
3. MR again saves the chords as a key-sequence macro.

The daemon reconnects with exponential backoff when the keyboard goes away.

The model has one module per source file, plus shared modules:

| module | models | form |
|---|---|---|
| `Common` | integer widths, `Option` and `Result` | values |
| `Strings` | the Rust string functions the core relies on | functions |
| `Sink` | a device whose writes may fail: stop at the first failure, as the `?` operator does | functions |
| `Events` | `src/events.rs` | pure functions |
| `Keyboard` | `src/uinput.rs` | class `VirtualKeyboard` with a trace of input events |
| `Recording` | `src/recording.rs` | class `Recorder`; the capture worker as a method over `Channel` and `StopFlag` objects |
| `Led` | `src/led.rs` | class `LedController` on a shared `AtomicFlag`; the worker as a step function and a method |
| `Config` | `src/config.rs` | class `Config` with a map of profiles; the `StringBool` rule |
| `Macros` | `src/macros.rs` | class `MacroExecutor` |
| `Device` | `src/device.rs` | hidraw lookup, the G-key initialisation, report reads |
| `Daemon` | `src/main.rs` | class `Daemon` with the event loop; the reconnection backoff as values |

Failing writes are modelled as a list of outcomes the device will give (`outcomes`): each write consumes one. Clocks become `nat` milliseconds passed in as arguments.

The outside world of one event-loop round is an `Outside` value:

- whether shutdown was asked for;
- the poll and read results;
- whether the capture thread could be started;
- whether the shell of a command macro could be spawned;
- whether saving the configuration failed.

The daemon's state carries two invariants, kept across every round:

- `RecorderFollowsProfile`: a recording, or one awaiting its G-key, belongs to the current profile.
- `ShowsProfile`: the last profile-LED command sent on the connection is the current profile's.

Where the prose description of the daemon and the code differ, the code is followed. The echo suppression is the code's flag swap: `is_mr_event_from_led` returns the flag and clears it. It is not a 30 ms time window after a write.

## Model

| member | source | states |
|---|---|---|
| Common.SaturatingAddU8 | src/events.rs:126-139 | the sum, or 255 when it would exceed a byte |
| Common.SaturatingSubU8 | src/events.rs:98-106 | the difference, or 0 when it would go below zero |
| Common.Pow2 | src/main.rs:80 | helper for the doubling backoff delay: every power of two is at least 1, so a doubled delay is never 0 |
| Strings.TrimStart | src/uinput.rs:415 | the result is a suffix of the input that starts with a non-whitespace character or is empty, and everything dropped is whitespace |
| Strings.TrimEnd | src/uinput.rs:415 | the result is a prefix of the input ending in a non-whitespace character or empty; everything dropped is whitespace |
| Strings.TrimUnpadded | src/uinput.rs:440 | a string with no whitespace at its ends is its own trim |
| Strings.TrimLeadingSpaces | src/uinput.rs:440 | trimming removes any amount of leading whitespace |
| Strings.TrimEndTrailingSpaces | src/uinput.rs:440 | trimming removes any amount of trailing whitespace |
| Strings.TrimPadded | src/uinput.rs:464 | a word padded on both sides with whitespace trims back to the word |
| Strings.Lowercase | src/uinput.rs:415 | same length; each character is lowered one by one |
| Strings.LowercaseAppend | src/uinput.rs:415 | lower-casing distributes over concatenation |
| Strings.StripPrefix | src/uinput.rs:417 | `Some(rest)` exactly when the string starts with the prefix, and then prefix + rest is the string |
| Strings.ContainsInfix | src/device.rs:173 | a string contains every string placed inside it |
| Strings.Repeat | src/device.rs:166-167 | `n` copies make a string `n` times as long |
| Strings.TrimStartMatchesIff | src/device.rs:166-167 | `trim_start_matches(pat)` gives `t` exactly when the input is some copies of `pat` followed by `t`, where `t` does not start with `pat` |
| Strings.Split | src/uinput.rs:440 | there is always at least one part, and no part contains the separator |
| Strings.JoinSplit | src/uinput.rs:463 | joining the parts of a split with the separator gives the string back |
| Strings.SplitPiece | src/uinput.rs:463 | a piece with no separator splits into just itself |
| Strings.SplitCons | src/uinput.rs:463 | a piece followed by the separator splits off as the first part |
| Strings.SplitJoin | src/recording.rs:115 | joining separator-free parts and splitting again gives the parts back |
| Strings.JoinWithPadding | src/recording.rs:115 | joining with ", " is joining with ',' after putting a space in front of every later part |
| Strings.Padded | src/recording.rs:115 | the same number of parts, each with the pad character in front |
| Strings.Decimal | src/main.rs:187 | a non-empty string of digits with no leading zero, except for 0 itself |
| Strings.DigitsValueOfDecimal | src/main.rs:101 | the decimal rendering reads back as the number |
| Strings.ParseU8 | src/main.rs:101 | a number comes only from digits, optionally after one leading '+' that is not alone |
| Strings.ParseU8Decimal | src/main.rs:99-102 | `parse::<u8>` of the decimal rendering of a byte gives the byte |
| Strings.Hex4 | src/device.rs:150-151 | four upper-case hexadecimal digits |
| Sink.Run | src/uinput.rs:395-410 | the items written are a prefix of the items; ok exactly when all of them were written; outcomes are only consumed |
| Sink.RunAllSucceed | src/uinput.rs:395-410 | with no failure pending every item is written |
| Sink.RunThen | src/uinput.rs:395-410 | writing `a` and then, after success, `b` is writing `a + b`; a failure in `a` writes nothing of `b` |
| Sink.RunFailsAt | src/uinput.rs:368-388 | when the first failure is the n-th write, exactly the n-1 items before it are written and the run fails |
| Sink.WroteThen | src/uinput.rs:407-410 | two successive writes that both succeed compose into one |
| Sink.WroteStops | src/uinput.rs:407-410 | a failure while writing `a` abandons whatever would follow |
| Events.ParseReport | src/events.rs:46-92 | short reports and reports without the 0x11 0xFF prefix decode to nothing; every decoded G-key is 1 to 5 and every decoded M-key is 1 to 3 |
| Events.ParseReportIff | src/events.rs:46-92 | a report decodes to event `e` exactly when it carries the vendor prefix and `e`'s family and mask |
| Events.ParseReportNone | src/events.rs:46-92 | a report with the vendor prefix decodes to nothing exactly when no event is reported with its family and mask |
| Events.ParseReportReadsOnlyHeaderAndMask | src/events.rs:46-92 | byte 3 and the bytes from 5 on do not affect the decoded event |
| Events.GKeyCodes | src/events.rs:56-66 | G-keys 1 to 5 are the mask bits 0x01, 0x02, 0x04, 0x08 and 0x10 |
| Events.MKeyCodes | src/events.rs:68-78 | M-keys 1 to 3 are the mask bits 0x01, 0x02 and 0x04 |
| Events.Bit | src/events.rs:56-78 | the byte has exactly bit i set |
| Events.Blank | src/events.rs:98-172 | every LED report is 20 bytes long |
| Events.ProfileMask | src/events.rs:98-106 | bit p-1 for profiles 1 to 8, and bit 0 for profile 0 (the subtraction saturates) |
| Events.LedCommand | src/events.rs:98-106 | a 20-byte vendor report of the M-key family, sub-command 0x1C, with the profile mask in byte 4 and zeros after it |
| Events.MrLedCommand | src/events.rs:112-120 | a 20-byte vendor report of the MR family, sub-command 0x0C, with byte 4 one when on and zero when off, and zeros after it |
| Events.GkeyLedCommand | src/events.rs:126-139 | a 20-byte colour report with the three colours, the key address gkey + 0xB3 (saturating) and the 0xFF terminator |
| Events.AllGkeysLedCommand | src/events.rs:143-160 | one colour report with the five G-key addresses 0xB4 to 0xB8, each with the colour |
| Events.LedCommitCommand | src/events.rs:165-172 | the 20-byte commit report |
| Events.GkeyAddressesAgree | src/events.rs:126-160 | the single-key report for G-key g uses the address of slot g of the all-keys report |
| Events.MrLedEcho | src/events.rs:112-120 | the MR LED report reads back as an MR press when lit and as a release when off |
| Events.ProfileLedEcho | src/events.rs:98-106 | the profile LED report of profile p reads back as M-key p |
| Events.ColourReportsAreSilent | src/events.rs:126-172 | colour and commit reports never read back as key events |
| Keyboard.KeyMap | src/uinput.rs:148-255 | the key-name table `KEY_MAP`; its properties are stated by KeyAliases, LetterKeyNamed and Recording.KeyNamesReplay |
| Keyboard.ParseKey | src/uinput.rs:413-418 | `parse_key`: trim, lower-case, drop a `key_` prefix, look up `KEY_MAP`; stated by KeyNameNormalises and ParseKeyPlain |
| Keyboard.CharMap | src/uinput.rs:258-317 | `CHAR_MAP` as written, letters at `KEY_A + i`; stated by CharMapMisplacesLetters and TypeoutLetterB |
| Keyboard.TypeoutEvents | src/uinput.rs:421-436 | the events `typeout` writes with `CHAR_MAP` when every write succeeds; stated by TypeoutBalanced, TypeoutSkipsUnmapped and VirtualKeyboard.Typeout |
| Keyboard.ShortcutEvents | src/uinput.rs:439-459 | the events `shortcut` writes when every write succeeds; stated by ShortcutBalanced, ShortcutFailureLeavesKeysDown and VirtualKeyboard.Shortcut |
| Keyboard.SequenceEvents | src/uinput.rs:462-471 | the events `sequence` writes when every write succeeds; stated by SequenceBalanced, SequenceOfJoinedChords and VirtualKeyboard.Sequence |
| Keyboard.KeyNameNormalises | src/uinput.rs:413-418 | surrounding whitespace, letter case and a `KEY_` prefix do not change the key a name denotes |
| Keyboard.WordEnds | src/uinput.rs:413-418 | a name of an optional `key_` and letters or digits has no whitespace at its ends |
| Keyboard.ParseKeyPlain | src/uinput.rs:413-418 | a lower-case, unpadded name without `key_` is looked up as written |
| Keyboard.KeyAliases | src/uinput.rs:148-255 | the aliases of the modifier and editing keys name the same codes |
| Keyboard.QwertyCharMapAgreesWithKeyMap | src/uinput.rs:258-267 | the corrected table types each letter on the key that the key-name table names by that letter, shifted exactly for upper case |
| Keyboard.LetterKeyNamed | src/uinput.rs:148-255 | each lower-case letter is a key name of the key that types it |
| Keyboard.CharMapMisplacesLetters | src/uinput.rs:258-267 | the table as written agrees with the key names only for 'a' |
| Keyboard.TypeoutLetterB | src/uinput.rs:421-436 | `typeout("b")` clicks the key S with the table as written, and B with the corrected table |
| Keyboard.PressReleaseKeys | src/uinput.rs:395-404 | a press is one key-down and a release one key-up; the synchronisation events carry no key |
| Keyboard.PressAllKeys | src/uinput.rs:444-452 | pressing keys in order gives exactly those key-downs and no key-up |
| Keyboard.ReleaseReversedKeys | src/uinput.rs:455-457 | releasing in reverse gives the reversed key-ups and no key-down |
| Keyboard.ReversedSameKeys | src/uinput.rs:455-457 | reversing keeps the multiset of keys |
| Keyboard.ShortcutBalanced | src/uinput.rs:439-459 | a shortcut presses its known keys in order and releases the same keys in reverse order |
| Keyboard.ShortcutFailureLeavesKeysDown | src/uinput.rs:439-459 | a failure while pressing fails the shortcut and releases nothing; the keys left down are a prefix of its known keys |
| Keyboard.PressFailureLeavesKeysDown | src/uinput.rs:444-452 | a failure while pressing fails the whole chord, releases nothing, and the keys pressed are a prefix of the keys |
| Keyboard.SequenceOfJoinedChords | src/uinput.rs:462-471 | chords joined by ", " read back as a sequence give the same chords, in order |
| Keyboard.FilterMapAllSome | src/uinput.rs:462-471 | when every part is accepted, the values are exactly the accepted ones, in order |
| Keyboard.TypeoutBalanced | src/uinput.rs:421-436 | typing text with any character table, so both `CHAR_MAP` as written and the corrected one, leaves no key held |
| Keyboard.SequenceBalanced | src/uinput.rs:462-471 | playing a sequence leaves no key held |
| Keyboard.CharEventsBalanced | src/uinput.rs:423-431 | typing one character with any character table, with or without shift, leaves no key held |
| Keyboard.TypeoutSkipsUnmapped | src/uinput.rs:421-436 | for any character table, a character the table lacks produces no events: removing it leaves the typed events unchanged |
| Keyboard.PressesStop | src/uinput.rs:444-459 | a failure while pressing abandons the rest of the shortcut and every release |
| Keyboard.VirtualKeyboard.Emit | src/uinput.rs:368-388 | one event is appended to the trace if the write succeeds; one outcome is consumed |
| Keyboard.VirtualKeyboard.Sync | src/uinput.rs:390-392 | writes the synchronisation event |
| Keyboard.VirtualKeyboard.Press | src/uinput.rs:395-398 | writes key-down then sync, stopping at a failure |
| Keyboard.VirtualKeyboard.Release | src/uinput.rs:401-404 | writes key-up then sync, stopping at a failure |
| Keyboard.VirtualKeyboard.Click | src/uinput.rs:407-410 | press then release, stopping at a failure |
| Keyboard.VirtualKeyboard.TypeChar | src/uinput.rs:423-431 | writes the events `CHAR_MAP` as written gives the character (so 'b' clicks KEY_S), with shift around them when the table says so, up to the first failed write |
| Keyboard.VirtualKeyboard.Typeout | src/uinput.rs:421-436 | the trace gains the events of typing the text with `CHAR_MAP` as written, up to the first failed write; ok exactly when none failed |
| Keyboard.VirtualKeyboard.PressKnown | src/uinput.rs:444-452 | presses, in order, the keys the parts name, skipping unknown parts; returns them |
| Keyboard.VirtualKeyboard.ReleaseInReverse | src/uinput.rs:455-457 | releases the keys from last to first, stopping at a failure |
| Keyboard.VirtualKeyboard.Shortcut | src/uinput.rs:439-459 | the trace gains the shortcut's events up to the first failed write; ok exactly when none failed |
| Keyboard.VirtualKeyboard.Sequence | src/uinput.rs:462-471 | the trace gains the events of each non-empty trimmed chord in turn, up to the first failed write |
| Recording.KeyToName | src/recording.rs:367-486 | `key_to_name`; stated by KeyWordLookup, KeyNamesReplay, KeyNamesAreWords, ModifiersHaveNoName and KeyToNameExamples |
| Recording.IsModifier | src/recording.rs:321-341 | the eight keys `update` treats as modifiers; stated by ModifiersHaveNoName and ModifierState.Update |
| Recording.ModsAfter | src/recording.rs:321-341 | the modifier flags after a key event; stated by ModsAfterOnlyOwnFlag and AutoRepeatDropsModifier |
| Recording.FormatChord | src/recording.rs:344-363 | `format_with_key` on the flags; stated by FormatChordParts, FormatChordIsChord and FormatChordReplays |
| Recording.CaptureAll | src/recording.rs:271-305 | the chords the worker sends for a batch of events; stated by ScanAppend, CapturedAreChords and CaptureLoop |
| Recording.Recorder.constructor | src/recording.rs:61-65 | a new recorder is idle |
| Recording.KeyWordLookup | src/recording.rs:367-486 | a recorded key word is looked up by the key table as written |
| Recording.ModifiersHaveNoName | src/recording.rs:367-486 | the eight modifier keys have no name of their own |
| Recording.KeyNamesReplay | src/recording.rs:367-486 | every recorded name maps back to its key in the key table, except the keypad, print-screen, scroll-lock and pause names |
| Recording.KeyNamesAreWords | src/recording.rs:367-486 | every recorded name is a non-empty word of lower-case letters and digits |
| Recording.ModsAfterOnlyOwnFlag | src/recording.rs:321-341 | only a modifier key changes the modifiers, and only its own flag |
| Recording.FormatChordParts | src/recording.rs:344-363 | a chord splits on '+' into the held modifiers' names, in the order ctrl, alt, shift, super, followed by the key's name |
| Recording.FormatChordIsChord | src/recording.rs:344-363 | a formatted chord is non-empty, unpadded and contains no ',' |
| Recording.HeldNamesLookUp | src/recording.rs:344-363 | the key table reads the modifier names back as the left-hand modifier keys |
| Recording.FormatChordReplays | src/recording.rs:344-363 | replaying a recorded chord as a shortcut presses the held modifiers and then the key, which is dropped when the table does not know its name |
| Recording.ModifierState.Update | src/recording.rs:321-341 | sets a modifier's flag to `pressed` and tells whether the key is a modifier; other keys change nothing |
| Recording.ModifierState.FormatWithKey | src/recording.rs:344-363 | the chord for the key under the held modifiers, none for an unnamed key |
| Recording.CaptureStep | src/recording.rs:280-300 | events other than keys change nothing; a chord is sent exactly for a value-1 press of a non-modifier key, and it is that key's chord under the held modifiers; a modifier event sets that modifier's flag to whether the value is 1 and sends nothing; other keys never change the modifiers |
| Recording.ScanAppend | src/recording.rs:271-305 | feeding two batches in turn is feeding their concatenation |
| Recording.CapturedAreChords | src/recording.rs:271-305 | every chord the worker sends is well formed |
| Recording.AutoRepeatDropsModifier | src/recording.rs:280-300 | an auto-repeat of held ctrl clears its flag, so the next key is recorded without ctrl |
| Recording.OnlyPressesSend | src/recording.rs:280-300 | releases, auto-repeats and modifier transitions send nothing |
| Recording.ModifierStateExample | src/recording.rs:493-511 | ctrl+a while ctrl is held, then a after releasing it |
| Recording.KeyToNameExamples | src/recording.rs:514-519 | the names of a few keys, and none for a modifier |
| Recording.Channel.Send | src/recording.rs:290-295 | queues the chord while the receiver exists; otherwise fails and queues nothing |
| Recording.Channel.TryRecv | src/recording.rs:110 | the oldest queued chord, removed, or nothing when none is queued |
| Recording.Channel.Close | src/recording.rs:105-133 | the receiving end is gone |
| Recording.Channel.ReceiveAll | src/recording.rs:185-188 | everything queued, in order, leaving the queue empty |
| Recording.StopFlag.Store | src/recording.rs:107 | the flag is raised |
| Recording.CaptureEvents | src/recording.rs:271-305 | while the receiver exists, the chords of the events are sent in order; a send to a dropped receiver ends the worker |
| Recording.CaptureLoop | src/recording.rs:251-308 | unless the stop flag is already raised or the receiver is gone, the queue gains the chords of every successful fetch, in order; the worker never closes the channel |
| Recording.CaptureLoopSendsChords | src/recording.rs:251-308 | everything the worker sends is a well-formed chord |
| Recording.Finish | src/recording.rs:115-132 | no keys cancel the recording; otherwise the keys are saved joined by ", " under the recording's profile and G-key |
| Recording.FinishReplays | src/recording.rs:115-132 | a saved sequence, read back as a key sequence, gives exactly the recorded chords |
| Recording.StartError | src/recording.rs:158-166 | the message for a missing evdev device and for a failed thread start |
| Recording.Recorder.OnMrPress | src/recording.rs:78-135 | idle arms the recorder for the current profile; awaiting cancels; recording stops the worker, drains the channel, drops the receiver and finishes; the state becomes idle |
| Recording.Recorder.OnGkeyPress | src/recording.rs:138-174 | while awaiting, it starts recording into a fresh empty channel or reports the start error and goes idle; in any other state nothing changes |
| Recording.Recorder.PollCapturedKeys | src/recording.rs:177-190 | while recording, every queued chord moves to the captured list, in order; otherwise nothing changes |
| Led.Timeout | src/led.rs:171-175 | one hour (3 600 000 ms) when not blinking; while blinking, what remains of the 500 ms interval since the last toggle, or 0 once it has passed |
| Led.GKeysRecordingEffects | src/led.rs:196-206 | six writes: G1 to G5 in order, then the commit |
| Led.DriveAppend | src/led.rs:152-274 | running the worker over two streams in turn is running it over their concatenation |
| Led.Step | src/led.rs:176-270 | one pass of the worker loop on a received command or timeout; stated by StepFlagGuarded, StopsBlinking, ShutdownWrites, TimeoutToggles and ProfileLedLeavesFlag |
| Led.Run | src/led.rs:152-274 | the worker over a stream of received items; stated by DriveAppend, RunFlagGuarded and LedWorker |
| Led.StepFlagGuarded | src/led.rs:181-251 | in every step the flag is raised immediately before each write the keyboard echoes as an MR event |
| Led.RunFlagGuarded | src/led.rs:152-274 | the echo guard holds over the worker's whole life |
| Led.CommandFlagGuarded | src/led.rs:181-251 | the echo guard for the effects of each command |
| Led.ProfileLedGuarded | src/led.rs:187-189 | a profile LED report never reads back as MR |
| Led.ColourEffectsGuarded | src/led.rs:191-206 | colour reports need no flag, because they are never read back |
| Led.ReportsAppend | src/led.rs:152-274 | the reports of two effect lists in turn are concatenated |
| Led.QuickFlashAlternates | src/led.rs:224-235 | a quick flash writes exactly 2 * count MR reports, alternating on and off, starting with on |
| Led.QuickFlashHasStore | src/led.rs:224-235 | a quick flash raises the flag exactly when it flashes at least once |
| Led.StopsBlinking | src/led.rs:224-251 | quick flash and shutdown stop the blinking; shutdown and disconnect end the worker |
| Led.ShutdownWrites | src/led.rs:242-251 | shutdown writes MR off, every G-key off and the commit, and nothing else |
| Led.TimeoutToggles | src/led.rs:255-264 | a timeout toggles the MR LED only while blinking and only after a full interval; otherwise nothing happens |
| Led.TimeoutReachesToggle | src/led.rs:171-175 | waiting exactly the computed timeout while blinking reaches the next toggle |
| Led.ProfileLedLeavesFlag | src/led.rs:187-189 | a profile LED change never raises the flag |
| Led.RecordingColours | src/led.rs:196-206 | G-key g is red exactly when it is the selected key |
| Led.AtomicFlag.Store | src/led.rs:182 | the flag holds the value |
| Led.AtomicFlag.Swap | src/led.rs:85-87 | returns the previous value and stores the new one |
| Led.LedController.IsMrEventFromLed | src/led.rs:85-87 | returns the flag and clears it, so a second call right after answers false |
| Led.LedController.Send | src/led.rs:90-139 | the command is queued after the earlier ones |
| Led.WriteGKeysRecording | src/led.rs:196-206 | the recording colours for G1 to G5, in order, then the commit |
| Led.QuickFlash | src/led.rs:224-235 | the effects are the quick-flash specification's; afterwards the flag is raised exactly when it was before or at least one round ran |
| Led.HandleReceived | src/led.rs:176-270 | one received item has the effects and new state of the worker specification; the flag is raised exactly when it was before or those effects store it |
| Led.LedWorker | src/led.rs:152-274 | the worker's effects are those of the specification over the received items, and the echo guard holds for all of them |
| Config.DecodeStringBool | src/config.rs:36-53 | reading a `StringBool`: a boolean, or a string compared with "true" ignoring ASCII case; stated by StringTrueIffLowercase, StringBoolExamples and StringBoolStable |
| Config.EncodeStringBool | src/config.rs:55-63 | writing a `StringBool` as a plain boolean; stated by StringBoolRoundTrip |
| Config.StringBoolRoundTrip | src/config.rs:36-63 | a saved setting reads back as the same boolean and is never written as a string |
| Config.StringBoolStable | src/config.rs:36-63 | re-saving turns a string setting into the boolean it was read as |
| Config.StringTrueIffLowercase | src/config.rs:48-51 | a string is true exactly when its lower-cased form is "true" |
| Config.StringBoolExamples | src/config.rs:167-185 | "True" and "TRUE" are true; "False", "yes" and "" are false; other JSON values are errors |
| Config.DecodeNotify | src/config.rs:17-24 | a missing `notify` reads as true; a present one follows the lenient rule |
| Config.NotifyDefaultsOn | src/config.rs:22-34 | without the field notifications are on, though a default `StringBool` is false; only a false-like value turns them off |
| Config.Config.GetMacro | src/config.rs:122-124 | a macro exactly when both the profile and the macro exist, and it is the stored one |
| Config.Config.SetMacro | src/config.rs:127-135 | the entry reads back as the macro; every other entry is unchanged; the profile is created if missing |
| Macros.MacroEvents | src/macros.rs:21-30 | the keyboard events of a macro of each kind when every write succeeds; stated by MacroBalanced, QuietMacrosSucceed and MacroExecutor.Execute |
| Macros.UinputEvents | src/macros.rs:46-53 | an unknown name emits nothing; a known one is one key-down and one key-up of its key |
| Macros.MacroBalanced | src/macros.rs:21-30 | any macro that runs to the end leaves no key held, a text macro typed with `CHAR_MAP` as written included |
| Macros.QuietMacrosSucceed | src/macros.rs:21-53 | inert macros, command macros and unknown raw keys emit nothing and cannot fail on the keyboard |
| Macros.MacroExecutor.Execute | src/macros.rs:21-43 | a command macro succeeds exactly when the shell was started and leaves the keyboard alone; the others write their events up to the first failure |
| Macros.MacroExecutor.EmitUinputKey | src/macros.rs:46-53 | clicks a known key; an unknown name is not an error and writes nothing |
| Device.TargetVendor | src/device.rs:150 | "046D" |
| Device.TargetProduct | src/device.rs:151 | "C33F" |
| Device.HidIdMatches | src/device.rs:163-168 | the `HID_ID=` line test; stated by HidIdMatchesIff, HidIdLine, KeyboardLineMatches and LowerCaseIdDoesNotMatch |
| Device.FindIn | src/device.rs:149-189 | the search over the hidraw entries; stated by NotFoundIff, FoundIsInterfaceOne and FindHidrawDevice |
| Device.InitCommands | src/device.rs:37-92 | the reports the G-key initialisation writes for the two replies; stated by InitCommandsShape, StaleGkeysIndex and Hidraw.InitializeGkeys |
| Device.ReadEvent | src/device.rs:106-113 | a read decoded as a report; stated by ReadEventDecodes and EchoReadsAsMrKey |
| Device.HidIdMatchesIff | src/device.rs:163-168 | a line matches exactly when it starts with `HID_ID=`, has three ':' fields, and the id fields are "0000" groups followed by the target ids |
| Device.HidIdLine | src/device.rs:163-168 | a `HID_ID=bus:vendor:product` line matches exactly when both ids, without their zero groups, are the keyboard's |
| Device.KeyboardLineMatches | src/device.rs:161-168 | the kernel's line for the keyboard matches whatever its bus |
| Device.LowerCaseIdDoesNotMatch | src/device.rs:150-168 | the comparison is exact: a lower-case vendor id does not match |
| Device.NotFoundIff | src/device.rs:153-188 | the search reports "not found" exactly when no entry decides anything |
| Device.FoundIsInterfaceOne | src/device.rs:169-178 | a found node is `/dev/` plus the name of an entry naming the keyboard whose device path holds ":1.1/" |
| Device.FindHidrawDevice | src/device.rs:149-189 | the first deciding entry in directory order, an unreadable directory's error, or not found |
| Device.CheckEntry | src/device.rs:154-182 | an entry's verdict: a device node, a path error, or nothing to look further |
| Device.Hidraw.Write | src/device.rs:47 | the report is appended if the write succeeds; one outcome is consumed |
| Device.Hidraw.InitializeGkeys | src/device.rs:37-92 | the writes are the initialisation plan up to the first failed write; ok exactly when none failed |
| Device.Hidraw.LookUpFeature | src/device.rs:42-50 | writes the feature look-up command and reads the answer into the response buffer |
| Device.Hidraw.SendToFeature | src/device.rs:52-63 | sends the command to the feature, unless its index is 0 |
| Device.SetCommand | src/device.rs:55-58 | the buffer carries the index, function and parameters and is otherwise unchanged |
| Device.ReadInto | src/device.rs:49 | the bytes received overwrite the front of the buffer; a failed read leaves it as it was |
| Device.HidppCommand | src/device.rs:38-45 | a 20-byte vendor report with the index, function and parameters, the rest zero |
| Device.FeatureIndex | src/device.rs:49-50 | byte 4 of the reply when it has one, otherwise the byte left from before |
| Device.InitCommandsShape | src/device.rs:37-92 | two look-ups always, plus one write for each feature found; every command is a 20-byte vendor report, zero from byte 6; the first looks up 0x8100 and the GKEYS look-up asks for 0x8010 |
| Device.StaleGkeysIndex | src/device.rs:76-88 | when the second look-up gets no answer, the GKEYS command goes to the ONBOARD_PROFILES index |
| Device.ReadEventTimeout | src/device.rs:116-144 | a poll error is an error, a timeout is no event, and otherwise it is a plain read |
| Device.ReadEventDecodes | src/device.rs:106-113 | a read of a whole report decodes as the decoder says; bytes past 20 are never seen |
| Device.EchoReadsAsMrKey | src/device.rs:106-113 | the keyboard's echo of the MR LED report reads as an MR key event |
| Daemon.NextDelay | src/main.rs:78-81 | the delay after one more failure, doubled and capped at 30 s; stated by BackoffStep, FailuresDouble and BackoffReachesCap |
| Daemon.Sleeps | src/main.rs:66-92 | the sleeps of the reconnect loop over its passes; stated by Reconnect, SleepsBounded and OpenResetsDelay |
| Daemon.ProfileName | src/main.rs:187 | the profile name `MEMORY_n`; stated by ProfileNumRoundTrip, ProfileNameInjective and FirstProfileIsM1 |
| Daemon.MacroName | src/main.rs:172 | the macro name `MACRO_n` of G-key n; used by HandleEvent and SaveRecording |
| Daemon.RecordingLedCommands | src/main.rs:247-342 | the LED commands of each recorder action; stated by StartingLeds, SavingLeds, CancellingLeds and RecordingKeepsProfileLed |
| Daemon.RecordingNotifications | src/main.rs:247-342 | the notifications of each recorder action and save outcome; stated by Daemon.HandleRecordingAction |
| Daemon.ReadFor | src/main.rs:120-124 | a read with a timeout while recording, a blocking read otherwise; stated by Daemon.Round |
| Daemon.IncomingAction | src/main.rs:220-244 | the recorder takes exactly an MR press that is not an LED echo, and a G-key while awaiting one; a save carries the recording's profile, G-key and every captured and queued chord joined by ", "; nothing captured cancels; a G-key starts recording exactly when the capture could start |
| Daemon.Reconnect | src/main.rs:66-92 | the sleeps are those of the backoff specification over the passes |
| Daemon.SleepsBounded | src/main.rs:66-92 | every sleep is between one and thirty seconds |
| Daemon.BackoffStep | src/main.rs:80 | backing off once more from the delay of k failures gives the delay of k + 1 |
| Daemon.FailuresDouble | src/main.rs:78-81 | failed opens in a row sleep 1 s, 2 s, 4 s, and so on, doubling up to the cap |
| Daemon.BackoffReachesCap | src/main.rs:66-67 | the delay starts at 1 s and reaches the 30 s cap at the sixth failure, where it stays |
| Daemon.OpenResetsDelay | src/main.rs:74 | a successful open forgets earlier failures |
| Daemon.ProfileNum | src/main.rs:99-102 | a name without the `MEMORY_` prefix gives LED 1; with the prefix, the rest parsed as a byte, or 1 when it does not parse |
| Daemon.ProfileNumFallbacks | src/main.rs:99-102 | "MEMORY_x", "MEMORY_256", "MEMORY_" and "M1" all give LED 1 |
| Daemon.ProfileNumRoundTrip | src/main.rs:99-103 | the LED number read from profile n's name is n |
| Daemon.ProfileNameInjective | src/main.rs:187 | different memory keys select different profiles |
| Daemon.FirstProfileIsM1 | src/main.rs:53 | the first profile shows LED 1 |
| Daemon.StartingLeds | src/main.rs:251-273 | arming lights MR and every G-key white without touching the blinking; starting makes MR blink, lit first |
| Daemon.SavingLeds | src/main.rs:281-283 | saving flashes MR, stops the blinking and leaves MR and every G-key dark |
| Daemon.CancellingLeds | src/main.rs:315-340 | cancelling or an error writes MR off, every G-key off and the commit, and nothing else |
| Daemon.QuickFlashThenDark | src/main.rs:281-283 | four quick flashes end with MR off, then the G-keys go dark |
| Daemon.LastProfileLedAppend | src/main.rs:103 | commands without a profile LED command keep the last one shown |
| Daemon.RecordingKeepsProfileLed | src/main.rs:247-342 | no recorder action touches the profile LED |
| Daemon.Notifier.Notify | src/main.rs:196-203 | the notification is added to those shown |
| Daemon.Daemon.Connect | src/main.rs:86-103 | a fresh LED controller whose only command shows the current profile |
| Daemon.Daemon.HandleEvent | src/main.rs:163-217 | a G-key runs the current profile's macro; a new M-key switches profile, lights its LED and notifies when enabled; the profile LED keeps showing the profile |
| Daemon.Daemon.HandleEventForRecording | src/main.rs:220-244 | an LED echo is dropped; MR goes to the recorder; a G-key goes to it while awaiting; other events are not its own |
| Daemon.Daemon.Dispatch | src/main.rs:126-146 | with an action: its LED commands, notifications and stored macro; without one, while idle: HandleEvent's effects; otherwise nothing changes |
| Daemon.Daemon.HandleRecordingAction | src/main.rs:247-342 | the action's LED commands, then for a save the macro stored under profile and G-key, then its notifications |
| Daemon.Daemon.SaveRecording | src/main.rs:275-313 | the sequence is stored as a key-sequence macro whatever the save outcome, and the notification says whether the save failed |
| Daemon.Daemon.HandleIncoming | src/main.rs:126-146 | the recorder's action is IncomingAction's. With an action: the recorder moves as that action says, its LED commands and notifications are sent, and a save stores the macro under the current profile. Without one: the recorder is unchanged; while idle the event gets ordinary handling (profile switch, LED, notification, macro run); otherwise nothing is sent, no macro runs and the profile stays. Only the current profile's macros can change, and both invariants are kept |
| Daemon.Daemon.Round | src/main.rs:108-156 | shutdown stops with nothing changed. While recording, the queued chords are added to the captured ones, and that is the recorder's new state unless an MR press arrives; an MR press that is not an echo ends the recording. The read is ReadFor's. A read error reconnects unless shutdown was asked for. Without an event nothing is sent, stored or typed |
| Daemon.Daemon.Session | src/main.rs:108-156 | the loop runs until a round stops it, keeping both invariants |

## Left out

- Threads, channels, `Drop` and join ordering, and the `ctrlc` handler: the capture worker and the LED worker are a method and a step function over explicit inputs, and the channel is a queue.
- Real time: `Instant`, `thread::sleep` and `recv_timeout` are replaced by `nat` millisecond readings passed in. Small pauses between characters, chords and writes change nothing observable here.
- Daemon.Reconnect: only the outer loop's delay bookkeeping is modelled (the opens' outcomes are given). The `running` check of the outer loop is left out.
- `main`'s start-up (logging, `Config::load`, `MacroExecutor::new`) is not modelled. The daemon state starts with a loaded configuration and an executor.
- Device and operating-system I/O, namely the hidraw directory walk, `canonicalize`, `libc::poll` and the file reads and writes, are replaced by values given as inputs (`DirEntry`, `Poll`, read results, write outcomes).
- evdev enumeration and `find_keyboard_evdev` are replaced by a `CaptureStart` input.
- The uinput `ioctl` set-up and destroy are not modelled.
- `Config::load`, `load_from`, `save`, `config_path` and serde's JSON handling are not modelled; only the `StringBool` rule is kept. Whether a save failed is an input.
- The shell (`/bin/sh -c`) of a command macro is an input saying whether the process could be started. A desktop notification is always recorded as shown: the daemon ignores whether `notify-send` could be spawned, so a spawn failure changes nothing. Logging is not modelled.
- Strings.Lowercase: exact for ASCII letters and the Kelvin sign only, the characters whose lower case is ASCII. Rust's full Unicode lower-casing of other characters is not modelled, because key names are only compared with ASCII table entries.
- Events.ProfileMask: takes the shift amount modulo 8. In a debug build, Rust panics for profile numbers above 8 instead; only profiles 1 to 3 occur.
- Keyboard.KeyAliases: the key-name table is modelled in full, but the aliases are stated for the modifier and editing keys only.
- Led.LedController.Send: the `set_*` wrappers of the controller are calls of `Send` with the matching `LedCommand`. The worker failing to open its own device file is not modelled.
- Daemon.Daemon.HandleRecordingAction: recording notifications are shown whatever `notify` says, as in the code. Only the profile-switch notification checks the setting.

## Findings

| source | as written | input that shows it | evidently intended | confidence | as-written member | corrected member |
|---|---|---|---|---|---|---|
| src/uinput.rs:261-267 | letters are sent as key code `KEY_A + i` for the i-th letter of the alphabet, but Linux key codes follow the QWERTY layout | typing "b" clicks code KEY_A + 1, which is KEY_S | each letter on the key of that name (`KEY_B` for 'b'), shifted for upper case | high (not executed) | Keyboard.CharMapMisplacesLetters | Keyboard.QwertyCharMapAgreesWithKeyMap |

`VirtualKeyboard.Typeout`, the macros and the daemon type text with `CHAR_MAP` as written (`Keyboard.CharMap`), because that is what the program does. The corrected table `Keyboard.QwertyCharMap` is defined next to it. `TypeoutEventsWith` types with either table, and the balance and skipping lemmas hold for every table.

# Dial input device — a Dafny model

The device is a USB keyboard with one rotary encoder and one push button.
It runs CircuitPython. The firmware offers three input modes:

- **Basic**: a combination-lock dial over 69 characters. Turning the knob
  moves the selection. Reversing the direction types the character that was
  selected before the reversal. A click types it; a double click types it
  with Shift.
- **Japanese** (romaji): left turns walk a vowel list and right turns a
  consonant list. Turning toward the other list types the current
  character. A click types it and returns to a neutral state.
- **Utility**: right turns type Space, left turns Backspace. Turning back
  requests the previous mode, which the manager ignores. A click before any
  turn requests the previous mode too, which names no registered mode. A
  long-press handler (never reached) opens a menu that names the other modes.

A mode manager dispatches rotations and clicks to the current mode and
switches modes when a click handler names one. A click detector turns
button levels and a clock into single and double clicks. A keyboard-mapping
module turns characters into HID keycodes for a US or a JIS host layout.
`code.py`, the first single-file version of the device, holds the Basic
dial, its own copies of the tables and of the click detector, and the main
loop.

One Dafny module models each core file:

- `KeyboardMapping`: the two keycode tables, the two Shift sets and the
  layout selector. A reference definition of what a US host types for a
  report makes the round-trip property expressible. The same reference
  shows that the JIS table sends identical reports for distinct characters,
  for example ':' and '*' (both are Shift+QUOTE). No host can type both
  characters of such a pair.
- `DisplayUtil`: the text shown for a character.
- `SwitchHandler`: the click detector. It is a class with an `Update`
  method, proved against the pure one-poll function `Step`. Runs of polls
  are modelled by `Run`.
- `ModeCore`: the `Mode` base class. It has a state dictionary, `get_state`,
  `set_state`, `on_enter` and `send_key`. It also holds the key/value type
  and the keyboard, which keeps a log of the reports sent.
- `BasicMode`, `JapaneseMode`, `UtilityMode`: each handler is a method on a
  `Mode` object. The method is proved equal to a pure function of the mode's
  snapshot, meaning its state dictionary and remembered rotation direction.
  The lemmas state the mode's behaviour on those functions.
- `ModeManager`: the registry and dispatcher, as a class. Python's
  subclass dispatch is a match on the mode's kind.
- `MainLoop`: `code.py`'s layout selection, its variables and one loop
  iteration, as a class `Device`. It is proved against the pure function
  `Tick`. Lemmas show that the loop's rotation and click handling is
  exactly the Basic mode's.

Time is an integer count of milliseconds. The 0.3 s double-click window is
300. The encoder position, the button level and the clock are parameters
of each poll or iteration.

## Model

| member | source | states |
|---|---|---|
| KeyboardMapping.TableLookup | circuitpython/keyboard_mapping.py:14-59 | The dictionaries hold exactly the table entries, with the same keycodes |
| KeyboardMapping.UsKeys | circuitpython/keyboard_mapping.py:14-35 | The US table has an entry exactly for printable ASCII without capitals, plus newline |
| KeyboardMapping.JisKeys | circuitpython/keyboard_mapping.py:38-59 | The JIS table has an entry for exactly the same characters |
| KeyboardMapping.TableKeys | circuitpython/keyboard_mapping.py:14-59 | Both dictionaries have the same key set: exactly the table characters |
| KeyboardMapping.NeedsShiftUSMembers | circuitpython/keyboard_mapping.py:62 | The US Shift set is exactly the 21 listed characters |
| KeyboardMapping.NeedsShiftJISMembers | circuitpython/keyboard_mapping.py:65 | The JIS Shift set is exactly the 24 listed characters |
| KeyboardMapping.ShiftSetsAreTableKeys | circuitpython/keyboard_mapping.py:14-65 | Each Shift set lists only characters of its own table |
| KeyboardMapping.EnterAndSpace | circuitpython/keyboard_mapping.py:14-65 | In both layouts newline is ENTER and blank is SPACE, neither shifted |
| KeyboardMapping.LetterOrDigitAgrees | circuitpython/keyboard_mapping.py:14-65 | Letters and digits get the same unshifted keycode in both layouts |
| KeyboardMapping.UsRoundTrip | circuitpython/keyboard_mapping.py:14-62 | Every US entry, sent with its Shift bit, types back its own character on a US host |
| KeyboardMapping.UsShiftedLetterIsCapital | circuitpython/keyboard_mapping.py:14-35 | On a US host a letter's keycode with Shift types the capital letter |
| KeyboardMapping.UsReportsInjective | circuitpython/keyboard_mapping.py:14-62 | Distinct US characters never share a report (keycode and Shift bit) |
| KeyboardMapping.JisColonStar | circuitpython/keyboard_mapping.py:38-65 | ':' and '*' are both sent as Shift+QUOTE |
| KeyboardMapping.JisSemicolonPlus | circuitpython/keyboard_mapping.py:38-65 | ';' and '+' are both sent as Shift+SEMICOLON |
| KeyboardMapping.JisMinusEquals | circuitpython/keyboard_mapping.py:38-65 | '-' and '=' are both sent as MINUS without Shift |
| KeyboardMapping.JisAtBacktick | circuitpython/keyboard_mapping.py:38-65 | '@' and '`' are both sent as LEFT_BRACKET without Shift |
| KeyboardMapping.JisBracketBrace | circuitpython/keyboard_mapping.py:38-65 | '[' and '{' are both sent as Shift+RIGHT_BRACKET |
| KeyboardMapping.JisCaretTilde | circuitpython/keyboard_mapping.py:38-65 | '^' and '~' are both sent as Shift+EQUALS |
| KeyboardMapping.JisBracketUnderscore | circuitpython/keyboard_mapping.py:38-65 | ']' and '_' are both sent as Shift+BACKSLASH |
| KeyboardMapping.JisBracketBar | circuitpython/keyboard_mapping.py:38-65 | ']' and '\|' are both sent as Shift+BACKSLASH |
| KeyboardMapping.JisBracketCloseBrace | circuitpython/keyboard_mapping.py:38-65 | ']' and '}' are both sent as Shift+BACKSLASH |
| KeyboardMapping.GetKeycodeMapping | circuitpython/keyboard_mapping.py:68-83 | The selector always returns one of the two layout pairs; `SelectsJisExactly` says which |
| KeyboardMapping.SameKeySets | circuitpython/keyboard_mapping.py:14-59 | Both layouts cover exactly the same characters |
| KeyboardMapping.SelectsJisExactly | circuitpython/keyboard_mapping.py:68-83 | The selector returns the JIS pair exactly for "JIS"; every other value gets the US pair |
| DisplayUtil.GetDisplayChar | display_util.py:1-7 | The shown text is never a bare blank or newline, and it is the input itself exactly when the input is neither |
| DisplayUtil.DisplayCharReplacements | display_util.py:1-7 | A blank is shown as "SP" and a newline as "EN" |
| DisplayUtil.DisplayCharIdempotent | display_util.py:1-7 | Converting twice shows the same as converting once |
| SwitchHandler.SwitchHandler.constructor | switch_handler.py:16-31 | A new detector is released, has nothing pending, and keeps the given window |
| SwitchHandler.SwitchHandler.Update | switch_handler.py:33-65 | A poll's new fields and reported event are those of `Step` on the old fields |
| SwitchHandler.Step | switch_handler.py:33-65 | One poll: the level is remembered, a double click clears the wait, and a wait still pending after the poll either started at this poll's press or is the old wait unchanged |
| SwitchHandler.Run | switch_handler.py:33-65 | A run of polls reports one event (or none) per poll and ends remembering the last poll's level |
| SwitchHandler.StepEvent | switch_handler.py:33-65 | Double exactly when a press lands inside the window of a pending click; timeout exactly when the pending click's window has run out; the level is remembered |
| SwitchHandler.PressStartsWait | switch_handler.py:50-63 | A press with nothing pending starts a wait at the current time and reports nothing |
| SwitchHandler.PressInWindowIsDouble | switch_handler.py:55-59 | A press inside the window reports a double click and clears the wait |
| SwitchHandler.TimeoutWins | switch_handler.py:45-63 | An expired wait reports a single click; a press in the same poll only starts a fresh wait |
| SwitchHandler.ReleaseOnlyRecordsLevel | switch_handler.py:45-63 | A release edge only records the new level |
| SwitchHandler.LoneClickTimesOutOnce | switch_handler.py:33-65 | After one press with no second press, exactly one single click is reported, at the first poll past the window, and no double click |
| SwitchHandler.QuietAfterTimeout | switch_handler.py:33-65 | With nothing pending and no press, no event is ever reported |
| SwitchHandler.DoubleClickScenario | switch_handler.py:33-65 | Presses at 0 and 200 ms give one double click and no single click |
| SwitchHandler.SingleClickScenario | switch_handler.py:33-65 | One press at 0 ms is reported as a single click at the first poll at or after 300 ms |
| ModeCore.GetAfterSet | mode_manager.py:44-65 | Reading a key back returns what was stored there; other keys are unchanged |
| ModeCore.GetDefault | mode_manager.py:44-55 | A missing key reads as the default and a present one as its value |
| ModeCore.KeyReport | mode_manager.py:154-163 | There is a report exactly when the character has a keycode |
| ModeCore.Sent | mode_manager.py:154-163 | `send_key` sends at most one report |
| ModeCore.SentReport | mode_manager.py:154-163 | A mapped character sends one report with its keycode, shifted iff Shift was asked for or the layout needs it; an unmapped one sends nothing |
| ModeCore.SentTypesCharUS | mode_manager.py:154-163 | On a US host, sending a US table character without forced Shift types that character |
| ModeCore.SentUnderAnyLayout | mode_manager.py:154-163 | Every table character is sent under either layout |
| ModeCore.Mode.constructor | mode_manager.py:17-31 | A new mode keeps its name, keyboard and tables, with an empty state and no direction |
| ModeCore.Mode.GetState | mode_manager.py:44-55 | Returns the stored value, or the default when the key is absent |
| ModeCore.Mode.SetState | mode_manager.py:57-65 | Stores one key; nothing else in the state and not the direction changes |
| ModeCore.Mode.EnterBase | mode_manager.py:90-102 | Entering forgets the direction and replaces the state with the mode's initial state |
| ModeCore.Mode.SendKey | mode_manager.py:154-163 | Returns true exactly for mapped characters and appends exactly `Sent` to the keyboard log |
| BasicMode.CharListContents | modes/basic_mode.py:22-28 | The dial holds exactly printable ASCII without the capitals |
| BasicMode.LettersContents | modes/basic_mode.py:22-28 | The letter group is exactly 'a'..'z' |
| BasicMode.DigitsContents | modes/basic_mode.py:22-28 | The digit group is exactly '0'..'9' |
| BasicMode.SymbolsContents | modes/basic_mode.py:22-28 | The symbol group is exactly the printable ASCII characters that are neither letters nor digits |
| BasicMode.CharListLength | modes/basic_mode.py:22-28 | The dial has 69 characters |
| BasicMode.CharListMapped | modes/basic_mode.py:22-28 | Every dial character has a keycode in both layouts |
| BasicMode.Rotation | modes/basic_mode.py:115-138 | A rotation keeps the dial index in range |
| BasicMode.Click | modes/basic_mode.py:140-166 | A click keeps the dial, requests no mode, and sends what `send_key` sends for the selected character |
| BasicMode.OnEnter | modes/basic_mode.py:35-39 | Entering resets the dial to index 0 and forgets the direction |
| BasicMode.HandleRotation | modes/basic_mode.py:115-138 | The handler's new snapshot, sent reports and result are those of `Rotation` |
| BasicMode.HandleSingleClick | modes/basic_mode.py:140-152 | The handler's effect is that of `Click` without Shift |
| BasicMode.HandleDoubleClick | modes/basic_mode.py:154-166 | The handler's effect is that of `Click` with Shift |
| BasicMode.InitStateValid | modes/basic_mode.py:35-39 | The initial state and the empty state both select 'a' |
| BasicMode.RotationMovesDial | modes/basic_mode.py:115-138 | The dial moves by delta modulo 69; the direction becomes the rotation's sign; nothing is returned |
| BasicMode.RotationSendsOnReversalOnly | modes/basic_mode.py:115-138 | A rotation types only on a reversal, and then the character selected before it |
| BasicMode.ReversalSendsSelected | modes/basic_mode.py:115-138 | Under either layout a reversal sends exactly one report, with the previously selected character's keycode |
| BasicMode.FullTurnKeepsSelection | modes/basic_mode.py:115-138 | Turning by whole revolutions keeps the selected character |
| BasicMode.RotationsAdd | modes/basic_mode.py:115-138 | Two rotations move the dial as far as one rotation by their sum |
| BasicMode.ClickKeepsDial | modes/basic_mode.py:140-166 | A click keeps the dial and switches no mode; it forgets the direction iff it sent |
| BasicMode.ClickAlwaysSends | modes/basic_mode.py:140-166 | Under either layout a click sends one report, shifted iff double or the layout needs it |
| BasicMode.ClickTypesSelectedUS | modes/basic_mode.py:140-152 | On a US host a click types the selected character |
| BasicMode.DoubleClickTypesCapitalUS | modes/basic_mode.py:154-166 | On a US host a double click on a letter types its capital |
| JapaneseMode.ListLengths | modes/japanese_mode.py:24-40 | The extended vowel list has 15 entries and the consonant list 23 |
| JapaneseMode.ListsMapped | modes/japanese_mode.py:24-40 | Every list character has a keycode in both layouts |
| JapaneseMode.Rotation | modes/japanese_mode.py:138-184 | A rotation keeps the state well formed |
| JapaneseMode.Click | modes/japanese_mode.py:186-225 | A click keeps the state well formed |
| JapaneseMode.SetActive | modes/japanese_mode.py:65-70 | The neutral flag is set, and the side too when one is given |
| JapaneseMode.SetActiveKeeps | modes/japanese_mode.py:65-70 | No entry other than the neutral flag and the side changes |
| JapaneseMode.EnterState | modes/japanese_mode.py:42-61 | The entry state is well formed: neutral, on the vowels, both indices 0 |
| JapaneseMode.HintsOf | modes/japanese_mode.py:97-127 | The centre hint is the selected character of the active list |
| JapaneseMode.DisplayHints | modes/japanese_mode.py:83-127 | The centre hint the display shows is the character a click would type |
| JapaneseMode.RotateFields | modes/japanese_mode.py:164-182 | After a rotation the entries are in range and the mode is active |
| JapaneseMode.SetActiveState | modes/japanese_mode.py:65-81 | Sets the neutral flag, and the side when one is given; nothing else changes |
| JapaneseMode.OnEnter | modes/japanese_mode.py:42-61 | Entering gives the neutral initial state on the first vowel and forgets the direction |
| JapaneseMode.HandleRotation | modes/japanese_mode.py:138-184 | The handler's effect is that of `Rotation` |
| JapaneseMode.CommitCurrent | modes/japanese_mode.py:186-225 | The body shared by both click handlers has the effect of `Click` |
| JapaneseMode.HandleSingleClick | modes/japanese_mode.py:186-204 | The handler's effect is that of `Click`, typing once |
| JapaneseMode.HandleDoubleClick | modes/japanese_mode.py:206-225 | The handler's effect is that of `Click`, typing twice |
| JapaneseMode.EnterIsNeutral | modes/japanese_mode.py:42-61 | After entering the mode is neutral, on the vowels, at 'a' |
| JapaneseMode.RotationActivatesTarget | modes/japanese_mode.py:138-184 | After a rotation the mode is active on the side the rotation points at |
| JapaneseMode.RotationTypesOnSwitch | modes/japanese_mode.py:154-162 | A rotation types iff the mode is active and turns toward the other list, and then one report for the current character |
| JapaneseMode.ConsonantToVowelResets | modes/japanese_mode.py:164-168 | Turning from the consonants to the vowels restarts the vowels at 'a' |
| JapaneseMode.RotationStep | modes/japanese_mode.py:170-179 | A turn along the active list advances it by exactly one, whatever the delta; a turn toward the other list advances neither |
| JapaneseMode.ClickCommits | modes/japanese_mode.py:186-225 | A click types the current character once (twice for a double click), goes neutral on the same side, and restarts the vowels after a consonant |
| JapaneseMode.CenterIsCurrent | modes/japanese_mode.py:97-101 | The centre hint is the character a click would type |
| JapaneseMode.HandlersSettle | modes/japanese_mode.py:42-225 | Entering, rotating and clicking never leave a neutral consonant state with an unreset vowel index |
| JapaneseMode.RotationView | modes/japanese_mode.py:164-182 | A rotation's effect on the four state entries is `RotateFields` |
| JapaneseMode.HintsPreviewRotation | modes/japanese_mode.py:104-127 | Each side hint shows what turning toward that side selects |
| JapaneseMode.PreviewFields | modes/japanese_mode.py:104-127 | The preview property, stated on the state entries |
| JapaneseMode.OppositeHintIsPrevious | modes/japanese_mode.py:119-127 | After a turn along the active list, the opposite hint shows the character selected before |
| JapaneseMode.OppositeFields | modes/japanese_mode.py:119-127 | The opposite-hint property, stated on the state entries |
| UtilityMode.Rotation | modes/utility_mode.py:95-124 | A rotation keeps the menu index in range |
| UtilityMode.SingleClick | modes/utility_mode.py:126-143 | A click never changes the state, sends at most one report, and requests only the previous mode or a menu entry |
| UtilityMode.OnEnter | modes/utility_mode.py:31-50 | Entering gives the action sub-mode with no turn and no last action, and forgets the direction |
| UtilityMode.ExecuteAction | modes/utility_mode.py:154-161 | "BS" sends Backspace, "SP" sends Space, anything else sends nothing |
| UtilityMode.HandleRotation | modes/utility_mode.py:95-124 | The handler's effect is that of `Rotation` |
| UtilityMode.HandleSingleClick | modes/utility_mode.py:126-143 | The handler's effect is that of `SingleClick` |
| UtilityMode.HandleLongPress | modes/utility_mode.py:145-148 | A long press switches to the menu sub-mode and requests no mode |
| UtilityMode.HandleDoubleClick | modes/utility_mode.py:150-152 | A double click requests the previous mode |
| UtilityMode.EnterResets | modes/utility_mode.py:31-50 | After entering: no turn, action sub-mode, no last or current action |
| UtilityMode.RotationMarksTurned | modes/utility_mode.py:97 | Every rotation records that the knob turned and keeps the rotation direction |
| UtilityMode.ActionTurnTypes | modes/utility_mode.py:100-117 | A first or same-way turn types Space (right) or Backspace (left) once and records it |
| UtilityMode.ReverseTurnLeaves | modes/utility_mode.py:104-112 | A turn against the last action types Enter only after Space, clears both actions and requests the previous mode |
| UtilityMode.MenuTurnMoves | modes/utility_mode.py:119-122 | In the menu a turn moves the selection by delta modulo 2 and types nothing |
| UtilityMode.ClickBeforeTurnLeaves | modes/utility_mode.py:128-129 | A click before any turn requests the previous mode and changes nothing |
| UtilityMode.ClickAfterTurn | modes/utility_mode.py:131-143 | After a turn a click types Enter after Space and Backspace after Backspace; in the menu it picks the selected entry |
| UtilityMode.MenuPicksTurnedEntry | modes/utility_mode.py:95-148 | Long press, a turn by delta and a click pick the entry delta steps on |
| UtilityMode.SpaceSpaceThenBack | modes/utility_mode.py:95-124 | Right, right, left types Space, Space, Enter and then requests the previous mode |
| ModeManager.EnterStateOf | mode_manager.py:90-102 | Each mode's entry state can handle input |
| ModeManager.RotationOf | mode_manager.py:189-196 | Dispatching a rotation keeps the current mode's state well formed |
| ModeManager.SingleClickOf | mode_manager.py:198-203 | Dispatching a click keeps the current mode's state well formed |
| ModeManager.DoubleClickOf | mode_manager.py:205-210 | Dispatching a double click keeps the current mode's state well formed |
| ModeManager.NextMode | mode_manager.py:179-203 | A click switches exactly when its result is a non-empty registered name, and then to that name |
| ModeManager.ModeManager.constructor | mode_manager.py:169-173 | A new manager has no modes and no current mode |
| ModeManager.ModeManager.AddMode | mode_manager.py:175-177 | Registers the mode under its own name, replacing an earlier one of that name |
| ModeManager.ModeManager.EnterMode | mode_manager.py:90-102 | `on_enter` resolves to the mode kind's override |
| ModeManager.ModeManager.SetMode | mode_manager.py:179-187 | A registered name becomes current and is entered, even if it was current already; an unknown name changes nothing |
| ModeManager.ModeManager.HandleRotation | mode_manager.py:189-196 | Without a mode the result is False; otherwise the current mode's rotation, whose result never switches modes |
| ModeManager.ModeManager.HandleSingleClick | mode_manager.py:198-203 | The current mode's click, then a switch exactly when it names a registered mode; a left mode keeps its post-click state and every other registered mode is untouched |
| ModeManager.ModeManager.HandleDoubleClick | mode_manager.py:205-210 | The same for the double click |
| ModeManager.InputModesStay | mode_manager.py:198-210 | Clicks in the Basic and Japanese modes never switch modes |
| ModeManager.PreviousIsNoMode | modes/utility_mode.py:126-152 | The previous-mode request names no registered mode, so the utility mode stays current |
| ModeManager.MenuClickSwitches | modes/utility_mode.py:131-143 | A menu click switches to the selected entry, which is always registered |
| MainLoop.CodeTables | code.py:75-134 | The loop's tables are the selected layout's tables without newline, with that layout's Shift set |
| MainLoop.CodeTablesSelect | code.py:127-134 | "JIS" selects the JIS Shift set and anything else the US one; every dial character has a keycode |
| MainLoop.CodeTablesAgree | code.py:75-134 | On dial characters the loop's tables send what the layout module's tables send |
| MainLoop.RotationPart | code.py:249-291 | The rotation part keeps the dial index in range |
| MainLoop.ClickPart | code.py:299-329 | The button part keeps the dial index in range |
| MainLoop.Tick | code.py:248-331 | One iteration keeps the dial index in range |
| MainLoop.Device.constructor | code.py:240-245 | Starts at index 0, encoder 0, no direction, a fresh detector and an empty log |
| MainLoop.Device.SendChar | code.py:266-272 | Sends one report: the character's keycode with the given Shift bit |
| MainLoop.Device.HandleEncoder | code.py:249-291 | The effect is that of `RotationPart` |
| MainLoop.Device.HandleSwitchEvent | code.py:299-329 | The effect is that of `ClickPart` |
| MainLoop.Device.Step | code.py:248-331 | One iteration's variables, detector fields and reports are those of `Tick` |
| MainLoop.StillEncoderDoesNothing | code.py:249-252 | An unchanged encoder reading changes nothing and sends nothing |
| MainLoop.RotationIsBasic | code.py:249-291 | The loop's rotation handling moves, remembers and sends exactly as the Basic mode's |
| MainLoop.RotationAgrees | code.py:249-291 | The same, for any two tables that agree on the selected character |
| MainLoop.ClickIsBasic | code.py:299-329 | The loop's single and double click handling is exactly the Basic mode's |
| MainLoop.TickOrder | code.py:248-331 | An iteration sends the rotation's reports first; a click then types the character selected after the rotation and clears the direction |

## Left out

- Display output is not modelled. This covers labels, fonts, `init_display`, `update_display_mode`, footer texts, `cleanup_display` and `on_exit`, which only clears labels. The Japanese hints are modelled as characters; `get_display_char(...).upper()` is not applied to them.
- `print` logging is not modelled.
- Hardware is not modelled: the encoder, the button pin, `time.monotonic`, `time.sleep` and the USB HID device. The encoder position, button level and clock are parameters. The keyboard is a log of reports.
- HID keycode numbers are opaque names; only their identity matters. What a JIS host types for a report is not modelled; only a US host reference is given.
- Time is integer milliseconds instead of float seconds, so the 0.3 s window is 300.
- `pending_callback` in the click detector is set but never read, so it is not modelled.
- `JapaneseMode.SetActiveState`, `JapaneseMode.HandleRotation`, `JapaneseMode.CommitCurrent`: `_set_active_state` (modes/japanese_mode.py:72-81) calls `update_footer_text`, which no class defines. In Python every Japanese rotation, click and entry would raise AttributeError after the state updates and sends. The model treats that call as doing nothing.
- Long presses are never detected by the click detector, and the manager never dispatches them. `UtilityMode.HandleLongPress` is modelled but nothing reaches it.
- `JapaneseMode.OnEnter`, `UtilityMode.OnEnter`: `Mode.on_enter` takes no argument, but both overrides pass `reset` to it, which raises a TypeError in Python. The model takes `reset` as an ignored flag and behaves as if the base method had run.
- The utility mode's constructor passes too few arguments to `Mode.__init__`, which raises a TypeError. The model builds the mode with empty keycode tables; it sends its keys directly.
- `"__PREVIOUS__"` is an ordinary mode name, which no mode registers, so `set_mode` ignores it. No previous-mode memory exists in the source or the model.
- `ModeManager.ModeManager.HandleRotation` returns the mode's result, as the source does. The source never uses a rotation's request to leave the utility mode.
- `modes/input_mode.py` only shapes the display. Its table selection through the layout selector is covered by `KeyboardMapping.GetKeycodeMapping`. `config.py` only fixes the layout to "JIS", so here the layout is a parameter. `modes/__init__.py` only re-exports a class.
- The click detector in `code.py` (lines 137-190) is a line-for-line copy of `switch_handler.py`, so it is modelled once.
- `code.py`'s keycode tables (lines 75-118) are the layout module's tables without the newline entry, so they are modelled as those tables minus newline. Its dial (lines 64-70) is the Basic mode's dial.

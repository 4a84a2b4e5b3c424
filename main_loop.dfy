/**
 * The first, single-file version of the device: the dial algorithm written
 * straight into the main loop, with its own copy of the keycode tables and
 * of the click detector. One iteration of the loop is one `Tick`: read the
 * encoder, handle a rotation, then poll the button and handle its event.
 */
module MainLoop {

  import opened Wrappers
  import opened KeyboardMapping
  import opened ModeCore
  import BasicMode
  import SwitchHandler

  /**
   * The layout selection: the loop's own tables, which are the layout
   * tables without the newline entry, and the matching shift set.
   */
  function CodeTables(layout: string): (m: Mapping)
    ensures m.charToKeycode == GetKeycodeMapping(layout).charToKeycode - {'\n'}
    ensures m.needsShift == GetKeycodeMapping(layout).needsShift
  {
    if layout == "JIS" then Mapping(CharToKeycodeJIS() - {'\n'}, NeedsShiftJIS())
    else Mapping(CharToKeycodeUS() - {'\n'}, NeedsShiftUS())
  }

  /** The loop's variables. */
  datatype LoopState = LoopState(currentCharIndex: int, lastEncoderPos: int, lastRotationDirection: Option<int>)

  const InitialLoop: LoopState := LoopState(0, 0, None)

  /** The dial position indexes the dial. */
  predicate ValidLoop(ls: LoopState)
  {
    0 <= ls.currentCharIndex < |BasicMode.CharList|
  }

  /** The outcome of one part of an iteration: the new variables and the reports sent. */
  datatype Effect = Effect(loop: LoopState, sent: seq<Report>)

  /** The rotation part: the encoder reading (negated) is compared with the last one. */
  function RotationPart(ls: LoopState, mapping: Mapping, encoderPosition: int): (e: Effect)
    requires ValidLoop(ls)
    ensures ValidLoop(e.loop)
  {
    var currentEncoderPos := -encoderPosition;
    if currentEncoderPos == ls.lastEncoderPos then Effect(ls, [])
    else
      var delta := currentEncoderPos - ls.lastEncoderPos;
      var direction := if delta > 0 then 1 else -1;
      var sent := if ls.lastRotationDirection.Some? && direction != ls.lastRotationDirection.value
        then Sent(mapping, BasicMode.CharList[ls.currentCharIndex], false) else [];
      var index := (ls.currentCharIndex + delta) % |BasicMode.CharList|;
      Effect(LoopState(index, currentEncoderPos, Some(direction)), sent)
  }

  /** The button part: a single click types the character, a double click types it with Shift. */
  function ClickPart(ls: LoopState, mapping: Mapping, event: Option<SwitchHandler.Click>): (e: Effect)
    requires ValidLoop(ls)
    ensures ValidLoop(e.loop)
  {
    var c := BasicMode.CharList[ls.currentCharIndex];
    if event.None? || c !in mapping.charToKeycode then Effect(ls, [])
    else Effect(ls.(lastRotationDirection := None), Sent(mapping, c, event == Some(SwitchHandler.Double)))
  }

  /** What one iteration produces: the loop variables, the detector's fields and the reports sent. */
  datatype TickResult = TickResult(loop: LoopState, switch: SwitchHandler.SwitchState, sent: seq<Report>)

  /** One iteration: the rotation first, then the button poll and its event. */
  function Tick(ls: LoopState, sw: SwitchHandler.SwitchState, threshold: int, mapping: Mapping,
                encoderPosition: int, level: bool, now: int): (r: TickResult)
    requires ValidLoop(ls)
    ensures ValidLoop(r.loop)
  {
    var rot := RotationPart(ls, mapping, encoderPosition);
    var poll := SwitchHandler.Step(sw, threshold, level, now);
    var click := ClickPart(rot.loop, mapping, poll.event);
    TickResult(click.loop, poll.next, rot.sent + click.sent)
  }

  /** The device: the loop's variables, the click detector and the keyboard. */
  class Device {
    var currentCharIndex: int
    var lastEncoderPos: int
    var lastRotationDirection: Option<int>
    const switchHandler: SwitchHandler.SwitchHandler
    const keyboard: Keyboard
    const mapping: Mapping

    function Loop(): LoopState
      reads this
    {
      LoopState(currentCharIndex, lastEncoderPos, lastRotationDirection)
    }

    constructor (layout: string)
      ensures Loop() == InitialLoop && mapping == CodeTables(layout)
      ensures fresh(switchHandler) && fresh(keyboard)
      ensures switchHandler.State() == SwitchHandler.Initial
      ensures switchHandler.doubleClickThreshold == SwitchHandler.DefaultThreshold
      ensures keyboard.log == []
    {
      if layout == "JIS" {
        mapping := Mapping(CharToKeycodeJIS() - {'\n'}, NeedsShiftJIS());
      } else {
        mapping := Mapping(CharToKeycodeUS() - {'\n'}, NeedsShiftUS());
      }
      switchHandler := new SwitchHandler.SwitchHandler(SwitchHandler.DefaultThreshold);
      keyboard := new Keyboard();
      currentCharIndex := 0;
      lastEncoderPos := 0;
      lastRotationDirection := None;
    }

    /** Sends `c` with Shift when `shift` holds. */
    method SendChar(c: char, shift: bool)
      requires c in mapping.charToKeycode
      modifies keyboard
      ensures keyboard.log == old(keyboard.log) + [Report(mapping.charToKeycode[c], shift)]
    {
      var keycode := mapping.charToKeycode[c];
      keyboard.Send(Report(keycode, shift));
    }

    /** The rotation part of an iteration. */
    method HandleEncoder(encoderPosition: int)
      requires ValidLoop(Loop())
      modifies this, keyboard
      ensures var e := RotationPart(old(Loop()), mapping, encoderPosition);
        Loop() == e.loop && keyboard.log == old(keyboard.log) + e.sent
    {
      var currentEncoderPos := -encoderPosition;
      if currentEncoderPos != lastEncoderPos {
        var delta := currentEncoderPos - lastEncoderPos;
        lastEncoderPos := currentEncoderPos;
        var currentRotationDirection := if delta > 0 then 1 else -1;
        if lastRotationDirection.Some? && currentRotationDirection != lastRotationDirection.value {
          var selectedChar := BasicMode.CharList[currentCharIndex];
          if selectedChar in mapping.charToKeycode {
            SendChar(selectedChar, selectedChar in mapping.needsShift);
          }
        }
        currentCharIndex := (currentCharIndex + delta) % |BasicMode.CharList|;
        lastRotationDirection := Some(currentRotationDirection);
      }
    }

    /** The button part of an iteration, for the event the detector reported. */
    method HandleSwitchEvent(switchEvent: Option<SwitchHandler.Click>)
      requires ValidLoop(Loop())
      modifies this, keyboard
      ensures var e := ClickPart(old(Loop()), mapping, switchEvent);
        Loop() == e.loop && keyboard.log == old(keyboard.log) + e.sent
    {
      if switchEvent.Some? {
        var selectedChar := BasicMode.CharList[currentCharIndex];
        if selectedChar in mapping.charToKeycode {
          match switchEvent.value {
            case Timeout => SendChar(selectedChar, selectedChar in mapping.needsShift);
            case Double => SendChar(selectedChar, true);
          }
          lastRotationDirection := None;
        }
      }
    }

    /** One iteration of the main loop, given the encoder reading, the button level and the clock. */
    method Step(encoderPosition: int, level: bool, now: int)
      requires ValidLoop(Loop())
      modifies this, switchHandler, keyboard
      ensures var r := Tick(old(Loop()), old(switchHandler.State()), switchHandler.doubleClickThreshold, mapping,
                            encoderPosition, level, now);
        Loop() == r.loop && switchHandler.State() == r.switch && keyboard.log == old(keyboard.log) + r.sent
    {
      HandleEncoder(encoderPosition);
      var switchEvent := switchHandler.Update(level, now);
      HandleSwitchEvent(switchEvent);
    }
  }

  // ---- Properties ----

  /** "JIS" selects the JIS tables, anything else the US ones; every dial character has a keycode either way. */
  lemma CodeTablesSelect(layout: string, c: char)
    ensures CodeTables(layout).needsShift == (if layout == "JIS" then NeedsShiftJIS() else NeedsShiftUS())
    ensures c in BasicMode.CharList ==> c in CodeTables(layout).charToKeycode
  {
    if c in BasicMode.CharList {
      BasicMode.CharListMapped(c);
      BasicMode.CharListContents(c);
    }
  }

  /** On every dial character the loop's tables send what the layout module's tables send. */
  lemma CodeTablesAgree(layout: string, c: char, useShift: bool)
    requires c in BasicMode.CharList
    ensures Sent(CodeTables(layout), c, useShift) == Sent(GetKeycodeMapping(layout), c, useShift)
  {
    BasicMode.CharListContents(c);
    BasicMode.CharListMapped(c);
  }

  /** A reading equal to the last one is no rotation: nothing changes and nothing is sent. */
  lemma StillEncoderDoesNothing(ls: LoopState, mapping: Mapping, encoderPosition: int)
    requires ValidLoop(ls) && -encoderPosition == ls.lastEncoderPos
    ensures RotationPart(ls, mapping, encoderPosition) == Effect(ls, [])
  {
  }

  /** The basic mode's view of the loop's variables. */
  function AsBasic(ls: LoopState): Snapshot
  {
    Snapshot(map["char_index" := ModeCore.Int(ls.currentCharIndex)], ls.lastRotationDirection)
  }

  /**
   * The loop's rotation handling is the basic mode's: for the same delta
   * it moves the dial to the same place, remembers the same direction and
   * sends the same reports.
   */
  lemma {:induction false} RotationIsBasic(ls: LoopState, layout: string, encoderPosition: int)
    requires ValidLoop(ls) && -encoderPosition != ls.lastEncoderPos
    ensures var e := RotationPart(ls, CodeTables(layout), encoderPosition);
      var o := BasicMode.Rotation(AsBasic(ls), GetKeycodeMapping(layout), -encoderPosition - ls.lastEncoderPos);
      && o.after == AsBasic(e.loop)
      && o.sent == e.sent
      && e.loop.lastEncoderPos == -encoderPosition
  {
    CodeTablesAgree(layout, BasicMode.CharList[ls.currentCharIndex], false);
    RotationAgrees(ls, CodeTables(layout), GetKeycodeMapping(layout), encoderPosition);
  }

  /** The rotation comparison for any two tables that send the same for the selected character. */
  lemma RotationAgrees(ls: LoopState, loopTables: Mapping, modeTables: Mapping, encoderPosition: int)
    requires ValidLoop(ls) && -encoderPosition != ls.lastEncoderPos
    requires var c := BasicMode.CharList[ls.currentCharIndex];
      Sent(loopTables, c, false) == Sent(modeTables, c, false)
    ensures var e := RotationPart(ls, loopTables, encoderPosition);
      var o := BasicMode.Rotation(AsBasic(ls), modeTables, -encoderPosition - ls.lastEncoderPos);
      o.after == AsBasic(e.loop) && o.sent == e.sent && e.loop.lastEncoderPos == -encoderPosition
  {
    var e := RotationPart(ls, loopTables, encoderPosition);
    var o := BasicMode.Rotation(AsBasic(ls), modeTables, -encoderPosition - ls.lastEncoderPos);
    assert o.after.state == map["char_index" := ModeCore.Int(e.loop.currentCharIndex)];
  }

  /** The loop's single and double click handling is the basic mode's. */
  lemma {:induction false} ClickIsBasic(ls: LoopState, layout: string, event: SwitchHandler.Click)
    requires ValidLoop(ls)
    ensures var e := ClickPart(ls, CodeTables(layout), Some(event));
      var o := BasicMode.Click(AsBasic(ls), GetKeycodeMapping(layout), event == SwitchHandler.Double);
      o.after == AsBasic(e.loop) && o.sent == e.sent && e.loop.lastEncoderPos == ls.lastEncoderPos
  {
    var c := BasicMode.CharList[ls.currentCharIndex];
    CodeTablesSelect(layout, c);
    BasicMode.CharListMapped(c);
    CodeTablesAgree(layout, c, event == SwitchHandler.Double);
  }

  /**
   * Rotation comes before the button: the reports of an iteration are the
   * rotation's followed by the click's, and a click types the character
   * selected after the rotation.
   */
  lemma TickOrder(ls: LoopState, sw: SwitchHandler.SwitchState, threshold: int, layout: string,
                  encoderPosition: int, level: bool, now: int)
    requires ValidLoop(ls)
    requires SwitchHandler.Step(sw, threshold, level, now).event.Some?
    ensures var mapping := CodeTables(layout);
      var rot := RotationPart(ls, mapping, encoderPosition);
      var r := Tick(ls, sw, threshold, mapping, encoderPosition, level, now);
      && r.sent == rot.sent + ClickPart(rot.loop, mapping, SwitchHandler.Step(sw, threshold, level, now).event).sent
      && |ClickPart(rot.loop, mapping, SwitchHandler.Step(sw, threshold, level, now).event).sent| == 1
      && r.loop.currentCharIndex == rot.loop.currentCharIndex
      && r.loop.lastRotationDirection == None
  {
    var mapping := CodeTables(layout);
    var rot := RotationPart(ls, mapping, encoderPosition);
    CodeTablesSelect(layout, BasicMode.CharList[rot.loop.currentCharIndex]);
  }
}

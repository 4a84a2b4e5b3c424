/**
 * The basic mode: a combination-lock dial over 69 characters. Turning the
 * knob moves the selection; reversing the direction types the character that
 * was selected before the reversal; a click types it, a double click types it
 * with Shift.
 */
module BasicMode {

  import opened Wrappers
  import opened KeyboardMapping
  import opened ModeCore

  /** The dial, in the source's order: letters, digits, then the blank and the punctuation. */
  const Letters: seq<char> := [
    'a', 'b', 'c', 'd', 'e', 'f', 'g', 'h', 'i', 'j', 'k', 'l', 'm',
    'n', 'o', 'p', 'q', 'r', 's', 't', 'u', 'v', 'w', 'x', 'y', 'z']
  const Digits: seq<char> := ['0', '1', '2', '3', '4', '5', '6', '7', '8', '9']
  const Symbols: seq<char> := [
    ' ', '!', '"', '#', '$', '%', '&', '\'', '(', ')', '*', '+', ',', '-', '.', '/',
    ':', ';', '<', '=', '>', '?', '@', '[', '\\', ']', '^', '_', '`', '{', '|', '}', '~']
  const CharList: seq<char> := Letters + Digits + Symbols

  const Name: string := "Basic"

  /** The dial holds exactly the printable ASCII characters other than the capitals. */
  lemma CharListContents(c: char)
    ensures c in CharList <==> ' ' <= c <= '@' || '[' <= c <= '~'
  {
    assert c in CharList <==> c in Letters || c in Digits || c in Symbols;
    LettersContents(c);
    DigitsContents(c);
    SymbolsContents(c);
  }

  /** The letter group is the lower-case range. */
  lemma LettersContents(c: char)
    ensures c in Letters <==> 'a' <= c <= 'z'
  {
  }

  /** The digit group is the digit range. */
  lemma DigitsContents(c: char)
    ensures c in Digits <==> '0' <= c <= '9'
  {
  }

  /** The symbol group is the printable ASCII characters that are neither letters nor digits. */
  lemma SymbolsContents(c: char)
    ensures c in Symbols <==> ' ' <= c <= '/' || ':' <= c <= '@' || '[' <= c <= '`' || '{' <= c <= '~'
  {
  }

  lemma CharListLength()
    ensures |CharList| == 69
  {
  }

  /** Every dial character has a keycode in both layouts. */
  lemma CharListMapped(c: char)
    requires c in CharList
    ensures c in CharToKeycodeUS() && c in CharToKeycodeJIS()
  {
    CharListContents(c);
    TableKeys(c);
  }

  function InitState(): map<string, Value>
  {
    map["char_index" := Int(0)]
  }

  /** The stored dial position, 0 when absent. */
  function CharIndex(state: map<string, Value>): Value
  {
    Get(state, "char_index", Int(0))
  }

  /** The dial position is an index into the dial. */
  predicate ValidState(state: map<string, Value>)
  {
    CharIndex(state).Int? && 0 <= CharIndex(state).i < |CharList|
  }

  /** The selected character. */
  function Selected(state: map<string, Value>): char
    requires ValidState(state)
  {
    CharList[CharIndex(state).i]
  }

  /** The rotation sign: 1 for a positive delta, -1 otherwise. */
  function Sign(delta: int): int
  {
    if delta > 0 then 1 else -1
  }

  /** One rotation by `delta` detents. */
  function Rotation(s: Snapshot, mapping: Mapping, delta: int): (o: Outcome<Value>)
    requires ValidState(s.state)
    ensures ValidState(o.after.state)
  {
    var index := CharIndex(s.state).i;
    var direction := Sign(delta);
    var sent := if s.lastRotationDirection.Some? && direction != s.lastRotationDirection.value
      then Sent(mapping, CharList[index], false) else [];
    Outcome(Snapshot(s.state["char_index" := Int((index + delta) % |CharList|)], Some(direction)), sent, Null)
  }

  /** A click (`useShift` false) or a double click (`useShift` true) on the selected character. */
  function Click(s: Snapshot, mapping: Mapping, useShift: bool): (o: Outcome<Option<string>>)
    requires ValidState(s.state)
    ensures o.after.state == s.state && o.result == None
    ensures o.sent == Sent(mapping, Selected(s.state), useShift)
  {
    var c := Selected(s.state);
    if c in mapping.charToKeycode then
      Outcome(s.(lastRotationDirection := None), Sent(mapping, c, useShift), None)
    else
      Outcome(s, [], None)
  }

  // ---- The handlers, on a mode object ----

  method OnEnter(m: Mode)
    modifies m
    ensures m.Snap() == Snapshot(InitState(), None)
  {
    m.EnterBase(InitState());
  }

  method HandleRotation(m: Mode, delta: int) returns (result: Value)
    requires ValidState(m.state)
    modifies m, m.keyboard
    ensures var o := Rotation(old(m.Snap()), m.mapping, delta);
      m.Snap() == o.after && m.keyboard.log == old(m.keyboard.log) + o.sent && result == o.result
  {
    var charIndex := m.GetState("char_index", Int(0)).i;
    var currentRotationDirection := if delta > 0 then 1 else -1;
    if m.lastRotationDirection.Some? && currentRotationDirection != m.lastRotationDirection.value {
      var selectedChar := CharList[charIndex];
      var ok := m.SendKey(selectedChar, false);
      m.lastRotationDirection := Some(currentRotationDirection);
    } else {
      m.lastRotationDirection := Some(currentRotationDirection);
    }
    charIndex := (charIndex + delta) % |CharList|;
    m.SetState("char_index", Int(charIndex));
    return Null;
  }

  method HandleSingleClick(m: Mode) returns (next: Option<string>)
    requires ValidState(m.state)
    modifies m, m.keyboard
    ensures var o := Click(old(m.Snap()), m.mapping, false);
      m.Snap() == o.after && m.keyboard.log == old(m.keyboard.log) + o.sent && next == o.result
  {
    var selectedChar := CharList[m.GetState("char_index", Int(0)).i];
    var ok := m.SendKey(selectedChar, false);
    if ok {
      m.lastRotationDirection := None;
    }
    return None;
  }

  method HandleDoubleClick(m: Mode) returns (next: Option<string>)
    requires ValidState(m.state)
    modifies m, m.keyboard
    ensures var o := Click(old(m.Snap()), m.mapping, true);
      m.Snap() == o.after && m.keyboard.log == old(m.keyboard.log) + o.sent && next == o.result
  {
    var selectedChar := CharList[m.GetState("char_index", Int(0)).i];
    var ok := m.SendKey(selectedChar, true);
    if ok {
      m.lastRotationDirection := None;
    }
    return None;
  }

  // ---- Properties ----

  /** The initial and the empty state are both valid, with the dial at 'a'. */
  lemma InitStateValid()
    ensures ValidState(InitState()) && Selected(InitState()) == 'a'
    ensures ValidState(map[]) && Selected(map[]) == 'a'
  {
  }

  /**
   * After a rotation the dial has moved by `delta` modulo the dial length,
   * the remembered direction is the rotation's sign, and nothing is returned.
   */
  lemma RotationMovesDial(s: Snapshot, mapping: Mapping, delta: int)
    requires ValidState(s.state)
    ensures var o := Rotation(s, mapping, delta);
      && CharIndex(o.after.state).i == (CharIndex(s.state).i + delta) % 69
      && 0 <= CharIndex(o.after.state).i < 69
      && o.after.lastRotationDirection == Some(if delta > 0 then 1 else -1)
      && o.after.state.Keys == s.state.Keys + {"char_index"}
      && o.result == Null
  {
    CharListLength();
  }

  /** A rotation types a character exactly on a reversal, and then the one selected before it. */
  lemma RotationSendsOnReversalOnly(s: Snapshot, mapping: Mapping, delta: int)
    requires ValidState(s.state)
    ensures var o := Rotation(s, mapping, delta);
      && (s.lastRotationDirection == None ==> o.sent == [])
      && (s.lastRotationDirection == Some(Sign(delta)) ==> o.sent == [])
      && (s.lastRotationDirection.Some? && s.lastRotationDirection != Some(Sign(delta)) ==>
            o.sent == Sent(mapping, Selected(s.state), false))
  {
  }

  /** Under either layout, a reversal sends exactly one report: the previously selected character's keycode. */
  lemma ReversalSendsSelected(s: Snapshot, layout: string, delta: int)
    requires ValidState(s.state)
    requires s.lastRotationDirection.Some? && s.lastRotationDirection.value != Sign(delta)
    ensures var mapping := GetKeycodeMapping(layout);
      var o := Rotation(s, mapping, delta);
      |o.sent| == 1 && o.sent[0].key == mapping.charToKeycode[Selected(s.state)]
  {
    CharListMapped(Selected(s.state));
  }

  /** Turning by a whole number of dial revolutions comes back to the same character. */
  lemma {:induction false} FullTurnKeepsSelection(s: Snapshot, mapping: Mapping, turns: int)
    requires ValidState(s.state)
    ensures Selected(Rotation(s, mapping, turns * 69).after.state) == Selected(s.state)
  {
    var i := CharIndex(s.state).i;
    CharListLength();
    ModAddMultiple(i, turns);
  }

  /** Two rotations move the dial as far as one rotation by their sum. */
  lemma RotationsAdd(s: Snapshot, mapping: Mapping, d1: int, d2: int)
    requires ValidState(s.state)
    ensures var o1 := Rotation(s, mapping, d1);
      CharIndex(Rotation(o1.after, mapping, d2).after.state) == CharIndex(Rotation(s, mapping, d1 + d2).after.state)
  {
    var i := CharIndex(s.state).i;
    CharListLength();
    ModAddMod(i + d1, d2);
  }

  /** Whole revolutions of the dial vanish modulo its length. */
  lemma ModAddMultiple(i: int, k: int)
    requires 0 <= i < 69
    ensures (i + k * 69) % 69 == i
  {
  }

  /** Reducing modulo the dial length before adding changes nothing. */
  lemma ModAddMod(a: int, b: int)
    ensures (a % 69 + b) % 69 == (a + b) % 69
  {
  }

  /**
   * A click or a double click leaves the dial where it is and changes no
   * mode; it forgets the direction exactly when the character was sent.
   */
  lemma ClickKeepsDial(s: Snapshot, mapping: Mapping, useShift: bool)
    requires ValidState(s.state)
    ensures var o := Click(s, mapping, useShift);
      && o.after.state == s.state
      && o.result == None
      && (o.sent != [] <==> Selected(s.state) in mapping.charToKeycode)
      && o.after.lastRotationDirection == (if o.sent != [] then None else s.lastRotationDirection)
  {
  }

  /** Under either layout a click always sends one report and clears the direction. */
  lemma ClickAlwaysSends(s: Snapshot, layout: string, useShift: bool)
    requires ValidState(s.state)
    ensures var o := Click(s, GetKeycodeMapping(layout), useShift);
      |o.sent| == 1 && o.sent[0].shift == (useShift || Selected(s.state) in GetKeycodeMapping(layout).needsShift)
      && o.after.lastRotationDirection == None
  {
    CharListMapped(Selected(s.state));
  }

  /** On a US host a click types the selected character itself. */
  lemma ClickTypesSelectedUS(s: Snapshot)
    requires ValidState(s.state)
    ensures var o := Click(s, MappingUS(), false);
      |o.sent| == 1 && TypedUS(o.sent[0]) == Some(Selected(s.state))
  {
    CharListMapped(Selected(s.state));
    SentTypesCharUS(Selected(s.state));
  }

  /** On a US host a double click on a letter types its capital. */
  lemma DoubleClickTypesCapitalUS(s: Snapshot)
    requires ValidState(s.state) && 'a' <= Selected(s.state) <= 'z'
    ensures var o := Click(s, MappingUS(), true);
      |o.sent| == 1 && TypedUS(o.sent[0]) == Some((Selected(s.state) as int - 32) as char)
  {
    UsShiftedLetterIsCapital(Selected(s.state));
  }
}

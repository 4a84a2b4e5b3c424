/**
 * The Japanese (romaji) mode. Turning left walks the vowel list, turning
 * right the consonant list; turning toward the other list types the
 * character selected on the current one, and a click types it and returns
 * to the neutral state. Typing a consonant resets the vowel list, so the
 * next vowel starts from 'a'.
 */
module JapaneseMode {

  import opened Wrappers
  import opened KeyboardMapping
  import opened ModeCore

  /** The vowels, extended by the digits, walked by left turns. */
  const Vowels: seq<char> := ['a', 'i', 'u', 'e', 'o'] + ['1', '2', '3', '4', '5', '6', '7', '8', '9', '0']

  /** The consonants, extended by punctuation, the blank and newline, walked by right turns. */
  const Consonants: seq<char> := ['k', 's', 't', 'n', 'h', 'm', 'y', 'r', 'w', 'g', 'z', 'd', 'b', 'p']
    + ['.', ',', '-', '/', '!', '?', '@', ' ', '\n']

  const Name: string := "Japanese"

  const VowelSide: string := "vowel"
  const ConsonantSide: string := "consonant"

  lemma ListLengths()
    ensures |Vowels| == 15 && |Consonants| == 23
  {
  }

  /** Every character of both lists has a keycode in both layouts. */
  lemma ListsMapped(c: char)
    requires c in Vowels || c in Consonants
    ensures c in CharToKeycodeUS() && c in CharToKeycodeJIS()
  {
    assert c in Vowels ==> 'a' <= c <= 'u' || '0' <= c <= '9';
    assert c in Consonants ==> 'a' <= c <= 'z' || ' ' <= c <= '@' || c == '\n';
    TableKeys(c);
  }

  function InitState(): map<string, Value>
  {
    map["consonant_index" := Int(0), "vowel_index" := Int(0),
        "active_side" := Str(VowelSide), "is_neutral" := Bool(true)]
  }

  /** All four keys are present, with indices into their lists and a known side. */
  predicate ValidState(st: map<string, Value>)
  {
    && "consonant_index" in st && st["consonant_index"].Int? && 0 <= st["consonant_index"].i < |Consonants|
    && "vowel_index" in st && st["vowel_index"].Int? && 0 <= st["vowel_index"].i < |Vowels|
    && "active_side" in st && st["active_side"] in {Str(VowelSide), Str(ConsonantSide)}
    && "is_neutral" in st && st["is_neutral"].Bool?
  }

  /** The four state entries, as the handlers read them. */
  datatype Fields = Fields(consonantIndex: int, vowelIndex: int, activeSide: Value, isNeutral: bool)

  predicate ValidFields(f: Fields)
  {
    0 <= f.consonantIndex < |Consonants| && 0 <= f.vowelIndex < |Vowels| &&
    f.activeSide in {Str(VowelSide), Str(ConsonantSide)}
  }

  function View(st: map<string, Value>): (f: Fields)
    requires ValidState(st)
    ensures ValidFields(f)
  {
    Fields(st["consonant_index"].i, st["vowel_index"].i, st["active_side"], st["is_neutral"].b)
  }

  function ConsonantIndex(st: map<string, Value>): int requires ValidState(st) { View(st).consonantIndex }
  function VowelIndex(st: map<string, Value>): int requires ValidState(st) { View(st).vowelIndex }
  predicate OnConsonants(st: map<string, Value>) requires ValidState(st) { View(st).activeSide == Str(ConsonantSide) }
  predicate IsNeutral(st: map<string, Value>) requires ValidState(st) { View(st).isNeutral }

  /** The character selected on the active list. */
  function CurrentOf(f: Fields): char
    requires ValidFields(f)
  {
    if f.activeSide == Str(ConsonantSide) then Consonants[f.consonantIndex] else Vowels[f.vowelIndex]
  }

  function Current(st: map<string, Value>): char
    requires ValidState(st)
  {
    CurrentOf(View(st))
  }

  /** The state part of `_set_active_state`: the neutral flag, and the side when one is given. */
  function SetActive(st: map<string, Value>, isNeutral: bool, activeSide: Option<string>): (r: map<string, Value>)
    ensures "is_neutral" in r && r["is_neutral"] == Bool(isNeutral)
    ensures activeSide.Some? && activeSide.value != "" ==> "active_side" in r && r["active_side"] == Str(activeSide.value)
  {
    var st1 := st["is_neutral" := Bool(isNeutral)];
    if activeSide.Some? && activeSide.value != "" then st1["active_side" := Str(activeSide.value)] else st1
  }

  /** `SetActive` touches no entry but the neutral flag and the side. */
  lemma SetActiveKeeps(st: map<string, Value>, isNeutral: bool, activeSide: Option<string>, k: string)
    requires k in st && k != "is_neutral" && k != "active_side"
    ensures k in SetActive(st, isNeutral, activeSide) && SetActive(st, isNeutral, activeSide)[k] == st[k]
  {
  }

  /** The state after entering the mode: initial, neutral, on the first vowel. */
  function EnterState(): (st: map<string, Value>)
    ensures ValidState(st) && View(st) == Fields(0, 0, Str(VowelSide), true)
  {
    SetActive(InitState(), true, None)["vowel_index" := Int(0)]
  }

  /** One rotation by `delta`. */
  function Rotation(s: Snapshot, mapping: Mapping, delta: int): (o: Outcome<Value>)
    requires ValidState(s.state)
    ensures ValidState(o.after.state)
  {
    var st := s.state;
    var currentSide := st["active_side"];
    var c := ConsonantIndex(st);
    var v := VowelIndex(st);
    var targetSide := if delta > 0 then ConsonantSide else VowelSide;
    var switchingSide := Str(targetSide) != currentSide;
    var sent := if !IsNeutral(st) && switchingSide then
      Sent(mapping, if currentSide == Str(ConsonantSide) then Consonants[c] else Vowels[v], false)
    else [];
    var reset := currentSide == Str(ConsonantSide) && targetSide == VowelSide;
    var st1 := if reset then st["vowel_index" := Int(0)] else st;
    var v1 := if reset then 0 else v;
    var st2 :=
      if switchingSide then st1
      else if targetSide == ConsonantSide then st1["consonant_index" := Int((c + 1) % |Consonants|)]
      else st1["vowel_index" := Int((v1 + 1) % |Vowels|)];
    Outcome(Snapshot(SetActive(st2, false, Some(targetSide)), s.lastRotationDirection), sent, Null)
  }

  /** A click (`twice` false) or a double click (`twice` true): type the current character once or twice and go neutral. */
  function Click(s: Snapshot, mapping: Mapping, twice: bool): (o: Outcome<Option<string>>)
    requires ValidState(s.state)
    ensures ValidState(o.after.state)
  {
    var st := s.state;
    var onConsonants := st["active_side"] == Str(ConsonantSide);
    var target := if onConsonants then Consonants[ConsonantIndex(st)] else Vowels[VowelIndex(st)];
    var st1 := if onConsonants then st["vowel_index" := Int(0)] else st;
    var once := Sent(mapping, target, false);
    Outcome(Snapshot(SetActive(st1, true, None), s.lastRotationDirection), if twice then once + once else once, None)
  }

  /** The three characters shown: the selection in the centre and a preview on each side. */
  datatype Hints = Hints(center: char, left: char, right: char)

  function HintsOf(f: Fields): (h: Hints)
    requires ValidFields(f)
    ensures h.center == CurrentOf(f)
  {
    var c := f.consonantIndex;
    var v := f.vowelIndex;
    var onVowels := f.activeSide == Str(VowelSide);
    var center := if onVowels then Vowels[v] else Consonants[c];
    if f.isNeutral then
      Hints(center,
            if onVowels then Vowels[(v + 1) % |Vowels|] else Vowels[v],
            if f.activeSide == Str(ConsonantSide) then Consonants[(c + 1) % |Consonants|] else Consonants[c])
    else if onVowels then
      Hints(center, Vowels[(v + 1) % |Vowels|], Vowels[(v - 1) % |Vowels|])
    else
      Hints(center, Consonants[(c - 1) % |Consonants|], Consonants[(c + 1) % |Consonants|])
  }

  /** The hints the display shows for a state. */
  function DisplayHints(st: map<string, Value>): (h: Hints)
    requires ValidState(st)
    ensures h.center == Current(st)
  {
    HintsOf(View(st))
  }

  // ---- The handlers, on a mode object ----

  /**
   * The state part of `_set_active_state`. Its footer update calls a method
   * that no class defines; that call is treated as doing nothing.
   */
  method SetActiveState(m: Mode, isNeutral: bool, activeSide: Option<string>)
    modifies m
    ensures m.Snap() == old(m.Snap()).(state := SetActive(old(m.state), isNeutral, activeSide))
  {
    m.SetState("is_neutral", Bool(isNeutral));
    if activeSide.Some? && activeSide.value != "" {
      m.SetState("active_side", Str(activeSide.value));
    }
  }

  /** The `reset` flag is accepted and ignored: the state is always reinitialised. */
  method OnEnter(m: Mode, reset: bool)
    modifies m
    ensures m.Snap() == Snapshot(EnterState(), None)
  {
    m.EnterBase(InitState());
    SetActiveState(m, true, None);
    m.SetState("vowel_index", Int(0));
  }

  method HandleRotation(m: Mode, delta: int) returns (result: Value)
    requires ValidState(m.state)
    modifies m, m.keyboard
    ensures var o := Rotation(old(m.Snap()), m.mapping, delta);
      m.Snap() == o.after && m.keyboard.log == old(m.keyboard.log) + o.sent && result == o.result
  {
    var direction := if delta > 0 then 1 else -1;
    var currentSide := m.GetState("active_side", Null);
    var isNeutral := m.GetState("is_neutral", Null).b;
    var cIndex := m.GetState("consonant_index", Null).i;
    var vIndex := m.GetState("vowel_index", Null).i;
    var targetSide := if direction == 1 then ConsonantSide else VowelSide;
    var switchingSide := Str(targetSide) != currentSide;
    if !isNeutral && switchingSide {
      var targetChar;
      if currentSide == Str(ConsonantSide) {
        targetChar := Consonants[cIndex];
      } else {
        targetChar := Vowels[vIndex];
      }
      var ok := m.SendKey(targetChar, false);
    }
    if currentSide == Str(ConsonantSide) && targetSide == VowelSide {
      vIndex := 0;
      m.SetState("vowel_index", Int(vIndex));
    }
    if !switchingSide {
      if targetSide == ConsonantSide {
        cIndex := (cIndex + 1) % |Consonants|;
        m.SetState("consonant_index", Int(cIndex));
      } else {
        vIndex := (vIndex + 1) % |Vowels|;
        m.SetState("vowel_index", Int(vIndex));
      }
    }
    SetActiveState(m, false, Some(targetSide));
    return Null;
  }

  /** The body shared by both click handlers; the double click sends its character twice. */
  method CommitCurrent(m: Mode, twice: bool) returns (next: Option<string>)
    requires ValidState(m.state)
    modifies m, m.keyboard
    ensures var o := Click(old(m.Snap()), m.mapping, twice);
      m.Snap() == o.after && m.keyboard.log == old(m.keyboard.log) + o.sent && next == o.result
  {
    var activeSide := m.GetState("active_side", Null);
    var targetChar;
    if activeSide == Str(ConsonantSide) {
      targetChar := Consonants[m.GetState("consonant_index", Null).i];
      m.SetState("vowel_index", Int(0));
    } else {
      targetChar := Vowels[m.GetState("vowel_index", Null).i];
    }
    var ok := m.SendKey(targetChar, false);
    if twice {
      ok := m.SendKey(targetChar, false);
    }
    SetActiveState(m, true, None);
    return None;
  }

  method HandleSingleClick(m: Mode) returns (next: Option<string>)
    requires ValidState(m.state)
    modifies m, m.keyboard
    ensures var o := Click(old(m.Snap()), m.mapping, false);
      m.Snap() == o.after && m.keyboard.log == old(m.keyboard.log) + o.sent && next == o.result
  {
    next := CommitCurrent(m, false);
  }

  method HandleDoubleClick(m: Mode) returns (next: Option<string>)
    requires ValidState(m.state)
    modifies m, m.keyboard
    ensures var o := Click(old(m.Snap()), m.mapping, true);
      m.Snap() == o.after && m.keyboard.log == old(m.keyboard.log) + o.sent && next == o.result
  {
    next := CommitCurrent(m, true);
  }

  // ---- Properties ----

  /** Entering the mode leaves it valid, neutral, on the vowel side at 'a'. */
  lemma EnterIsNeutral()
    ensures ValidState(EnterState())
    ensures IsNeutral(EnterState()) && VowelIndex(EnterState()) == 0 && !OnConsonants(EnterState())
    ensures Current(EnterState()) == 'a'
  {
  }

  /** After any rotation the mode is active on the side the rotation points at, and nothing is returned. */
  lemma RotationActivatesTarget(s: Snapshot, mapping: Mapping, delta: int)
    requires ValidState(s.state)
    ensures var o := Rotation(s, mapping, delta);
      && !IsNeutral(o.after.state)
      && (OnConsonants(o.after.state) <==> delta > 0)
      && o.after.lastRotationDirection == s.lastRotationDirection
      && o.result == Null
  {
  }

  /**
   * A rotation types exactly when the mode is active and turns toward the
   * other list, and then it types the active list's current character.
   */
  lemma RotationTypesOnSwitch(s: Snapshot, layout: string, delta: int)
    requires ValidState(s.state)
    ensures var o := Rotation(s, GetKeycodeMapping(layout), delta);
      var switching := OnConsonants(s.state) != (delta > 0);
      && (o.sent != [] <==> !IsNeutral(s.state) && switching)
      && (o.sent != [] ==> o.sent == Sent(GetKeycodeMapping(layout), Current(s.state), false) && |o.sent| == 1)
  {
    ListsMapped(Current(s.state));
  }

  /** Turning from the consonants to the vowels always restarts the vowels, neutral or not. */
  lemma ConsonantToVowelResets(s: Snapshot, mapping: Mapping, delta: int)
    requires ValidState(s.state) && OnConsonants(s.state) && delta <= 0
    ensures var after := Rotation(s, mapping, delta).after.state;
      VowelIndex(after) == 0 && Current(after) == 'a' && ConsonantIndex(after) == ConsonantIndex(s.state)
  {
  }

  /**
   * Turning along the active list advances it by exactly one, whatever the
   * size of the turn; turning toward the other list advances neither list.
   */
  lemma RotationStep(s: Snapshot, mapping: Mapping, delta: int)
    requires ValidState(s.state)
    ensures var after := Rotation(s, mapping, delta).after.state;
      && (OnConsonants(s.state) && delta > 0 ==>
            ConsonantIndex(after) == (ConsonantIndex(s.state) + 1) % 23 && VowelIndex(after) == VowelIndex(s.state))
      && (!OnConsonants(s.state) && delta <= 0 ==>
            VowelIndex(after) == (VowelIndex(s.state) + 1) % 15 && ConsonantIndex(after) == ConsonantIndex(s.state))
      && (!OnConsonants(s.state) && delta > 0 ==>
            VowelIndex(after) == VowelIndex(s.state) && ConsonantIndex(after) == ConsonantIndex(s.state))
  {
    ListLengths();
  }

  /**
   * A click types the current character (a double click types it twice),
   * goes neutral on the same side, keeps the consonant, and restarts the
   * vowels after a consonant.
   */
  lemma ClickCommits(s: Snapshot, layout: string, twice: bool)
    requires ValidState(s.state)
    ensures var mapping := GetKeycodeMapping(layout);
      var o := Click(s, mapping, twice);
      && |Sent(mapping, Current(s.state), false)| == 1
      && o.sent == (if twice then Sent(mapping, Current(s.state), false) + Sent(mapping, Current(s.state), false)
                    else Sent(mapping, Current(s.state), false))
      && IsNeutral(o.after.state)
      && OnConsonants(o.after.state) == OnConsonants(s.state)
      && ConsonantIndex(o.after.state) == ConsonantIndex(s.state)
      && VowelIndex(o.after.state) == (if OnConsonants(s.state) then 0 else VowelIndex(s.state))
      && o.result == None
  {
    ListsMapped(Current(s.state));
  }

  /** The centre hint is the character a click would type. */
  lemma CenterIsCurrent(st: map<string, Value>)
    requires ValidState(st)
    ensures DisplayHints(st).center == Current(st)
  {
  }

  /**
   * A state the handlers can leave behind: when it is neutral on the
   * consonants, the vowels have been restarted.
   */
  predicate Settled(st: map<string, Value>)
    requires ValidState(st)
  {
    IsNeutral(st) && OnConsonants(st) ==> VowelIndex(st) == 0
  }

  /** Entering, rotating and clicking all leave a settled state. */
  lemma HandlersSettle(s: Snapshot, mapping: Mapping, delta: int, twice: bool)
    requires ValidState(s.state)
    ensures ValidState(EnterState()) && Settled(EnterState())
    ensures Settled(Rotation(s, mapping, delta).after.state)
    ensures Settled(Click(s, mapping, twice).after.state)
  {
  }

  /** The entries a rotation by `delta` leaves, computed on the entries alone. */
  function RotateFields(f: Fields, delta: int): (g: Fields)
    requires ValidFields(f)
    ensures ValidFields(g) && !g.isNeutral
  {
    var onConsonants := f.activeSide == Str(ConsonantSide);
    if delta > 0 then
      Fields(if onConsonants then (f.consonantIndex + 1) % 23 else f.consonantIndex,
             f.vowelIndex, Str(ConsonantSide), false)
    else
      Fields(f.consonantIndex, if onConsonants then 0 else (f.vowelIndex + 1) % 15, Str(VowelSide), false)
  }

  /** A rotation's effect on the state entries is `RotateFields`. */
  lemma RotationView(s: Snapshot, mapping: Mapping, delta: int)
    requires ValidState(s.state)
    ensures View(Rotation(s, mapping, delta).after.state) == RotateFields(View(s.state), delta)
  {
    ListLengths();
  }

  /**
   * The side hints preview the next rotation: in a settled neutral state
   * the hint on each side is what turning toward that side selects, and in
   * an active state that holds for the side of the active list.
   */
  lemma {:induction false} HintsPreviewRotation(s: Snapshot, mapping: Mapping, delta: int)
    requires ValidState(s.state) && Settled(s.state)
    requires IsNeutral(s.state) || (OnConsonants(s.state) <==> delta > 0)
    ensures var h := DisplayHints(s.state);
      Current(Rotation(s, mapping, delta).after.state) == (if delta > 0 then h.right else h.left)
  {
    RotationView(s, mapping, delta);
    PreviewFields(View(s.state), delta);
  }

  /** The preview property on the entries alone. */
  lemma PreviewFields(f: Fields, delta: int)
    requires ValidFields(f)
    requires f.isNeutral && f.activeSide == Str(ConsonantSide) ==> f.vowelIndex == 0
    requires f.isNeutral || (f.activeSide == Str(ConsonantSide) <==> delta > 0)
    ensures CurrentOf(RotateFields(f, delta)) == (if delta > 0 then HintsOf(f).right else HintsOf(f).left)
  {
    ListLengths();
  }

  /**
   * After a turn along the active list, the hint on the opposite side shows
   * the character that was selected before the turn.
   */
  lemma {:induction false} OppositeHintIsPrevious(s: Snapshot, mapping: Mapping, delta: int)
    requires ValidState(s.state)
    requires OnConsonants(s.state) <==> delta > 0
    ensures var h := DisplayHints(Rotation(s, mapping, delta).after.state);
      (if delta > 0 then h.left else h.right) == Current(s.state)
  {
    RotationView(s, mapping, delta);
    OppositeFields(View(s.state), delta);
  }

  /** The opposite-hint property on the entries alone. */
  lemma OppositeFields(f: Fields, delta: int)
    requires ValidFields(f)
    requires f.activeSide == Str(ConsonantSide) <==> delta > 0
    ensures var h := HintsOf(RotateFields(f, delta));
      (if delta > 0 then h.left else h.right) == CurrentOf(f)
  {
    ListLengths();
    var g := RotateFields(f, delta);
    if delta > 0 {
      assert g.activeSide == Str(ConsonantSide) && g.consonantIndex == (f.consonantIndex + 1) % 23;
      assert (g.consonantIndex - 1) % 23 == f.consonantIndex;
    } else {
      assert g.activeSide == Str(VowelSide) && g.vowelIndex == (f.vowelIndex + 1) % 15;
      assert (g.vowelIndex - 1) % 15 == f.vowelIndex;
    }
  }
}

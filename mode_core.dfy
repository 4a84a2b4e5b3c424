/**
 * The mode framework shared by every input mode: a per-mode key/value state,
 * the remembered rotation direction, and the key sender that looks a
 * character up in the layout's keycode table and shift set.
 */
module ModeCore {

  import opened Wrappers
  import opened KeyboardMapping

  /** The values a mode's state dictionary holds: Python's None, booleans, integers and strings. */
  datatype Value = Null | Bool(b: bool) | Int(i: int) | Str(s: string)

  /** Python truthiness of a stored value. */
  predicate Truthy(v: Value)
  {
    match v
    case Null => false
    case Bool(b) => b
    case Int(i) => i != 0
    case Str(s) => s != ""
  }

  /** Dictionary lookup with a default, as `dict.get`. */
  function Get(state: map<string, Value>, key: string, default: Value): Value
  {
    if key in state then state[key] else default
  }

  /** Reading back a key returns what was written there; every other key keeps its value. */
  lemma GetAfterSet(state: map<string, Value>, key: string, value: Value, other: string, default: Value)
    ensures Get(state[key := value], key, default) == value
    ensures other != key ==> Get(state[key := value], other, default) == Get(state, other, default)
  {
  }

  /** A missing key reads as the default, a present one as its stored value. */
  lemma GetDefault(state: map<string, Value>, key: string, default: Value)
    ensures key !in state ==> Get(state, key, default) == default
    ensures key in state ==> Get(state, key, default) == state[key]
  {
  }

  /** What a handler sees and changes of its mode: the state dictionary and the remembered direction. */
  datatype Snapshot = Snapshot(state: map<string, Value>, lastRotationDirection: Option<int>)

  /** The effect of one handler call: the new snapshot, the key reports sent in order, and the returned value. */
  datatype Outcome<R> = Outcome(after: Snapshot, sent: seq<Report>, result: R)

  /**
   * The report `send_key` sends for `c`: none when `c` has no keycode,
   * otherwise its keycode, with Shift when asked for or when the layout
   * needs it for `c`.
   */
  function KeyReport(mapping: Mapping, c: char, useShift: bool): (r: Option<Report>)
    ensures r.Some? <==> c in mapping.charToKeycode
  {
    if c in mapping.charToKeycode then
      Some(Report(mapping.charToKeycode[c], useShift || c in mapping.needsShift))
    else
      None
  }

  /** The reports `send_key` sends: zero or one. */
  function Sent(mapping: Mapping, c: char, useShift: bool): (s: seq<Report>)
    ensures |s| <= 1
  {
    match KeyReport(mapping, c, useShift)
    case None => []
    case Some(r) => [r]
  }

  /**
   * A mapped character is sent as exactly one report with its own keycode,
   * shifted exactly when Shift was asked for or the layout needs it; an
   * unmapped one sends nothing.
   */
  lemma SentReport(mapping: Mapping, c: char, useShift: bool)
    ensures c !in mapping.charToKeycode ==> Sent(mapping, c, useShift) == []
    ensures c in mapping.charToKeycode ==>
      |Sent(mapping, c, useShift)| == 1 &&
      Sent(mapping, c, useShift)[0].key == mapping.charToKeycode[c] &&
      (Sent(mapping, c, useShift)[0].shift <==> useShift || c in mapping.needsShift)
  {
  }

  /** On a US host, sending a character of the US table without forced Shift types that character. */
  lemma SentTypesCharUS(c: char)
    requires c in CharToKeycodeUS()
    ensures var s := Sent(MappingUS(), c, false); |s| == 1 && TypedUS(s[0]) == Some(c)
  {
    UsRoundTrip(c);
  }

  /** Every table character is sent, whichever layout is selected. */
  lemma SentUnderAnyLayout(layout: string, c: char, useShift: bool)
    requires IsTableChar(c)
    ensures |Sent(GetKeycodeMapping(layout), c, useShift)| == 1
  {
    TableKeys(c);
  }

  /** The USB keyboard: every report sent is appended to its log. */
  class Keyboard {
    var log: seq<Report>

    constructor ()
      ensures log == []
    {
      log := [];
    }

    method Send(r: Report)
      modifies this
      ensures log == old(log) + [r]
    {
      log := log + [r];
    }
  }

  /** Which of the three input modes an object is. */
  datatype Kind = BasicKind | JapaneseKind | UtilityKind

  /** A mode: its name, layout tables and keyboard, and the state it updates in place. */
  class Mode {
    const name: string
    const kind: Kind
    const keyboard: Keyboard
    const mapping: Mapping
    var lastRotationDirection: Option<int>
    var state: map<string, Value>

    constructor (name: string, kind: Kind, keyboard: Keyboard, mapping: Mapping)
      ensures this.name == name && this.kind == kind && this.keyboard == keyboard && this.mapping == mapping
      ensures state == map[] && lastRotationDirection == None
    {
      this.name := name;
      this.kind := kind;
      this.keyboard := keyboard;
      this.mapping := mapping;
      lastRotationDirection := None;
      state := map[];
    }

    /** The mutable part of the mode, as a value. */
    function Snap(): Snapshot
      reads this
    {
      Snapshot(state, lastRotationDirection)
    }

    /** The stored value for `key`, or `default` when there is none. */
    function GetState(key: string, default: Value): (v: Value)
      reads this
      ensures key in state ==> v == state[key]
      ensures key !in state ==> v == default
    {
      Get(state, key, default)
    }

    /** Stores `value` under `key`; nothing else changes. */
    method SetState(key: string, value: Value)
      modifies this
      ensures state == old(state)[key := value]
      ensures lastRotationDirection == old(lastRotationDirection)
    {
      state := state[key := value];
    }

    /**
     * Entering a mode: forgets the rotation direction and replaces the
     * state with `initState`, the mode's own `init_state()`.
     */
    method EnterBase(initState: map<string, Value>)
      modifies this
      ensures Snap() == Snapshot(initState, None)
    {
      lastRotationDirection := None;
      state := initState;
    }

    /** Sends `c` if the layout maps it, and reports whether it did. */
    method SendKey(c: char, useShift: bool) returns (ok: bool)
      modifies keyboard
      ensures ok <==> c in mapping.charToKeycode
      ensures keyboard.log == old(keyboard.log) + Sent(mapping, c, useShift)
    {
      if c in mapping.charToKeycode {
        var keycode := mapping.charToKeycode[c];
        if useShift || c in mapping.needsShift {
          keyboard.Send(Report(keycode, true));
        } else {
          keyboard.Send(Report(keycode, false));
        }
        return true;
      }
      return false;
    }
  }
}

/**
 * The mode manager: a registry of modes by name and a pointer to the
 * current one. Rotations and clicks go to the current mode; a click whose
 * handler names a mode switches to it when that name is registered.
 */
module ModeManager {

  import opened Wrappers
  import opened KeyboardMapping
  import opened ModeCore
  import BasicMode
  import JapaneseMode
  import UtilityMode

  /** The state a mode of `kind` needs before its handlers can run. */
  predicate StateOk(kind: Kind, state: map<string, Value>)
  {
    match kind
    case BasicKind => BasicMode.ValidState(state)
    case JapaneseKind => JapaneseMode.ValidState(state)
    case UtilityKind => UtilityMode.ValidState(state)
  }

  /** The state a mode of `kind` has right after `on_enter`. */
  function EnterStateOf(kind: Kind): (st: map<string, Value>)
    ensures StateOk(kind, st)
  {
    match kind
    case BasicKind => BasicMode.InitState()
    case JapaneseKind => JapaneseMode.EnterState()
    case UtilityKind => UtilityMode.EnterState()
  }

  function RotationOf(kind: Kind, s: Snapshot, mapping: Mapping, delta: int): (o: Outcome<Value>)
    requires StateOk(kind, s.state)
    ensures StateOk(kind, o.after.state)
  {
    match kind
    case BasicKind => BasicMode.Rotation(s, mapping, delta)
    case JapaneseKind => JapaneseMode.Rotation(s, mapping, delta)
    case UtilityKind => UtilityMode.Rotation(s, delta)
  }

  function SingleClickOf(kind: Kind, s: Snapshot, mapping: Mapping): (o: Outcome<Option<string>>)
    requires StateOk(kind, s.state)
    ensures StateOk(kind, o.after.state)
  {
    match kind
    case BasicKind => BasicMode.Click(s, mapping, false)
    case JapaneseKind => JapaneseMode.Click(s, mapping, false)
    case UtilityKind => UtilityMode.SingleClick(s)
  }

  function DoubleClickOf(kind: Kind, s: Snapshot, mapping: Mapping): (o: Outcome<Option<string>>)
    requires StateOk(kind, s.state)
    ensures StateOk(kind, o.after.state)
  {
    match kind
    case BasicKind => BasicMode.Click(s, mapping, true)
    case JapaneseKind => JapaneseMode.Click(s, mapping, true)
    case UtilityKind => Outcome(s, [], Some(UtilityMode.Previous))
  }

  /** A click result asks for a switch when it is a non-empty name. */
  predicate Requests(result: Option<string>)
  {
    result.Some? && result.value != ""
  }

  /** The mode a click result switches to, given the registered names: only a requested, registered name. */
  function NextMode(names: set<string>, result: Option<string>): (next: Option<string>)
    ensures next.Some? <==> Requests(result) && result.value in names
    ensures next.Some? ==> next == result
  {
    if Requests(result) && result.value in names then result else None
  }

  /** The names the device's three modes register under. */
  const StandardNames: set<string> := {BasicMode.Name, JapaneseMode.Name, UtilityMode.Name}

  class ModeManager {
    var modes: map<string, Mode>
    var currentMode: Mode?

    constructor ()
      ensures modes == map[] && currentMode == null
    {
      modes := map[];
      currentMode := null;
    }

    /** Every mode is registered under its own name, and the current mode can handle input. */
    predicate Valid()
      reads this, currentMode
    {
      && (forall n | n in modes :: modes[n].name == n)
      && (currentMode != null ==> StateOk(currentMode.kind, currentMode.state))
    }

    method AddMode(m: Mode)
      requires Valid()
      modifies this
      ensures modes == old(modes)[m.name := m] && currentMode == old(currentMode)
      ensures Valid()
    {
      modes := modes[m.name := m];
    }

    /** `on_enter`, resolved to the mode's own override. */
    static method EnterMode(m: Mode)
      modifies m
      ensures m.Snap() == Snapshot(EnterStateOf(m.kind), None)
    {
      match m.kind {
        case BasicKind => BasicMode.OnEnter(m);
        case JapaneseKind => JapaneseMode.OnEnter(m, false);
        case UtilityKind => UtilityMode.OnEnter(m, true);
      }
    }

    /**
     * Switches to the mode registered as `name` and enters it, even when it
     * is already current; an unknown name changes nothing. Leaving the old
     * mode only clears its display labels, which are not modelled.
     */
    method SetMode(name: string)
      requires Valid()
      modifies this, if name in modes then {modes[name]} else {}
      ensures modes == old(modes)
      ensures name in modes ==>
        currentMode == modes[name] && currentMode.Snap() == Snapshot(EnterStateOf(currentMode.kind), None)
      ensures name !in modes ==> currentMode == old(currentMode)
      ensures Valid()
    {
      if name in modes {
        currentMode := modes[name];
        EnterMode(currentMode);
      }
    }

    method HandleRotation(delta: int) returns (result: Value)
      requires Valid()
      modifies if currentMode != null then {currentMode, currentMode.keyboard} else {}
      ensures currentMode == old(currentMode) && modes == old(modes)
      ensures currentMode == null ==> result == Bool(false)
      ensures currentMode != null ==>
        var o := RotationOf(currentMode.kind, old(currentMode.Snap()), currentMode.mapping, delta);
        currentMode.Snap() == o.after && currentMode.keyboard.log == old(currentMode.keyboard.log) + o.sent &&
        result == o.result
      ensures Valid()
    {
      if currentMode != null {
        var m := currentMode;
        match m.kind {
          case BasicKind => result := BasicMode.HandleRotation(m, delta);
          case JapaneseKind => result := JapaneseMode.HandleRotation(m, delta);
          case UtilityKind => result := UtilityMode.HandleRotation(m, delta);
        }
        return result;
      }
      return Bool(false);
    }

    method HandleSingleClick()
      requires Valid()
      modifies this, modes.Values, if currentMode != null then {currentMode, currentMode.keyboard} else {}
      ensures modes == old(modes)
      ensures old(currentMode) == null ==> currentMode == null
      ensures old(currentMode) != null ==>
        var m := old(currentMode);
        var o := SingleClickOf(m.kind, old(m.Snap()), m.mapping);
        && m.keyboard.log == old(m.keyboard.log) + o.sent
        && (NextMode(modes.Keys, o.result).None? ==> currentMode == m && m.Snap() == o.after)
        && (NextMode(modes.Keys, o.result).Some? ==>
              currentMode == modes[o.result.value] &&
              currentMode.Snap() == Snapshot(EnterStateOf(currentMode.kind), None))
      ensures old(currentMode) != null && currentMode != old(currentMode) ==>
        var m := old(currentMode);
        m.Snap() == SingleClickOf(m.kind, old(m.Snap()), m.mapping).after
      ensures forall x | x in old(modes.Values) && x != old(currentMode) && x != currentMode :: x.Snap() == old(x.Snap())
      ensures Valid()
    {
      if currentMode != null {
        var m := currentMode;
        var next: Option<string>;
        match m.kind {
          case BasicKind => next := BasicMode.HandleSingleClick(m);
          case JapaneseKind => next := JapaneseMode.HandleSingleClick(m);
          case UtilityKind => next := UtilityMode.HandleSingleClick(m);
        }
        if next.Some? && next.value != "" {
          SetMode(next.value);
        }
      }
    }

    method HandleDoubleClick()
      requires Valid()
      modifies this, modes.Values, if currentMode != null then {currentMode, currentMode.keyboard} else {}
      ensures modes == old(modes)
      ensures old(currentMode) == null ==> currentMode == null
      ensures old(currentMode) != null ==>
        var m := old(currentMode);
        var o := DoubleClickOf(m.kind, old(m.Snap()), m.mapping);
        && m.keyboard.log == old(m.keyboard.log) + o.sent
        && (NextMode(modes.Keys, o.result).None? ==> currentMode == m && m.Snap() == o.after)
        && (NextMode(modes.Keys, o.result).Some? ==>
              currentMode == modes[o.result.value] &&
              currentMode.Snap() == Snapshot(EnterStateOf(currentMode.kind), None))
      ensures old(currentMode) != null && currentMode != old(currentMode) ==>
        var m := old(currentMode);
        m.Snap() == DoubleClickOf(m.kind, old(m.Snap()), m.mapping).after
      ensures forall x | x in old(modes.Values) && x != old(currentMode) && x != currentMode :: x.Snap() == old(x.Snap())
      ensures Valid()
    {
      if currentMode != null {
        var m := currentMode;
        var next: Option<string>;
        match m.kind {
          case BasicKind => next := BasicMode.HandleDoubleClick(m);
          case JapaneseKind => next := JapaneseMode.HandleDoubleClick(m);
          case UtilityKind => next := UtilityMode.HandleDoubleClick(m);
        }
        if next.Some? && next.value != "" {
          SetMode(next.value);
        }
      }
    }
  }

  // ---- Properties of the dispatch ----

  /** Clicks in the basic and Japanese modes never switch modes. */
  lemma InputModesStay(kind: Kind, s: Snapshot, mapping: Mapping, names: set<string>)
    requires kind != UtilityKind && StateOk(kind, s.state)
    ensures NextMode(names, SingleClickOf(kind, s, mapping).result) == None
    ensures NextMode(names, DoubleClickOf(kind, s, mapping).result) == None
  {
  }

  /**
   * The utility mode's request for the previous mode names no registered
   * mode, so its double click, its early click and its reverse turn leave
   * the device in the utility mode.
   */
  lemma PreviousIsNoMode(s: Snapshot, mapping: Mapping)
    requires UtilityMode.ValidState(s.state)
    ensures UtilityMode.Previous !in StandardNames
    ensures NextMode(StandardNames, DoubleClickOf(UtilityKind, s, mapping).result) == None
    ensures !Truthy(Get(s.state, "rotated_since_enter", Null)) ==>
      NextMode(StandardNames, SingleClickOf(UtilityKind, s, mapping).result) == None
  {
  }

  /** A click in the utility menu switches to the selected entry, which is always a registered mode. */
  lemma MenuClickSwitches(s: Snapshot, mapping: Mapping)
    requires UtilityMode.ValidState(s.state)
    requires Truthy(Get(s.state, "rotated_since_enter", Null))
    requires Get(s.state, "sub_mode", Null) == Str(UtilityMode.MenuSub)
    ensures var item := UtilityMode.MenuItems[s.state["selected_menu_index"].i];
      item in StandardNames &&
      NextMode(StandardNames, SingleClickOf(UtilityKind, s, mapping).result) == Some(item)
  {
  }
}

/**
 * The utility mode. Turning right types Space and turning left Backspace;
 * turning back the other way requests the previous mode (typing Enter first
 * when the last action was Space), a request the manager ignores. A click
 * before any turn also requests the previous mode, which names no registered
 * mode. A long-press handler, which nothing ever calls, opens a menu whose
 * entries name the other modes; a click there picks one.
 */
module UtilityMode {

  import opened Wrappers
  import opened KeyboardMapping
  import opened ModeCore

  const Name: string := "Utility"

  /** The mode name handlers return to ask for the previous mode. */
  const Previous: string := "__PREVIOUS__"

  const MenuItems: seq<string> := ["Basic", "Japanese"]

  const Backspace: string := "BS"
  const Space: string := "SP"
  const ActionSub: string := "action"
  const MenuSub: string := "menu"

  /** The mode is built without keycode tables; it sends its keys directly. */
  function Tables(): Mapping
  {
    Mapping(map[], {})
  }

  function InitState(): map<string, Value>
  {
    map["current_action" := Null, "rotated_since_enter" := Bool(false), "sub_mode" := Str(ActionSub),
        "selected_menu_index" := Int(0), "last_action_direction" := Null]
  }

  /** The menu index is stored and points into the menu. */
  predicate ValidState(st: map<string, Value>)
  {
    "selected_menu_index" in st && st["selected_menu_index"].Int? && 0 <= st["selected_menu_index"].i < |MenuItems|
  }

  /** The state after entering the mode. */
  function EnterState(): map<string, Value>
  {
    InitState()["rotated_since_enter" := Bool(false)]["sub_mode" := Str(ActionSub)]["last_action_direction" := Null]
  }

  /** The reports `_execute_action` sends for an action name. */
  function ActionReports(action: string): seq<Report>
  {
    if action == Backspace then [Report(BACKSPACE, false)]
    else if action == Space then [Report(SPACE, false)]
    else []
  }

  /** One rotation by `delta`. */
  function Rotation(s: Snapshot, delta: int): (o: Outcome<Value>)
    requires ValidState(s.state)
    ensures ValidState(o.after.state)
  {
    var st := s.state["rotated_since_enter" := Bool(true)];
    var subMode := Get(st, "sub_mode", Null);
    if subMode == Str(ActionSub) then
      var direction := if delta > 0 then Space else Backspace;
      var lastActionDirection := Get(st, "last_action_direction", Null);
      if lastActionDirection != Null && lastActionDirection != Str(direction) then
        var sent := if Get(st, "last_action_direction", Null) == Str(Space) then [Report(ENTER, false)] else [];
        Outcome(s.(state := st["current_action" := Null]["last_action_direction" := Null]), sent, Str(Previous))
      else
        var st1 := st["current_action" := Str(direction)];
        Outcome(s.(state := st1["last_action_direction" := Str(direction)]), ActionReports(direction), Null)
    else if subMode == Str(MenuSub) then
      var index := (st["selected_menu_index"].i + delta) % |MenuItems|;
      Outcome(s.(state := st["selected_menu_index" := Int(index)]), [], Null)
    else
      Outcome(s.(state := st), [], Null)
  }

  /** A single click. */
  function SingleClick(s: Snapshot): (o: Outcome<Option<string>>)
    requires ValidState(s.state)
    ensures o.after == s && |o.sent| <= 1
    ensures o.result.Some? ==> o.result.value == Previous || o.result.value in MenuItems
  {
    var st := s.state;
    if !Truthy(Get(st, "rotated_since_enter", Null)) then
      Outcome(s, [], Some(Previous))
    else
      var subMode := Get(st, "sub_mode", Null);
      if subMode == Str(ActionSub) then
        var currentAction := Get(st, "current_action", Null);
        var sent := if currentAction == Str(Space) then [Report(ENTER, false)]
          else if currentAction == Str(Backspace) then [Report(BACKSPACE, false)]
          else [];
        Outcome(s, sent, None)
      else if subMode == Str(MenuSub) then
        Outcome(s, [], Some(MenuItems[st["selected_menu_index"].i]))
      else
        Outcome(s, [], None)
  }

  // ---- The handlers, on a mode object ----

  /** The `reset` flag is accepted and ignored: the state is always reinitialised. */
  method OnEnter(m: Mode, reset: bool)
    modifies m
    ensures m.Snap() == Snapshot(EnterState(), None)
  {
    m.EnterBase(InitState());
    m.SetState("rotated_since_enter", Bool(false));
    m.SetState("sub_mode", Str(ActionSub));
    m.SetState("last_action_direction", Null);
  }

  method ExecuteAction(m: Mode, action: string)
    modifies m.keyboard
    ensures m.keyboard.log == old(m.keyboard.log) + ActionReports(action)
  {
    if action == Backspace {
      m.keyboard.Send(Report(BACKSPACE, false));
    } else if action == Space {
      m.keyboard.Send(Report(SPACE, false));
    }
  }

  method HandleRotation(m: Mode, delta: int) returns (result: Value)
    requires ValidState(m.state)
    modifies m, m.keyboard
    ensures var o := Rotation(old(m.Snap()), delta);
      m.Snap() == o.after && m.keyboard.log == old(m.keyboard.log) + o.sent && result == o.result
  {
    m.SetState("rotated_since_enter", Bool(true));
    var subMode := m.GetState("sub_mode", Null);
    if subMode == Str(ActionSub) {
      var direction := if delta > 0 then Space else Backspace;
      var lastActionDirection := m.GetState("last_action_direction", Null);
      if lastActionDirection != Null && lastActionDirection != Str(direction) {
        if m.GetState("last_action_direction", Null) == Str(Space) {
          m.keyboard.Send(Report(ENTER, false));
        }
        m.SetState("current_action", Null);
        m.SetState("last_action_direction", Null);
        return Str(Previous);
      }
      m.SetState("current_action", Str(direction));
      ExecuteAction(m, direction);
      m.SetState("last_action_direction", Str(direction));
    } else if subMode == Str(MenuSub) {
      var index := m.GetState("selected_menu_index", Null).i;
      index := (index + delta) % |MenuItems|;
      m.SetState("selected_menu_index", Int(index));
    }
    return Null;
  }

  method HandleSingleClick(m: Mode) returns (next: Option<string>)
    requires ValidState(m.state)
    modifies m.keyboard
    ensures var o := SingleClick(old(m.Snap()));
      m.Snap() == o.after && m.keyboard.log == old(m.keyboard.log) + o.sent && next == o.result
  {
    if !Truthy(m.GetState("rotated_since_enter", Null)) {
      return Some(Previous);
    }
    var subMode := m.GetState("sub_mode", Null);
    if subMode == Str(ActionSub) {
      var currentAction := m.GetState("current_action", Null);
      if currentAction == Str(Space) {
        m.keyboard.Send(Report(ENTER, false));
      } else if currentAction == Str(Backspace) {
        m.keyboard.Send(Report(BACKSPACE, false));
      }
      return None;
    } else if subMode == Str(MenuSub) {
      var index := m.GetState("selected_menu_index", Null).i;
      return Some(MenuItems[index]);
    }
    return None;
  }

  method HandleLongPress(m: Mode) returns (next: Option<string>)
    modifies m
    ensures m.Snap() == old(m.Snap()).(state := old(m.state)["sub_mode" := Str(MenuSub)])
    ensures next == None
  {
    m.SetState("sub_mode", Str(MenuSub));
    return None;
  }

  method HandleDoubleClick(m: Mode) returns (next: Option<string>)
    ensures next == Some(Previous)
  {
    return Some(Previous);
  }

  // ---- Properties ----

  /** Entering the mode starts in the action sub-mode with no turn seen and no last action. */
  lemma EnterResets()
    ensures ValidState(EnterState())
    ensures Get(EnterState(), "rotated_since_enter", Null) == Bool(false)
    ensures Get(EnterState(), "sub_mode", Null) == Str(ActionSub)
    ensures Get(EnterState(), "last_action_direction", Null) == Null
    ensures Get(EnterState(), "current_action", Null) == Null
    ensures EnterState() == InitState()
  {
  }

  /** Every rotation records that the knob has turned, and never touches the rotation direction field. */
  lemma RotationMarksTurned(s: Snapshot, delta: int)
    requires ValidState(s.state)
    ensures var o := Rotation(s, delta);
      Get(o.after.state, "rotated_since_enter", Null) == Bool(true) &&
      o.after.lastRotationDirection == s.lastRotationDirection
  {
  }

  /**
   * In the action sub-mode a first turn, or a turn the same way as the last,
   * types Space (right) or Backspace (left) once and records it.
   */
  lemma ActionTurnTypes(s: Snapshot, delta: int)
    requires ValidState(s.state) && Get(s.state, "sub_mode", Null) == Str(ActionSub)
    requires var last := Get(s.state, "last_action_direction", Null);
      last == Null || last == Str(if delta > 0 then Space else Backspace)
    ensures var o := Rotation(s, delta);
      var action := if delta > 0 then Space else Backspace;
      && o.sent == [Report(if delta > 0 then SPACE else BACKSPACE, false)]
      && Get(o.after.state, "current_action", Null) == Str(action)
      && Get(o.after.state, "last_action_direction", Null) == Str(action)
      && o.result == Null
  {
  }

  /**
   * In the action sub-mode a turn against the last action asks for the
   * previous mode, types Enter only after Space, performs no action, and
   * clears both the current and the last action.
   */
  lemma ReverseTurnLeaves(s: Snapshot, delta: int)
    requires ValidState(s.state) && Get(s.state, "sub_mode", Null) == Str(ActionSub)
    requires var last := Get(s.state, "last_action_direction", Null);
      last != Null && last != Str(if delta > 0 then Space else Backspace)
    ensures var o := Rotation(s, delta);
      && o.sent == (if Get(s.state, "last_action_direction", Null) == Str(Space) then [Report(ENTER, false)] else [])
      && Get(o.after.state, "current_action", Null) == Null
      && Get(o.after.state, "last_action_direction", Null) == Null
      && o.result == Str(Previous)
  {
  }

  /** In the menu a turn moves the selection by `delta` around the two entries and types nothing. */
  lemma MenuTurnMoves(s: Snapshot, delta: int)
    requires ValidState(s.state) && Get(s.state, "sub_mode", Null) == Str(MenuSub)
    ensures var o := Rotation(s, delta);
      && o.after.state["selected_menu_index"] == Int((s.state["selected_menu_index"].i + delta) % 2)
      && o.sent == [] && o.result == Null
  {
  }

  /** A click before any turn asks for the previous mode, whatever the sub-mode, and changes nothing. */
  lemma ClickBeforeTurnLeaves(s: Snapshot)
    requires ValidState(s.state) && !Truthy(Get(s.state, "rotated_since_enter", Null))
    ensures SingleClick(s) == Outcome(s, [], Some(Previous))
  {
  }

  /**
   * A click after a turn: in the action sub-mode it types Enter after Space,
   * Backspace after Backspace and nothing otherwise, staying in the mode; in
   * the menu it picks the selected entry.
   */
  lemma ClickAfterTurn(s: Snapshot)
    requires ValidState(s.state) && Truthy(Get(s.state, "rotated_since_enter", Null))
    ensures var o := SingleClick(s);
      var action := Get(s.state, "current_action", Null);
      && o.after == s
      && (Get(s.state, "sub_mode", Null) == Str(ActionSub) ==>
            o.result == None &&
            o.sent == (if action == Str(Space) then [Report(ENTER, false)]
                       else if action == Str(Backspace) then [Report(BACKSPACE, false)] else []))
      && (Get(s.state, "sub_mode", Null) == Str(MenuSub) ==>
            o.sent == [] && o.result == Some(MenuItems[s.state["selected_menu_index"].i]))
  {
  }

  /**
   * Opening the menu with a long press, turning by `delta` and clicking picks
   * the entry `delta` steps from the stored one.
   */
  lemma {:induction false} MenuPicksTurnedEntry(st: map<string, Value>, delta: int)
    requires ValidState(st)
    ensures var menu := Snapshot(st["sub_mode" := Str(MenuSub)], None);
      var turned := Rotation(menu, delta).after;
      SingleClick(turned).result == Some(MenuItems[(st["selected_menu_index"].i + delta) % 2])
  {
    var menu := Snapshot(st["sub_mode" := Str(MenuSub)], None);
    MenuTurnMoves(menu, delta);
    RotationMarksTurned(menu, delta);
  }

  /**
   * Entering, turning right twice and then left types Space, Space and Enter,
   * and the last turn asks for the previous mode.
   */
  lemma SpaceSpaceThenBack()
    ensures var s0 := Snapshot(EnterState(), None);
      var o1 := Rotation(s0, 1);
      var o2 := Rotation(o1.after, 1);
      var o3 := Rotation(o2.after, -1);
      o1.sent + o2.sent + o3.sent == [Report(SPACE, false), Report(SPACE, false), Report(ENTER, false)]
      && o3.result == Str(Previous)
  {
  }
}

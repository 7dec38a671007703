/**
 * Named controls: each name is bound to a key, a mouse button or nothing, and
 * carries a four-valued state that a once-per-frame poll of the input refreshes.
 */
module Controls {

  datatype KeyCode = W | S | A | D | OtherKey(code: nat)

  datatype MouseButton = Left | Right | Middle | OtherButton(code: nat)

  datatype Bind = Key(key: KeyCode) | Mouse(button: MouseButton) | NoBind

  /** `Not`: idle; `OnceRun`: pressed this frame; `Run`: held; `ReleaseRun`: released this frame. */
  datatype IsRun = Not | ReleaseRun | Run | OnceRun

  /** A control: its state as of the last poll and what it is bound to. */
  datatype Control = Control(state: IsRun, bind: Bind)

  /** The input of one frame for one kind of device: what is down, what went down, what came up. */
  datatype Input<T> = Input(pressed: set<T>, justPressed: set<T>, justReleased: set<T>)

  /** The state a poll gives a bound control: a press this frame wins over a hold, a hold over a release. */
  function Poll<T>(input: Input<T>, code: T): (s: IsRun)
    ensures s == OnceRun <==> code in input.justPressed
    ensures s == Run <==> code !in input.justPressed && code in input.pressed
    ensures s == ReleaseRun <==> code !in input.justPressed && code !in input.pressed && code in input.justReleased
    ensures s == Not <==> code !in input.justPressed && code !in input.pressed && code !in input.justReleased
  {
    if code in input.justPressed then OnceRun
    else if code in input.pressed then Run
    else if code in input.justReleased then ReleaseRun
    else Not
  }

  /** One control after a poll: a key or button control takes the state its input gives; an unbound one keeps its state. */
  function Refresh(c: Control, keys: Input<KeyCode>, buttons: Input<MouseButton>): (r: Control)
    ensures r.bind == c.bind
    ensures c.bind.Key? ==> r.state == Poll(keys, c.bind.key)
    ensures c.bind.Mouse? ==> r.state == Poll(buttons, c.bind.button)
    ensures c.bind.NoBind? ==> r.state == c.state
  {
    match c.bind
    case Key(code) => Control(Poll(keys, code), c.bind)
    case Mouse(code) => Control(Poll(buttons, code), c.bind)
    case NoBind => c
  }

  /** Every control after a poll. */
  function Frame(binds: map<string, Control>, keys: Input<KeyCode>, buttons: Input<MouseButton>): (r: map<string, Control>)
    ensures r.Keys == binds.Keys
  {
    map k | k in binds :: Refresh(binds[k], keys, buttons)
  }

  /** `set`: the control gets the bind; an unknown name is registered with state `Not` on the way. */
  function WithBind(binds: map<string, Control>, name: string, bind: Bind): (r: map<string, Control>)
    ensures r.Keys == binds.Keys + {name}
    ensures r[name].bind == bind
    ensures r[name].state == if name in binds then binds[name].state else Not
  {
    binds[name := Control(if name in binds then binds[name].state else Not, bind)]
  }

  /** The binds `setup_controls` installs: W, S, A and D for moving up, down, left and right. */
  function WithMovementBinds(binds: map<string, Control>): (r: map<string, Control>)
    ensures r.Keys == binds.Keys + {"move_up", "move_down", "move_left", "move_right"}
  {
    WithBind(WithBind(WithBind(WithBind(binds, "move_up", Key(W)), "move_down", Key(S)), "move_left", Key(A)), "move_right", Key(D))
  }

  /** `ControlBinds`: the named controls. */
  class ControlBinds {
    var binds: map<string, Control>

    /** The default resource: no controls. */
    constructor ()
      ensures binds == map[]
    {
      binds := map[];
    }

    /** `register`: the name gets a fresh, unbound, idle control, replacing any it had. */
    method Register(name: string)
      modifies this
      ensures binds == old(binds)[name := Control(Not, NoBind)]
    {
      binds := binds[name := Control(Not, NoBind)];
    }

    method Set(name: string, bind: Bind)
      modifies this
      ensures binds == WithBind(old(binds), name, bind)
    {
      if name in binds {
        binds := binds[name := Control(binds[name].state, bind)];
      } else {
        binds := binds[name := Control(Not, bind)];
      }
    }

    /** `is_pressed`: a registered control in any state but `Not`; an unknown name is never pressed. */
    function IsPressed(name: string): (b: bool)
      reads this
      ensures b <==> name in binds && binds[name].state != Not
    {
      if name in binds then !binds[name].state.Not? else false
    }

    function IsJustPressed(name: string): (b: bool)
      reads this
      ensures b <==> name in binds && binds[name].state == OnceRun
    {
      if name in binds then binds[name].state.OnceRun? else false
    }

    function IsJustReleased(name: string): (b: bool)
      reads this
      ensures b <==> name in binds && binds[name].state == ReleaseRun
    {
      if name in binds then binds[name].state.ReleaseRun? else false
    }

    /** `check_controls`: every control is refreshed from this frame's input, one entry at a time. */
    method CheckControls(keys: Input<KeyCode>, buttons: Input<MouseButton>)
      modifies this
      ensures binds == Frame(old(binds), keys, buttons)
    {
      ghost var before := binds;
      var rest := binds.Keys;
      while rest != {}
        invariant rest <= before.Keys && binds.Keys == before.Keys
        invariant forall k :: k in before ==> binds[k] == if k in rest then before[k] else Refresh(before[k], keys, buttons)
        decreases |rest|
      {
        var k :| k in rest;
        var c := binds[k];
        match c.bind {
          case Key(code) =>
            if code in keys.justPressed {
              c := c.(state := OnceRun);
            } else if code in keys.pressed {
              c := c.(state := Run);
            } else if code in keys.justReleased {
              c := c.(state := ReleaseRun);
            } else {
              c := c.(state := Not);
            }
          case Mouse(code) =>
            if code in buttons.justPressed {
              c := c.(state := OnceRun);
            } else if code in buttons.pressed {
              c := c.(state := Run);
            } else if code in buttons.justReleased {
              c := c.(state := ReleaseRun);
            } else {
              c := c.(state := Not);
            }
          case NoBind =>
        }
        binds := binds[k := c];
        rest := rest - {k};
      }
    }
  }

  /** `setup_controls`. */
  method SetupControls(c: ControlBinds)
    modifies c
    ensures c.binds == WithMovementBinds(old(c.binds))
  {
    c.Set("move_up", Key(W));
    c.Set("move_down", Key(S));
    c.Set("move_left", Key(A));
    c.Set("move_right", Key(D));
  }

  // ---------------------------------------------------------------------------
  // Properties

  /** A poll keeps the set of controls and every bind; an unbound control keeps its state too. */
  lemma FrameKeepsBinds(binds: map<string, Control>, keys: Input<KeyCode>, buttons: Input<MouseButton>)
    ensures Frame(binds, keys, buttons).Keys == binds.Keys
    ensures forall k :: k in binds ==> Frame(binds, keys, buttons)[k].bind == binds[k].bind
    ensures forall k :: k in binds && binds[k].bind.NoBind? ==> Frame(binds, keys, buttons)[k] == binds[k]
  {
  }

  /**
   * After a poll, the queries on a control bound to a key read that key's input:
   * pressed while the key is down, went down or came up this frame (a release frame
   * still counts as pressed), just pressed on the press frame, just released only
   * when the key came up without going down again or being held.
   */
  lemma QueriesAfterFrame(c: ControlBinds, before: map<string, Control>, keys: Input<KeyCode>, buttons: Input<MouseButton>,
                          name: string, code: KeyCode)
    requires c.binds == Frame(before, keys, buttons)
    requires name in before && before[name].bind == Key(code)
    ensures c.IsPressed(name) <==> code in keys.justPressed || code in keys.pressed || code in keys.justReleased
    ensures c.IsJustPressed(name) <==> code in keys.justPressed
    ensures c.IsJustReleased(name) <==> code in keys.justReleased && code !in keys.pressed && code !in keys.justPressed
  {
    assert c.binds[name] == Control(Poll(keys, code), Key(code));
  }

  /** The state after a poll depends only on the binds and the input, not on the states before it. */
  lemma FrameForgetsStates(b1: map<string, Control>, b2: map<string, Control>, keys: Input<KeyCode>, buttons: Input<MouseButton>)
    requires b1.Keys == b2.Keys
    requires forall k :: k in b1 ==> b1[k].bind == b2[k].bind && (b1[k].bind.NoBind? ==> b1[k].state == b2[k].state)
    ensures Frame(b1, keys, buttons) == Frame(b2, keys, buttons)
  {
    assert forall k :: k in b1 ==> Refresh(b1[k], keys, buttons) == Refresh(b2[k], keys, buttons);
  }

  /** Polling the same input twice is polling it once. */
  lemma FrameIdempotent(binds: map<string, Control>, keys: Input<KeyCode>, buttons: Input<MouseButton>)
    ensures Frame(Frame(binds, keys, buttons), keys, buttons) == Frame(binds, keys, buttons)
  {
    FrameForgetsStates(Frame(binds, keys, buttons), binds, keys, buttons);
  }

  /**
   * `setup_controls` binds the four movement controls to their keys, keeping the
   * state of a control already registered, and leaves every other control as it was.
   */
  lemma MovementBinds(binds: map<string, Control>)
    ensures WithMovementBinds(binds).Keys == binds.Keys + {"move_up", "move_down", "move_left", "move_right"}
    ensures WithMovementBinds(binds)["move_up"].bind == Key(W)
    ensures WithMovementBinds(binds)["move_down"].bind == Key(S)
    ensures WithMovementBinds(binds)["move_left"].bind == Key(A)
    ensures WithMovementBinds(binds)["move_right"].bind == Key(D)
    ensures forall k :: k in binds ==> WithMovementBinds(binds)[k].state == binds[k].state
    ensures forall k :: k in binds && k !in {"move_up", "move_down", "move_left", "move_right"} ==> WithMovementBinds(binds)[k] == binds[k]
  {
  }

  /** From the empty default resource, setup gives exactly four idle controls. */
  lemma SetupFromEmpty()
    ensures WithMovementBinds(map[]) == map["move_up" := Control(Not, Key(W)), "move_down" := Control(Not, Key(S)),
                                            "move_left" := Control(Not, Key(A)), "move_right" := Control(Not, Key(D))]
  {
  }
}

/**
  * The emulated controller the proxy drives, and the proxy's event loop.
  *
  * The controller's own mutators are not part of this model; they are taken to
  * store a stick coordinate as given (`set_h`, `set_v`) and to add a button to,
  * or remove it from, the set of held buttons (`button_press`, `button_release`).
  */
module Controller {
  import opened Wrappers
  import opened Mapping
  import opened Translation

  /** The observable state of the emulated controller: four stick coordinates and the held buttons. */
  datatype Snapshot<V> = Snapshot(lh: V, lv: V, rh: V, rv: V, held: set<Button>)
  {
    /** The coordinate that `set_h` / `set_v` on the given stick writes. */
    function Stick(side: Side, dir: Direction): V {
      match (side, dir)
      case (Left, Horizontal) => lh
      case (Left, Vertical) => lv
      case (Right, Horizontal) => rh
      case (Right, Vertical) => rv
    }
  }

  /** The stick coordinate an operation writes, if it writes one. */
  function Target<V>(op: Op<V>): Option<(Side, Direction)> {
    match op
    case SetH(side, _) => Some((side, Horizontal))
    case SetV(side, _) => Some((side, Vertical))
    case _ => None
  }

  /** The effect of one controller operation. */
  function Apply<V>(s: Snapshot<V>, op: Op<V>): (t: Snapshot<V>)
    ensures op.IsStick() ==> t.held == s.held
    ensures op.IsStick() ==> forall side, dir ::
              t.Stick(side, dir) == if Target(op) == Some((side, dir)) then op.value else s.Stick(side, dir)
    ensures op.Press? ==> t == s.(held := s.held + {op.button})
    ensures op.Release? ==> t == s.(held := s.held - {op.button})
  {
    match op
    case SetH(Left, v) => s.(lh := v)
    case SetH(Right, v) => s.(rh := v)
    case SetV(Left, v) => s.(lv := v)
    case SetV(Right, v) => s.(rv := v)
    case Press(b) => s.(held := s.held + {b})
    case Release(b) => s.(held := s.held - {b})
  }

  /** The effect of a sequence of operations, applied in order. */
  function Run<V>(s: Snapshot<V>, ops: seq<Op<V>>): Snapshot<V>
    decreases |ops|
  {
    if ops == [] then s else Run(Apply(s, ops[0]), ops[1..])
  }

  lemma {:induction false} RunAppend<V>(s: Snapshot<V>, a: seq<Op<V>>, b: seq<Op<V>>)
    ensures Run(s, a + b) == Run(Run(s, a), b)
    decreases |a|
  {
    if a != [] {
      assert (a + b)[1..] == a[1..] + b;
      RunAppend(Apply(s, a[0]), a[1..], b);
    } else {
      assert a + b == b;
    }
  }

  /** Handling one more batch extends the trace, and the state, by that batch's operations. */
  lemma {:induction false} BatchAfterBatch<V>(s: Snapshot<V>, done: seq<Event<V>>, batch: seq<Event<V>>)
    ensures Trace(done + batch) == Trace(done) + Trace(batch)
    ensures Run(s, Trace(done + batch)) == Run(Run(s, Trace(done)), Trace(batch))
  {
    TraceAppend(done, batch);
    RunAppend(s, Trace(done), Trace(batch));
  }

  /** Handling poll n after the first n polls: the trace and the state move on by that poll's batch. */
  lemma {:induction false} NextPoll<V>(s: Snapshot<V>, polls: seq<seq<Event<V>>>, n: nat)
    requires n < |polls|
    ensures Trace(Flatten(polls[..n+1])) == Trace(Flatten(polls[..n])) + Trace(polls[n])
    ensures Run(s, Trace(Flatten(polls[..n+1]))) == Run(Run(s, Trace(Flatten(polls[..n]))), Trace(polls[n]))
  {
    FlattenPrefixStep(polls, n);
    BatchAfterBatch(s, Flatten(polls[..n]), polls[n]);
  }

  /** Stick operations never change which buttons are held. */
  lemma {:induction false} SticksKeepHeld<V>(s: Snapshot<V>, ops: seq<Op<V>>)
    requires forall op | op in ops :: op.IsStick()
    ensures Run(s, ops).held == s.held
    decreases |ops|
  {
    if ops != [] {
      SticksKeepHeld(Apply(s, ops[0]), ops[1..]);
    }
  }

  /** Button operations never change a stick coordinate. */
  lemma {:induction false} ButtonsKeepSticks<V>(s: Snapshot<V>, ops: seq<Op<V>>)
    requires forall op | op in ops :: !op.IsStick()
    ensures Run(s, ops).(held := s.held) == s
    decreases |ops|
  {
    if ops != [] {
      ButtonsKeepSticks(Apply(s, ops[0]), ops[1..]);
      assert ops[0] in ops;
      assert Apply(s, ops[0]).(held := s.held) == s;
    }
  }

  /** A batch of axis events leaves the held buttons alone. */
  lemma {:induction false} AxisBatchKeepsHeld<V>(s: Snapshot<V>, es: seq<Event<V>>)
    requires forall k | 0 <= k < |es| :: es[k].AxisMotion?
    ensures Run(s, Trace(es)).held == s.held
  {
    AxisBatchOnlyMovesSticks(es);
    SticksKeepHeld(s, Trace(es));
  }

  /** A batch of button events leaves every stick coordinate alone. */
  lemma {:induction false} ButtonBatchKeepsSticks<V>(s: Snapshot<V>, es: seq<Event<V>>)
    requires forall k | 0 <= k < |es| :: es[k].ButtonDown? || es[k].ButtonUp?
    ensures forall side, dir :: Run(s, Trace(es)).Stick(side, dir) == s.Stick(side, dir)
  {
    ButtonBatchOnlyTouchesButtons(es);
    ButtonsKeepSticks(s, Trace(es));
  }

  /** Pressing and releasing a button that was not held gives back the state from before. */
  lemma {:induction false} DownUpRoundTrip<V>(s: Snapshot<V>, i: int)
    requires ButtonOf(i).Some? ==> ButtonOf(i).value !in s.held
    ensures Run(s, Trace<V>([ButtonDown(i), ButtonUp(i)])) == s
  {
    DownUpPair<V>(i);
    if ButtonOf(i).Some? {
      var b := ButtonOf(i).value;
      var ops: seq<Op<V>> := [Press(b), Release(b)];
      assert ops[1..] == [Release(b)];
      assert ops[1..][1..] == [];
      assert s.held + {b} - {b} == s.held;
    }
  }

  /** One stick of the emulated controller (`l_stick_state`, `r_stick_state`). */
  class StickState<V> {
    var h: V
    var v: V

    constructor (h0: V, v0: V)
      ensures h == h0 && v == v0
    {
      h, v := h0, v0;
    }

    /** `set_h`: store the horizontal coordinate as given. */
    method SetH(x: V)
      modifies this
      ensures h == x && v == old(v)
    {
      h := x;
    }

    /** `set_v`: store the vertical coordinate as given. */
    method SetV(x: V)
      modifies this
      ensures v == x && h == old(h)
    {
      v := x;
    }
  }

  /** The shared emulated-controller state the proxy mutates. */
  class ControllerState<V> {
    const lStick: StickState<V>
    const rStick: StickState<V>
    var held: set<Button>
    /** The controller operations issued on this state so far, oldest first. */
    ghost var history: seq<Op<V>>

    ghost predicate Valid()
      reads this
    {
      lStick != rStick
    }

    function Snap(): Snapshot<V>
      reads this, lStick, rStick
    {
      Snapshot(lStick.h, lStick.v, rStick.h, rStick.v, held)
    }

    constructor (lh: V, lv: V, rh: V, rv: V)
      ensures Valid() && fresh(lStick) && fresh(rStick)
      ensures Snap() == Snapshot(lh, lv, rh, rv, {}) && history == []
    {
      lStick := new StickState(lh, lv);
      rStick := new StickState(rh, rv);
      held := {};
      history := [];
    }

    /** `button_press(controller_state, name)`. */
    method ButtonPress(b: Button)
      modifies this
      ensures held == old(held) + {b} && history == old(history)
    {
      held := held + {b};
    }

    /** `button_release(controller_state, name)`. */
    method ButtonRelease(b: Button)
      modifies this
      ensures held == old(held) - {b} && history == old(history)
    {
      held := held - {b};
    }
  }

  /** Issue one operation on the controller and record it. */
  method Issue<V>(cs: ControllerState<V>, op: Op<V>)
    requires cs.Valid()
    modifies cs, cs.lStick, cs.rStick
    ensures cs.Valid()
    ensures cs.Snap() == Apply(old(cs.Snap()), op)
    ensures cs.history == old(cs.history) + [op]
  {
    match op {
      case SetH(Left, v) => cs.lStick.SetH(v);
      case SetV(Left, v) => cs.lStick.SetV(v);
      case SetH(Right, v) => cs.rStick.SetH(v);
      case SetV(Right, v) => cs.rStick.SetV(v);
      case Press(b) => cs.ButtonPress(b);
      case Release(b) => cs.ButtonRelease(b);
    }
    cs.history := cs.history + [op];
  }

  /** The body of the proxy's `for event in ...` loop: three independent type tests, each an if-chain over indices. */
  method HandleEvent<V>(cs: ControllerState<V>, e: Event<V>)
    requires cs.Valid()
    modifies cs, cs.lStick, cs.rStick
    ensures cs.Valid()
    ensures cs.history == old(cs.history) + Emitted(e)
    ensures cs.Snap() == Run(old(cs.Snap()), Emitted(e))
  {
    // Sticks
    if e.AxisMotion? {
      if e.axis == 0 { Issue(cs, SetH(Left, e.value)); }
      if e.axis == 1 { Issue(cs, SetV(Left, e.value)); }
      if e.axis == 2 { Issue(cs, SetH(Right, e.value)); }
      if e.axis == 3 { Issue(cs, SetV(Right, e.value)); }
    }
    // Buttons
    if e.ButtonDown? {
      if e.button == 0 { Issue(cs, Press(Y)); }
      if e.button == 1 { Issue(cs, Press(B)); }
      if e.button == 2 { Issue(cs, Press(A)); }
      if e.button == 3 { Issue(cs, Press(X)); }
      if e.button == 4 { Issue(cs, Press(L)); }
      if e.button == 5 { Issue(cs, Press(R)); }
      if e.button == 6 { Issue(cs, Press(ZL)); }
      if e.button == 7 { Issue(cs, Press(ZR)); }
      if e.button == 8 { Issue(cs, Press(Minus)); }
      if e.button == 9 { Issue(cs, Press(Plus)); }
      if e.button == 10 { Issue(cs, Press(LStick)); }
      if e.button == 11 { Issue(cs, Press(RStick)); }
      if e.button == 12 { Issue(cs, Press(Home)); }
      if e.button == 13 { Issue(cs, Press(Capture)); }
    }
    if e.ButtonUp? {
      if e.button == 0 { Issue(cs, Release(Y)); }
      if e.button == 1 { Issue(cs, Release(B)); }
      if e.button == 2 { Issue(cs, Release(A)); }
      if e.button == 3 { Issue(cs, Release(X)); }
      if e.button == 4 { Issue(cs, Release(L)); }
      if e.button == 5 { Issue(cs, Release(R)); }
      if e.button == 6 { Issue(cs, Release(ZL)); }
      if e.button == 7 { Issue(cs, Release(ZR)); }
      if e.button == 8 { Issue(cs, Release(Minus)); }
      if e.button == 9 { Issue(cs, Release(Plus)); }
      if e.button == 10 { Issue(cs, Release(LStick)); }
      if e.button == 11 { Issue(cs, Release(RStick)); }
      if e.button == 12 { Issue(cs, Release(Home)); }
      if e.button == 13 { Issue(cs, Release(Capture)); }
    }
  }

  /** `for event in pygame.event.get()`: one polled batch, handled in arrival order. */
  method HandleBatch<V>(cs: ControllerState<V>, events: seq<Event<V>>)
    requires cs.Valid()
    modifies cs, cs.lStick, cs.rStick
    ensures cs.Valid()
    ensures cs.history == old(cs.history) + Trace(events)
    ensures cs.Snap() == Run(old(cs.Snap()), Trace(events))
  {
    ghost var s0, h0 := cs.Snap(), cs.history;
    for k := 0 to |events|
      invariant cs.Valid()
      invariant cs.history == h0 + Trace(events[..k])
      invariant cs.Snap() == Run(s0, Trace(events[..k]))
    {
      ghost var done := Trace(events[..k]);
      HandleEvent(cs, events[k]);
      assert events[..k+1] == events[..k] + [events[k]];
      TraceAppend(events[..k], [events[k]]);
      assert Trace([events[k]]) == Emitted(events[k]) by {
        assert [events[k]][1..] == [];
      }
      ConcatAssoc(h0, done, Emitted(events[k]));
      RunAppend(s0, Trace(events[..k]), Emitted(events[k]));
    }
    assert events[..|events|] == events;
  }

  /**
    * `while gamepad_loop`, over the batches of the first `|polls|` polls.
    * Nothing in the loop clears the flag, so every poll is handled and the
    * flag is still set afterwards: the loop has no way out of its own.
    */
  method GamepadProxy<V>(cs: ControllerState<V>, polls: seq<seq<Event<V>>>) returns (gamepadLoop: bool)
    requires cs.Valid()
    modifies cs, cs.lStick, cs.rStick
    ensures cs.Valid() && gamepadLoop
    ensures cs.history == old(cs.history) + Trace(Flatten(polls))
    ensures cs.Snap() == Run(old(cs.Snap()), Trace(Flatten(polls)))
  {
    ghost var s0, h0 := cs.Snap(), cs.history;
    gamepadLoop := true;
    var n := 0;
    assert Trace(Flatten(polls[..0])) == [] by {
      assert polls[..0] == [];
    }
    while gamepadLoop && n < |polls|
      invariant 0 <= n <= |polls| && gamepadLoop
      invariant cs.Valid()
      invariant cs.history == h0 + Trace(Flatten(polls[..n]))
      invariant cs.Snap() == Run(s0, Trace(Flatten(polls[..n])))
      decreases |polls| - n
    {
      ghost var done, before := Trace(Flatten(polls[..n])), cs.history;
      HandleBatch(cs, polls[n]);
      NextPoll(s0, polls, n);
      ghost var batch := Trace(polls[n]);
      assert cs.history == before + batch;
      ConcatAssoc(h0, done, batch);
      n := n + 1;
    }
    assert polls[..n] == polls;
  }
}

/**
  * What the proxy does with each polled pad event, as a value: the controller
  * operation it issues, and the in-order trace a batch of events produces.
  * The axis value is an opaque `V`, forwarded unchanged.
  */
module Translation {
  import opened Wrappers
  import opened Mapping

  /** A polled pad event; every event type other than the three the proxy tests for is `Other`. */
  datatype Event<V> = AxisMotion(axis: int, value: V) | ButtonDown(button: int) | ButtonUp(button: int) | Other

  /** An operation the proxy issues on the emulated controller. */
  datatype Op<V> = SetH(side: Side, value: V) | SetV(side: Side, value: V) | Press(button: Button) | Release(button: Button)
  {
    predicate IsStick() { SetH? || SetV? }
  }

  /** The operation an event is dispatched to, if the proxy has a branch for it. */
  function Translate<V>(e: Event<V>): (r: Option<Op<V>>)
    ensures r.Some? <==> (e.AxisMotion? && 0 <= e.axis < 4)
                         || ((e.ButtonDown? || e.ButtonUp?) && 0 <= e.button < |PadButtonNames|)
    ensures r.Some? ==> (r.value.IsStick() <==> e.AxisMotion?)
    ensures r.Some? && e.AxisMotion? ==>
              r.value.value == e.value && AxisTarget(e.axis) == Some((r.value.side, if r.value.SetH? then Horizontal else Vertical))
    ensures r.Some? && e.ButtonDown? ==> r.value == Press(ButtonOf(e.button).value)
    ensures r.Some? && e.ButtonUp? ==> r.value == Release(ButtonOf(e.button).value)
  {
    match e
    case AxisMotion(axis, v) =>
      (match AxisTarget(axis)
       case Some((side, Horizontal)) => Some(SetH(side, v))
       case Some((side, Vertical)) => Some(SetV(side, v))
       case None => None)
    case ButtonDown(i) =>
      (match ButtonOf(i)
       case Some(b) => Some(Press(b))
       case None => None)
    case ButtonUp(i) =>
      (match ButtonOf(i)
       case Some(b) => Some(Release(b))
       case None => None)
    case Other => None
  }

  /**
    * Button-down on index i presses, and button-up on i releases, the button the
    * controller knows by the i-th name of the table.
    */
  lemma {:induction false} ButtonEdgeNames<V>(i: int)
    requires 0 <= i < |PadButtonNames|
    ensures Translate<V>(ButtonDown(i)).Some? && Translate<V>(ButtonDown(i)).value.Press?
    ensures Name(Translate<V>(ButtonDown(i)).value.button) == PadButtonNames[i]
    ensures Translate<V>(ButtonUp(i)) == Some(Release(Translate<V>(ButtonDown(i)).value.button))
  {
  }

  /** The operations one event issues: one for a mapped event, none otherwise. */
  function Emitted<V>(e: Event<V>): seq<Op<V>> {
    match Translate(e)
    case Some(op) => [op]
    case None => []
  }

  /** The operations a batch of events issues, in arrival order. */
  function Trace<V>(es: seq<Event<V>>): (ops: seq<Op<V>>)
    ensures |ops| <= |es|
  {
    if es == [] then [] else Emitted(es[0]) + Trace(es[1..])
  }

  /** A batch with no mapped event issues nothing: unmapped events are skipped, not errors. */
  lemma {:induction false} UnmappedBatchIssuesNothing<V>(es: seq<Event<V>>)
    requires forall k | 0 <= k < |es| :: Translate(es[k]).None?
    ensures Trace(es) == []
  {
    if es != [] {
      UnmappedBatchIssuesNothing(es[1..]);
    }
  }

  /** A batch of mapped events issues exactly one operation per event, position by position. */
  lemma {:induction false} MappedBatchIssuesOneEach<V>(es: seq<Event<V>>)
    requires forall k | 0 <= k < |es| :: Translate(es[k]).Some?
    ensures |Trace(es)| == |es|
    ensures forall k | 0 <= k < |es| :: Translate(es[k]) == Some(Trace(es)[k])
  {
    if es != [] {
      MappedBatchIssuesOneEach(es[1..]);
    }
  }

  /** The events of a batch the proxy has a branch for, in arrival order. */
  function MappedEvents<V>(es: seq<Event<V>>): seq<Event<V>> {
    if es == [] then []
    else if Translate(es[0]).Some? then [es[0]] + MappedEvents(es[1..])
    else MappedEvents(es[1..])
  }

  lemma ConcatAssoc<T>(a: seq<T>, b: seq<T>, c: seq<T>)
    ensures (a + b) + c == a + (b + c)
  {
  }

  /** Handling two batches one after the other issues the two traces one after the other. */
  lemma {:induction false} TraceAppend<V>(a: seq<Event<V>>, b: seq<Event<V>>)
    ensures Trace(a + b) == Trace(a) + Trace(b)
  {
    if a == [] {
      assert a + b == b;
    } else {
      var ab := a + b;
      assert ab[0] == a[0] && ab[1..] == a[1..] + b;
      assert Trace(ab) == Emitted(a[0]) + Trace(a[1..] + b);
      TraceAppend(a[1..], b);
      assert Trace(a) == Emitted(a[0]) + Trace(a[1..]);
      ConcatAssoc(Emitted(a[0]), Trace(a[1..]), Trace(b));
    }
  }

  /** The trace is exactly the image of the mapped events: one operation each, in the same order. */
  lemma {:induction false} TraceIsImageOfMapped<V>(es: seq<Event<V>>)
    ensures |Trace(es)| == |MappedEvents(es)|
    ensures forall k | 0 <= k < |Trace(es)| :: Translate(MappedEvents(es)[k]) == Some(Trace(es)[k])
  {
    if es != [] {
      TraceIsImageOfMapped(es[1..]);
    }
  }

  /** An unmapped event anywhere in a batch is skipped: the batch issues what the batch without it issues. */
  lemma {:induction false} UnmappedIsSkipped<V>(es: seq<Event<V>>, k: nat)
    requires k < |es| && Translate(es[k]).None?
    ensures Trace(es) == Trace(es[..k] + es[k+1..])
  {
    assert es == es[..k] + ([es[k]] + es[k+1..]);
    TraceAppend(es[..k], [es[k]] + es[k+1..]);
    TraceAppend(es[..k], es[k+1..]);
    assert Trace([es[k]] + es[k+1..]) == Trace(es[k+1..]) by {
      assert ([es[k]] + es[k+1..])[1..] == es[k+1..];
    }
  }

  /** Axis events only ever move sticks. */
  lemma {:induction false} AxisBatchOnlyMovesSticks<V>(es: seq<Event<V>>)
    requires forall k | 0 <= k < |es| :: es[k].AxisMotion?
    ensures forall op | op in Trace(es) :: op.IsStick()
  {
    if es != [] {
      AxisBatchOnlyMovesSticks(es[1..]);
    }
  }

  /** Button events only ever press or release buttons. */
  lemma {:induction false} ButtonBatchOnlyTouchesButtons<V>(es: seq<Event<V>>)
    requires forall k | 0 <= k < |es| :: es[k].ButtonDown? || es[k].ButtonUp?
    ensures forall op | op in Trace(es) :: !op.IsStick()
  {
    if es != [] {
      ButtonBatchOnlyTouchesButtons(es[1..]);
    }
  }

  /** A down/up pair on one pad index presses and then releases the same button, or does nothing. */
  lemma {:induction false} DownUpPair<V>(i: int)
    ensures 0 <= i < |PadButtonNames| ==>
              Trace<V>([ButtonDown(i), ButtonUp(i)]) == [Press(ButtonOf(i).value), Release(ButtonOf(i).value)]
    ensures !(0 <= i < |PadButtonNames|) ==> Trace<V>([ButtonDown(i), ButtonUp(i)]) == []
  {
  }

  /** The events of successive polls, concatenated in polling order. */
  function Flatten<V>(polls: seq<seq<Event<V>>>): seq<Event<V>> {
    if polls == [] then [] else polls[0] + Flatten(polls[1..])
  }

  lemma {:induction false} FlattenSnoc<V>(polls: seq<seq<Event<V>>>, batch: seq<Event<V>>)
    ensures Flatten(polls + [batch]) == Flatten(polls) + batch
  {
    if polls == [] {
      assert Flatten([batch]) == batch + Flatten<V>([]);
    } else {
      assert (polls + [batch])[1..] == polls[1..] + [batch];
      FlattenSnoc(polls[1..], batch);
    }
  }

  lemma {:induction false} FlattenPrefixStep<V>(polls: seq<seq<Event<V>>>, n: nat)
    requires n < |polls|
    ensures Flatten(polls[..n+1]) == Flatten(polls[..n]) + polls[n]
  {
    assert polls[..n+1] == polls[..n] + [polls[n]];
    FlattenSnoc(polls[..n], polls[n]);
  }
}

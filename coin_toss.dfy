/**
 * The coin-toss widget: a toss starts a flip, and when the flip's timer fires
 * the coin lands on a side and the flip counter goes up by one.
 *
 * As for the wheel, the state is a value `CoinState` with a transition
 * function `Step` that the lemmas speak about, and the class `Coin` whose
 * handlers update its fields in place and are proved to perform `Step`.
 * The timer is explicit: `pending` counts the tosses whose timers have not
 * fired, and a `Resolve` event fires one of them. The timer callback captures
 * nothing of the state it was started from, so which one fires is immaterial.
 */
module CoinToss {
  import opened Wrappers

  datatype Side = Heads | Tails

  datatype CoinState = CoinState(
    isFlipping: bool,
    result: Option<Side>, // None for null
    flipCount: nat,
    pending: nat)         // tosses whose timers have not fired

  datatype Event =
    | Toss               // tossCoin
    | Resolve(side: Side) // a toss timer fires; the side stands for the random draw
    | Reset              // resetCoin

  function Initial(): CoinState {
    CoinState(false, None, 0, 0)
  }

  /** A timer fires only if one is pending. */
  predicate Enabled(s: CoinState, e: Event) {
    e.Resolve? ==> s.pending > 0
  }

  /**
   * One event's effect on the widget's state. The counter changes only when a
   * timer fires or on reset, and only a reset lowers it; a reset cancels no
   * pending timer.
   */
  function Step(s: CoinState, e: Event): (r: CoinState)
    requires Enabled(s, e)
    ensures r.flipCount != s.flipCount ==> e.Resolve? || e.Reset?
    ensures r.flipCount < s.flipCount ==> e.Reset?
    ensures r.pending != s.pending ==> e.Toss? || e.Resolve?
  {
    match e
    case Toss =>
      if s.isFlipping then s
      else s.(isFlipping := true, result := None, pending := s.pending + 1)
    case Resolve(side) =>
      // the counter is updated with `prev => prev + 1`, from its value at this moment
      s.(result := Some(side), isFlipping := false, flipCount := s.flipCount + 1,
         pending := s.pending - 1)
    case Reset => s.(result := None, isFlipping := false, flipCount := 0)
  }

  /** Runs a sequence of events; None if some event in it cannot occur where it stands. */
  function Exec(s: CoinState, trace: seq<Event>): Option<CoinState> {
    if trace == [] then Some(s)
    else
      match Exec(s, trace[..|trace| - 1])
      case None => None
      case Some(before) =>
        var e := trace[|trace| - 1];
        if Enabled(before, e) then Some(Step(before, e)) else None
  }

  /** The number of `Resolve` events after the last `Reset` of a trace (or in all of it, if it has none). */
  function ResolvesSinceReset(trace: seq<Event>): nat {
    if trace == [] then 0
    else
      match trace[|trace| - 1]
      case Reset => 0
      case Resolve(_) => ResolvesSinceReset(trace[..|trace| - 1]) + 1
      case Toss => ResolvesSinceReset(trace[..|trace| - 1])
  }

  /** The number of `Resolve` events in a trace. */
  function Resolves(trace: seq<Event>): nat {
    if trace == [] then 0
    else Resolves(trace[..|trace| - 1]) + (if trace[|trace| - 1].Resolve? then 1 else 0)
  }

  /** While the coin is flipping a timer is pending and no result is shown. */
  predicate Inv(s: CoinState) {
    s.isFlipping ==> s.pending > 0 && s.result == None
  }

  /** tossCoin is ignored while flipping; otherwise it starts a flip, clears the result and leaves the counter alone. */
  lemma TossSpec(s: CoinState)
    ensures var r := Step(s, Toss);
      if s.isFlipping then r == s
      else r.isFlipping && r.result == None && r.flipCount == s.flipCount
           && r.pending == s.pending + 1
  {
  }

  /** A firing timer shows exactly the drawn side, stops the flip and adds one to the counter as it is now. */
  lemma ResolveSpec(s: CoinState, side: Side)
    requires s.pending > 0
    ensures var r := Step(s, Resolve(side));
      r.result == Some(side)
      && !r.isFlipping && r.flipCount == s.flipCount + 1 && r.pending == s.pending - 1
  {
  }

  /** resetCoin clears the result, the flip and the counter, whatever the state, and cancels no timer. */
  lemma ResetSpec(s: CoinState)
    ensures var r := Step(s, Reset);
      r.result == None && !r.isFlipping && r.flipCount == 0 && r.pending == s.pending
  {
  }

  /** Every event keeps the invariant. */
  lemma StepKeepsInv(s: CoinState, e: Event)
    requires Inv(s) && Enabled(s, e)
    ensures Inv(Step(s, e))
  {
  }

  /** Every run from the initial state keeps the invariant. */
  lemma {:induction false} ExecKeepsInv(trace: seq<Event>, s: CoinState)
    requires Exec(Initial(), trace) == Some(s)
    ensures Inv(s)
  {
    if trace != [] {
      var before :| Exec(Initial(), trace[..|trace| - 1]) == Some(before);
      ExecKeepsInv(trace[..|trace| - 1], before);
      StepKeepsInv(before, trace[|trace| - 1]);
    }
  }

  /** After any run from the initial state, the counter is the number of timers that fired since the last reset. */
  lemma {:induction false} CountIsResolvesSinceReset(trace: seq<Event>, s: CoinState)
    requires Exec(Initial(), trace) == Some(s)
    ensures s.flipCount == ResolvesSinceReset(trace)
  {
    if trace != [] {
      var before :| Exec(Initial(), trace[..|trace| - 1]) == Some(before);
      CountIsResolvesSinceReset(trace[..|trace| - 1], before);
    }
  }

  /** Without a reset the counter never decreases: it grows by exactly the number of timers that fired. */
  lemma {:induction false} CountGrowsWithoutReset(s0: CoinState, trace: seq<Event>, s: CoinState)
    requires Exec(s0, trace) == Some(s)
    requires forall j :: 0 <= j < |trace| ==> trace[j] != Reset
    ensures s.flipCount == s0.flipCount + Resolves(trace)
    ensures s0.flipCount <= s.flipCount
  {
    if trace != [] {
      var prefix := trace[..|trace| - 1];
      var before :| Exec(s0, prefix) == Some(before);
      assert forall j :: 0 <= j < |prefix| ==> prefix[j] == trace[j];
      CountGrowsWithoutReset(s0, prefix, before);
    }
  }

  /** A second toss during a flip is ignored: only one timer is pending, so only one outcome can land. */
  lemma DoubleTossLandsOnce(first: Side, second: Side)
    ensures Exec(Initial(), [Toss, Toss]) == Some(CoinState(true, None, 0, 1))
    ensures Exec(Initial(), [Toss, Toss, Resolve(first), Resolve(second)]) == None
  {
    var t := [Toss, Toss, Resolve(first), Resolve(second)];
    assert t[..3][..2] == t[..2] && t[..2][..1] == [Toss];
    assert Exec(Initial(), [Toss]) == Some(CoinState(true, None, 0, 1));
    assert Exec(Initial(), t[..2]) == Some(CoinState(true, None, 0, 1));
    assert Exec(Initial(), t[..3]) == Some(CoinState(false, Some(first), 1, 0));
  }

  /**
   * A toss started before a reset still lands afterwards and counts from the
   * reset value: after one landed toss, a second toss and a reset, the late
   * timer leaves the counter at 1, not 2.
   */
  lemma LateLandingAfterReset(first: Side, late: Side)
    ensures Exec(Initial(), [Toss, Resolve(first), Toss, Reset, Resolve(late)])
            == Some(CoinState(false, Some(late), 1, 0))
  {
    var t := [Toss, Resolve(first), Toss, Reset, Resolve(late)];
    assert t[..4][..3] == t[..3] && t[..3][..2] == t[..2] && t[..2][..1] == [Toss];
    assert Exec(Initial(), [Toss]) == Some(CoinState(true, None, 0, 1));
    assert Exec(Initial(), t[..2]) == Some(CoinState(false, Some(first), 1, 0));
    assert Exec(Initial(), t[..3]) == Some(CoinState(true, None, 1, 1));
    assert Exec(Initial(), t[..4]) == Some(CoinState(false, None, 0, 1));
  }

  /** The widget's component state, updated in place by its handlers. */
  class Coin {
    var isFlipping: bool
    var result: Option<Side>
    var flipCount: nat
    var pending: nat

    function State(): CoinState
      reads this
    {
      CoinState(isFlipping, result, flipCount, pending)
    }

    predicate Valid()
      reads this
    {
      Inv(State())
    }

    constructor ()
      ensures Valid() && State() == Initial()
    {
      isFlipping := false;
      result := None;
      flipCount := 0;
      pending := 0;
    }

    method TossCoin()
      requires Valid()
      modifies this
      ensures Valid() && State() == Step(old(State()), Toss)
      ensures old(isFlipping) ==> State() == old(State())
      ensures !old(isFlipping) ==> isFlipping && result == None && flipCount == old(flipCount)
    {
      if isFlipping {
        return;
      }
      isFlipping := true;
      result := None;
      pending := pending + 1;
    }

    /** A toss timer fires; `side` is the outcome of `Math.random() < 0.5`. */
    method ResolveToss(side: Side)
      requires Valid() && pending > 0
      modifies this
      ensures Valid() && State() == Step(old(State()), Resolve(side))
      ensures result == Some(side) && !isFlipping && flipCount == old(flipCount) + 1
    {
      pending := pending - 1;
      result := Some(side);
      isFlipping := false;
      flipCount := flipCount + 1;
    }

    method ResetCoin()
      requires Valid()
      modifies this
      ensures Valid() && State() == Step(old(State()), Reset)
      ensures result == None && !isFlipping && flipCount == 0 && pending == old(pending)
    {
      result := None;
      isFlipping := false;
      flipCount := 0;
    }
  }

  /** The late landing, on the class: the counter ends at 1. */
  method LateLanding()
  {
    var c := new Coin();
    c.TossCoin();
    c.ResolveToss(Heads);
    c.TossCoin();
    c.ResetCoin();
    c.ResolveToss(Tails);
    assert c.flipCount == 1 && c.result == Some(Tails);
  }
}

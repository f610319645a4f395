/**
 * The spin-wheel widget: an editable list of 2 to 8 labels and a wheel that
 * is spun by a random amount and, when its timer fires, reports the label
 * under the pointer.
 *
 * The widget's state is modelled twice: as a value `WheelState` with a
 * transition function `Step` (the specification, about which the lemmas
 * speak), and as the class `Wheel` whose methods update its fields in place
 * and are proved to perform exactly `Step`.
 *
 * The spin's timer is made explicit: starting a spin records a `PendingSpin`
 * holding what the timer callback captured (the final rotation and the label
 * list of that moment), and a separate `Resolve` event fires the oldest
 * pending timer. All timers have the same delay, so they fire in the order
 * they were started.
 */
module SpinWheel {
  import opened Wrappers
  import opened Strings
  import opened WheelAngle

  const MinSegments: nat := 2
  const MaxSegments: nat := 8
  const InitialSegments: seq<string> :=
    ["Option 1", "Option 2", "Option 3", "Option 4", "Option 5", "Option 6"]

  /** The list keeps between 2 and 8 labels. */
  predicate Bounded(segments: seq<string>) {
    MinSegments <= |segments| <= MaxSegments
  }

  /** `segments.filter((_, i) => i !== index)`: keeps every label whose position is not `index`. */
  function Without(s: seq<string>, index: int): (r: seq<string>)
    ensures 0 <= index < |s| ==> r == s[..index] + s[index + 1..]
    ensures !(0 <= index < |s|) ==> r == s
  {
    if s == [] then []
    else (if index == 0 then [] else [s[0]]) + Without(s[1..], index - 1)
  }

  /** A spin whose timer has not fired yet, with the values its callback captured. */
  datatype PendingSpin = PendingSpin(finalRotation: nat, segments: seq<string>)

  datatype WheelState = WheelState(
    segments: seq<string>,     // the labels, in wheel order
    newOption: string,         // the text in the "add option" box
    isSpinning: bool,
    result: Option<string>,    // the last winner; None for null
    rotation: nat,             // cumulative rotation in whole degrees
    pending: seq<PendingSpin>) // started spins whose timers have not fired, oldest first

  datatype Event =
    | Type(text: string)              // the add box's onChange
    | Add                             // addSegment
    | Remove(index: int)              // removeSegment(index)
    | Edit(index: int, value: string) // editSegment(index, value)
    | Spin(spins: int, stop: int)     // spinWheel, with its two random draws
    | Resolve                         // the oldest spin timer fires
    | Reset                           // resetWheel

  function Initial(): WheelState {
    WheelState(InitialSegments, "", false, None, 0, [])
  }

  /**
   * The draws of `spinWheel`: `Math.floor(Math.random() * 5) + 5` full turns
   * and a stopping angle `Math.floor(Math.random() * 360)`.
   */
  predicate ValidDraw(spins: int, stop: int) {
    5 <= spins <= 9 && 0 <= stop < FullTurn
  }

  /**
   * When an event can occur at all: an edit comes from one of the listed rows,
   * the draws lie in their ranges, and a timer fires only if one is pending.
   */
  predicate Enabled(s: WheelState, e: Event) {
    match e
    case Edit(index, _) => 0 <= index < |s.segments|
    case Spin(spins, stop) => ValidDraw(spins, stop)
    case Resolve => s.pending != []
    case _ => true
  }

  /**
   * The label the timer callback reads, `segments[selectedIndex]`; None stands
   * for `undefined`, which only an empty captured list produces.
   */
  function Winner(p: PendingSpin): (r: Option<string>)
    ensures r.Some? <==> p.segments != []
    ensures p.segments != [] ==> r == Some(p.segments[WinIndex(p.finalRotation, |p.segments|)])
  {
    var i := WinIndex(p.finalRotation, |p.segments|);
    if i < |p.segments| then Some(p.segments[i]) else None
  }

  /**
   * One event's effect on the widget's state. Only the list editor changes the
   * labels, only a reset lowers the rotation, and only starting a spin or a
   * firing timer changes the pending spins (a reset cancels none).
   */
  function Step(s: WheelState, e: Event): (r: WheelState)
    requires Enabled(s, e)
    ensures r.segments != s.segments ==> e.Add? || e.Remove? || e.Edit?
    ensures r.rotation < s.rotation ==> e.Reset?
    ensures r.pending != s.pending ==> e.Spin? || e.Resolve?
  {
    match e
    case Type(text) => s.(newOption := text)
    case Add =>
      var text := Trim(s.newOption);
      if text != [] && |s.segments| < MaxSegments
      then s.(segments := s.segments + [text], newOption := "")
      else s
    case Remove(index) =>
      if |s.segments| > MinSegments then s.(segments := Without(s.segments, index)) else s
    case Edit(index, value) => s.(segments := s.segments[index := value])
    case Spin(spins, stop) =>
      if s.isSpinning then s
      else
        var finalRotation := s.rotation + spins * FullTurn + stop;
        s.(isSpinning := true, result := None, rotation := finalRotation,
           pending := s.pending + [PendingSpin(finalRotation, s.segments)])
    case Resolve =>
      s.(result := Winner(s.pending[0]), isSpinning := false, pending := s.pending[1..])
    case Reset => s.(rotation := 0, result := None, isSpinning := false)
  }

  /** Runs a sequence of events; None if some event in it cannot occur where it stands. */
  function Exec(s: WheelState, trace: seq<Event>): Option<WheelState> {
    if trace == [] then Some(s)
    else
      match Exec(s, trace[..|trace| - 1])
      case None => None
      case Some(before) =>
        var e := trace[|trace| - 1];
        if Enabled(before, e) then Some(Step(before, e)) else None
  }

  /**
   * The widget's invariant: the list and every list captured by a pending
   * spin have 2 to 8 labels; while the wheel spins there is a pending spin,
   * the latest one ends at the current rotation, and no result is shown.
   */
  predicate Inv(s: WheelState) {
    && Bounded(s.segments)
    && (forall j :: 0 <= j < |s.pending| ==> Bounded(s.pending[j].segments))
    && (s.isSpinning ==> s.pending != [] && s.pending[|s.pending| - 1].finalRotation == s.rotation
                         && s.result == None)
  }

  /** addSegment appends the trimmed text and clears the box exactly when the text is not all whitespace and there is room. */
  lemma AddSpec(s: WheelState)
    ensures var r := Step(s, Add);
      if !AllSpace(s.newOption) && |s.segments| < MaxSegments
      then r.segments == s.segments + [Trim(s.newOption)] && r.newOption == ""
           && r == s.(segments := r.segments, newOption := "")
      else r == s
  {
  }

  /** removeSegment drops exactly position `index` when more than two labels are listed. */
  lemma RemoveSpec(s: WheelState, index: int)
    ensures var r := Step(s, Remove(index));
      && r == s.(segments := r.segments)
      && (if |s.segments| > MinSegments && 0 <= index < |s.segments|
          then |r.segments| == |s.segments| - 1
               && (forall j :: 0 <= j < index ==> r.segments[j] == s.segments[j])
               && (forall j :: index <= j < |r.segments| ==> r.segments[j] == s.segments[j + 1])
          else r.segments == s.segments)
  {
  }

  /** editSegment writes position `index` and keeps the length and every other position. */
  lemma EditSpec(s: WheelState, index: int, value: string)
    requires 0 <= index < |s.segments|
    ensures var r := Step(s, Edit(index, value));
      && r == s.(segments := r.segments)
      && |r.segments| == |s.segments| && r.segments[index] == value
      && (forall j :: 0 <= j < |s.segments| && j != index ==> r.segments[j] == s.segments[j])
  {
  }

  /**
   * spinWheel is ignored while spinning; otherwise it starts spinning, clears
   * the result, raises the rotation by the drawn turns and stopping angle
   * (1800 to 3599 degrees in all) and records the pending spin with the
   * labels of this moment.
   */
  lemma SpinSpec(s: WheelState, spins: int, stop: int)
    requires ValidDraw(spins, stop)
    ensures var r := Step(s, Spin(spins, stop));
      if s.isSpinning then r == s
      else
        && r.rotation == s.rotation + spins * FullTurn + stop
        && s.rotation + 1800 <= r.rotation <= s.rotation + 3599
        && r.isSpinning && r.result == None
        && r.pending == s.pending + [PendingSpin(r.rotation, s.segments)]
        && r.segments == s.segments && r.newOption == s.newOption
  {
  }

  /**
   * In a valid state the firing timer shows the label of the list it captured
   * at the index `WinIndex` gives for its captured rotation (never undefined),
   * and stops the spinning.
   */
  lemma ResolveSpec(s: WheelState)
    requires Inv(s) && s.pending != []
    ensures var p := s.pending[0]; var r := Step(s, Resolve);
      && WinIndex(p.finalRotation, |p.segments|) < |p.segments|
      && r.result == Some(p.segments[WinIndex(p.finalRotation, |p.segments|)])
      && r == s.(result := r.result, isSpinning := false, pending := s.pending[1..])
  {
    assert Bounded(s.pending[0].segments);
  }

  /** resetWheel zeroes the rotation and clears result and spinning, but keeps the labels, the add box and every pending timer. */
  lemma ResetSpec(s: WheelState)
    ensures var r := Step(s, Reset);
      r == s.(rotation := 0, result := None, isSpinning := false)
  {
  }

  /**
   * Starting a spin can land on any label: from any valid state that is not
   * spinning and any number of turns, some stopping angle in range makes the
   * recorded spin resolve to label `i` of the current list.
   */
  lemma SpinCanLandOnAnyLabel(s: WheelState, spins: int, i: nat) returns (stop: int)
    requires Inv(s) && !s.isSpinning && 5 <= spins <= 9 && i < |s.segments|
    ensures ValidDraw(spins, stop)
    ensures var r := Step(s, Spin(spins, stop));
      Winner(r.pending[|r.pending| - 1]) == Some(s.segments[i])
  {
    var k := EverySegmentReachable(s.rotation, spins, |s.segments|, i);
    stop := k;
    var r := Step(s, Spin(spins, stop));
    assert r.pending[|r.pending| - 1] == PendingSpin(s.rotation + spins * FullTurn + k, s.segments);
  }

  /** Every event keeps the invariant. */
  lemma StepKeepsInv(s: WheelState, e: Event)
    requires Inv(s) && Enabled(s, e)
    ensures Inv(Step(s, e))
  {
    var r := Step(s, e);
    match e
    case Spin(spins, stop) =>
      if !s.isSpinning {
        forall j | 0 <= j < |r.pending| ensures Bounded(r.pending[j].segments) {
          if j < |s.pending| { assert r.pending[j] == s.pending[j]; }
        }
      }
    case Resolve =>
      forall j | 0 <= j < |r.pending| ensures Bounded(r.pending[j].segments) {
        assert r.pending[j] == s.pending[j + 1];
      }
    case Remove(index) =>
    case _ =>
  }

  /** From the initial six labels, every run of events keeps the invariant, so the list always has 2 to 8 labels. */
  lemma {:induction false} ExecKeepsInv(trace: seq<Event>, s: WheelState)
    requires Exec(Initial(), trace) == Some(s)
    ensures Inv(s)
    ensures Bounded(s.segments)
  {
    if trace != [] {
      var before :| Exec(Initial(), trace[..|trace| - 1]) == Some(before);
      ExecKeepsInv(trace[..|trace| - 1], before);
      StepKeepsInv(before, trace[|trace| - 1]);
    }
  }

  /** Without a reset the rotation never decreases over any run (each spin alone raises it, see `SpinSpec`). */
  lemma {:induction false} RotationMonotone(s0: WheelState, trace: seq<Event>, s: WheelState)
    requires Exec(s0, trace) == Some(s)
    requires forall j :: 0 <= j < |trace| ==> trace[j] != Reset
    ensures s0.rotation <= s.rotation
  {
    if trace != [] {
      var prefix := trace[..|trace| - 1];
      var before :| Exec(s0, prefix) == Some(before);
      assert forall j :: 0 <= j < |prefix| ==> prefix[j] == trace[j];
      RotationMonotone(s0, prefix, before);
    }
  }

  /** The worked case: two labels and a captured rotation of 370 degrees select the second label. */
  lemma TwoLabelsAt370(a: string, b: string)
    ensures Winner(PendingSpin(370, [a, b])) == Some(b)
  {
    TwoSegmentsAt370();
  }

  /**
   * The timer reads the labels captured at the spin: a spin that stops at
   * 1810 degrees selects "Option 6" even if that label is renamed before the
   * timer fires.
   */
  lemma ResolveUsesCapturedLabels()
    ensures var t := [Spin(5, 10), Edit(5, "Pizza"), Resolve];
      Exec(Initial(), t).Some?
      && Exec(Initial(), t).value.result == Some("Option 6")
      && Exec(Initial(), t).value.segments[5] == "Pizza"
  {
    var s1 := Step(Initial(), Spin(5, 10));
    var s2 := Step(s1, Edit(5, "Pizza"));
    assert Exec(Initial(), [Spin(5, 10)]) == Some(s1);
    assert [Spin(5, 10), Edit(5, "Pizza")][..1] == [Spin(5, 10)];
    assert Exec(Initial(), [Spin(5, 10), Edit(5, "Pizza")]) == Some(s2);
    assert [Spin(5, 10), Edit(5, "Pizza"), Resolve][..2] == [Spin(5, 10), Edit(5, "Pizza")];
    assert WinIndex(1810, 6) == 5;
  }

  /**
   * Reset does not cancel a pending timer: after spin, reset, spin, the first
   * timer still fires, shows its winner and stops the spinning while the
   * second spin is still pending.
   */
  lemma ResetDoesNotCancel()
    ensures var t := [Spin(5, 0), Reset, Spin(5, 0), Resolve];
      Exec(Initial(), t).Some?
      && var s := Exec(Initial(), t).value;
         s.result == Some("Option 1") && !s.isSpinning && |s.pending| == 1
  {
    var s1 := Step(Initial(), Spin(5, 0));
    var s2 := Step(s1, Reset);
    var s3 := Step(s2, Spin(5, 0));
    var t := [Spin(5, 0), Reset, Spin(5, 0), Resolve];
    assert t[..1] == [Spin(5, 0)];
    assert t[..2] == [Spin(5, 0), Reset];
    assert t[..3] == [Spin(5, 0), Reset, Spin(5, 0)];
    assert t[..3][..2] == t[..2] && t[..2][..1] == t[..1];
    assert Exec(Initial(), t[..1]) == Some(s1);
    assert Exec(Initial(), t[..2]) == Some(s2);
    assert Exec(Initial(), t[..3]) == Some(s3);
    assert WinIndex(1800, 6) == 0;
  }

  /** The widget's component state, updated in place by its handlers. */
  class Wheel {
    var segments: seq<string>
    var newOption: string
    var isSpinning: bool
    var result: Option<string>
    var rotation: nat
    var pending: seq<PendingSpin>

    function State(): WheelState
      reads this
    {
      WheelState(segments, newOption, isSpinning, result, rotation, pending)
    }

    predicate Valid()
      reads this
    {
      Inv(State())
    }

    constructor ()
      ensures Valid() && State() == Initial()
    {
      segments := InitialSegments;
      newOption := "";
      isSpinning := false;
      result := None;
      rotation := 0;
      pending := [];
    }

    /** The add box's onChange handler. */
    method SetNewOption(text: string)
      requires Valid()
      modifies this
      ensures Valid() && State() == Step(old(State()), Type(text))
      ensures newOption == text && segments == old(segments)
    {
      newOption := text;
    }

    method AddSegment()
      requires Valid()
      modifies this
      ensures Valid() && State() == Step(old(State()), Add)
      ensures if !AllSpace(old(newOption)) && |old(segments)| < MaxSegments
              then segments == old(segments) + [Trim(old(newOption))] && newOption == ""
              else segments == old(segments) && newOption == old(newOption)
      ensures Bounded(segments)
    {
      var text := Trim(newOption);
      if text != [] && |segments| < MaxSegments {
        segments := segments + [text];
        newOption := "";
      }
    }

    method RemoveSegment(index: int)
      requires Valid()
      modifies this
      ensures Valid() && State() == Step(old(State()), Remove(index))
      ensures segments == if |old(segments)| > MinSegments && 0 <= index < |old(segments)|
                          then old(segments)[..index] + old(segments)[index + 1..]
                          else old(segments)
      ensures Bounded(segments)
    {
      if |segments| > MinSegments {
        segments := Without(segments, index);
      }
    }

    /** Copies the list into a fresh array, writes one slot and stores the copy. */
    method EditSegment(index: int, value: string)
      requires Valid() && 0 <= index < |segments|
      modifies this
      ensures Valid() && State() == Step(old(State()), Edit(index, value))
      ensures segments == old(segments)[index := value]
    {
      var current := segments;
      var copy := new string[|current|](j requires 0 <= j < |current| => current[j]);
      copy[index] := value;
      segments := copy[..];
      assert segments == current[index := value];
    }

    /** spinWheel, with its random draws as parameters. */
    method SpinWheel(spins: int, stop: int)
      requires Valid() && ValidDraw(spins, stop)
      modifies this
      ensures Valid() && State() == Step(old(State()), Spin(spins, stop))
      ensures old(isSpinning) ==> State() == old(State())
      ensures !old(isSpinning) ==>
        && isSpinning && result == None
        && old(rotation) + 1800 <= rotation <= old(rotation) + 3599
        && pending == old(pending) + [PendingSpin(rotation, old(segments))]
    {
      if isSpinning {
        return;
      }
      isSpinning := true;
      result := None;
      var finalRotation := rotation + spins * FullTurn + stop;
      rotation := finalRotation;
      pending := pending + [PendingSpin(finalRotation, segments)];
    }

    /** The oldest spin timer fires, with the rotation and labels it captured. */
    method ResolveSpin()
      requires Valid() && pending != []
      modifies this
      ensures Valid() && State() == Step(old(State()), Resolve)
      ensures var p := old(pending)[0];
        result == Some(p.segments[WinIndex(p.finalRotation, |p.segments|)])
      ensures !isSpinning && pending == old(pending)[1..]
    {
      var p := pending[0];
      assert Bounded(p.segments);
      var selectedIndex := WinIndex(p.finalRotation, |p.segments|);
      var winner := p.segments[selectedIndex];
      pending := pending[1..];
      result := Some(winner);
      isSpinning := false;
      StepKeepsInv(old(State()), Resolve);
    }

    method ResetWheel()
      requires Valid()
      modifies this
      ensures Valid() && State() == Step(old(State()), Reset)
      ensures rotation == 0 && result == None && !isSpinning
      ensures segments == old(segments) && pending == old(pending)
    {
      rotation := 0;
      result := None;
      isSpinning := false;
    }
  }

  /** A spin to 1810 degrees over the initial labels shows "Option 6", even if that label is renamed before the timer fires. */
  method CapturedLabelSpin()
  {
    var w := new Wheel();
    w.SpinWheel(5, 10);
    assert w.pending == [PendingSpin(1810, InitialSegments)];
    w.EditSegment(5, "Pizza");
    w.ResolveSpin();
    assert WinIndex(1810, 6) == 5;
    assert w.result == Some("Option 6");
  }
}

// The two Auto-approve enrollment sets at lock-section granularity
// (wrapper.rs). Each helper locks one set, releases it, and locks the other;
// any other helper may run between the two halves.

module EnrollmentLocks {
  import opened Prelude

  type TaskId = nat

  /** The half a helper has still to run. */
  datatype Half =
    | LeaveOut(wrapper: WrapperId)   // mark_yolo_opt_in
    | LeaveIn(wrapper: WrapperId)    // mark_yolo_opt_out
    | DropOut(wrapper: WrapperId)    // drop_yolo_enrollment_for_wrapper
    | ClearOut                       // clear_yolo_enrollment

  datatype State = State(optIn: set<WrapperId>, optOut: set<WrapperId>, halves: map<TaskId, Half>)

  datatype Event =
    | MarkIn(task: TaskId, wrapper: WrapperId)
    | MarkOut(task: TaskId, wrapper: WrapperId)
    | DropWrapper(task: TaskId, wrapper: WrapperId)
    | ClearAll(task: TaskId)
    | Finish(task: TaskId)

  const INITIAL := State({}, {}, map[])

  function Step(s: State, e: Event): State {
    match e
    case Finish(t) =>
      if t !in s.halves then s
      else
        var rest := s.halves - {t};
        (match s.halves[t]
         case LeaveOut(w) => s.(optOut := s.optOut - {w}, halves := rest)
         case LeaveIn(w) => s.(optIn := s.optIn - {w}, halves := rest)
         case DropOut(w) => s.(optOut := s.optOut - {w}, halves := rest)
         case ClearOut => s.(optOut := {}, halves := rest))
    case MarkIn(t, w) =>
      if t in s.halves then s else s.(optIn := s.optIn + {w}, halves := s.halves[t := LeaveOut(w)])
    case MarkOut(t, w) =>
      if t in s.halves then s else s.(optOut := s.optOut + {w}, halves := s.halves[t := LeaveIn(w)])
    case DropWrapper(t, w) =>
      if t in s.halves then s else s.(optIn := s.optIn - {w}, halves := s.halves[t := DropOut(w)])
    case ClearAll(t) =>
      if t in s.halves then s else s.(optIn := {}, halves := s.halves[t := ClearOut])
  }

  function Exec(s: State, events: seq<Event>): State
    decreases |events|
  {
    if events == [] then s else Exec(Step(s, events[0]), events[1..])
  }

  predicate MidMark(s: State, t: TaskId, w: WrapperId) {
    t in s.halves && (s.halves[t] == LeaveOut(w) || s.halves[t] == LeaveIn(w))
  }

  /** Whoever is in both sets is about to leave one. */
  ghost predicate BothOnlyMidMark(s: State) {
    forall w :: w in s.optIn && w in s.optOut ==> exists t :: MidMark(s, t, w)
  }

  lemma BothOnlyMidMarkKept(s: State, e: Event)
    requires BothOnlyMidMark(s)
    ensures BothOnlyMidMark(Step(s, e))
  {
    var r := Step(s, e);
    forall w | w in r.optIn && w in r.optOut ensures exists t :: MidMark(r, t, w) {
      if w in s.optIn && w in s.optOut {
        var t :| MidMark(s, t, w);
        assert MidMark(r, t, w);
      } else {
        assert MidMark(r, e.task, w);
      }
    }
  }

  /** In every interleaving, a wrapper is both opted in and opted out only while some
      `mark_yolo_opt_*` call is between its two halves. */
  lemma {:induction false} EnrollmentExclusive(s: State, events: seq<Event>)
    requires BothOnlyMidMark(s)
    ensures BothOnlyMidMark(Exec(s, events))
    decreases |events|
  {
    if events != [] {
      BothOnlyMidMarkKept(s, events[0]);
      EnrollmentExclusive(Step(s, events[0]), events[1..]);
    }
  }

  // ── Where a wrapper ends up ──────────────────────────────────────

  predicate Decided(s: State, w: WrapperId) {
    w in s.optIn || w in s.optOut
  }

  /** The second half of a mark of `w` leaves it undecided exactly when the first half has been undone. */
  lemma SecondHalfDecides(s: State, t: TaskId, w: WrapperId)
    requires MidMark(s, t, w)
    ensures Decided(Step(s, Finish(t)), w)
       <==> !(s.halves[t] == LeaveOut(w) && w !in s.optIn) && !(s.halves[t] == LeaveIn(w) && w !in s.optOut)
  {
  }

  /** A half that will take `w` out of the opt-in set. */
  predicate LeavesIn(h: Half, w: WrapperId) { h == LeaveIn(w) }

  /** A half that will take `w` out of the opt-out set. */
  predicate LeavesOut(h: Half, w: WrapperId) { h == LeaveOut(w) || h == DropOut(w) || h == ClearOut }

  ghost predicate InUnderWay(s: State, w: WrapperId) {
    exists t :: t in s.halves && LeavesIn(s.halves[t], w)
  }

  ghost predicate OutUnderWay(s: State, w: WrapperId) {
    exists t :: t in s.halves && LeavesOut(s.halves[t], w)
  }

  /** No call that concerns `w` is between its halves. */
  ghost predicate Settled(s: State, w: WrapperId) {
    !InUnderWay(s, w) && !OutUnderWay(s, w)
  }

  /** The event begins a call that concerns `w`. */
  predicate Begins(e: Event, w: WrapperId) {
    match e
    case MarkIn(_, x) => x == w
    case MarkOut(_, x) => x == w
    case DropWrapper(_, x) => x == w
    case ClearAll(_) => true
    case Finish(_) => false
  }

  predicate NoneBegins(events: seq<Event>, w: WrapperId) {
    forall k :: 0 <= k < |events| ==> !Begins(events[k], w)
  }

  lemma StepSettles(s: State, e: Event, w: WrapperId)
    requires !Begins(e, w)
    ensures var r := Step(s, e);
            && (w in r.optIn && !InUnderWay(r, w) <==> w in s.optIn && !InUnderWay(s, w))
            && (w in r.optOut && !OutUnderWay(r, w) <==> w in s.optOut && !OutUnderWay(s, w))
  {
    var r := Step(s, e);
    forall t | t != e.task ensures (t in r.halves <==> t in s.halves)
      && (t in s.halves ==> r.halves[t] == s.halves[t]) {
    }
    if t :| t in s.halves && t != e.task && LeavesIn(s.halves[t], w) { assert LeavesIn(r.halves[t], w); }
    if t :| t in s.halves && t != e.task && LeavesOut(s.halves[t], w) { assert LeavesOut(r.halves[t], w); }
  }

  /** Once nothing new begins for `w`, it stays in a set if and only if no half under way takes it out. */
  lemma {:induction false} RunSettles(s: State, events: seq<Event>, w: WrapperId)
    requires NoneBegins(events, w) && Settled(Exec(s, events), w)
    ensures var r := Exec(s, events);
            && (w in r.optIn <==> w in s.optIn && !InUnderWay(s, w))
            && (w in r.optOut <==> w in s.optOut && !OutUnderWay(s, w))
    decreases |events|
  {
    if events != [] {
      StepSettles(s, events[0], w);
      RunSettles(Step(s, events[0]), events[1..], w);
    }
  }

  lemma {:induction false} ExecTwice(s: State, a: seq<Event>, b: seq<Event>)
    ensures Exec(s, a + b) == Exec(Exec(s, a), b)
    decreases |a|
  {
    if a == [] {
      assert a + b == b;
    } else {
      assert (a + b)[1..] == a[1..] + b;
      ExecTwice(Step(s, a[0]), a[1..], b);
    }
  }

  /** Over every interleaving, the last call to begin for `w` says where it ends up: a mark puts it in its
      set, unless a call that takes it out of that set was under way when the mark began; then, and after a
      drop or a clear, `w` ends undecided. */
  lemma LastCallDecides(before: seq<Event>, e: Event, after: seq<Event>, w: WrapperId)
    requires Begins(e, w) && e.task !in Exec(INITIAL, before).halves
    requires NoneBegins(after, w) && Settled(Exec(INITIAL, before + [e] + after), w)
    ensures var (s, r) := (Exec(INITIAL, before), Exec(INITIAL, before + [e] + after));
            && (w in r.optIn <==> e.MarkIn? && !InUnderWay(s, w))
            && (w in r.optOut <==> e.MarkOut? && !OutUnderWay(s, w))
  {
    var s := Exec(INITIAL, before);
    var begun := Step(s, e);
    ExecTwice(INITIAL, before, [e]);
    assert Exec(s, [e]) == Exec(begun, []);
    ExecTwice(INITIAL, before + [e], after);
    RunSettles(begun, after, w);
    BegunUnderWay(s, e, w);
  }

  /** The call that begins adds its own half to those under way. */
  lemma BegunUnderWay(s: State, e: Event, w: WrapperId)
    requires Begins(e, w) && e.task !in s.halves
    ensures InUnderWay(Step(s, e), w) <==> InUnderWay(s, w) || e.MarkOut?
    ensures OutUnderWay(Step(s, e), w) <==> OutUnderWay(s, w) || !e.MarkOut?
  {
    var r := Step(s, e);
    assert r.halves[e.task] == (match e
                                case MarkIn(_, x) => LeaveOut(x)
                                case MarkOut(_, x) => LeaveIn(x)
                                case DropWrapper(_, x) => DropOut(x)
                                case _ => ClearOut);
    assert forall t :: t in s.halves ==> t in r.halves && r.halves[t] == s.halves[t];
  }

  // ── Two opposite marks ───────────────────────────────────────────

  function Mark(intoIn: bool, t: TaskId, w: WrapperId): Event {
    if intoIn then MarkIn(t, w) else MarkOut(t, w)
  }

  predicate Concerns(h: Half, w: WrapperId) { LeavesIn(h, w) || LeavesOut(h, w) }

  /** Only task `t` may have a half under way that concerns `w`. */
  predicate Alone(s: State, t: TaskId, w: WrapperId) {
    forall u :: u in s.halves && u != t ==> !Concerns(s.halves[u], w)
  }

  /** While nothing new begins for `w`, the half of task `t` stays under way until `t` finishes it. */
  lemma {:induction false} HalfUnderWay(s: State, t: TaskId, events: seq<Event>, w: WrapperId)
    requires NoneBegins(events, w) && Alone(s, t, w) && t in s.halves && Concerns(s.halves[t], w)
    ensures var r := Exec(s, events);
            && Alone(r, t, w)
            && (Finish(t) !in events ==> t in r.halves && r.halves[t] == s.halves[t])
            && (Finish(t) in events && t in r.halves ==> !Concerns(r.halves[t], w))
    decreases |events|
  {
    if events != [] {
      HeadOrTail(events, Finish(t));
      var r := Step(s, events[0]);
      assert Alone(r, t, w);
      if events[0] == Finish(t) {
        HalfGone(r, t, events[1..], w);
      } else {
        HalfUnderWay(r, t, events[1..], w);
      }
    }
  }

  lemma {:induction false} HalfGone(s: State, t: TaskId, events: seq<Event>, w: WrapperId)
    requires NoneBegins(events, w) && Alone(s, t, w) && (t in s.halves ==> !Concerns(s.halves[t], w))
    ensures var r := Exec(s, events); Alone(r, t, w) && (t in r.halves ==> !Concerns(r.halves[t], w))
    decreases |events|
  {
    if events != [] { HalfGone(Step(s, events[0]), t, events[1..], w); }
  }

  lemma HeadOrTail(events: seq<Event>, e: Event)
    requires events != []
    ensures e in events <==> e == events[0] || e in events[1..]
  {
  }

  /** Two opposite marks of a wrapper nobody else works on, in either order and with either finishing first,
      leave it undecided if and only if the second began before the first finished. Otherwise the second
      mark stands. */
  lemma OppositeMarks(before: seq<Event>, intoIn: bool, t: TaskId, between: seq<Event>, u: TaskId, after: seq<Event>,
      w: WrapperId)
    requires Settled(Exec(INITIAL, before), w) && t !in Exec(INITIAL, before).halves
    requires NoneBegins(between, w) && NoneBegins(after, w)
    requires u !in Exec(INITIAL, before + [Mark(intoIn, t, w)] + between).halves
    requires Settled(Exec(INITIAL, before + [Mark(intoIn, t, w)] + between + [Mark(!intoIn, u, w)] + after), w)
    ensures var r := Exec(INITIAL, before + [Mark(intoIn, t, w)] + between + [Mark(!intoIn, u, w)] + after);
            && (!Decided(r, w) <==> Finish(t) !in between)
            && (Decided(r, w) ==> (w in r.optIn <==> !intoIn) && (w in r.optOut <==> intoIn))
  {
    var first := Mark(intoIn, t, w);
    var s0 := Exec(INITIAL, before);
    var s1 := Step(s0, first);
    ExecTwice(INITIAL, before, [first]);
    assert Exec(s0, [first]) == Exec(s1, []);
    ExecTwice(INITIAL, before + [first], between);
    forall x | x in s0.halves ensures !Concerns(s0.halves[x], w) {
      assert LeavesIn(s0.halves[x], w) ==> InUnderWay(s0, w);
      assert LeavesOut(s0.halves[x], w) ==> OutUnderWay(s0, w);
    }
    HalfUnderWay(s1, t, between, w);
    LastCallDecides(before + [first] + between, Mark(!intoIn, u, w), after, w);
  }

  /** A run of the kind: both calls have returned, and `w` is as if neither had been made. */
  lemma OverlappingMarksCancel(w: WrapperId)
    ensures Exec(INITIAL, [MarkIn(0, w), MarkOut(1, w), Finish(0), Finish(1)]) == INITIAL
  {
    var s1 := Step(INITIAL, MarkIn(0, w));
    var s2 := Step(s1, MarkOut(1, w));
    var s3 := Step(s2, Finish(0));
    var s4 := Step(s3, Finish(1));
    assert s4 == INITIAL;
    assert Exec(s3, [Finish(1)]) == s4;
    assert Exec(s2, [Finish(0), Finish(1)]) == s4;
    assert Exec(s1, [MarkOut(1, w), Finish(0), Finish(1)]) == s4;
  }
}

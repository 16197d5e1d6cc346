// The Auto-approve flag beside the two enrollment sets, at lock-section
// granularity (main.rs, hooks.rs, wrapper.rs). Whoever enrolls a wrapper reads
// the flag under one lock and marks under another; the event loop may switch the
// flag off, and clear both sets, in between.

module EnrollmentFlag {
  import opened Prelude
  import Locks = EnrollmentLocks

  type TaskId = Locks.TaskId

  datatype State = State(
    flag: bool,
    ready: map<TaskId, WrapperId>,  // the flag read as on, the mark still to come
    clearing: set<TaskId>,          // the flag written off, the clear still to come
    sets: Locks.State
  )

  datatype Event =
    | SwitchOn(task: TaskId, active: Option<WrapperId>)
    | SwitchOff(task: TaskId)
    | Clear(task: TaskId)
    | ReadFlag(task: TaskId, wrapper: WrapperId)
    | Mark(task: TaskId)
    | Other(call: Locks.Event)

  const INITIAL := State(false, map[], {}, Locks.INITIAL)

  predicate Idle(s: State, t: TaskId) {
    t !in s.ready && t !in s.clearing && t !in s.sets.halves
  }

  function Step(s: State, e: Event): State {
    match e
    case SwitchOn(t, active) =>
      if !Idle(s, t) then s
      else s.(flag := true, ready := if active.Some? then s.ready[t := active.value] else s.ready)
    case SwitchOff(t) => if !Idle(s, t) then s else s.(flag := false, clearing := s.clearing + {t})
    case Clear(t) =>
      if t !in s.clearing then s
      else s.(clearing := s.clearing - {t}, sets := Locks.Step(s.sets, Locks.ClearAll(t)))
    case ReadFlag(t, w) => if !Idle(s, t) || !s.flag then s else s.(ready := s.ready[t := w])
    case Mark(t) =>
      if t !in s.ready then s
      else s.(ready := s.ready - {t}, sets := Locks.Step(s.sets, Locks.MarkIn(t, s.ready[t])))
    case Other(call) =>
      // opting in and clearing go by way of the flag
      if call.MarkIn? || call.ClearAll? || (!call.Finish? && !Idle(s, call.task)) then s
      else s.(sets := Locks.Step(s.sets, call))
  }

  function Exec(s: State, events: seq<Event>): State
    decreases |events|
  {
    if events == [] then s else Exec(Step(s, events[0]), events[1..])
  }

  /** A task has one thing to do at a time. */
  predicate OneAtATime(s: State) {
    && (forall t :: t in s.ready ==> t !in s.clearing && t !in s.sets.halves)
    && (forall t :: t in s.clearing ==> t !in s.sets.halves)
  }

  /** Someone is opted in only while Auto-approve is on, or about to be cleared. */
  predicate OptInGuarded(s: State) {
    s.sets.optIn != {} ==> s.flag || s.clearing != {}
  }

  /** The mark of an approval that read the flag before it went off, after the sets were cleared. */
  predicate LateApproval(s: State, e: Event) {
    e.Mark? && e.task in s.ready && !s.flag && s.clearing == {}
  }

  lemma OneAtATimeKept(s: State, e: Event)
    requires OneAtATime(s)
    ensures OneAtATime(Step(s, e))
  {
  }

  /** A step leaves someone opted in without Auto-approve if and only if it is a late approval. */
  lemma OptInOutlivesExactlyByLateApproval(s: State, e: Event)
    requires OneAtATime(s) && OptInGuarded(s)
    ensures OptInGuarded(Step(s, e)) <==> !LateApproval(s, e)
  {
    if LateApproval(s, e) { assert s.ready[e.task] in Step(s, e).sets.optIn; }
  }

  ghost predicate NoLateApproval(s: State, events: seq<Event>)
    decreases |events|
  {
    events == [] || (!LateApproval(s, events[0]) && NoLateApproval(Step(s, events[0]), events[1..]))
  }

  lemma {:induction false} GuardedUnlessLate(s: State, events: seq<Event>)
    requires OneAtATime(s) && OptInGuarded(s) && NoLateApproval(s, events)
    ensures OneAtATime(Exec(s, events)) && OptInGuarded(Exec(s, events))
    decreases |events|
  {
    if events != [] {
      OneAtATimeKept(s, events[0]);
      OptInOutlivesExactlyByLateApproval(s, events[0]);
      GuardedUnlessLate(Step(s, events[0]), events[1..]);
    }
  }

  /** What task `t` still has to do stays to be done, whatever the others do. */
  lemma {:induction false} StillToDo(s: State, events: seq<Event>, t: TaskId)
    requires OneAtATime(s) && forall k :: 0 <= k < |events| ==> events[k] !in {Mark(t), Clear(t)}
    ensures var r := Exec(s, events);
            && OneAtATime(r) && (t in s.ready ==> t in r.ready && r.ready[t] == s.ready[t])
            && (t in s.clearing ==> t in r.clearing)
    decreases |events|
  {
    if events != [] {
      OneAtATimeKept(s, events[0]);
      assert events[0] !in {Mark(t), Clear(t)};
      var next := Step(s, events[0]);
      assert t in s.ready ==> t in next.ready && next.ready[t] == s.ready[t];
      assert t in s.clearing ==> t in next.clearing;
      hide Step, OneAtATime;
      StillToDo(next, events[1..], t);
    }
  }

  /** Whoever finds Auto-approve on, the switch itself or an approval, opts in the wrapper it had in mind, however late
      it comes to it; whoever switches it off empties the opt-ins. */
  lemma CallsGetDone(s: State, t: TaskId, w: WrapperId, between: seq<Event>)
    requires OneAtATime(s) && Idle(s, t) && forall k :: 0 <= k < |between| ==> between[k] !in {Mark(t), Clear(t)}
    ensures w in Step(Exec(Step(s, SwitchOn(t, Some(w))), between), Mark(t)).sets.optIn
    ensures s.flag ==> w in Step(Exec(Step(s, ReadFlag(t, w)), between), Mark(t)).sets.optIn
    ensures Step(Exec(Step(s, SwitchOff(t)), between), Clear(t)).sets.optIn == {}
  {
    OneAtATimeKept(s, SwitchOn(t, Some(w)));
    OneAtATimeKept(s, ReadFlag(t, w));
    OneAtATimeKept(s, SwitchOff(t));
    StillToDo(Step(s, SwitchOn(t, Some(w))), between, t);
    StillToDo(Step(s, ReadFlag(t, w)), between, t);
    StillToDo(Step(s, SwitchOff(t)), between, t);
  }

  lemma ExecMore(s: State, e: Event, rest: seq<Event>)
    ensures Exec(s, [e] + rest) == Exec(Step(s, e), rest)
  {
    assert ([e] + rest)[1..] == rest;
  }

  /** A run of the kind: every call has returned, Auto-approve is off, and `w` is opted in. */
  lemma ApprovalOutlivesSwitch(w: WrapperId)
    ensures exists events ::
              var s := Exec(INITIAL, events);
              !s.flag && s.sets == Locks.State({w}, {}, map[]) && s.ready == map[] && s.clearing == {}
  {
    var e0, e1, e2, e3 := SwitchOn(0, None), ReadFlag(1, w), SwitchOff(0), Clear(0);
    var e4, e5, e6 := Other(Locks.Finish(0)), Mark(1), Other(Locks.Finish(1));
    var s1 := Step(INITIAL, e0);
    var s2 := Step(s1, e1);
    var s3 := Step(s2, e2);
    var s4 := Step(s3, e3);
    var s5 := Step(s4, e4);
    assert s5 == State(false, map[1 := w], {}, Locks.INITIAL);
    var s6 := Step(s5, e5);
    var s7 := Step(s6, e6);
    assert s7 == State(false, map[], {}, Locks.State({w}, {}, map[]));
    hide Step;
    var events := [e0] + ([e1] + ([e2] + ([e3] + ([e4] + ([e5] + ([e6] + []))))));
    ExecMore(INITIAL, e0, [e1] + ([e2] + ([e3] + ([e4] + ([e5] + ([e6] + []))))));
    ExecMore(s1, e1, [e2] + ([e3] + ([e4] + ([e5] + ([e6] + [])))));
    ExecMore(s2, e2, [e3] + ([e4] + ([e5] + ([e6] + []))));
    ExecMore(s3, e3, [e4] + ([e5] + ([e6] + [])));
    ExecMore(s4, e4, [e5] + ([e6] + []));
    ExecMore(s5, e5, [e6] + []);
    ExecMore(s6, e6, []);
    assert Exec(INITIAL, events) == s7;
  }
}

// What a key press comes back with, in every interleaving (alerts.rs,
// `consume_input_for_decision`). The lock-section machine moves the alerts; here a
// history is kept beside it of what each press returned, since a caller routes the
// key on to the active session only when it comes back as passed through.

module AlertKeys {
  import opened Prelude
  import opened AlertTypes
  import opened AlertSections
  import opened AlertSafety
  import opened AlertLimits

  /** The result a section settles for its press; none if it leaves it to a later one. On a dismissed notice
      `env.ok` says whether its session is the active one. */
  function Settles(s: State, pc: Pc, env: Env): Option<KeyResult> {
    match pc
    case Snapshot(key) =>
      if key == OtherKey then Some(Passthrough)
      else if s.slot == Free then Some(if key == FocusKey then RaiseActive else Passthrough)
      else if key == FocusKey then Some(KeyResult.FocusSession(s.slot.Owner()))
      else if s.slot.Idle? && key != DismissKey then Some(Passthrough)
      else None
    case Decide(id, key) =>
      if !s.slot.Is(id) then Some(Consumed)
      else if s.slot.Idle? then Some(if env.ok then Passthrough else Consumed)
      else None
    case Resolve(_, _) => Some(Consumed)
    case _ => None
  }

  /** The machine, with the result of each task's latest press. */
  datatype Traced = Traced(state: State, results: map<TaskId, KeyResult>)

  const START := Traced(INITIAL, map[])

  function TracedStep(x: Traced, e: Event): Traced {
    var settled := if e.Run? && e.task in x.state.tasks then Settles(x.state, x.state.tasks[e.task], e.env) else None;
    Traced(Step(x.state, e),
           if e.Spawn? && e.task !in x.state.tasks then x.results - {e.task}
           else if settled.Some? then x.results[e.task := settled.value]
           else x.results)
  }

  function TracedExec(x: Traced, events: seq<Event>): Traced
    decreases |events|
  {
    if events == [] then x else TracedExec(TracedStep(x, events[0]), events[1..])
  }

  /** The history does not touch the machine. */
  lemma {:induction false} TraceFollows(x: Traced, events: seq<Event>)
    ensures TracedExec(x, events).state == Exec(x.state, events)
    decreases |events|
  {
    if events != [] {
      hide Step;
      TraceFollows(TracedStep(x, events[0]), events[1..]);
    }
  }

  lemma {:induction false} TracedTwice(x: Traced, a: seq<Event>, b: seq<Event>)
    ensures TracedExec(x, a + b) == TracedExec(TracedExec(x, a), b)
    decreases |a|
  {
    if a == [] {
      assert a + b == b;
    } else {
      assert (a + b)[1..] == a[1..] + b;
      hide TracedStep;
      TracedTwice(TracedStep(x, a[0]), a[1..], b);
    }
  }

  function TracedAt(events: seq<Event>, k: nat): Traced
    requires k <= |events|
  {
    TracedExec(START, events[..k])
  }

  lemma NextTraced(events: seq<Event>, k: nat)
    requires k < |events|
    ensures TracedAt(events, k + 1) == TracedStep(TracedAt(events, k), events[k])
    ensures TracedAt(events, k).state == At(events, k)
  {
    assert events[..k + 1] == events[..k] + [events[k]];
    TracedTwice(START, events[..k], [events[k]]);
    TraceFollows(START, events[..k]);
    hide TracedStep;
    assert TracedExec(TracedAt(events, k), [events[k]]) == TracedExec(TracedStep(TracedAt(events, k), events[k]), []);
  }

  /** The press of task `t` is over: it came back as consumed, and nothing but its own task moved. */
  predicate SwallowedBy(x: Traced, r: Traced, t: TaskId) {
    t in r.results && r.results[t] == Consumed && r.state == Done(x.state, t)
  }

  /** A press whose result is open has none on record. */
  ghost predicate OpenUnsettled(x: Traced) {
    forall t :: t in x.state.tasks && IsOpen(x.state.tasks[t]) ==> t !in x.results
  }

  predicate IsOpen(pc: Pc) { pc.Snapshot? || pc.Decide? || pc.Resolve? }

  lemma HandlerOpensNothing(s: State, t: TaskId, env: Env)
    requires t in s.tasks && OfHandler(s.tasks[t])
    ensures var r := HandlerSection(s, t, s.tasks[t], env); t in r.tasks ==> !IsOpen(r.tasks[t])
  {
  }

  lemma CancelOpensNothing(s: State, t: TaskId, env: Env)
    requires t in s.tasks && OfCancel(s.tasks[t])
    ensures var r := CancelSection(s, t, s.tasks[t], env); t in r.tasks ==> !IsOpen(r.tasks[t])
  {
  }

  lemma TabsOpensNothing(s: State, t: TaskId, env: Env)
    requires t in s.tasks && OfTabs(s.tasks[t])
    ensures var r := TabsSection(s, t, s.tasks[t], env); t in r.tasks ==> !IsOpen(r.tasks[t])
  {
  }

  lemma PromotionOpensNothing(s: State, t: TaskId, env: Env)
    requires t in s.tasks && OfPromotion(s.tasks[t])
    ensures var r := PromotionSection(s, t, s.tasks[t], env); t in r.tasks ==> !IsOpen(r.tasks[t])
  {
  }

  lemma IdleOpensNothing(s: State, t: TaskId, env: Env)
    requires t in s.tasks && OfIdle(s.tasks[t])
    ensures var r := IdleSection(s, t, s.tasks[t], env); t in r.tasks ==> !IsOpen(r.tasks[t])
  {
  }

  lemma KeyOpensOnlyUnsettled(s: State, t: TaskId, env: Env)
    requires t in s.tasks && OfKey(s.tasks[t])
    ensures var r := KeySection(s, t, s.tasks[t], env);
            t in r.tasks && IsOpen(r.tasks[t]) ==> IsOpen(s.tasks[t]) && Settles(s, s.tasks[t], env).None?
  {
  }

  lemma OpensOnlyItself(s: State, t: TaskId, env: Env)
    requires t in s.tasks
    ensures var r := Step(s, Run(t, env));
            t in r.tasks && IsOpen(r.tasks[t]) ==> IsOpen(s.tasks[t]) && Settles(s, s.tasks[t], env).None?
  {
    hide HandlerSection, CancelSection, KeySection, TabsSection, PromotionSection, IdleSection, Settles, IsOpen;
    if OfHandler(s.tasks[t]) { HandlerOpensNothing(s, t, env); }
    else if OfCancel(s.tasks[t]) { CancelOpensNothing(s, t, env); }
    else if OfKey(s.tasks[t]) { KeyOpensOnlyUnsettled(s, t, env); }
    else if OfTabs(s.tasks[t]) { TabsOpensNothing(s, t, env); }
    else if OfPromotion(s.tasks[t]) { PromotionOpensNothing(s, t, env); }
    else { IdleOpensNothing(s, t, env); }
  }

  lemma OpenUnsettledKept(x: Traced, e: Event)
    requires OpenUnsettled(x)
    ensures OpenUnsettled(TracedStep(x, e))
  {
    var r := TracedStep(x, e);
    if e.Run? && e.task in x.state.tasks { OpensOnlyItself(x.state, e.task, e.env); }
    forall t | t != e.task ensures (t in r.state.tasks <==> t in x.state.tasks)
      && (t in x.state.tasks ==> r.state.tasks[t] == x.state.tasks[t]) {
      StepKeepsOthers(x.state, e, t);
    }
    hide Step, Settles;
  }

  lemma {:induction false} OpenUnsettledAlways(x: Traced, events: seq<Event>)
    requires OpenUnsettled(x)
    ensures OpenUnsettled(TracedExec(x, events))
    decreases |events|
  {
    if events != [] {
      OpenUnsettledKept(x, events[0]);
      hide TracedStep, OpenUnsettled;
      OpenUnsettledAlways(TracedStep(x, events[0]), events[1..]);
    }
  }

  lemma DecideSettles(x: Traced, t: TaskId, env: Env, id: nat, key: Key)
    requires t in x.state.tasks && x.state.tasks[t] == Decide(id, key)
    ensures var r := TracedStep(x, Run(t, env));
            && (SwallowedBy(x, r, t) <==> !x.state.slot.Is(id))
            && (x.state.slot.Is(id) ==> r.state.slot == Free)
            && (!x.state.slot.Is(id) ==> t in r.results && r.results[t] == Consumed)
            && (t !in x.results && PassedThrough(r, t) ==> x.state.slot.Idle? && x.state.slot.Is(id) && env.ok)
  {
    if !x.state.slot.Is(id) { LateKeyPressIsSwallowed(x.state, t, id, key, env); }
  }

  predicate PassedThrough(x: Traced, t: TaskId) {
    t in x.results && x.results[t] == Passthrough
  }

  lemma SnapshotSees(s: State, t: TaskId, env: Env, id: nat, key: Key)
    requires t in s.tasks && s.tasks[t] == Snapshot(key)
    requires var r := Step(s, Run(t, env)); t in r.tasks && r.tasks[t] == Decide(id, key)
    ensures s.slot.Is(id) && (s.slot.Idle? ==> key == DismissKey)
  {
  }

  /** Over every run: a decision key that was classified at step `a` and is applied at step `b` comes back as
      consumed with nothing moved if and only if the alert it was aimed at left the slot in between. Only an
      Esc that dismisses a notice, still on the slot, is ever passed through. */
  lemma SwallowedExactlyWhenAlertLeft(events: seq<Event>, a: nat, b: nat, t: TaskId, id: nat, key: Key)
    requires a < b < |events| && events[a].Run? && events[b].Run? && events[a].task == t && events[b].task == t
    requires t in At(events, a).tasks && At(events, a).tasks[t] == Snapshot(key)
    requires t in At(events, a + 1).tasks && At(events, a + 1).tasks[t] == Decide(id, key)
    requires t in At(events, b).tasks && At(events, b).tasks[t] == Decide(id, key)
    ensures SwallowedBy(TracedAt(events, b), TracedAt(events, b + 1), t)
       <==> exists k :: a <= k <= b && At(events, k).slot != At(events, a).slot
    ensures !SwallowedBy(TracedAt(events, b), TracedAt(events, b + 1), t) ==> At(events, b + 1).slot == Free
    ensures PassedThrough(TracedAt(events, b + 1), t)
        ==> At(events, b).slot == At(events, a).slot && At(events, a).slot.Idle? && key == DismissKey
  {
    OpenUnsettledAlways(START, events[..b]);
    NextState(events, a);
    NextState(events, b);
    NextTraced(events, b);
    SnapshotSees(At(events, a), t, events[a].env, id, key);
    DecideSettles(TracedAt(events, b), t, events[b].env, id, key);
    hide TracedStep, Step, SwallowedBy, PassedThrough, TracedAt, At;
    if At(events, b).slot.Is(id) {
      forall k | a <= k <= b ensures At(events, k).slot == At(events, a).slot { OneInterval(events, a, k, b, id); }
    }
  }

  // ── A press that is swallowed ────────────────────────────────────

  ghost predicate TracedReachable(x: Traced) {
    exists events :: TracedExec(START, events) == x
  }

  lemma ReachableTraced(s: State) returns (x: Traced)
    requires Reachable(s)
    ensures TracedReachable(x) && x.state == s
  {
    var events :| Exec(INITIAL, events) == s;
    TraceFollows(START, events);
    x := TracedExec(START, events);
  }

  lemma PressSees(s: State, t: TaskId, key: Key) returns (r: State)
    requires Reachable(s) && t !in s.tasks && s.slot.Pending? && key != OtherKey && key != FocusKey
    ensures Reachable(r) && r == s.(tasks := s.tasks[t := Decide(s.slot.prompt.id, key)])
  {
    hide Reachable;
    r := Reach(s, Spawn(t, Snapshot(key)));
    r := Reach(r, Run(t, YES));
  }

  /** An Allow aimed at a prompt that times out under it meets the next prompt: it comes back as consumed, so
      it is not typed into any session, and the prompt it met stays live and unanswered. */
  lemma AllowIsSwallowed(a: Session, b: Session, body: Body)
    ensures exists x, met: Prompt ::
              && TracedReachable(x) && x.state.slot == Pending(met)
              && 2 in x.state.tasks && x.state.tasks[2].Decide? && x.state.tasks[2].key == AllowKey
                && x.state.tasks[2].id != met.id
              && SwallowedBy(x, TracedStep(x, Run(2, YES)), 2)
  {
    hide Reachable, TracedReachable, TracedStep, SwallowedBy;
    var first, second := Prompt(0, a, None, false, body), Prompt(1, b, None, false, body);
    var s := ParkTwo(a, b, body);
    s := PressSees(s, 2, AllowKey);
    assert TwoParked(s, first, second, map[2 := Decide(0, AllowKey)]);
    s := SecondTakesOver(s, first, second, Decide(0, AllowKey));
    var x := ReachableTraced(s);
    DecideSettles(x, 2, YES, 0, AllowKey);
  }
}

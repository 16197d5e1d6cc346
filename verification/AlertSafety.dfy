// What holds in every run of the alert engine, whatever order its lock
// sections interleave in. A run is any sequence of events from the initial
// state; `At(events, k)` is the state after its first `k` events.

module AlertSafety {
  import opened Prelude
  import opened AlertTypes
  import opened AlertSections

  function At(events: seq<Event>, k: nat): State
    requires k <= |events|
  {
    Exec(INITIAL, events[..k])
  }

  lemma {:induction false} ExecTwice(s: State, a: seq<Event>, b: seq<Event>)
    ensures Exec(s, a + b) == Exec(Exec(s, a), b)
    decreases |a|
  {
    if a == [] {
      assert a + b == b;
    } else {
      assert (a + b)[1..] == a[1..] + b;
      ExecTwice(Step(s, a[0]), a[1..], b);
    }
  }

  lemma NextState(events: seq<Event>, k: nat)
    requires k < |events|
    ensures At(events, k + 1) == Step(At(events, k), events[k])
  {
    assert events[..k + 1] == events[..k] + [events[k]];
    ExecTwice(INITIAL, events[..k], [events[k]]);
    assert Exec(At(events, k), [events[k]]) == Exec(Step(At(events, k), events[k]), []);
  }

  lemma InvAt(events: seq<Event>, k: nat)
    requires k <= |events|
    ensures Inv(At(events, k))
  {
    InvAlways(INITIAL, events[..k]);
  }

  // ── No lost wake-up ──────────────────────────────────────────────

  /** While the slot is free and prompts wait, some running task still owes a promotion. */
  lemma NoLostWakeUp(events: seq<Event>)
    ensures var s := Exec(INITIAL, events);
            s.slot == Free && s.queue != [] ==> exists t :: t in s.tasks && Owes(s.tasks[t])
  {
    InvAlways(INITIAL, events);
  }

  /** How often task `t` is scheduled. */
  function Turns(events: seq<Event>, t: TaskId): nat {
    if events == [] then 0
    else (if events[0].Run? && events[0].task == t then 1 else 0) + Turns(events[1..], t)
  }

  /** A bound on the sections an owing task needs before the slot fills or the queue empties. */
  function Distance(s: State, pc: Pc): nat {
    4 * |s.queue| + match pc
    case Resolve(_, _) => 4
    case HidClear(_) => 3
    case CheckClosed(_) => 3
    case PurgeQueue(_, _, _) => 2
    case Judge(_) => 2
    case PurgeIdle(_, _) => 1
    case Claim(_) => 1
    case _ => 0
  }

  lemma OwingTaskAdvances(s: State, t: TaskId, env: Env)
    requires t in s.tasks && Owes(s.tasks[t]) && s.slot == Free && s.queue != []
    ensures var r := Step(s, Run(t, env));
            r.slot != Free || r.queue == []
            || (t in r.tasks && Owes(r.tasks[t]) && Distance(r, r.tasks[t]) < Distance(s, s.tasks[t]))
  {
  }

  lemma NobodyQueues(s: State, u: TaskId, env: Env)
    requires u in s.tasks && s.slot == Free
    ensures |Section(s, u, s.tasks[u], env).queue| <= |s.queue| || Section(s, u, s.tasks[u], env).slot != Free
  {
  }

  /** While the slot is free nobody else pushes onto the queue, so whatever runs in between an owing task
      keeps its distance. */
  lemma OthersDoNotHinder(s: State, e: Event, t: TaskId)
    requires t in s.tasks && s.slot == Free && !(e.Run? && e.task == t)
    ensures var r := Step(s, e);
            r.slot != Free || (t in r.tasks && r.tasks[t] == s.tasks[t]
              && Distance(r, r.tasks[t]) <= Distance(s, s.tasks[t]))
  {
    hide HandlerSection, CancelSection, KeySection, TabsSection, PromotionSection, IdleSection;
    var r := Step(s, e);
    if e.Run? && e.task in s.tasks {
      NobodyQueues(s, e.task, e.env);
      OtherTasksKept(s.tasks, r.tasks, e.task, t);
    }
  }

  /** What is owed is delivered: however the other tasks run in between, an owing task that is scheduled often
      enough sees an alert go live or the queue run empty, whatever the device and the enrollment sets answer. */
  lemma {:induction false} OwedPromotionDelivers(s: State, t: TaskId, events: seq<Event>)
    requires t in s.tasks && Owes(s.tasks[t]) && Distance(s, s.tasks[t]) <= Turns(events, t)
    ensures exists k :: 0 <= k <= |events| && Delivered(Exec(s, events[..k]))
    decreases |events|
  {
    if Delivered(s) || events == [] {
      assert Exec(s, events[..0]) == s;
      if events == [] { NoDistanceLeft(s, t); }
    } else {
      var r := Step(s, events[0]);
      if events[0].Run? && events[0].task == t {
        OwingTaskAdvances(s, t, events[0].env);
      } else {
        OthersDoNotHinder(s, events[0], t);
      }
      hide Step;
      if Delivered(r) {
        assert events[..1] == [events[0]] && Exec(s, [events[0]]) == Exec(r, []);
      } else {
        OwedPromotionDelivers(r, t, events[1..]);
        var k :| 0 <= k <= |events[1..]| && Delivered(Exec(r, events[1..][..k]));
        assert events[..k + 1][1..] == events[1..][..k];
        assert Exec(s, events[..k + 1]) == Exec(r, events[1..][..k]);
      }
    }
  }

  /** An alert is live, or no prompt waits. */
  predicate Delivered(s: State) { s.slot != Free || s.queue == [] }

  lemma NoDistanceLeft(s: State, t: TaskId)
    requires t in s.tasks && Distance(s, s.tasks[t]) == 0
    ensures s.queue == []
  {
  }

  // ── Conservation of oneshots ─────────────────────────────────────

  predicate IsQueued(s: State, i: nat) {
    exists k :: 0 <= k < |s.queue| && s.queue[k].id == i
  }

  predicate CarriedBy(s: State, t: TaskId, i: nat) {
    t in s.tasks && Carries(s.tasks[t]) && s.tasks[t].prompt.id == i
  }

  ghost predicate IsCarried(s: State, i: nat) {
    exists t :: CarriedBy(s, t, i)
  }

  predicate IsSettled(s: State, i: nat) {
    i in s.log && Final(s.log[i].at)
  }

  ghost function PlacesOf(s: State, i: nat): nat {
    (if s.slot.Is(i) then 1 else 0) + (if IsQueued(s, i) then 1 else 0)
    + (if IsCarried(s, i) then 1 else 0) + (if IsSettled(s, i) then 1 else 0)
  }

  /** Every parked id is in exactly one place: live, queued, carried by a task, or answered or dropped;
      it is queued at most once and carried by at most one task. */
  lemma OneshotsConserved(events: seq<Event>, i: nat)
    requires var s := Exec(INITIAL, events); i in s.log && s.log[i].alert.Pending?
    ensures var s := Exec(INITIAL, events);
            && PlacesOf(s, i) == 1
            && (forall j, k :: 0 <= j < k < |s.queue| ==> !(s.queue[j].id == i && s.queue[k].id == i))
            && (forall t, u :: CarriedBy(s, t, i) && CarriedBy(s, u, i) ==> t == u)
  {
    InvAlways(INITIAL, events);
    var s := Exec(INITIAL, events);
    var e := s.log[i];
    forall j, k | 0 <= j < k < |s.queue| ensures !(s.queue[j].id == i && s.queue[k].id == i) {
      assert DifferentIds(s.queue[j], s.queue[k]);
    }
    forall k | 0 <= k < |s.queue| && s.queue[k].id == i ensures e.at == Queued {
      assert s.queue[k] in s.queue;
    }
    forall t | CarriedBy(s, t, i) ensures InSomeHand(e.at) && e.at.holder == t {
      assert CarriedAgrees(s, t, s.tasks[t].prompt);
    }
    if e.at == Queued {
      var k :| 0 <= k < |s.queue| && s.queue[k] == e.alert.prompt;
      assert IsQueued(s, i);
    } else if InSomeHand(e.at) {
      assert HolderAgrees(s, e);
      assert CarriedBy(s, e.at.holder, i);
    }
  }

  lemma GrownNext(events: seq<Event>, k: nat)
    requires k < |events|
    ensures Grown(At(events, k).log, At(events, k + 1).log)
  {
    InvAt(events, k);
    NextState(events, k);
    hide At, Step, Grown, SlotAgrees, QueueAgrees, HandsAgree, IdsAgree;
    HistoryGrows(At(events, k), events[k]);
  }

  lemma GrownAlready(a: map<nat, Entry>)
    ensures Grown(a, a)
  {
  }

  lemma {:induction false} GrownBetween(events: seq<Event>, a: nat, b: nat)
    requires a <= b <= |events|
    ensures Grown(At(events, a).log, At(events, b).log)
    decreases b
  {
    hide Grown, At;
    if a < b {
      GrownBetween(events, a, b - 1);
      GrownNext(events, b - 1);
      GrownTwice(At(events, a).log, At(events, b - 1).log, At(events, b).log);
    } else {
      GrownAlready(At(events, a).log);
    }
  }

  /** A oneshot is answered at most once: an answer or a drop is never revised. */
  lemma AnsweredOnce(events: seq<Event>, a: nat, b: nat, i: nat)
    requires a <= b <= |events| && i in At(events, a).log && Final(At(events, a).log[i].at)
    ensures i in At(events, b).log && At(events, b).log[i] == At(events, a).log[i]
  {
    GrownBetween(events, a, b);
  }

  // ── A key press resolves what it was aimed at ────────────────────

  /** An id occupies the slot for one contiguous interval of a run, always with the same alert. */
  lemma OneInterval(events: seq<Event>, a: nat, b: nat, c: nat, i: nat)
    requires a <= b <= c <= |events| && At(events, a).slot.Is(i) && At(events, c).slot.Is(i)
    ensures At(events, b).slot == At(events, a).slot
  {
    InvAt(events, a);
    InvAt(events, b);
    InvAt(events, c);
    GrownBetween(events, a, b);
    GrownBetween(events, b, c);
  }

  /** A decision key, classified against the alert it saw at step `a` and applied at step `b`, takes that
      very alert, which has stayed on the slot all the time in between. */
  lemma KeyPressHitsItsTarget(events: seq<Event>, a: nat, b: nat, t: TaskId, id: nat, key: Key)
    requires a < b < |events| && events[a].Run? && events[b].Run? && events[a].task == t && events[b].task == t
    requires t in At(events, a).tasks && At(events, a).tasks[t] == Snapshot(key)
    requires t in At(events, a + 1).tasks && At(events, a + 1).tasks[t] == Decide(id, key)
    requires t in At(events, b).tasks && At(events, b).tasks[t] == Decide(id, key)
    requires At(events, b + 1).slot != At(events, b).slot
    ensures forall k :: a <= k <= b ==> At(events, k).slot == At(events, a).slot
    ensures var seen := At(events, a).slot;
            seen.Pending? ==>
              t in At(events, b + 1).tasks && At(events, b + 1).tasks[t] == Resolve(seen.prompt, OutcomeOf(key))
  {
    NextState(events, a);
    NextState(events, b);
    assert At(events, a).slot.Is(id);
    assert At(events, b).slot.Is(id);
    forall k | a <= k <= b ensures At(events, k).slot == At(events, a).slot {
      OneInterval(events, a, k, b, id);
    }
  }

  /** If the alert changed in between, the press is swallowed: nothing but its own task moves. */
  lemma LateKeyPressIsSwallowed(s: State, t: TaskId, id: nat, key: Key, env: Env)
    requires t in s.tasks && s.tasks[t] == Decide(id, key) && !s.slot.Is(id)
    ensures Step(s, Run(t, env)) == s.(tasks := s.tasks - {t})
  {
  }

  // ── How far the queue can overshoot its cap ──────────────────────

  predicate IsPromoting(pc: Pc) { pc.CheckClosed? || pc.Judge? || pc.Claim? }

  /** The promotions in flight that hold a popped prompt. */
  function Promoters(s: State): set<TaskId> {
    set t | t in s.tasks && IsPromoting(s.tasks[t])
  }

  function Weight(s: State, t: TaskId): nat {
    |s.queue| + if t in s.tasks && IsPromoting(s.tasks[t]) then 1 else 0
  }

  lemma HandlerWeighs(s: State, t: TaskId, env: Env)
    requires t in s.tasks && OfHandler(s.tasks[t])
    ensures var r := HandlerSection(s, t, s.tasks[t], env);
            Weight(r, t) <= Weight(s, t) || |r.queue| <= PENDING_QUEUE_CAP
  {
  }

  lemma CancelWeighs(s: State, t: TaskId, env: Env)
    requires t in s.tasks && (OfCancel(s.tasks[t]) || OfTabs(s.tasks[t]))
    ensures Weight(Section(s, t, s.tasks[t], env), t) <= Weight(s, t)
  {
  }

  lemma KeyWeighs(s: State, t: TaskId, env: Env)
    requires t in s.tasks && OfKey(s.tasks[t])
    ensures Weight(KeySection(s, t, s.tasks[t], env), t) <= Weight(s, t)
  {
  }

  lemma PromotionWeighs(s: State, t: TaskId, env: Env)
    requires t in s.tasks && (OfPromotion(s.tasks[t]) || OfIdle(s.tasks[t]))
    ensures Weight(Section(s, t, s.tasks[t], env), t) <= Weight(s, t)
  {
  }

  /** Queue and hands together grow only by a push below the cap. */
  lemma QueueAndHands(s: State, e: Event)
    ensures var r := Step(s, e);
            |r.queue| + |Promoters(r)| <= |s.queue| + |Promoters(s)| || |r.queue| <= PENDING_QUEUE_CAP
  {
    hide HandlerSection, CancelSection, KeySection, TabsSection, PromotionSection, IdleSection;
    var r, t := Step(s, e), e.task;
    if e.Run? && t in s.tasks {
      if OfHandler(s.tasks[t]) { HandlerWeighs(s, t, e.env); }
      else if OfCancel(s.tasks[t]) || OfTabs(s.tasks[t]) { CancelWeighs(s, t, e.env); }
      else if OfKey(s.tasks[t]) { KeyWeighs(s, t, e.env); }
      else { PromotionWeighs(s, t, e.env); }
    } else {
      assert r.tasks - {t} == s.tasks - {t};
    }
    PromotersCounted(s, r, t);
  }

  lemma PromotersCounted(s: State, r: State, t: TaskId)
    requires OthersKept(s.tasks, r.tasks, t)
    ensures |Promoters(r)| + Weight(s, t) - |s.queue| == |Promoters(s)| + Weight(r, t) - |r.queue|
  {
    forall u | u != t ensures u in Promoters(r) <==> u in Promoters(s) {
      OtherTasksKept(s.tasks, r.tasks, t, u);
    }
    assert Promoters(r) - {t} == Promoters(s) - {t};
    assert |Promoters(r)| == |Promoters(r) - {t}| + if t in Promoters(r) then 1 else 0;
    assert |Promoters(s)| == |Promoters(s) - {t}| + if t in Promoters(s) then 1 else 0;
  }

  /** While at most `n` promotions are in flight, the queue and the prompts they hold never exceed the
      cap by more than `n`, in spite of the re-queue at the head that ignores the cap. */
  lemma {:induction false} QueueBounded(events: seq<Event>, n: nat)
    requires forall k :: 0 <= k <= |events| ==> |Promoters(At(events, k))| <= n
    ensures var s := Exec(INITIAL, events); |s.queue| + |Promoters(s)| <= PENDING_QUEUE_CAP + n
    decreases |events|
  {
    assert events[..|events|] == events;
    if events != [] {
      var before := events[..|events| - 1];
      forall k | 0 <= k <= |before| ensures |Promoters(At(before, k))| <= n {
        assert before[..k] == events[..k];
        assert |Promoters(At(events, k))| <= n;
      }
      QueueBounded(before, n);
      NextState(events, |before|);
      QueueAndHands(At(events, |before|), events[|before|]);
      assert |Promoters(At(events, |events|))| <= n;
    }
  }
}

// What the alert engine does not guarantee when its lock sections interleave:
// runs that break a plausible property, and the exact step that breaks it.

module AlertLimits {
  import opened Prelude
  import opened AlertTypes
  import opened AlertSections
  import opened AlertSafety

  ghost predicate Reachable(s: State) {
    exists events :: Exec(INITIAL, events) == s
  }

  lemma Reach(s: State, e: Event) returns (r: State)
    requires Reachable(s)
    ensures r == Step(s, e) && Reachable(r)
  {
    r := Step(s, e);
    var events :| Exec(INITIAL, events) == s;
    ExecTwice(INITIAL, events, [e]);
    assert Exec(s, [e]) == Exec(r, []);
    assert Exec(INITIAL, events + [e]) == r;
  }

  lemma StartReachable()
    ensures Reachable(INITIAL)
  {
    assert Exec(INITIAL, []) == INITIAL;
  }

  const YES := Env(true, Undecided, false)
  const TIMEOUT := Env(true, Undecided, true)

  // ── An idle notice can be stranded ───────────────────────────────

  /** Tasks that will still look at the idle queue while the slot is free. */
  predicate OwesIdle(pc: Pc) {
    Owes(pc) || pc.PeekSlot? || pc.PopIdle? || pc.VetIdle? || ((pc.ShowIdle? || pc.QueueIdle?) && pc.promoting)
  }

  ghost predicate NoticeAttended(s: State) {
    s.slot == Free && s.idle != [] ==> exists t :: t in s.tasks && OwesIdle(s.tasks[t])
  }

  /** `show_idle_alert` saw the slot busy, released the lock, and queues its notice only after the slot
      was cleared and every promotion is over. */
  ghost predicate QueuesTooLate(s: State, e: Event) {
    && e.Run? && e.task in s.tasks && s.tasks[e.task].QueueIdle? && !s.tasks[e.task].promoting && s.slot == Free
    && forall t :: t in s.tasks && t != e.task ==> !OwesIdle(s.tasks[t])
  }

  lemma ShowNotice(s: State, t: TaskId, n: Notice) returns (r: State)
    requires Reachable(s) && s.slot == Free && t !in s.tasks
    ensures Reachable(r) && r.slot == Idle(s.nextId, n.session) && r.tasks == s.tasks && r.queue == s.queue
        && r.idle == s.idle
  {
    hide Reachable;
    r := Reach(s, Spawn(t, ShowIdle(n, false)));
    r := Reach(r, Run(t, YES));
    assert r.tasks == s.tasks;
  }

  lemma FindSlotBusy(s: State, t: TaskId, n: Notice) returns (r: State)
    requires Reachable(s) && s.slot != Free && s.slot.Owner() != n.session && t !in s.tasks
    ensures Reachable(r) && r == s.(tasks := s.tasks[t := QueueIdle(n, false)])
  {
    hide Reachable;
    r := Reach(s, Spawn(t, ShowIdle(n, false)));
    r := Reach(r, Run(t, YES));
  }

  lemma PressDismiss(s: State, t: TaskId) returns (r: State)
    requires Reachable(s) && s.slot.Idle? && t !in s.tasks
    ensures Reachable(r) && r.slot == Free && r.tasks == s.tasks[t := HidClear(ThenPromote)] && r.queue == s.queue
        && r.idle == s.idle
  {
    hide Reachable;
    r := Reach(s, Spawn(t, Snapshot(DismissKey)));
    r := Reach(r, Run(t, YES));
    r := Reach(r, Run(t, YES));
  }

  lemma PopNothing(s: State, t: TaskId) returns (r: State)
    requires Reachable(s) && t in s.tasks && s.tasks[t] == HidClear(ThenPromote) && s.queue == []
    ensures Reachable(r) && r == Goto(s, t, PeekSlot)
  {
    hide Reachable;
    r := Reach(s, Run(t, YES));
    assert r == Goto(s, t, Pop);
    r := Reach(r, Run(t, YES));
    assert r.tasks == s.tasks[t := PeekSlot];
  }

  lemma PopNoNotice(s: State, t: TaskId) returns (r: State)
    requires Reachable(s) && t in s.tasks && s.tasks[t] == PeekSlot && s.slot == Free && s.idle == []
    ensures Reachable(r) && r == Done(s, t)
  {
    hide Reachable;
    r := Reach(s, Run(t, YES));
    assert r == Goto(s, t, PopIdle);
    r := Reach(r, Run(t, YES));
    assert r.tasks == s.tasks - {t};
  }

  /** A notice waits with the slot free and nobody left to show it. */
  lemma NoticeStranded(first: Notice, second: Notice)
    requires first.session != second.session
    ensures exists s :: Reachable(s) && s.slot == Free && s.idle == [second] && s.tasks == map[]
  {
    hide Step, Reachable;
    StartReachable();
    var s := ShowNotice(INITIAL, 0, first);
    s := FindSlotBusy(s, 1, second);
    s := PressDismiss(s, 2);
    s := PopNothing(s, 2);
    s := PopNoNotice(s, 2);
    assert s.tasks == map[1 := QueueIdle(second, false)];
    var r := QueueLate(s, 1, second);
    assert r.tasks == map[];
  }

  lemma QueueLate(s: State, t: TaskId, n: Notice) returns (r: State)
    requires Reachable(s) && t in s.tasks && s.tasks[t] == QueueIdle(n, false) && s.idle == []
    ensures Reachable(r) && r == s.(tasks := s.tasks - {t}, idle := [n])
  {
    hide Reachable;
    r := Reach(s, Run(t, YES));
  }

  /** What a section owes the idle queue; only the late `queue_idle` walks away from a free slot. */
  predicate NoNoticeLeft(s: State, t: TaskId, pc: Pc, r: State) {
    r.slot == Free && r.idle != [] && !(t in r.tasks && OwesIdle(r.tasks[t])) && !(pc.QueueIdle? && !pc.promoting) ==>
      s.slot == Free && s.idle != [] && !OwesIdle(pc)
  }

  lemma HandlerLeavesNoNotice(s: State, t: TaskId, env: Env)
    requires t in s.tasks && OfHandler(s.tasks[t])
    ensures NoNoticeLeft(s, t, s.tasks[t], HandlerSection(s, t, s.tasks[t], env))
  {
  }

  lemma CancelLeavesNoNotice(s: State, t: TaskId, env: Env)
    requires t in s.tasks && OfCancel(s.tasks[t])
    ensures NoNoticeLeft(s, t, s.tasks[t], CancelSection(s, t, s.tasks[t], env))
  {
  }

  lemma KeyLeavesNoNotice(s: State, t: TaskId, env: Env)
    requires t in s.tasks && OfKey(s.tasks[t])
    requires s.tasks[t].FocusClear? && s.slot.Is(s.tasks[t].id) ==> s.slot.Idle?
    ensures NoNoticeLeft(s, t, s.tasks[t], KeySection(s, t, s.tasks[t], env))
  {
  }

  lemma TabsLeaveNoNotice(s: State, t: TaskId, env: Env)
    requires t in s.tasks && OfTabs(s.tasks[t])
    ensures NoNoticeLeft(s, t, s.tasks[t], TabsSection(s, t, s.tasks[t], env))
  {
  }

  lemma PromotionLeavesNoNotice(s: State, t: TaskId, env: Env)
    requires t in s.tasks && OfPromotion(s.tasks[t])
    ensures NoNoticeLeft(s, t, s.tasks[t], PromotionSection(s, t, s.tasks[t], env))
  {
  }

  lemma IdleLeavesNoNotice(s: State, t: TaskId, env: Env)
    requires t in s.tasks && OfIdle(s.tasks[t])
    ensures NoNoticeLeft(s, t, s.tasks[t], IdleSection(s, t, s.tasks[t], env))
    ensures s.tasks[t].QueueIdle? ==> IdleSection(s, t, s.tasks[t], env).idle != []
  {
  }

  lemma StepLeavesNoNotice(s: State, e: Event)
    requires PlacesAgree(s) && FocusTargetsIdle(s) && e.Run? && e.task in s.tasks
    ensures NoNoticeLeft(s, e.task, s.tasks[e.task], Step(s, e))
    ensures s.tasks[e.task].QueueIdle? ==> Step(s, e).idle != []
  {
    hide HandlerSection, CancelSection, KeySection, TabsSection, PromotionSection, IdleSection;
    var t, pc, env := e.task, s.tasks[e.task], e.env;
    if OfHandler(pc) { HandlerLeavesNoNotice(s, t, env); }
    else if OfCancel(pc) { CancelLeavesNoNotice(s, t, env); }
    else if OfKey(pc) { KeyLeavesNoNotice(s, t, env); }
    else if OfTabs(pc) { TabsLeaveNoNotice(s, t, env); }
    else if OfPromotion(pc) { PromotionLeavesNoNotice(s, t, env); }
    else { IdleLeavesNoNotice(s, t, env); }
  }

  lemma StepKeepsOthers(s: State, e: Event, t: TaskId)
    requires t != e.task
    ensures var r := Step(s, e); (t in r.tasks <==> t in s.tasks) && (t in s.tasks ==> r.tasks[t] == s.tasks[t])
  {
    hide HandlerSection, CancelSection, KeySection, TabsSection, PromotionSection, IdleSection;
    var r := Step(s, e);
    if e.Spawn? || e.task !in s.tasks {
    } else {
      OtherTasksKept(s.tasks, r.tasks, e.task, t);
    }
  }

  /** A step strands a notice exactly when it queues one too late. */
  lemma StrandsExactlyWhenTooLate(s: State, e: Event)
    requires Inv(s) && NoticeAttended(s)
    ensures NoticeAttended(Step(s, e)) <==> !QueuesTooLate(s, e)
  {
    var r := Step(s, e);
    forall t | t != e.task ensures (t in r.tasks <==> t in s.tasks) && (t in s.tasks ==> r.tasks[t] == s.tasks[t]) {
      StepKeepsOthers(s, e, t);
    }
    if e.Run? && e.task in s.tasks {
      StepLeavesNoNotice(s, e);
      if s.tasks[e.task].QueueIdle? && !s.tasks[e.task].promoting { LateQueueEnds(s, e); }
      hide Step, Inv;
    } else {
      assert r.slot == s.slot && r.idle == s.idle;
      hide Step, Inv;
    }
  }

  lemma LateQueueEnds(s: State, e: Event)
    requires e.Run? && e.task in s.tasks
    requires s.tasks[e.task].QueueIdle? && !s.tasks[e.task].promoting
    ensures var r := Step(s, e); e.task !in r.tasks && r.slot == s.slot
  {
  }

  // ── A prompt can go live after its handler gave up ───────────────

  predicate AwaitedBy(s: State, t: TaskId, i: nat) {
    t in s.tasks && (s.tasks[t] == Parked(i) || s.tasks[t] == ClearIf(i))
  }

  /** A live prompt has a handler that awaits it or is about to clear it. */
  ghost predicate PromptAttended(s: State) {
    s.slot.Pending? ==> exists t :: AwaitedBy(s, t, s.slot.prompt.id)
  }

  /** A promoter claims the slot for a prompt whose handler has timed out, and has looked at the slot,
      since the promoter asked whether the receiver was closed. */
  ghost predicate ClaimsAbandoned(s: State, e: Event) {
    && e.Run? && e.task in s.tasks && s.tasks[e.task].Claim? && s.slot == Free && e.env.ok
    && forall t :: !AwaitedBy(s, t, s.tasks[e.task].prompt.id)
  }

  lemma ParkPrompt(s: State, t: TaskId, session: Session, body: Body) returns (r: State)
    requires Reachable(s) && t !in s.tasks && s.queue == []
    ensures var p := Prompt(s.nextId, session, None, false, body);
            && Reachable(r) && r.tasks == s.tasks[t := Parked(p.id)] && r.closed == s.closed && r.nextId == s.nextId + 1
            && r.slot == (if s.slot == Free then Pending(p) else s.slot)
            && r.queue == (if s.slot == Free then [] else [p])
  {
    hide Reachable;
    r := Reach(s, Spawn(t, Install(session, None, false, body)));
    r := Reach(r, Run(t, YES));
  }

  lemma PressDeny(s: State, t: TaskId) returns (r: State)
    requires Reachable(s) && s.slot.Pending? && t !in s.tasks
    ensures Reachable(r) && r.slot == Free && r.tasks == s.tasks[t := Pop] && r.queue == s.queue && r.closed == s.closed
  {
    hide Reachable;
    r := Reach(s, Spawn(t, Snapshot(DenyKey)));
    r := Reach(r, Run(t, YES));
    assert r == Goto(s, t, Decide(s.slot.prompt.id, DenyKey));
    r := TakePrompt(r, t, DenyKey);
    r := SendDecision(r, t, s.slot.prompt, Deny);
    assert r.tasks == s.tasks[t := Pop];
  }

  lemma TakePrompt(s: State, t: TaskId, key: Key) returns (r: State)
    requires Reachable(s) && s.slot.Pending? && t in s.tasks && s.tasks[t] == Decide(s.slot.prompt.id, key)
    ensures Reachable(r) && r.slot == Free && r.tasks == s.tasks[t := Resolve(s.slot.prompt, OutcomeOf(key))]
    ensures r.queue == s.queue && r.closed == s.closed
  {
    hide Reachable;
    r := Reach(s, Run(t, YES));
  }

  lemma SendDecision(s: State, t: TaskId, p: Prompt, outcome: Outcome) returns (r: State)
    requires Reachable(s) && t in s.tasks && s.tasks[t] == Resolve(p, outcome)
    ensures Reachable(r) && r.slot == s.slot && r.tasks == s.tasks[t := Pop] && r.queue == s.queue
        && r.closed == s.closed
  {
    hide Reachable;
    r := Reach(s, Run(t, YES));
    r := Reach(r, Run(t, YES));
    assert r.tasks == s.tasks[t := Pop];
  }

  lemma PopOpenPrompt(s: State, t: TaskId, p: Prompt) returns (r: State)
    requires Reachable(s) && t in s.tasks && s.tasks[t] == Pop && s.queue == [p] && p.id !in s.closed
    ensures Reachable(r) && r.slot == s.slot && r.tasks == s.tasks[t := Judge(p)] && r.closed == s.closed
  {
    hide Reachable;
    r := Reach(s, Run(t, YES));
    r := Reach(r, Run(t, YES));
  }

  lemma TimeOut(s: State, t: TaskId, i: nat) returns (r: State)
    requires Reachable(s) && t in s.tasks && s.tasks[t] == Parked(i) && !s.slot.Is(i)
    ensures Reachable(r) && r.slot == s.slot && r.tasks == s.tasks - {t} && r.closed == s.closed + {i}
  {
    hide Reachable;
    r := Reach(s, Run(t, TIMEOUT));
    r := Reach(r, Run(t, YES));
    assert r.tasks == s.tasks - {t};
  }

  lemma ClaimSlot(s: State, t: TaskId, p: Prompt) returns (r: State)
    requires Reachable(s) && t in s.tasks && s.tasks[t] == Judge(p) && s.slot == Free
    ensures Reachable(r) && r.slot == Pending(p) && r.tasks == s.tasks - {t} && r.closed == s.closed
  {
    hide Reachable;
    r := Reach(s, Run(t, YES));
    r := Reach(r, Run(t, YES));
    assert r.tasks == s.tasks - {t};
  }

  /** A prompt is live, its handler is gone, and no task is left to clear it. */
  lemma AbandonedPromptLive(a: Session, b: Session, body: Body)
    ensures exists s :: Reachable(s) && s.slot.Pending? && s.slot.prompt.id in s.closed && !PromptAttended(s)
  {
    hide Step, OutcomeOf, Reachable;
    StartReachable();
    var s := ParkPrompt(INITIAL, 0, a, body);
    s := ParkPrompt(s, 1, b, body);
    var p := s.queue[0];
    s := PressDeny(s, 2);
    s := PopOpenPrompt(s, 2, p);
    s := TimeOut(s, 1, p.id);
    s := ClaimSlot(s, 2, p);
    assert s.tasks == map[0 := Parked(0)];
  }

  /** How a section of task `t` can leave a prompt live, and what becomes of a handler. */
  predicate LiveAccounted(s: State, t: TaskId, pc: Pc, env: Env, r: State) {
    && (r.slot.Pending? ==>
          || r.slot == s.slot
          || (t in r.tasks && r.tasks[t] == Parked(r.slot.prompt.id))
          || (pc.Claim? && s.slot == Free && env.ok && r.slot.prompt == pc.prompt))
    && (pc.Claim? && s.slot == Free && env.ok ==> r.slot == Pending(pc.prompt) && t !in r.tasks)
    && ((pc.Parked? || pc.ClearIf?) && s.slot.Is(pc.id) && r.slot == s.slot
      ==> t in r.tasks && (r.tasks[t] == pc || r.tasks[t] == ClearIf(pc.id)))
  }

  lemma HandlerAccounts(s: State, t: TaskId, env: Env)
    requires t in s.tasks && OfHandler(s.tasks[t])
    ensures LiveAccounted(s, t, s.tasks[t], env, HandlerSection(s, t, s.tasks[t], env))
  {
  }

  lemma CancelAccounts(s: State, t: TaskId, env: Env)
    requires t in s.tasks && OfCancel(s.tasks[t])
    ensures LiveAccounted(s, t, s.tasks[t], env, CancelSection(s, t, s.tasks[t], env))
  {
  }

  lemma KeyAccounts(s: State, t: TaskId, env: Env)
    requires t in s.tasks && OfKey(s.tasks[t])
    ensures LiveAccounted(s, t, s.tasks[t], env, KeySection(s, t, s.tasks[t], env))
  {
  }

  lemma TabsAccount(s: State, t: TaskId, env: Env)
    requires t in s.tasks && OfTabs(s.tasks[t])
    ensures LiveAccounted(s, t, s.tasks[t], env, TabsSection(s, t, s.tasks[t], env))
  {
  }

  lemma PromotionAccounts(s: State, t: TaskId, env: Env)
    requires t in s.tasks && OfPromotion(s.tasks[t])
    ensures LiveAccounted(s, t, s.tasks[t], env, PromotionSection(s, t, s.tasks[t], env))
  {
  }

  lemma IdleAccounts(s: State, t: TaskId, env: Env)
    requires t in s.tasks && OfIdle(s.tasks[t])
    ensures LiveAccounted(s, t, s.tasks[t], env, IdleSection(s, t, s.tasks[t], env))
  {
  }

  lemma StepAccounts(s: State, e: Event)
    requires e.Run? && e.task in s.tasks
    ensures LiveAccounted(s, e.task, s.tasks[e.task], e.env, Step(s, e))
  {
    hide HandlerSection, CancelSection, KeySection, TabsSection, PromotionSection, IdleSection;
    var t, pc, env := e.task, s.tasks[e.task], e.env;
    if OfHandler(pc) { HandlerAccounts(s, t, env); }
    else if OfCancel(pc) { CancelAccounts(s, t, env); }
    else if OfKey(pc) { KeyAccounts(s, t, env); }
    else if OfTabs(pc) { TabsAccount(s, t, env); }
    else if OfPromotion(pc) { PromotionAccounts(s, t, env); }
    else { IdleAccounts(s, t, env); }
  }

  /** A step leaves a live prompt unattended exactly when it claims the slot for an abandoned one. */
  lemma AbandonsExactlyWhenClaimed(s: State, e: Event)
    requires PromptAttended(s)
    ensures PromptAttended(Step(s, e)) <==> !ClaimsAbandoned(s, e)
  {
    var r := Step(s, e);
    forall t | t != e.task ensures (t in r.tasks <==> t in s.tasks) && (t in s.tasks ==> r.tasks[t] == s.tasks[t]) {
      StepKeepsOthers(s, e, t);
    }
    if e.Run? && e.task in s.tasks {
      StepAccounts(s, e);
    } else {
      assert r.slot == s.slot;
    }
    hide Step;
    forall t, i | t != e.task ensures AwaitedBy(r, t, i) == AwaitedBy(s, t, i) {
    }
    if r.slot.Pending? && r.slot == s.slot {
      var t :| AwaitedBy(s, t, s.slot.prompt.id);
      assert AwaitedBy(r, t, r.slot.prompt.id);
    } else if r.slot.Pending? && e.task in r.tasks {
      assert AwaitedBy(r, e.task, r.slot.prompt.id);
    }
  }

  // ── A tab refresh can cancel an alert it did not look at ─────────

  /** The prompt on the slot times out, and its handler goes on to promote. */
  lemma TimeOutLive(s: State, t: TaskId, i: nat) returns (r: State)
    requires Reachable(s) && t in s.tasks && s.tasks[t] == Parked(i) && s.slot.Is(i)
    ensures Reachable(r) && r.slot == Free && r.tasks == s.tasks[t := Pop] && r.queue == s.queue
        && r.closed == s.closed + {i}
  {
    hide Reachable;
    r := Reach(s, Run(t, TIMEOUT));
    r := Reach(r, Run(t, YES));
    r := Reach(r, Run(t, YES));
    assert r.tasks == s.tasks[t := Pop];
  }

  /** Two prompts are parked, the first live; `waiter` is whatever task is at work on it. */
  predicate TwoParked(s: State, first: Prompt, second: Prompt, waiter: map<TaskId, Pc>) {
    && s.slot == Pending(first) && s.queue == [second] && first.id != second.id && second.id !in s.closed
    && s.tasks == map[0 := Parked(first.id), 1 := Parked(second.id)] + waiter
  }

  lemma ParkTwo(a: Session, b: Session, body: Body) returns (s: State)
    ensures Reachable(s)
    ensures TwoParked(s, Prompt(0, a, None, false, body), Prompt(1, b, None, false, body), map[])
  {
    hide Reachable;
    StartReachable();
    s := ParkPrompt(INITIAL, 0, a, body);
    s := ParkPrompt(s, 1, b, body);
    assert s.tasks == map[0 := Parked(0), 1 := Parked(1)] + map[];
  }

  /** The first prompt times out and the second takes its place, while task 2 stays where it is. */
  lemma SecondTakesOver(s: State, first: Prompt, second: Prompt, pc: Pc) returns (r: State)
    requires Reachable(s) && TwoParked(s, first, second, map[2 := pc])
    ensures Reachable(r) && r.slot == Pending(second) && r.tasks == map[1 := Parked(second.id), 2 := pc]
  {
    hide Reachable, Step;
    r := TimeOutLive(s, 0, first.id);
    r := PopOpenPrompt(r, 0, second);
    r := ClaimSlot(r, 0, second);
  }

  /** A refresh takes an alert off the slot although its session has a tab. */
  predicate TakesSeated(s: State, e: Event) {
    && e.Run? && e.task in s.tasks && s.tasks[e.task].RefreshAct?
    && s.slot != Free && Some(s.slot.Owner()) in s.tasks[e.task].tabs && Step(s, e).slot == Free
  }

  lemma RefreshSees(s: State, t: TaskId, tabs: seq<Option<Session>>) returns (r: State)
    requires Reachable(s) && t !in s.tasks && s.slot != Free && OnTabs(s.queue, tabs) == s.queue
    ensures Reachable(r) && r.slot == s.slot && r.queue == s.queue && r.closed == s.closed
    ensures r.tasks == s.tasks[t := RefreshAct(tabs, s.slot.Owner())]
  {
    hide Reachable, OnTabs;
    r := Reach(s, Spawn(t, Refresh(tabs)));
    r := Reach(r, Run(t, YES));
    r := Reach(r, Run(t, YES));
  }

  /** The wrapper of `a` goes; its prompt times out before the refresh has locked the slot again; and the
      refresh cancels the prompt of `b`, which has a tab. */
  lemma SeatedPromptCancelled(a: Session, b: Session, body: Body)
    requires a != b
    ensures exists s, e :: Reachable(s) && TakesSeated(s, e) && s.slot.Pending? && s.slot.Owner() == b
  {
    hide Reachable, TakesSeated;
    var first, second := Prompt(0, a, None, false, body), Prompt(1, b, None, false, body);
    var tabs := [Some(b)];
    var s := ParkTwo(a, b, body);
    OnlySeated(second, tabs);
    hide OnTabs;
    s := RefreshSees(s, 2, tabs);
    assert TwoParked(s, first, second, map[2 := RefreshAct(tabs, a)]);
    s := SecondTakesOver(s, first, second, RefreshAct(tabs, a));
    TakenFrom(s, 2, tabs, a);
  }

  lemma OnlySeated(p: Prompt, tabs: seq<Option<Session>>)
    requires tabs == [Some(p.session)]
    ensures OnTabs([p], tabs) == [p]
  {
    assert Some(p.session) == tabs[0];
  }

  lemma TakenFrom(s: State, t: TaskId, tabs: seq<Option<Session>>, peeked: Session)
    requires t in s.tasks && s.tasks[t] == RefreshAct(tabs, peeked) && Some(peeked) !in tabs
    requires s.slot != Free && Some(s.slot.Owner()) in tabs
    ensures TakesSeated(s, Run(t, YES))
  {
  }

  /** Over every run, a refresh that looked at the slot at step `a` and acts at step `b` cancels the alert of a
      session with a tab if and only if the session it looked at has none and the slot now holds an alert of
      one that has; that is never the alert it looked at. */
  lemma TakesSeatedExactlyWhenSwapped(events: seq<Event>, a: nat, b: nat, t: TaskId, tabs: seq<Option<Session>>,
      peeked: Session)
    requires a < b < |events| && events[a].Run? && events[a].task == t && events[b].Run? && events[b].task == t
    requires t in At(events, a).tasks && At(events, a).tasks[t] == RefreshPeek(tabs)
    requires t in At(events, a + 1).tasks && At(events, a + 1).tasks[t] == RefreshAct(tabs, peeked)
    requires t in At(events, b).tasks && At(events, b).tasks[t] == RefreshAct(tabs, peeked)
    ensures var (seen, met) := (At(events, a).slot, At(events, b).slot);
            && seen != Free
            && (TakesSeated(At(events, b), events[b]) <==>
                  Some(seen.Owner()) !in tabs && met != Free && Some(met.Owner()) in tabs)
            && (TakesSeated(At(events, b), events[b]) ==> met.Id() != seen.Id())
  {
    NextState(events, a);
    PeekedOwner(At(events, a), t, events[a].env, tabs, peeked);
    TakesSeatedStep(At(events, b), t, events[b].env, tabs, peeked);
    var seen, met := At(events, a).slot, At(events, b).slot;
    if met != Free && met.Id() == seen.Id() { OneInterval(events, a, b, b, seen.Id()); }
    hide At, TakesSeated, Step;
  }

  lemma PeekedOwner(s: State, t: TaskId, env: Env, tabs: seq<Option<Session>>, peeked: Session)
    requires t in s.tasks && s.tasks[t] == RefreshPeek(tabs)
    requires var r := Step(s, Run(t, env)); t in r.tasks && r.tasks[t] == RefreshAct(tabs, peeked)
    ensures s.slot != Free && s.slot.Owner() == peeked
  {
  }

  lemma TakesSeatedStep(s: State, t: TaskId, env: Env, tabs: seq<Option<Session>>, peeked: Session)
    requires t in s.tasks && s.tasks[t] == RefreshAct(tabs, peeked)
    ensures TakesSeated(s, Run(t, env)) <==> Some(peeked) !in tabs && s.slot != Free && Some(s.slot.Owner()) in tabs
  {
  }
}

// The alert engine at lock-section granularity (alerts.rs).
//
// Hook handlers, the HID event loop, timeouts and tab refreshes run
// concurrently. Each task is a program counter; one step of a task is one
// critical section, so other tasks may run between any two sections of the
// same function. A section that takes a second lock while it holds the first
// is one step: nobody can see the state in between.

module AlertSections {
  import opened Prelude
  import opened AlertTypes

  type TaskId = nat

  /** The alert slot, `DaemonState::alert_state`. */
  datatype Alert =
    | Free
    | Idle(id: nat, session: Session)
    | Pending(prompt: Prompt)
  {
    /** `guard.id()`, for an alert that is there. */
    function Id(): nat
      requires this != Free
    {
      if Idle? then id else prompt.id
    }

    /** `guard.id() == Some(i)` */
    predicate Is(i: nat) { this != Free && Id() == i }

    function Owner(): Session
      requires this != Free
    {
      if Idle? then session else prompt.session
    }
  }

  /** Where an issued alert id is. Only the history keeps this map; no section branches on it except
      to ask whether the oneshot of a parked handler has been answered or dropped. */
  datatype Place =
    | Queued
    | Held(holder: TaskId)      // popped by a promoter
    | Live
    | Taken(holder: TaskId)     // taken off the slot by a key press, not yet sent
    | Answered(outcome: Outcome)
    | Dropped

  datatype Entry = Entry(alert: Alert, at: Place)

  /** What a task does once it has cleared the device tab of the alert it removed. */
  datatype After = ThenPromote | ThenPurge(session: Session, alsoIdle: bool)

  /** The next critical section of a task. */
  datatype Pc =
    // install_pending_alert, then the parked handler
    | Install(session: Session, tool: Option<string>, enrollment: bool, body: Body)
    | Parked(id: nat)
    | ClearIf(id: nat)
    // cancel_for_session_progress, cancel_idle_for_session, cancel_pending_*
    | Progress(session: Session)
    | FocusIn(session: Session)
    | CancelIdle(session: Session)
    | CancelPending(session: Session, tool: Option<string>)
    | HidClear(after: After)
    | PurgeQueue(session: Session, alsoIdle: bool, cleared: bool)
    | PurgeIdle(session: Session, cleared: bool)
    // consume_input_for_decision
    | Snapshot(key: Key)
    | FocusClear(id: nat)
    | Decide(id: nat, key: Key)
    | Resolve(prompt: Prompt, outcome: Outcome)
    // refresh_for_tabs
    | Refresh(tabs: seq<Option<Session>>)
    | RefreshPeek(tabs: seq<Option<Session>>)
    | RefreshAct(tabs: seq<Option<Session>>, peeked: Session)
    // try_install_next_pending
    | Pop
    | CheckClosed(prompt: Prompt)
    | Judge(prompt: Prompt)
    | Claim(prompt: Prompt)
    // promote_queued_idle, show_idle_alert, queue_idle
    | PeekSlot
    | PopIdle
    | VetIdle(notice: Notice)
    | ShowIdle(notice: Notice, promoting: bool)
    | QueueIdle(notice: Notice, promoting: bool)
    // reset_for_disconnect
    | Reset

  /** What a section reads from locks this machine does not keep: whether the device took a send or a
      check passed, what the enrollment sets say, whether the five minutes are over. */
  datatype Verdict = Enrolled | Declined | Undecided
  datatype Env = Env(ok: bool, verdict: Verdict, timeout: bool)

  datatype State = State(
    slot: Alert,
    queue: seq<Prompt>,
    idle: seq<Notice>,
    tasks: map<TaskId, Pc>,
    nextId: nat,
    closed: set<nat>,           // ids whose receiver is gone
    log: map<nat, Entry>        // history: the alert each id was issued for, and where it is now
  )

  const INITIAL := State(Free, [], [], map[], 0, {}, map[])

  datatype Event = Spawn(task: TaskId, entry: Pc) | Run(task: TaskId, env: Env)

  /** The sections at which the public functions start. */
  predicate IsEntry(pc: Pc) {
    pc.Install? || pc.Progress? || pc.FocusIn? || pc.CancelPending? || pc.Snapshot? || pc.Refresh? || pc.Reset?
    || (pc.ShowIdle? && !pc.promoting)
  }

  /** A section moves its own task only. */
  predicate OthersKept(a: map<TaskId, Pc>, b: map<TaskId, Pc>, t: TaskId) {
    a - {t} == b - {t}
  }

  function Goto(s: State, t: TaskId, pc: Pc): State { s.(tasks := s.tasks[t := pc]) }

  function Done(s: State, t: TaskId): State { s.(tasks := s.tasks - {t}) }

  /** The history moves `alert` to another place. */
  function Mark(s: State, alert: Alert, at: Place): State
    requires alert != Free
  {
    s.(log := s.log[alert.Id() := Entry(alert, at)])
  }

  /** Stamp the next id on `alert`. */
  function Issue(s: State, alert: Alert, at: Place): State
    requires alert != Free
  {
    Mark(s, alert, at).(nextId := s.nextId + 1)
  }

  /** Sending on a oneshot reaches the handler only while its receiver is there. */
  function Send(s: State, p: Prompt, outcome: Outcome): State {
    Mark(s, Pending(p), if p.id in s.closed then Dropped else Answered(outcome))
  }

  /** `*guard = AlertState::None`: whatever was live is dropped. */
  function Vacate(s: State): State {
    if s.slot == Free then s else Mark(s, s.slot, Dropped).(slot := Free)
  }

  /** Replace the queue by some of its entries; the senders of the others are dropped. */
  function Retain(s: State, kept: seq<Prompt>): State {
    s.(queue := kept,
       log := map i | i in s.log ::
         if s.log[i].at == Queued && !(s.log[i].alert.Pending? && s.log[i].alert.prompt in kept)
         then s.log[i].(at := Dropped) else s.log[i])
  }

  predicate OfHandler(pc: Pc) { pc.Install? || pc.Parked? || pc.ClearIf? }

  predicate OfCancel(pc: Pc) {
    pc.Progress? || pc.FocusIn? || pc.CancelIdle? || pc.CancelPending? || pc.HidClear? || pc.PurgeQueue?
      || pc.PurgeIdle?
  }

  predicate OfKey(pc: Pc) { pc.Snapshot? || pc.FocusClear? || pc.Decide? || pc.Resolve? }

  predicate OfTabs(pc: Pc) { pc.Refresh? || pc.RefreshPeek? || pc.RefreshAct? || pc.Reset? }

  predicate OfPromotion(pc: Pc) { pc.Pop? || pc.CheckClosed? || pc.Judge? || pc.Claim? }

  predicate OfIdle(pc: Pc) { pc.PeekSlot? || pc.PopIdle? || pc.VetIdle? || pc.ShowIdle? || pc.QueueIdle? }

  /** `install_pending_alert`, the parked handler and `clear_alert_if`. */
  function HandlerSection(s: State, t: TaskId, pc: Pc, env: Env): (r: State)
    requires OfHandler(pc)
    ensures OthersKept(s.tasks, r.tasks, t)
  {
    match pc
    case Install(session, tool, enrollment, body) =>
      var p := Prompt(s.nextId, session, tool, enrollment, body);
      if s.slot != Free then
        if |s.queue| >= PENDING_QUEUE_CAP then Done(s, t)
        else Goto(Issue(s, Pending(p), Queued).(queue := s.queue + [p]), t, Parked(p.id))
      else if !env.ok then Done(s, t)
      else Goto(Issue(s, Pending(p), Live).(slot := Pending(p)), t, Parked(p.id))
    case Parked(id) =>
      if env.timeout || (id in s.log && (s.log[id].at.Answered? || s.log[id].at.Dropped?))
      then Goto(s.(closed := s.closed + {id}), t, ClearIf(id))
      else s
    case ClearIf(id) =>
      if s.slot.Is(id) then Goto(Vacate(s), t, HidClear(ThenPromote)) else Done(s, t)
  }

  /** The `cancel_*` functions and the device write after any clear. */
  function CancelSection(s: State, t: TaskId, pc: Pc, env: Env): (r: State)
    requires OfCancel(pc)
    ensures OthersKept(s.tasks, r.tasks, t)
  {
    match pc
    case Progress(session) =>
      if s.slot != Free && s.slot.Owner() == session then Goto(Vacate(s), t, HidClear(ThenPurge(session, true)))
      else Goto(s, t, PurgeQueue(session, true, false))
    case FocusIn(session) => Goto(s.(idle := NoticesWithout(s.idle, session)), t, CancelIdle(session))
    case CancelIdle(session) =>
      if s.slot.Idle? && s.slot.session == session then Goto(Vacate(s), t, HidClear(ThenPromote)) else Done(s, t)
    case CancelPending(session, tool) =>
      if s.slot.Pending? && s.slot.prompt.session == session && (tool == None || s.slot.prompt.tool == tool) then
        Goto(Vacate(s), t, HidClear(if tool == None then ThenPurge(session, false) else ThenPromote))
      else if tool == None then Goto(s, t, PurgeQueue(session, false, false))
      else Done(s, t)
    case HidClear(after) =>
      (match after
       case ThenPromote => Goto(s, t, Pop)
       case ThenPurge(session, alsoIdle) => Goto(s, t, PurgeQueue(session, alsoIdle, true)))
    case PurgeQueue(session, alsoIdle, cleared) =>
      var r := Retain(s, WithoutSession(s.queue, session));
      if alsoIdle then Goto(r, t, PurgeIdle(session, cleared))
      else if cleared then Goto(r, t, Pop)
      else Done(r, t)
    case PurgeIdle(session, cleared) =>
      var r := s.(idle := NoticesWithout(s.idle, session));
      if cleared then Goto(r, t, Pop) else Done(r, t)
  }

  /** `consume_input_for_decision`. */
  function KeySection(s: State, t: TaskId, pc: Pc, env: Env): (r: State)
    requires OfKey(pc)
    ensures OthersKept(s.tasks, r.tasks, t)
  {
    match pc
    case Snapshot(key) =>
      if key == OtherKey || s.slot == Free then Done(s, t)
      else if key == FocusKey then if s.slot.Idle? then Goto(s, t, FocusClear(s.slot.id)) else Done(s, t)
      else if s.slot.Idle? && key != DismissKey then Done(s, t)
      else Goto(s, t, Decide(s.slot.Id(), key))
    case FocusClear(id) =>
      if !s.slot.Is(id) then Done(s, t)
      else if s.slot.Idle? then Goto(Vacate(s), t, HidClear(ThenPromote))
      else Done(Vacate(s), t) // the taken alert falls out of the `if let`: nobody would promote
    case Decide(id, key) =>
      if !s.slot.Is(id) then Done(s, t)
      else if s.slot.Idle? then Goto(Vacate(s), t, HidClear(ThenPromote))
      else Goto(Mark(s, s.slot, Taken(t)).(slot := Free), t, Resolve(s.slot.prompt, OutcomeOf(key)))
    case Resolve(p, outcome) => Goto(Send(s, p, outcome), t, HidClear(ThenPromote))
  }

  /** `refresh_for_tabs` and `reset_for_disconnect`. */
  function TabsSection(s: State, t: TaskId, pc: Pc, env: Env): (r: State)
    requires OfTabs(pc)
    ensures OthersKept(s.tasks, r.tasks, t)
  {
    match pc
    case Refresh(tabs) => Goto(Retain(s, OnTabs(s.queue, tabs)), t, RefreshPeek(tabs))
    case RefreshPeek(tabs) =>
      if s.slot == Free then Goto(s, t, Pop) else Goto(s, t, RefreshAct(tabs, s.slot.Owner()))
    case RefreshAct(tabs, peeked) =>
      if Some(peeked) !in tabs then Goto(Vacate(s), t, HidClear(ThenPromote)) else Done(s, t)
    case Reset => Done(Retain(Vacate(s), []).(idle := []), t)
  }

  /** `try_install_next_pending`. */
  function PromotionSection(s: State, t: TaskId, pc: Pc, env: Env): (r: State)
    requires OfPromotion(pc)
    ensures OthersKept(s.tasks, r.tasks, t)
  {
    match pc
    case Pop =>
      if s.queue == [] then Goto(s, t, PeekSlot)
      else
        var p := s.queue[0];
        Goto(Mark(s, Pending(p), Held(t)).(queue := s.queue[1..]), t, CheckClosed(p))
    case CheckClosed(p) =>
      if p.id in s.closed then Goto(Mark(s, Pending(p), Dropped), t, Pop) else Goto(s, t, Judge(p))
    case Judge(p) =>
      if !NeedsUser(p) && env.verdict == Enrolled then Goto(Send(s, p, Allow), t, Pop)
      else if !NeedsUser(p) && env.verdict == Declined then Goto(Mark(s, Pending(p), Dropped), t, Pop)
      else Goto(s, t, Claim(p))
    case Claim(p) =>
      if s.slot != Free then Done(Mark(s, Pending(p), Queued).(queue := [p] + s.queue), t)
      else if env.ok then Done(Mark(s, Pending(p), Live).(slot := Pending(p)), t)
      else Goto(Mark(s, Pending(p), Dropped), t, Pop)
  }

  /** `promote_queued_idle`, `show_idle_alert` and `queue_idle`. */
  function IdleSection(s: State, t: TaskId, pc: Pc, env: Env): (r: State)
    requires OfIdle(pc)
    ensures OthersKept(s.tasks, r.tasks, t)
  {
    match pc
    case PeekSlot => if s.slot != Free then Done(s, t) else Goto(s, t, PopIdle)
    case PopIdle =>
      if s.idle == [] then Done(s, t) else Goto(s.(idle := s.idle[1..]), t, VetIdle(s.idle[0]))
    case VetIdle(n) => if env.ok then Goto(s, t, ShowIdle(n, true)) else Goto(s, t, PeekSlot)
    case ShowIdle(n, promoting) =>
      if s.slot == Free || (s.slot.Idle? && s.slot.session == n.session) then
        var alert := Idle(s.nextId, n.session);
        var r := if env.ok then Issue(Vacate(s), alert, Live).(slot := alert) else s;
        if promoting then Goto(r, t, PeekSlot) else Done(r, t)
      else Goto(s, t, QueueIdle(n, promoting))
    case QueueIdle(n, promoting) =>
      var r := s.(idle := Enqueue(s.idle, n));
      if promoting then Goto(r, t, PeekSlot) else Done(r, t)
  }

  /** One critical section of task `t`. */
  function Section(s: State, t: TaskId, pc: Pc, env: Env): State {
    if OfHandler(pc) then HandlerSection(s, t, pc, env)
    else if OfCancel(pc) then CancelSection(s, t, pc, env)
    else if OfKey(pc) then KeySection(s, t, pc, env)
    else if OfTabs(pc) then TabsSection(s, t, pc, env)
    else if OfPromotion(pc) then PromotionSection(s, t, pc, env)
    else IdleSection(s, t, pc, env)
  }

  /** Any task may be started or scheduled at any time. */
  function Step(s: State, e: Event): State {
    match e
    case Spawn(t, entry) => if t in s.tasks || !IsEntry(entry) then s else Goto(s, t, entry)
    case Run(t, env) => if t in s.tasks then Section(s, t, s.tasks[t], env) else s
  }

  function Exec(s: State, events: seq<Event>): State
    decreases |events|
  {
    if events == [] then s else Exec(Step(s, events[0]), events[1..])
  }

  // ── Invariants ───────────────────────────────────────────────────

  /** Promoters and resolvers carry a prompt between two sections. */
  predicate Carries(pc: Pc) {
    pc.CheckClosed? || pc.Judge? || pc.Claim? || pc.Resolve?
  }

  /** Tasks that will still run the pop of `try_install_next_pending`. */
  predicate Owes(pc: Pc) {
    pc.HidClear? || pc.Resolve? || pc.Pop? || pc.CheckClosed? || pc.Judge? || pc.Claim?
    || ((pc.PurgeQueue? || pc.PurgeIdle?) && pc.cleared)
  }

  ghost predicate WakeUpOwed(s: State) {
    s.slot == Free && s.queue != [] ==> exists t :: t in s.tasks && Owes(s.tasks[t])
  }

  ghost predicate IdsAgree(s: State) {
    forall i :: i in s.log ==> i < s.nextId && s.log[i].alert.Is(i)
  }

  ghost predicate SlotAgrees(s: State) {
    && (s.slot != Free ==> s.slot.Id() in s.log && s.log[s.slot.Id()] == Entry(s.slot, Live))
    && (forall i :: i in s.log && s.log[i].at == Live ==> s.slot == s.log[i].alert)
  }

  ghost predicate QueueAgrees(s: State) {
    && (forall p :: p in s.queue ==> p.id in s.log && s.log[p.id] == Entry(Pending(p), Queued))
    && (forall i :: i in s.log && s.log[i].at == Queued ==> s.log[i].alert.Pending? && s.log[i].alert.prompt in s.queue)
  }

  ghost predicate HandsAgree(s: State) {
    && (forall t :: t in s.tasks && Carries(s.tasks[t]) ==> CarriedAgrees(s, t, s.tasks[t].prompt))
    && (forall i :: i in s.log && InSomeHand(s.log[i].at) ==> HolderAgrees(s, s.log[i]))
  }

  predicate InSomeHand(at: Place) { at.Held? || at.Taken? }

  ghost predicate CarriedAgrees(s: State, t: TaskId, p: Prompt)
    requires t in s.tasks
  {
    p.id in s.log && s.log[p.id] == Entry(Pending(p), if s.tasks[t].Resolve? then Taken(t) else Held(t))
  }

  ghost predicate HolderAgrees(s: State, e: Entry)
    requires InSomeHand(e.at)
  {
    var t := e.at.holder;
    t in s.tasks && Carries(s.tasks[t]) && e.alert == Pending(s.tasks[t].prompt)
  }

  /** The history agrees with the slot, the queue and the tasks, in both directions. */
  ghost predicate PlacesAgree(s: State) {
    IdsAgree(s) && SlotAgrees(s) && QueueAgrees(s) && HandsAgree(s)
  }

  /** The Claude button only ever clears the idle alert it saw. */
  ghost predicate FocusTargetsIdle(s: State) {
    forall t :: t in s.tasks && s.tasks[t].FocusClear? ==>
      s.tasks[t].id in s.log && s.log[s.tasks[t].id].alert.Idle?
  }

  ghost predicate Inv(s: State) {
    PlacesAgree(s) && Ordered(s.queue, DifferentIds) && FocusTargetsIdle(s) && WakeUpOwed(s)
  }

  // Each section changes the slot, the queue or the history, and then moves its own task.

  lemma TaskMoved(s: State, t: TaskId, r: State)
    requires PlacesAgree(s) && (t in s.tasks ==> !Carries(s.tasks[t]))
    requires r.slot == s.slot && r.queue == s.queue && r.log == s.log && r.nextId == s.nextId
    requires r.tasks - {t} == s.tasks - {t}
    requires t in r.tasks ==> !Carries(r.tasks[t])
    ensures PlacesAgree(r)
  {
    forall u | u in r.tasks && u != t ensures u in s.tasks && s.tasks[u] == r.tasks[u] {
      assert u in (r.tasks - {t});
    }
    forall u | u in s.tasks && u != t ensures u in r.tasks && s.tasks[u] == r.tasks[u] {
      assert u in (s.tasks - {t});
    }
  }

  /** What tasks carry does not depend on the slot or the queue. */
  lemma HandsUntouched(s: State, r: State)
    requires HandsAgree(s) && r.tasks == s.tasks
    requires forall i :: i in r.log && InSomeHand(r.log[i].at) ==> i in s.log && s.log[i] == r.log[i]
    requires forall i :: i in s.log && InSomeHand(s.log[i].at) ==> i in r.log && s.log[i] == r.log[i]
    ensures HandsAgree(r)
  {
    forall t | t in r.tasks && Carries(r.tasks[t]) ensures CarriedAgrees(r, t, r.tasks[t].prompt) {
      assert CarriedAgrees(s, t, s.tasks[t].prompt);
    }
    forall i | i in r.log && InSomeHand(r.log[i].at) ensures HolderAgrees(r, r.log[i]) {
      assert HolderAgrees(s, s.log[i]);
    }
  }

  lemma SlotVacated(s: State)
    requires PlacesAgree(s)
    ensures PlacesAgree(Vacate(s))
  {
    hide HandsAgree;
    HandsUntouched(s, Vacate(s));
  }

  lemma RetainedQueueAgrees(s: State, kept: seq<Prompt>)
    requires QueueAgrees(s) && forall p :: p in kept ==> p in s.queue
    ensures QueueAgrees(Retain(s, kept))
  {
  }

  lemma RetainedSlotAgrees(s: State, kept: seq<Prompt>)
    requires IdsAgree(s) && SlotAgrees(s)
    ensures IdsAgree(Retain(s, kept)) && SlotAgrees(Retain(s, kept))
  {
  }

  lemma QueueRetained(s: State, kept: seq<Prompt>)
    requires PlacesAgree(s)
    requires forall p :: p in kept ==> p in s.queue
    ensures PlacesAgree(Retain(s, kept))
  {
    hide HandsAgree, IdsAgree, SlotAgrees, QueueAgrees;
    RetainedQueueAgrees(s, kept);
    RetainedSlotAgrees(s, kept);
    HandsUntouched(s, Retain(s, kept));
  }

  lemma PromptQueued(s: State, p: Prompt)
    requires PlacesAgree(s) && p.id == s.nextId
    ensures PlacesAgree(Issue(s, Pending(p), Queued).(queue := s.queue + [p]))
  {
    hide HandsAgree;
    var r := Issue(s, Pending(p), Queued).(queue := s.queue + [p]);
    assert s.nextId !in s.log;
    assert forall q :: q in r.queue <==> q == p || q in s.queue;
    HandsUntouched(s, r);
  }

  lemma AlertShown(s: State, alert: Alert)
    requires PlacesAgree(s) && s.slot == Free && alert != Free && alert.Is(s.nextId)
    ensures PlacesAgree(Issue(s, alert, Live).(slot := alert))
  {
    hide HandsAgree;
    assert s.nextId !in s.log;
    HandsUntouched(s, Issue(s, alert, Live).(slot := alert));
  }

  // A prompt changes hands: popped, carried on, settled, re-queued, promoted or taken by a key press.

  lemma PromptPopped(s: State, t: TaskId)
    requires PlacesAgree(s) && t in s.tasks && !Carries(s.tasks[t]) && s.queue != []
    requires Ordered(s.queue, DifferentIds)
    ensures PlacesAgree(Goto(Mark(s, Pending(s.queue[0]), Held(t)).(queue := s.queue[1..]), t, CheckClosed(s.queue[0])))
  {
    assert s.queue == [s.queue[0]] + s.queue[1..];
  }

  lemma PromptCarried(s: State, t: TaskId, pc: Pc)
    requires PlacesAgree(s) && t in s.tasks && Carries(s.tasks[t])
    requires Carries(pc) && pc.prompt == s.tasks[t].prompt && !pc.Resolve? && !s.tasks[t].Resolve?
    ensures PlacesAgree(Goto(s, t, pc))
  {
  }

  lemma PromptSettled(s: State, t: TaskId, p: Prompt, at: Place, pc: Pc)
    requires PlacesAgree(s) && t in s.tasks && Carries(s.tasks[t]) && s.tasks[t].prompt == p
    requires (at.Answered? || at.Dropped?) && !Carries(pc)
    ensures PlacesAgree(Goto(Mark(s, Pending(p), at), t, pc))
  {
    assert CarriedAgrees(s, t, p);
  }

  lemma PromptRequeued(s: State, t: TaskId, p: Prompt)
    requires PlacesAgree(s) && t in s.tasks && s.tasks[t] == Claim(p)
    ensures PlacesAgree(Done(Mark(s, Pending(p), Queued).(queue := [p] + s.queue), t))
  {
    assert CarriedAgrees(s, t, p);
    assert forall q :: q in [p] + s.queue <==> q == p || q in s.queue;
  }

  lemma PromptPromoted(s: State, t: TaskId, p: Prompt)
    requires PlacesAgree(s) && t in s.tasks && s.tasks[t] == Claim(p) && s.slot == Free
    ensures PlacesAgree(Done(Mark(s, Pending(p), Live).(slot := Pending(p)), t))
  {
    assert CarriedAgrees(s, t, p);
  }

  lemma PromptTaken(s: State, t: TaskId, outcome: Outcome)
    requires PlacesAgree(s) && t in s.tasks && !Carries(s.tasks[t]) && s.slot.Pending?
    ensures PlacesAgree(Goto(Mark(s, s.slot, Taken(t)).(slot := Free), t, Resolve(s.slot.prompt, outcome)))
  {
  }

  lemma HandlerAgrees(s: State, t: TaskId, env: Env)
    requires PlacesAgree(s) && t in s.tasks && OfHandler(s.tasks[t])
    ensures PlacesAgree(HandlerSection(s, t, s.tasks[t], env))
  {
    hide IdsAgree, SlotAgrees, QueueAgrees, HandsAgree;
    var pc, r := s.tasks[t], HandlerSection(s, t, s.tasks[t], env);
    if pc.Install? {
      var p := Prompt(s.nextId, pc.session, pc.tool, pc.enrollment, pc.body);
      PromptQueued(s, p);
      if s.slot == Free { AlertShown(s, Pending(p)); }
      TaskMoved(if r.nextId == s.nextId then s else r.(tasks := s.tasks), t, r);
    } else {
      SlotVacated(s);
      TaskMoved(if r.slot == s.slot then s else Vacate(s), t, r);
    }
  }

  lemma PurgeAgrees(s: State, t: TaskId, env: Env)
    requires PlacesAgree(s) && t in s.tasks && s.tasks[t].PurgeQueue?
    ensures PlacesAgree(CancelSection(s, t, s.tasks[t], env))
  {
    hide IdsAgree, SlotAgrees, QueueAgrees, HandsAgree;
    var kept := WithoutSession(s.queue, s.tasks[t].session);
    QueueRetained(s, kept);
    TaskMoved(Retain(s, kept), t, CancelSection(s, t, s.tasks[t], env));
  }

  lemma CancelAgrees(s: State, t: TaskId, env: Env)
    requires PlacesAgree(s) && t in s.tasks && OfCancel(s.tasks[t])
    ensures PlacesAgree(CancelSection(s, t, s.tasks[t], env))
  {
    hide IdsAgree, SlotAgrees, QueueAgrees, HandsAgree;
    if s.tasks[t].PurgeQueue? {
      PurgeAgrees(s, t, env);
    } else {
      var r := CancelSection(s, t, s.tasks[t], env);
      SlotVacated(s);
      TaskMoved(if r.slot == s.slot then s else Vacate(s), t, r);
    }
  }

  lemma KeyAgrees(s: State, t: TaskId, env: Env)
    requires PlacesAgree(s) && t in s.tasks && OfKey(s.tasks[t])
    ensures PlacesAgree(KeySection(s, t, s.tasks[t], env))
  {
    hide IdsAgree, SlotAgrees, QueueAgrees, HandsAgree;
    var pc, r := s.tasks[t], KeySection(s, t, s.tasks[t], env);
    if pc.Resolve? {
      PromptSettled(s, t, pc.prompt, if pc.prompt.id in s.closed then Dropped
        else Answered(pc.outcome), HidClear(ThenPromote));
    } else if pc.Decide? && s.slot.Pending? && s.slot.Is(pc.id) {
      PromptTaken(s, t, OutcomeOf(pc.key));
    } else {
      SlotVacated(s);
      TaskMoved(if r.slot == s.slot then s else Vacate(s), t, r);
    }
  }

  lemma TabsAgree(s: State, t: TaskId, env: Env)
    requires PlacesAgree(s) && t in s.tasks && OfTabs(s.tasks[t])
    ensures PlacesAgree(TabsSection(s, t, s.tasks[t], env))
  {
    hide IdsAgree, SlotAgrees, QueueAgrees, HandsAgree;
    var pc, r := s.tasks[t], TabsSection(s, t, s.tasks[t], env);
    SlotVacated(s);
    if pc.Refresh? {
      QueueRetained(s, OnTabs(s.queue, pc.tabs));
      TaskMoved(Retain(s, OnTabs(s.queue, pc.tabs)), t, r);
    } else if pc.Reset? {
      QueueRetained(Vacate(s), []);
      TaskMoved(Retain(Vacate(s), []), t, r);
    } else {
      TaskMoved(if r.slot == s.slot then s else Vacate(s), t, r);
    }
  }

  lemma PromotionAgrees(s: State, t: TaskId, env: Env)
    requires PlacesAgree(s) && Ordered(s.queue, DifferentIds) && t in s.tasks && OfPromotion(s.tasks[t])
    ensures PlacesAgree(PromotionSection(s, t, s.tasks[t], env))
  {
    hide IdsAgree, SlotAgrees, QueueAgrees, HandsAgree;
    match s.tasks[t] {
      case Pop =>
        if s.queue != [] { PromptPopped(s, t); } else { TaskMoved(s, t, Goto(s, t, PeekSlot)); }
      case CheckClosed(p) =>
        PromptSettled(s, t, p, Dropped, Pop);
        PromptCarried(s, t, Judge(p));
      case Judge(p) =>
        PromptSettled(s, t, p, Dropped, Pop);
        PromptSettled(s, t, p, Answered(Allow), Pop);
        PromptCarried(s, t, Claim(p));
      case Claim(p) =>
        PromptSettled(s, t, p, Dropped, Pop);
        PromptRequeued(s, t, p);
        if s.slot == Free { PromptPromoted(s, t, p); }
    }
  }

  lemma IdleAgrees(s: State, t: TaskId, env: Env)
    requires PlacesAgree(s) && t in s.tasks && OfIdle(s.tasks[t])
    ensures PlacesAgree(IdleSection(s, t, s.tasks[t], env))
  {
    hide IdsAgree, SlotAgrees, QueueAgrees, HandsAgree;
    var pc, r := s.tasks[t], IdleSection(s, t, s.tasks[t], env);
    if pc.ShowIdle? {
      SlotVacated(s);
      AlertShown(Vacate(s), Idle(s.nextId, pc.notice.session));
    }
    TaskMoved(if r.nextId == s.nextId then s else r.(tasks := s.tasks), t, r);
  }

  lemma PlacesAgreeKept(s: State, e: Event)
    requires PlacesAgree(s) && Ordered(s.queue, DifferentIds)
    ensures PlacesAgree(Step(s, e))
  {
    hide IdsAgree, SlotAgrees, QueueAgrees, HandsAgree;
    if e.Spawn? {
      if e.task !in s.tasks && IsEntry(e.entry) { TaskMoved(s, e.task, Step(s, e)); }
    } else if e.task in s.tasks {
      var t, pc, env := e.task, s.tasks[e.task], e.env;
      if OfHandler(pc) { HandlerAgrees(s, t, env); }
      else if OfCancel(pc) { CancelAgrees(s, t, env); }
      else if OfKey(pc) { KeyAgrees(s, t, env); }
      else if OfTabs(pc) { TabsAgree(s, t, env); }
      else if OfPromotion(pc) { PromotionAgrees(s, t, env); }
      else { IdleAgrees(s, t, env); }
    }
  }

  /** How far an alert has come: waiting, on the slot, or past it. */
  function Stage(at: Place): nat {
    if at.Queued? || at.Held? then 0 else if at == Live then 1 else 2
  }

  predicate Final(at: Place) { at.Answered? || at.Dropped? }

  /** An id keeps its alert for ever, never goes back a stage, and once answered or dropped stays so. */
  ghost predicate Grown(a: map<nat, Entry>, b: map<nat, Entry>) {
    forall i :: i in a ==> i in b && GrownEntry(a[i], b[i])
  }

  predicate GrownEntry(a: Entry, b: Entry) {
    b.alert == a.alert && Stage(a.at) <= Stage(b.at) && (Final(a.at) ==> b == a)
  }

  lemma MarkGrows(s: State, alert: Alert, at: Place)
    requires alert != Free
    requires alert.Id() in s.log ==> GrownEntry(s.log[alert.Id()], Entry(alert, at))
    ensures Grown(s.log, Mark(s, alert, at).log)
  {
  }

  lemma VacateGrows(s: State)
    requires SlotAgrees(s)
    ensures Grown(s.log, Vacate(s).log)
  {
  }

  lemma RetainGrows(s: State, kept: seq<Prompt>)
    ensures Grown(s.log, Retain(s, kept).log)
  {
  }

  lemma GrownTwice(a: map<nat, Entry>, b: map<nat, Entry>, c: map<nat, Entry>)
    requires Grown(a, b) && Grown(b, c)
    ensures Grown(a, c)
  {
  }

  lemma HistoryGrows(s: State, e: Event)
    requires PlacesAgree(s)
    ensures Grown(s.log, Step(s, e).log)
  {
    hide HandlerSection, CancelSection, KeySection, TabsSection, PromotionSection, IdleSection, HandsAgree, QueueAgrees;
    if e.Run? && e.task in s.tasks {
      var t, pc, env := e.task, s.tasks[e.task], e.env;
      if Carries(pc) { assert CarriedAgrees(s, t, pc.prompt) by { CarriedPromptAgrees(s, t); } }
      if OfHandler(pc) { HandlerGrows(s, t, env); }
      else if OfCancel(pc) { CancelGrows(s, t, env); }
      else if OfKey(pc) { KeyGrows(s, t, env); }
      else if OfTabs(pc) { TabsGrow(s, t, env); }
      else if OfPromotion(pc) { PromotionGrows(s, t, env); }
      else { IdleGrows(s, t, env); }
    }
  }

  lemma CarriedPromptAgrees(s: State, t: TaskId)
    requires HandsAgree(s) && t in s.tasks && Carries(s.tasks[t])
    ensures CarriedAgrees(s, t, s.tasks[t].prompt)
  {
  }

  lemma HandlerGrows(s: State, t: TaskId, env: Env)
    requires t in s.tasks && OfHandler(s.tasks[t]) && IdsAgree(s) && SlotAgrees(s)
    ensures Grown(s.log, HandlerSection(s, t, s.tasks[t], env).log)
  {
    assert s.nextId !in s.log;
  }

  lemma CancelGrows(s: State, t: TaskId, env: Env)
    requires t in s.tasks && OfCancel(s.tasks[t]) && SlotAgrees(s)
    ensures Grown(s.log, CancelSection(s, t, s.tasks[t], env).log)
  {
    var pc := s.tasks[t];
    VacateGrows(s);
    if pc.PurgeQueue? { RetainGrows(s, WithoutSession(s.queue, pc.session)); }
  }

  lemma KeyGrows(s: State, t: TaskId, env: Env)
    requires t in s.tasks && OfKey(s.tasks[t]) && SlotAgrees(s)
    requires s.tasks[t].Resolve? ==> CarriedAgrees(s, t, s.tasks[t].prompt)
    ensures Grown(s.log, KeySection(s, t, s.tasks[t], env).log)
  {
    if s.tasks[t].Resolve? {
      ResolveGrows(s, t, env);
    } else {
      VacateGrows(s);
      if s.slot != Free { MarkGrows(s, s.slot, Taken(t)); }
      hide Grown, SlotAgrees, Vacate, Mark, Send;
    }
  }

  lemma ResolveGrows(s: State, t: TaskId, env: Env)
    requires t in s.tasks && s.tasks[t].Resolve? && CarriedAgrees(s, t, s.tasks[t].prompt)
    ensures Grown(s.log, KeySection(s, t, s.tasks[t], env).log)
  {
    MarkGrows(s, Pending(s.tasks[t].prompt), Dropped);
    MarkGrows(s, Pending(s.tasks[t].prompt), Answered(s.tasks[t].outcome));
    hide Grown, CarriedAgrees, Vacate, Mark;
  }

  lemma TabsGrow(s: State, t: TaskId, env: Env)
    requires t in s.tasks && OfTabs(s.tasks[t]) && SlotAgrees(s)
    ensures Grown(s.log, TabsSection(s, t, s.tasks[t], env).log)
  {
    var pc := s.tasks[t];
    VacateGrows(s);
    if pc.Refresh? { RetainGrows(s, OnTabs(s.queue, pc.tabs)); }
    RetainGrows(Vacate(s), []);
    GrownTwice(s.log, Vacate(s).log, Retain(Vacate(s), []).log);
  }

  lemma PromotionGrows(s: State, t: TaskId, env: Env)
    requires t in s.tasks && OfPromotion(s.tasks[t]) && QueueAgrees(s)
    requires Carries(s.tasks[t]) ==> CarriedAgrees(s, t, s.tasks[t].prompt)
    ensures Grown(s.log, PromotionSection(s, t, s.tasks[t], env).log)
  {
  }

  lemma IdleGrows(s: State, t: TaskId, env: Env)
    requires t in s.tasks && OfIdle(s.tasks[t]) && IdsAgree(s) && SlotAgrees(s)
    ensures Grown(s.log, IdleSection(s, t, s.tasks[t], env).log)
  {
    var pc := s.tasks[t];
    if pc.ShowIdle? {
      VacateGrows(s);
      MarkGrows(Vacate(s), Idle(s.nextId, pc.notice.session), Live);
      GrownTwice(s.log, Vacate(s).log, Issue(Vacate(s), Idle(s.nextId, pc.notice.session), Live).log);
    }
  }

  // What a section does to the queue, to the Claude-button targets and to the promotions owed.

  /** A section that leaves its task without a promotion to run found the slot free and the queue
      non-empty already, and owed nothing itself. */
  predicate NothingFreed(s: State, t: TaskId, pc: Pc, r: State) {
    r.slot == Free && r.queue != [] && !(t in r.tasks && Owes(r.tasks[t])) ==>
      s.slot == Free && s.queue != [] && !Owes(pc)
  }

  predicate StartsFocusClear(t: TaskId, r: State) { t in r.tasks && r.tasks[t].FocusClear? }

  lemma HandlerStep(s: State, t: TaskId, env: Env)
    requires PlacesAgree(s) && Ordered(s.queue, DifferentIds) && t in s.tasks && OfHandler(s.tasks[t])
    ensures var r := HandlerSection(s, t, s.tasks[t], env);
            Ordered(r.queue, DifferentIds) && !StartsFocusClear(t, r) && NothingFreed(s, t, s.tasks[t], r)
  {
    assert s.nextId !in s.log;
    assert forall i :: 0 <= i < |s.queue| ==> s.queue[i] in s.queue;
  }

  lemma CancelStep(s: State, t: TaskId, env: Env)
    requires Ordered(s.queue, DifferentIds) && t in s.tasks && OfCancel(s.tasks[t])
    ensures var r := CancelSection(s, t, s.tasks[t], env);
            Ordered(r.queue, DifferentIds) && !StartsFocusClear(t, r) && NothingFreed(s, t, s.tasks[t], r)
  {
  }

  lemma KeyStep(s: State, t: TaskId, env: Env)
    requires Ordered(s.queue, DifferentIds) && t in s.tasks && OfKey(s.tasks[t])
    requires s.tasks[t].FocusClear? && s.slot.Is(s.tasks[t].id) ==> s.slot.Idle?
    ensures var r := KeySection(s, t, s.tasks[t], env);
            && Ordered(r.queue, DifferentIds) && NothingFreed(s, t, s.tasks[t], r)
            && (StartsFocusClear(t, r) ==> s.slot.Idle? && s.slot.id == r.tasks[t].id)
  {
  }

  lemma TabsStep(s: State, t: TaskId, env: Env)
    requires Ordered(s.queue, DifferentIds) && t in s.tasks && OfTabs(s.tasks[t])
    ensures var r := TabsSection(s, t, s.tasks[t], env);
            Ordered(r.queue, DifferentIds) && !StartsFocusClear(t, r) && NothingFreed(s, t, s.tasks[t], r)
  {
  }

  lemma PromotionStep(s: State, t: TaskId, env: Env)
    requires PlacesAgree(s) && Ordered(s.queue, DifferentIds) && t in s.tasks && OfPromotion(s.tasks[t])
    ensures var r := PromotionSection(s, t, s.tasks[t], env);
            Ordered(r.queue, DifferentIds) && !StartsFocusClear(t, r) && NothingFreed(s, t, s.tasks[t], r)
  {
    if s.tasks[t].Claim? {
      assert CarriedAgrees(s, t, s.tasks[t].prompt);
      assert forall i :: 0 <= i < |s.queue| ==> s.queue[i] in s.queue;
    }
  }

  lemma IdleStep(s: State, t: TaskId, env: Env)
    requires t in s.tasks && OfIdle(s.tasks[t])
    ensures var r := IdleSection(s, t, s.tasks[t], env);
            r.queue == s.queue && !StartsFocusClear(t, r) && NothingFreed(s, t, s.tasks[t], r)
  {
  }

  lemma StepKeepsQueueAndTargets(s: State, e: Event)
    requires PlacesAgree(s) && Ordered(s.queue, DifferentIds) && FocusTargetsIdle(s)
    ensures var r := Step(s, e);
            && Ordered(r.queue, DifferentIds) && OthersKept(s.tasks, r.tasks, e.task)
            && (StartsFocusClear(e.task, r)
              ==> StartsFocusClear(e.task, s) || (s.slot.Idle? && s.slot.id == r.tasks[e.task].id))
            && (e.task in s.tasks ==> NothingFreed(s, e.task, s.tasks[e.task], r))
            && (e.task !in s.tasks ==> r.slot == s.slot && r.queue == s.queue)
  {
    hide HandlerSection, CancelSection, KeySection, TabsSection, PromotionSection, IdleSection;
    if e.Run? && e.task in s.tasks {
      var t, pc, env := e.task, s.tasks[e.task], e.env;
      if OfHandler(pc) { HandlerStep(s, t, env); }
      else if OfCancel(pc) { CancelStep(s, t, env); }
      else if OfKey(pc) { KeyStep(s, t, env); }
      else if OfTabs(pc) { TabsStep(s, t, env); }
      else if OfPromotion(pc) { PromotionStep(s, t, env); }
      else { IdleStep(s, t, env); }
    }
  }

  lemma OtherTasksKept(a: map<TaskId, Pc>, b: map<TaskId, Pc>, t: TaskId, u: TaskId)
    requires OthersKept(a, b, t) && u != t
    ensures (u in a <==> u in b) && (u in a ==> a[u] == b[u])
  {
    assert u in a <==> u in a - {t};
    assert u in b <==> u in b - {t};
    assert u in a ==> (a - {t})[u] == a[u] == b[u];
  }

  lemma FocusTargetsIdleKept(s: State, e: Event)
    requires PlacesAgree(s) && Ordered(s.queue, DifferentIds) && FocusTargetsIdle(s)
    ensures FocusTargetsIdle(Step(s, e))
  {
    HistoryGrows(s, e);
    StepKeepsQueueAndTargets(s, e);
    hide Step, IdsAgree, QueueAgrees, HandsAgree;
    var r := Step(s, e);
    forall t | t in r.tasks && r.tasks[t].FocusClear?
      ensures r.tasks[t].id in r.log && r.log[r.tasks[t].id].alert.Idle?
    {
      if t != e.task { OtherTasksKept(s.tasks, r.tasks, e.task, t); }
    }
  }

  lemma WakeUpKept(s: State, e: Event)
    requires Inv(s)
    ensures WakeUpOwed(Step(s, e))
  {
    StepKeepsQueueAndTargets(s, e);
    hide Step, PlacesAgree;
    var r := Step(s, e);
    if r.slot == Free && r.queue != [] && !(e.task in r.tasks && Owes(r.tasks[e.task])) {
      var t :| t in s.tasks && Owes(s.tasks[t]);
      OtherTasksKept(s.tasks, r.tasks, e.task, t);
      assert t in r.tasks && Owes(r.tasks[t]);
    }
  }

  /** Every section of every task keeps the whole invariant. */
  lemma InvKept(s: State, e: Event)
    requires Inv(s)
    ensures Inv(Step(s, e))
  {
    hide Step, PlacesAgree;
    PlacesAgreeKept(s, e);
    StepKeepsQueueAndTargets(s, e);
    FocusTargetsIdleKept(s, e);
    WakeUpKept(s, e);
  }

  lemma {:induction false} InvAlways(s: State, events: seq<Event>)
    requires Inv(s)
    ensures Inv(Exec(s, events))
    decreases |events|
  {
    if events != [] {
      InvKept(s, events[0]);
      InvAlways(Step(s, events[0]), events[1..]);
    }
  }
}

// The two models of the alert engine agree: a task of the lock-section machine that
// runs without anyone in between does what its operation does as a whole.

module AlertAlone {
  import opened Prelude
  import opened AlertTypes
  import M = AlertSections
  import Runs = AlertRuns
  import Safety = AlertSafety
  import W = AlertWorld

  // ── The same state, seen by both ─────────────────────────────────

  /** An alert without its tab. */
  function Bare(shown: W.Shown): M.Alert {
    match shown
    case Nothing => M.Free
    case IdleUp(id, session, _, _) => M.Idle(id, session)
    case PromptUp(p, _) => M.Pending(p)
  }

  /** The answers on record are those of the history. */
  predicate SameAnswers(log: map<nat, M.Entry>, answers: map<nat, Outcome>) {
    && (forall id :: id in answers ==> id in log && log[id].at == M.Answered(answers[id]))
    && (forall id :: id in log && log[id].at.Answered? ==> id in answers)
  }

  /** What both models keep. */
  datatype Common = Common(slot: M.Alert, queue: seq<Prompt>, idle: seq<Notice>, nextId: nat, closed: set<nat>)

  function OfMachine(s: M.State): Common { Common(s.slot, s.queue, s.idle, s.nextId, s.closed) }

  function OfWorld(w: W.World): Common { Common(Bare(w.slot), w.pending, w.idle, w.nextId, w.closed) }

  predicate Same(s: M.State, w: W.World) {
    OfMachine(s) == OfWorld(w) && SameAnswers(s.log, w.answers)
  }

  /** Task `t` runs, one section for each of `envs`, and nobody else does. */
  function Alone(s: M.State, t: M.TaskId, envs: seq<M.Env>): M.State
    decreases |envs|
  {
    if envs == [] then s else Alone(M.Step(s, M.Run(t, envs[0])), t, envs[1..])
  }

  lemma {:induction false} AloneTwice(s: M.State, t: M.TaskId, a: seq<M.Env>, b: seq<M.Env>)
    ensures Alone(s, t, a + b) == Alone(Alone(s, t, a), t, b)
    decreases |a|
  {
    hide M.Step;
    if a == [] {
      assert a + b == b;
    } else {
      assert (a + b)[1..] == a[1..] + b;
      AloneTwice(M.Step(s, M.Run(t, a[0])), t, a[1..], b);
    }
  }

  /** From `s`, task `t` gets to `r` by itself, whatever the other locks and the device had to say on the way; the
      invariant of the machine holds there. */
  ghost predicate Leads(s: M.State, t: M.TaskId, r: M.State) {
    exists envs :: Alone(s, t, envs) == r && M.Inv(r)
  }

  lemma LeadsToInv(s: M.State, t: M.TaskId, r: M.State)
    requires Leads(s, t, r)
    ensures M.Inv(r)
  {
  }

  lemma LeadsNowhere(s: M.State, t: M.TaskId)
    requires M.Inv(s)
    ensures Leads(s, t, s)
  {
    assert Alone(s, t, []) == s;
  }

  /** One section more. */
  lemma LeadsOn(s: M.State, t: M.TaskId, r: M.State, env: M.Env)
    requires Leads(s, t, r)
    ensures Leads(s, t, M.Step(r, M.Run(t, env)))
    ensures M.Inv(M.Step(r, M.Run(t, env)))
  {
    hide M.Inv, M.Step;
    var envs :| Alone(s, t, envs) == r && M.Inv(r);
    M.InvKept(r, M.Run(t, env));
    AloneTwice(s, t, envs, [env]);
    assert Alone(r, t, [env]) == M.Step(r, M.Run(t, env));
  }

  lemma LeadsFurther(s: M.State, t: M.TaskId, a: M.State, b: M.State)
    requires Leads(s, t, a) && Leads(a, t, b)
    ensures Leads(s, t, b)
  {
    hide M.Inv;
    var first :| Alone(s, t, first) == a && M.Inv(a);
    var second :| Alone(a, t, second) == b && M.Inv(b);
    AloneTwice(s, t, first, second);
  }

  // ── Promotion ────────────────────────────────────────────────────

  lemma QueuedUnanswered(s: M.State, w: W.World, p: Prompt)
    requires M.Inv(s) && Same(s, w) && p in s.queue
    ensures p.id !in w.answers
  {
  }

  lemma CarriedUnanswered(s: M.State, w: W.World, t: M.TaskId)
    requires M.Inv(s) && Same(s, w) && t in s.tasks && M.Carries(s.tasks[t])
    ensures s.tasks[t].prompt.id !in w.answers
  {
    assert M.CarriedAgrees(s, t, s.tasks[t].prompt);
  }

  lemma Marked(log: map<nat, M.Entry>, answers: map<nat, Outcome>, alert: M.Alert, id: nat, at: M.Place)
    requires SameAnswers(log, answers) && id !in answers
    ensures SameAnswers(log[id := M.Entry(alert, at)], if at.Answered? then answers[id := at.outcome] else answers)
  {
  }

  const ANY: M.Env := M.Env(true, M.Undecided, true)

  /** What the sections of a promotion do, by themselves. */
  lemma PromotionMoves(s: M.State, t: M.TaskId, p: Prompt, env: M.Env)
    requires t in s.tasks
    ensures var r := M.Step(s, M.Run(t, env));
            && (s.tasks[t] == M.Pop && s.queue != [] ==>
                  r == M.Mark(s, M.Pending(s.queue[0]), M.Held(t))
                       .(queue := s.queue[1..], tasks := s.tasks[t := M.CheckClosed(s.queue[0])]))
            && (s.tasks[t] == M.CheckClosed(p) ==>
                  r == if p.id in s.closed
                       then M.Mark(s, M.Pending(p), M.Dropped).(tasks := s.tasks[t := M.Pop])
                       else s.(tasks := s.tasks[t := M.Judge(p)]))
            && (s.tasks[t] == M.Judge(p) && (NeedsUser(p) || env.verdict == M.Undecided) ==>
                  r == s.(tasks := s.tasks[t := M.Claim(p)]))
            && (s.tasks[t] == M.Judge(p) && !NeedsUser(p) && env.verdict == M.Declined ==>
                  r == M.Mark(s, M.Pending(p), M.Dropped).(tasks := s.tasks[t := M.Pop]))
            && (s.tasks[t] == M.Judge(p) && !NeedsUser(p) && env.verdict == M.Enrolled ==>
                  r == M.Send(s, p, Allow).(tasks := s.tasks[t := M.Pop]))
    ensures var r := M.Step(s, M.Run(t, env));
            && (s.tasks[t] == M.Claim(p) && s.slot != M.Free ==>
                  r == M.Mark(s, M.Pending(p), M.Queued).(queue := [p] + s.queue, tasks := s.tasks - {t}))
            && (s.tasks[t] == M.Claim(p) && s.slot == M.Free && env.ok ==>
                  r == M.Mark(s, M.Pending(p), M.Live).(slot := M.Pending(p), tasks := s.tasks - {t}))
            && (s.tasks[t] == M.Claim(p) && s.slot == M.Free && !env.ok ==>
                  r == M.Mark(s, M.Pending(p), M.Dropped).(tasks := s.tasks[t := M.Pop]))
  {
    hide M.HandlerSection, M.CancelSection, M.KeySection, M.TabsSection, M.IdleSection;
  }

  lemma PopAlone(s: M.State, w: W.World, t: M.TaskId)
    requires M.Inv(s) && Same(s, w) && t in s.tasks && s.tasks[t] == M.Pop && w.pending != []
    ensures var r := M.Step(s, M.Run(t, ANY));
            r.tasks == s.tasks[t := M.CheckClosed(w.pending[0])] && Same(r, w.(pending := w.pending[1..]))
  {
    var p := w.pending[0];
    hide M.Step;
    QueuedUnanswered(s, w, p);
    hide M.Inv, SameAnswers;
    Marked(s.log, w.answers, M.Pending(p), p.id, M.Held(t));
    PromotionMoves(s, t, p, ANY);
  }

  lemma CheckAlone(s: M.State, w: W.World, t: M.TaskId, p: Prompt)
    requires M.Inv(s) && Same(s, w) && t in s.tasks && s.tasks[t] == M.CheckClosed(p)
    ensures var r := M.Step(s, M.Run(t, ANY));
            r.tasks == s.tasks[t := if p.id in w.closed then M.Pop else M.Judge(p)] && Same(r, w)
  {
    hide M.Inv, M.Step, SameAnswers;
    CarriedUnanswered(s, w, t);
    Marked(s.log, w.answers, M.Pending(p), p.id, M.Dropped);
    PromotionMoves(s, t, p, ANY);
  }

  function VerdictOf(v: W.Verdict): M.Env {
    M.Env(true, match v case EnrolledIn => M.Enrolled case DeclinedOut => M.Declined case _ => M.Undecided, true)
  }

  lemma JudgedByTool(w: W.World, p: Prompt)
    ensures W.Judge(w, p) == W.EnrolledIn || W.Judge(w, p) == W.DeclinedOut ==> !NeedsUser(p)
    ensures W.Judge(w, p) == W.GaveUp <==> p.id in w.closed
  {
  }

  lemma JudgeAlone(s: M.State, w: W.World, t: M.TaskId, p: Prompt)
    requires M.Inv(s) && Same(s, w) && t in s.tasks && s.tasks[t] == M.Judge(p) && p.id !in w.closed
    ensures var (v, r) := (W.Judge(w, p), M.Step(s, M.Run(t, VerdictOf(W.Judge(w, p)))));
            && r.tasks == s.tasks[t := if v == W.Ask then M.Claim(p) else M.Pop]
            && Same(r, if v == W.EnrolledIn then w.(answers := w.answers[p.id := Allow]) else w)
  {
    hide M.Inv, M.Step, SameAnswers;
    CarriedUnanswered(s, w, t);
    Marked(s.log, w.answers, M.Pending(p), p.id, M.Dropped);
    Marked(s.log, w.answers, M.Pending(p), p.id, M.Answered(Allow));
    PromotionMoves(s, t, p, VerdictOf(W.Judge(w, p)));
    JudgedByTool(w, p);
    hide W.Judge;
  }

  lemma ClaimAlone(s: M.State, w: W.World, t: M.TaskId, p: Prompt, ok: bool)
    requires M.Inv(s) && Same(s, w) && t in s.tasks && s.tasks[t] == M.Claim(p)
    ensures var r := M.Step(s, M.Run(t, M.Env(ok, M.Undecided, true)));
            && r.tasks == (if w.slot != W.Nothing || ok then s.tasks - {t} else s.tasks[t := M.Pop])
            && Same(r, if w.slot != W.Nothing then w.(pending := [p] + w.pending)
                       else if ok then w.(slot := W.PromptUp(p, 0)) else w)
  {
    hide M.Inv, M.Step, SameAnswers;
    CarriedUnanswered(s, w, t);
    Marked(s.log, w.answers, M.Pending(p), p.id, M.Queued);
    Marked(s.log, w.answers, M.Pending(p), p.id, M.Live);
    Marked(s.log, w.answers, M.Pending(p), p.id, M.Dropped);
    PromotionMoves(s, t, p, M.Env(ok, M.Undecided, true));
  }

  lemma JudgedEqually(w: W.World, v: W.World, p: Prompt)
    requires v == w.(pending := v.pending)
    ensures W.Judge(v, p) == W.Judge(w, p)
  {
  }

  lemma MovedTwice(tasks: map<M.TaskId, M.Pc>, t: M.TaskId, a: M.Pc, b: M.Pc)
    ensures tasks[t := a][t := b] == tasks[t := b]
  {
  }

  /** The head of the queue is popped, and dropped if nobody waits for it any more. */
  lemma PopCheckAlone(s: M.State, w: W.World, t: M.TaskId) returns (r: M.State)
    requires M.Inv(s) && Same(s, w) && t in s.tasks && s.tasks[t] == M.Pop && w.pending != []
    ensures var p := w.pending[0];
            && Leads(s, t, r) && Same(r, w.(pending := w.pending[1..]))
            && r.tasks == s.tasks[t := if p.id in w.closed then M.Pop else M.Judge(p)]
  {
    hide M.Inv, M.Step, Same, Leads;
    var p, popped := w.pending[0], w.(pending := w.pending[1..]);
    LeadsNowhere(s, t);
    LeadsOn(s, t, s, ANY);
    PopAlone(s, w, t);
    r := M.Step(s, M.Run(t, ANY));
    CheckAlone(r, popped, t, p);
    LeadsOn(s, t, r, ANY);
    MovedTwice(s.tasks, t, M.CheckClosed(p), if p.id in w.closed then M.Pop else M.Judge(p));
    r := M.Step(r, M.Run(t, ANY));
  }

  /** The head of the queue is looked at: it is settled, or it is to be asked. */
  lemma VetAlone(s: M.State, w: W.World, t: M.TaskId) returns (r: M.State)
    requires M.Inv(s) && Same(s, w) && t in s.tasks && s.tasks[t] == M.Pop && w.pending != []
    ensures var p, popped := w.pending[0], w.(pending := w.pending[1..]);
            && Leads(s, t, r)
            && r.tasks == s.tasks[t := if W.Judge(w, p) == W.Ask then M.Claim(p) else M.Pop]
            && Same(r, if W.Judge(w, p) == W.EnrolledIn then popped.(answers := w.answers[p.id := Allow]) else popped)
  {
    hide M.Inv, M.Step, Same, W.Judge, Leads, VerdictOf;
    var p, popped := w.pending[0], w.(pending := w.pending[1..]);
    JudgedByTool(w, p);
    JudgedEqually(w, popped, p);
    r := PopCheckAlone(s, w, t);
    if p.id !in w.closed {
      LeadsToInv(s, t, r);
      JudgeAlone(r, popped, t, p);
      LeadsOn(s, t, r, VerdictOf(W.Judge(w, p)));
      MovedTwice(s.tasks, t, M.Judge(p), if W.Judge(w, p) == W.Ask then M.Claim(p) else M.Pop);
      r := M.Step(r, M.Run(t, VerdictOf(W.Judge(w, p))));
    }
  }

  lemma PromoteTurns(w: W.World)
    requires w.pending != []
    ensures var p, popped := w.pending[0], w.(pending := w.pending[1..]);
            W.Promote(w) == match W.Judge(w, p)
                            case GaveUp => W.Promote(popped)
                            case DeclinedOut => W.Promote(popped)
                            case EnrolledIn => W.Promote(W.AutoAnswer(popped, p))
                            case Ask =>
                              if w.slot != W.Nothing then w.(pending := [p] + popped.pending)
                              else if W.WriteOk(w.device) then W.GoLive(popped, p)
                              else W.Promote(W.SendFailed(popped))
    ensures |W.AutoAnswer(w, w.pending[0]).pending| == |W.SendFailed(w).pending| == |w.pending|
  {
    assert [w.pending[0]] + w.pending[1..] == w.pending;
    hide W.PromoteIdle, W.GoLive, W.WriteOk;
  }

  lemma TasksBack(tasks: map<M.TaskId, M.Pc>, t: M.TaskId, pc: M.Pc)
    requires t in tasks
    ensures tasks[t := tasks[t]] == tasks && tasks[t := pc] - {t} == tasks - {t}
  {
  }

  /** One turn of the promotion loop: it ends the promotion, or `next` is where the next turn starts. */
  lemma TurnAlone(s: M.State, w: W.World, t: M.TaskId) returns (r: M.State, done: bool, next: W.World)
    requires M.Inv(s) && Same(s, w) && t in s.tasks && s.tasks[t] == M.Pop && w.pending != []
    ensures Leads(s, t, r)
    ensures done ==> r.tasks == s.tasks - {t} && Same(r, W.Promote(w))
    ensures !done ==> r.tasks == s.tasks && Same(r, next) && W.Promote(next) == W.Promote(w)
                      && |next.pending| < |w.pending|
  {
    hide M.Inv, M.Step, Leads, W.Judge, W.WriteOk;
    var p, popped, ok := w.pending[0], w.(pending := w.pending[1..]), W.WriteOk(w.device);
    r := VetAlone(s, w, t);
    TasksBack(s.tasks, t, M.Claim(p));
    PromoteTurns(w);
    done := false;
    if W.Judge(w, p) == W.Ask {
      LeadsToInv(s, t, r);
      ClaimAlone(r, popped, t, p, ok);
      LeadsOn(s, t, r, M.Env(ok, M.Undecided, true));
      MovedTwice(s.tasks, t, M.Claim(p), M.Pop);
      r := M.Step(r, M.Run(t, M.Env(ok, M.Undecided, true)));
      done := w.slot != W.Nothing || ok;
      next := W.SendFailed(popped);
    } else {
      next := if W.Judge(w, p) == W.EnrolledIn then W.AutoAnswer(popped, p) else popped;
      JudgedByTool(w, p);
    }
    hide W.Promote;
  }

  lemma SectionRuns(s: M.State, t: M.TaskId, env: M.Env)
    requires t in s.tasks
    ensures var (r, pc) := (M.Step(s, M.Run(t, env)), s.tasks[t]);
            && (M.OfHandler(pc) ==> r == M.HandlerSection(s, t, pc, env))
            && (M.OfCancel(pc) ==> r == M.CancelSection(s, t, pc, env))
            && (M.OfKey(pc) ==> r == M.KeySection(s, t, pc, env))
            && (M.OfTabs(pc) ==> r == M.TabsSection(s, t, pc, env))
            && (M.OfPromotion(pc) ==> r == M.PromotionSection(s, t, pc, env))
            && (M.OfIdle(pc) ==> r == M.IdleSection(s, t, pc, env))
  {
    hide M.HandlerSection, M.CancelSection, M.KeySection, M.TabsSection, M.PromotionSection, M.IdleSection;
  }

  /** The prompts are all settled: the task goes on to the notices. */
  lemma LastPopAlone(s: M.State, w: W.World, t: M.TaskId)
    requires M.Inv(s) && Same(s, w) && t in s.tasks && s.tasks[t] == M.Pop && w.pending == []
    ensures M.Step(s, M.Run(t, ANY)) == s.(tasks := s.tasks[t := M.PeekSlot])
  {
    SectionRuns(s, t, ANY);
    hide M.Inv, M.Step;
  }

  lemma {:induction false} PromotionAlone(s: M.State, w: W.World, t: M.TaskId) returns (r: M.State)
    requires M.Inv(s) && Same(s, w) && t in s.tasks && s.tasks[t] == M.Pop
    ensures Leads(s, t, r) && r.tasks == s.tasks - {t} && Same(r, W.Promote(w))
    decreases |w.pending|
  {
    hide M.Inv, M.Step, Leads, W.PromoteIdle;
    if w.pending == [] {
      LastPopAlone(s, w, t);
      LeadsNowhere(s, t);
      LeadsOn(s, t, s, ANY);
      var a := M.Step(s, M.Run(t, ANY));
      TasksBack(s.tasks, t, M.PeekSlot);
      r := NoticesAlone(a, w, t);
      LeadsFurther(s, t, a, r);
    } else {
      var done, next;
      r, done, next := TurnAlone(s, w, t);
      hide W.Promote, Same;
      if !done {
        var a := r;
        LeadsToInv(s, t, a);
        r := PromotionAlone(a, next, t);
        LeadsFurther(s, t, a, r);
      }
    }
  }

  // ── Notices ──────────────────────────────────────────────────────

  predicate Vetted(w: W.World, n: Notice) { W.TabOf(w.tabs, n.session).Some? && !W.Suppressed(w, n) }

  lemma NextUnanswered(s: M.State, w: W.World)
    requires M.Inv(s) && Same(s, w)
    ensures s.nextId !in w.answers
  {
    assert s.nextId !in s.log;
  }

  lemma Shown(s: M.State, w: W.World, v: W.World, n: Notice)
    requires Same(s, w) && s.nextId !in w.answers && w.slot == W.Nothing && v.slot.IdleUp?
    requires v == w.(slot := v.slot, nextId := w.nextId + 1, device := v.device)
    requires v.slot.id == w.nextId && v.slot.session == n.session
    ensures var alert := M.Idle(s.nextId, n.session); Same(M.Issue(s, alert, M.Live).(slot := alert), v)
  {
    Marked(s.log, w.answers, M.Idle(s.nextId, n.session), s.nextId, M.Live);
    hide SameAnswers;
  }

  /** The oldest notice comes off the queue. */
  lemma NoticePopped(s: M.State, w: W.World, t: M.TaskId) returns (r: M.State)
    requires M.Inv(s) && Same(s, w) && t in s.tasks && s.tasks[t] == M.PeekSlot && w.slot == W.Nothing && w.idle != []
    ensures Leads(s, t, r) && r.tasks == s.tasks[t := M.VetIdle(w.idle[0])]
    ensures Same(r, w.(idle := w.idle[1..]))
  {
    hide M.Inv, M.Step, Leads, SameAnswers;
    SectionRuns(s, t, ANY);
    LeadsNowhere(s, t);
    LeadsOn(s, t, s, ANY);
    r := M.Step(s, M.Run(t, ANY));
    SectionRuns(r, t, ANY);
    LeadsOn(s, t, r, ANY);
    MovedTwice(s.tasks, t, M.PopIdle, M.VetIdle(w.idle[0]));
    r := M.Step(r, M.Run(t, ANY));
  }

  /** It is shown, lost with a failed send, or not worth showing. */
  lemma NoticeTried(s: M.State, w: W.World, t: M.TaskId, n: Notice) returns (r: M.State, next: W.World)
    requires M.Inv(s) && Same(s, w) && t in s.tasks && s.tasks[t] == M.VetIdle(n) && w.slot == W.Nothing
    ensures Leads(s, t, r) && r.tasks == s.tasks[t := M.PeekSlot] && Same(r, next)
    ensures next == if W.TabOf(w.tabs, n.session).None? then w else W.ShowIdle(w, n)
  {
    hide M.Inv, M.Step, Leads, SameAnswers, W.TabOf;
    var vetted := M.Env(Vetted(w, n), M.Undecided, true);
    SectionRuns(s, t, vetted);
    LeadsNowhere(s, t);
    LeadsOn(s, t, s, vetted);
    r := M.Step(s, M.Run(t, vetted));
    next := if W.TabOf(w.tabs, n.session).None? then w else W.ShowIdle(w, n);
    if Vetted(w, n) {
      var sent := M.Env(W.WriteOk(w.device), M.Undecided, true);
      SectionRuns(r, t, sent);
      if W.WriteOk(w.device) {
        NextUnanswered(s, w);
        Shown(r, w, next, n);
      }
      LeadsOn(s, t, r, sent);
      MovedTwice(s.tasks, t, M.ShowIdle(n, true), M.PeekSlot);
      r := M.Step(r, M.Run(t, sent));
    }
  }

  lemma {:induction false} NoticesAlone(s: M.State, w: W.World, t: M.TaskId) returns (r: M.State)
    requires M.Inv(s) && Same(s, w) && t in s.tasks && s.tasks[t] == M.PeekSlot
    ensures Leads(s, t, r) && r.tasks == s.tasks - {t} && Same(r, W.PromoteIdle(w))
    decreases |w.idle|
  {
    hide M.Inv, Leads, SameAnswers;
    if w.slot == W.Nothing && w.idle != [] {
      var popped := w.(idle := w.idle[1..]);
      var a := NoticePopped(s, w, t);
      LeadsToInv(s, t, a);
      var b, next := NoticeTried(a, popped, t, w.idle[0]);
      MovedTwice(s.tasks, t, M.VetIdle(w.idle[0]), M.PeekSlot);
      TasksBack(s.tasks, t, M.PeekSlot);
      LeadsFurther(s, t, a, b);
      assert W.PromoteIdle(w) == W.PromoteIdle(next) && |next.idle| < |w.idle|;
      hide M.Step, Same, W.PromoteIdle, W.ShowIdle;
      LeadsToInv(a, t, b);
      r := NoticesAlone(b, next, t);
      LeadsFurther(s, t, b, r);
    } else {
      r := NoticesOver(s, w, t);
    }
  }

  lemma NoticesOver(s: M.State, w: W.World, t: M.TaskId) returns (r: M.State)
    requires M.Inv(s) && Same(s, w) && t in s.tasks && s.tasks[t] == M.PeekSlot
    requires w.slot != W.Nothing || w.idle == []
    ensures Leads(s, t, r) && r.tasks == s.tasks - {t} && Same(r, w)
  {
    hide M.Inv, M.Step, Leads, SameAnswers;
    SectionRuns(s, t, ANY);
    LeadsNowhere(s, t);
    LeadsOn(s, t, s, ANY);
    r := M.Step(s, M.Run(t, ANY));
    if w.slot == W.Nothing {
      SectionRuns(r, t, ANY);
      LeadsOn(s, t, r, ANY);
      TasksBack(s.tasks, t, M.PopIdle);
      r := M.Step(r, M.Run(t, ANY));
    }
  }

  // ── Taking an alert off ──────────────────────────────────────────

  /** The machine knows nothing of tabs, sets and the device, and of an alert only what it is. */
  predicate AlikeFor(w: W.World, v: W.World) {
    && v.answers == w.answers && v.pending == w.pending && v.idle == w.idle
    && v.nextId == w.nextId && v.closed == w.closed
    && Bare(v.slot) == Bare(w.slot)
  }

  lemma SameFor(s: M.State, w: W.World, v: W.World)
    requires Same(s, w) && AlikeFor(w, v)
    ensures Same(s, v)
  {
  }

  lemma LiveUnanswered(s: M.State, w: W.World)
    requires M.Inv(s) && Same(s, w) && s.slot != M.Free
    ensures s.slot.Id() !in w.answers
  {
  }

  lemma Vacated(s: M.State, w: W.World)
    requires M.Inv(s) && Same(s, w)
    ensures Same(M.Vacate(s), w.(slot := W.Nothing))
  {
    if s.slot != M.Free {
      LiveUnanswered(s, w);
      Marked(s.log, w.answers, s.slot, s.slot.Id(), M.Dropped);
    }
    hide M.Inv, SameAnswers;
  }

  lemma Retained(s: M.State, w: W.World, kept: seq<Prompt>)
    requires Same(s, w)
    ensures Same(M.Retain(s, kept), w.(pending := kept))
  {
  }

  /** After the device tab of a taken alert is cleared, promotion follows. */
  lemma ClearedAlone(s: M.State, w: W.World, t: M.TaskId) returns (r: M.State)
    requires M.Inv(s) && Same(s, w) && t in s.tasks && s.tasks[t] == M.HidClear(M.ThenPromote)
    ensures Leads(s, t, r) && r.tasks == s.tasks - {t} && Same(r, W.Promote(w))
  {
    hide M.Inv, M.Step, Leads, SameAnswers, W.Promote;
    SectionRuns(s, t, ANY);
    LeadsNowhere(s, t);
    LeadsOn(s, t, s, ANY);
    var a := M.Step(s, M.Run(t, ANY));
    TasksBack(s.tasks, t, M.Pop);
    r := PromotionAlone(a, w, t);
    LeadsFurther(s, t, a, r);
  }

  /** A task whose next section takes the alert off, and which then promotes. */
  lemma TakenAlone(s: M.State, w: W.World, v: W.World, t: M.TaskId) returns (r: M.State)
    requires M.Inv(s) && Same(s, w) && t in s.tasks
    requires M.Step(s, M.Run(t, ANY)) == M.Vacate(s).(tasks := s.tasks[t := M.HidClear(M.ThenPromote)])
    requires AlikeFor(w.(slot := W.Nothing), v)
    ensures Leads(s, t, r) && r.tasks == s.tasks - {t} && Same(r, W.Promote(v))
  {
    hide M.Inv, M.Step, Leads, W.Promote;
    Vacated(s, w);
    LeadsNowhere(s, t);
    LeadsOn(s, t, s, ANY);
    var a := M.Step(s, M.Run(t, ANY));
    SameFor(M.Vacate(s), w.(slot := W.Nothing), v);
    assert Same(a, v) by { hide SameAnswers; }
    TasksBack(s.tasks, t, M.HidClear(M.ThenPromote));
    hide Same, AlikeFor;
    r := ClearedAlone(a, v, t);
    LeadsFurther(s, t, a, r);
  }

  // ── The operations ───────────────────────────────────────────────

  /** The rest of a cancel: prompts, notices if they are meant too, and promotion if the slot was freed. */
  lemma PurgeAlone(s: M.State, w: W.World, t: M.TaskId, session: Session, alsoIdle: bool, cleared: bool)
      returns (r: M.State)
    requires M.Inv(s) && Same(s, w) && t in s.tasks && s.tasks[t] == M.PurgeQueue(session, alsoIdle, cleared)
    ensures var v := Purged(w, session, alsoIdle);
            && Leads(s, t, r) && r.tasks == s.tasks - {t}
            && Same(r, if cleared then W.Promote(v) else v)
  {
    hide M.Inv, M.Step, Leads, SameAnswers, M.Retain, W.Promote;
    var kept := WithoutSession(w.pending, session);
    SectionRuns(s, t, ANY);
    Retained(s, w, kept);
    LeadsNowhere(s, t);
    LeadsOn(s, t, s, ANY);
    r := M.Step(s, M.Run(t, ANY));
    RetainKeepsTasks(s, kept);
    TasksBack(s.tasks, t, M.PurgeIdle(session, cleared));
    TasksBack(s.tasks, t, M.Pop);
    if alsoIdle {
      SectionRuns(r, t, ANY);
      LeadsOn(s, t, r, ANY);
      MovedTwice(s.tasks, t, M.PurgeIdle(session, cleared), M.Pop);
      r := M.Step(r, M.Run(t, ANY));
    }
    if cleared {
      var a := r;
      r := PromotionAlone(a, Purged(w, session, alsoIdle), t);
      LeadsFurther(s, t, a, r);
    }
  }

  lemma RetainKeepsTasks(s: M.State, kept: seq<Prompt>)
    ensures M.Retain(s, kept).tasks == s.tasks
  {
  }

  function Purged(w: W.World, session: Session, alsoIdle: bool): W.World {
    W.Purge(w, session).(idle := if alsoIdle then NoticesWithout(w.idle, session) else w.idle)
  }

  /** A cancel that took the live alert off goes on with the queued prompts. */
  lemma TakenPurgedAlone(s: M.State, w: W.World, v: W.World, t: M.TaskId, session: Session, alsoIdle: bool)
      returns (r: M.State)
    requires M.Inv(s) && Same(s, w) && t in s.tasks
    requires M.Step(s, M.Run(t, ANY))
          == M.Vacate(s).(tasks := s.tasks[t := M.HidClear(M.ThenPurge(session, alsoIdle))])
    requires AlikeFor(w.(slot := W.Nothing), v)
    ensures Leads(s, t, r) && r.tasks == s.tasks - {t}
    ensures Same(r, W.Promote(Purged(v, session, alsoIdle)))
  {
    hide M.Inv, M.Step, Leads, W.Promote, Purged;
    Vacated(s, w);
    LeadsNowhere(s, t);
    LeadsOn(s, t, s, ANY);
    var a := M.Step(s, M.Run(t, ANY));
    SameFor(M.Vacate(s), w.(slot := W.Nothing), v);
    assert Same(a, v) by { hide SameAnswers; }
    hide AlikeFor;
    SectionRuns(a, t, ANY);
    LeadsOn(s, t, a, ANY);
    var b := M.Step(a, M.Run(t, ANY));
    MovedTwice(s.tasks, t, M.HidClear(M.ThenPurge(session, alsoIdle)), M.PurgeQueue(session, alsoIdle, true));
    TasksBack(s.tasks, t, M.PurgeQueue(session, alsoIdle, true));
    assert Same(b, v) by { hide SameAnswers; }
    hide Same;
    r := PurgeAlone(b, v, t, session, alsoIdle, true);
    LeadsFurther(s, t, b, r);
  }

  lemma ReleasedAlike(w: W.World)
    requires w.slot != W.Nothing
    ensures AlikeFor(w.(slot := W.Nothing), W.Release(w))
  {
  }

  lemma ProgressAlone(s: M.State, w: W.World, t: M.TaskId, session: Session) returns (r: M.State)
    requires M.Inv(s) && Same(s, w) && t in s.tasks && s.tasks[t] == M.Progress(session)
    ensures Leads(s, t, r) && r.tasks == s.tasks - {t} && Same(r, W.CancelForProgress(w, session))
  {
    hide M.Inv, M.Step, Leads, W.Promote, SameAnswers, M.Vacate;
    SectionRuns(s, t, ANY);
    VacateKeepsTasks(s);
    if w.slot.OwnedBy(session) {
      ReleasedAlike(w);
      r := TakenPurgedAlone(s, w, W.Release(w), t, session, true);
    } else {
      LeadsNowhere(s, t);
      LeadsOn(s, t, s, ANY);
      var a := M.Step(s, M.Run(t, ANY));
      TasksBack(s.tasks, t, M.PurgeQueue(session, true, false));
      r := PurgeAlone(a, w, t, session, true, false);
      LeadsFurther(s, t, a, r);
    }
  }

  lemma VacateKeepsTasks(s: M.State)
    ensures M.Vacate(s).tasks == s.tasks
  {
  }

  lemma FocusAlone(s: M.State, w: W.World, t: M.TaskId, session: Session) returns (r: M.State)
    requires M.Inv(s) && Same(s, w) && t in s.tasks && s.tasks[t] == M.FocusIn(session)
    ensures Leads(s, t, r) && r.tasks == s.tasks - {t} && Same(r, W.CancelIdle(w, session))
  {
    hide M.Inv, M.Step, Leads, W.Promote, SameAnswers, M.Vacate;
    var v := w.(idle := NoticesWithout(w.idle, session));
    SectionRuns(s, t, ANY);
    LeadsNowhere(s, t);
    LeadsOn(s, t, s, ANY);
    var a := M.Step(s, M.Run(t, ANY));
    SectionRuns(a, t, ANY);
    VacateKeepsTasks(a);
    TasksBack(s.tasks, t, M.CancelIdle(session));
    if w.slot.IdleUp? && w.slot.session == session {
      ReleasedAlike(v);
      r := TakenAlone(a, v, W.Release(v), t);
      LeadsFurther(s, t, a, r);
    } else {
      LeadsOn(s, t, a, ANY);
      r := M.Step(a, M.Run(t, ANY));
    }
  }

  lemma CancelAlone(s: M.State, w: W.World, t: M.TaskId, session: Session, only: Option<string>) returns (r: M.State)
    requires M.Inv(s) && Same(s, w) && t in s.tasks && s.tasks[t] == M.CancelPending(session, only)
    ensures Leads(s, t, r) && r.tasks == s.tasks - {t} && Same(r, W.CancelPending(w, session, only))
  {
    hide M.Inv, M.Step, Leads, W.Promote, SameAnswers, M.Vacate;
    SectionRuns(s, t, ANY);
    VacateKeepsTasks(s);
    TasksBack(s.tasks, t, M.PurgeQueue(session, false, false));
    if w.slot.PromptUp? && w.slot.prompt.session == session && (only == None || w.slot.prompt.tool == only) {
      ReleasedAlike(w);
      if only == None {
        r := TakenPurgedAlone(s, w, W.Release(w), t, session, false);
      } else {
        r := TakenAlone(s, w, W.Release(w), t);
      }
    } else {
      LeadsNowhere(s, t);
      LeadsOn(s, t, s, ANY);
      r := M.Step(s, M.Run(t, ANY));
      if only == None {
        var a := r;
        r := PurgeAlone(a, w, t, session, false, false);
        LeadsFurther(s, t, a, r);
      }
    }
  }

  /** A refresh drops the prompts without a tab, and looks at the slot. */
  lemma PeekAlone(s: M.State, w: W.World, t: M.TaskId, tabs: seq<W.Wrapper>) returns (r: M.State)
    requires M.Inv(s) && Same(s, w) && t in s.tasks && s.tasks[t] == M.Refresh(W.Sessions(tabs))
    ensures Leads(s, t, r) && Same(r, w.(tabs := tabs, pending := OnTabs(w.pending, W.Sessions(tabs))))
    ensures r.tasks == s.tasks[t := if w.slot == W.Nothing then M.Pop
                                    else M.RefreshAct(W.Sessions(tabs), w.slot.Owner())]
  {
    hide M.Inv, M.Step, Leads, SameAnswers, M.Retain, OnTabs, W.Sessions;
    var seats, kept := W.Sessions(tabs), OnTabs(w.pending, W.Sessions(tabs));
    var next := if w.slot == W.Nothing then M.Pop else M.RefreshAct(seats, w.slot.Owner());
    SectionRuns(s, t, ANY);
    Retained(s, w, kept);
    RetainKeepsTasks(s, kept);
    LeadsNowhere(s, t);
    LeadsOn(s, t, s, ANY);
    var a := M.Step(s, M.Run(t, ANY));
    SectionRuns(a, t, ANY);
    LeadsOn(s, t, a, ANY);
    MovedTwice(s.tasks, t, M.RefreshPeek(seats), next);
    r := M.Step(a, M.Run(t, ANY));
  }

  lemma TabsAlone(s: M.State, w: W.World, t: M.TaskId, tabs: seq<W.Wrapper>) returns (r: M.State)
    requires M.Inv(s) && Same(s, w) && t in s.tasks && s.tasks[t] == M.Refresh(W.Sessions(tabs))
    ensures Leads(s, t, r) && r.tasks == s.tasks - {t} && Same(r, W.Retab(w, tabs))
  {
    hide M.Inv, M.Step, Leads, W.Promote, Same, OnTabs, W.TabOf, W.Sessions;
    var v := w.(tabs := tabs, pending := OnTabs(w.pending, W.Sessions(tabs)));
    var a := PeekAlone(s, w, t, tabs);
    LeadsToInv(s, t, a);
    if w.slot == W.Nothing {
      TasksBack(s.tasks, t, M.Pop);
      r := PromotionAlone(a, v, t);
    } else {
      TasksBack(s.tasks, t, M.RefreshAct(W.Sessions(tabs), w.slot.Owner()));
      r := ActAlone(a, v, t, tabs);
      if W.TabOf(tabs, w.slot.Owner()).Some? { SameFor(r, v, W.Retab(w, tabs)); }
    }
    LeadsFurther(s, t, a, r);
  }

  lemma Seated(tabs: seq<W.Wrapper>, session: Session)
    ensures Some(session) in W.Sessions(tabs) <==> W.TabOf(tabs, session).Some?
  {
    if W.TabOf(tabs, session).Some? {
      assert W.Sessions(tabs)[W.TabOf(tabs, session).value] == Some(session);
    }
  }

  lemma ActAlone(s: M.State, w: W.World, t: M.TaskId, tabs: seq<W.Wrapper>) returns (r: M.State)
    requires M.Inv(s) && Same(s, w) && t in s.tasks && w.slot != W.Nothing
    requires s.tasks[t] == M.RefreshAct(W.Sessions(tabs), w.slot.Owner())
    ensures Leads(s, t, r) && r.tasks == s.tasks - {t}
    ensures Same(r, if W.TabOf(tabs, w.slot.Owner()).None? then W.Promote(W.Release(w)) else w)
  {
    hide M.Inv, M.Step, Leads, W.Promote, SameAnswers, M.Vacate, W.Sessions, W.TabOf;
    Seated(tabs, w.slot.Owner());
    SectionRuns(s, t, ANY);
    VacateKeepsTasks(s);
    if W.TabOf(tabs, w.slot.Owner()).None? {
      ReleasedAlike(w);
      r := TakenAlone(s, w, W.Release(w), t);
    } else {
      LeadsNowhere(s, t);
      LeadsOn(s, t, s, ANY);
      r := M.Step(s, M.Run(t, ANY));
    }
  }

  lemma ResetAlone(s: M.State, w: W.World, t: M.TaskId) returns (r: M.State)
    requires M.Inv(s) && Same(s, w) && t in s.tasks && s.tasks[t] == M.Reset
    ensures Leads(s, t, r) && r.tasks == s.tasks - {t} && Same(r, W.Disconnect(w))
  {
    hide M.Inv, M.Step, Leads, SameAnswers, M.Vacate, M.Retain;
    SectionRuns(s, t, ANY);
    Vacated(s, w);
    VacateKeepsTasks(s);
    Retained(M.Vacate(s), w.(slot := W.Nothing), []);
    RetainKeepsTasks(M.Vacate(s), []);
    LeadsNowhere(s, t);
    LeadsOn(s, t, s, ANY);
    r := M.Step(s, M.Run(t, ANY));
  }

  lemma KeyAlone(s: M.State, w: W.World, t: M.TaskId, key: Key) returns (r: M.State)
    requires M.Inv(s) && Same(s, w) && t in s.tasks && s.tasks[t] == M.Snapshot(key)
    ensures Leads(s, t, r) && r.tasks == s.tasks - {t} && Same(r, W.Consume(w, key).0)
  {
    hide M.Inv, M.Step, Leads, W.Promote, SameAnswers, M.Vacate;
    SectionRuns(s, t, ANY);
    LeadsNowhere(s, t);
    LeadsOn(s, t, s, ANY);
    var a := M.Step(s, M.Run(t, ANY));
    r := a;
    if t in a.tasks {
      SectionRuns(a, t, ANY);
      VacateKeepsTasks(a);
      TasksBack(s.tasks, t, a.tasks[t]);
      if w.slot.IdleUp? {
        ReleasedAlike(w);
        r := TakenAlone(a, w, W.Release(w), t);
      } else {
        r := DecideAlone(a, w, t, key);
      }
      LeadsFurther(s, t, a, r);
    }
  }

  /** The live prompt is taken off, to be answered. */
  lemma TakeAlone(s: M.State, w: W.World, t: M.TaskId, key: Key) returns (r: M.State)
    requires M.Inv(s) && Same(s, w) && t in s.tasks && w.slot.PromptUp?
    requires s.tasks[t] == M.Decide(w.slot.prompt.id, key)
    ensures Leads(s, t, r) && r.tasks == s.tasks[t := M.Resolve(w.slot.prompt, OutcomeOf(key))]
    ensures Same(r, w.(slot := W.Nothing)) && w.slot.prompt.id !in w.answers
  {
    hide M.Inv, M.Step, Leads, SameAnswers;
    SectionRuns(s, t, ANY);
    LiveUnanswered(s, w);
    Marked(s.log, w.answers, s.slot, w.slot.prompt.id, M.Taken(t));
    LeadsNowhere(s, t);
    LeadsOn(s, t, s, ANY);
    r := M.Step(s, M.Run(t, ANY));
  }

  /** A decision takes the prompt off, sends the answer, and promotes. */
  lemma DecideAlone(s: M.State, w: W.World, t: M.TaskId, key: Key) returns (r: M.State)
    requires M.Inv(s) && Same(s, w) && t in s.tasks && w.slot.PromptUp?
    requires s.tasks[t] == M.Decide(w.slot.prompt.id, key) && key != FocusKey && key != OtherKey
    ensures Leads(s, t, r) && r.tasks == s.tasks - {t} && Same(r, W.Consume(w, key).0)
  {
    hide M.Inv, M.Step, Leads, W.Promote, SameAnswers, M.Vacate;
    var p, o := w.slot.prompt, OutcomeOf(key);
    var a := TakeAlone(s, w, t, key);
    SectionRuns(a, t, ANY);
    Marked(a.log, w.answers, M.Pending(p), p.id, if p.id in a.closed then M.Dropped else M.Answered(o));
    LeadsOn(s, t, a, ANY);
    var b := M.Step(a, M.Run(t, ANY));
    MovedTwice(s.tasks, t, M.Resolve(p, o), M.HidClear(M.ThenPromote));
    TasksBack(s.tasks, t, M.HidClear(M.ThenPromote));
    var v := w.(slot := W.Nothing, answers := if p.id in w.closed then w.answers else w.answers[p.id := o]);
    var d := W.ClearAlert(W.Answer(W.Enroll(w.(slot := W.Nothing), p, o), p, o), w.slot.tab);
    assert Same(b, v);
    DecidedAlike(w, o);
    hide Same, AlikeFor;
    SameFor(b, v, d);
    r := ClearedAlone(b, d, t);
    LeadsFurther(s, t, b, r);
  }

  lemma DecidedAlike(w: W.World, o: Outcome)
    requires w.slot.PromptUp?
    ensures var p := w.slot.prompt;
            AlikeFor(w.(slot := W.Nothing, answers := if p.id in w.closed then w.answers else w.answers[p.id := o]),
                     W.ClearAlert(W.Answer(W.Enroll(w.(slot := W.Nothing), p, o), p, o), w.slot.tab))
  {
  }

  /** The parked handler, once its wait is over. */
  lemma WakeAlone(s: M.State, w: W.World, t: M.TaskId, id: nat, enrollment: bool, wid: Option<WrapperId>)
      returns (r: M.State)
    requires M.Inv(s) && Same(s, w) && t in s.tasks && s.tasks[t] == M.Parked(id)
    ensures Leads(s, t, r) && r.tasks == s.tasks - {t} && Same(r, W.Wake(w, id, enrollment, wid).0)
  {
    hide M.Inv, M.Step, Leads, W.Promote, SameAnswers, M.Vacate;
    var closing := w.(closed := w.closed + {id});
    SectionRuns(s, t, ANY);
    LeadsNowhere(s, t);
    LeadsOn(s, t, s, ANY);
    var a := M.Step(s, M.Run(t, ANY));
    SectionRuns(a, t, ANY);
    VacateKeepsTasks(a);
    TasksBack(s.tasks, t, M.ClearIf(id));
    if a.slot.Is(id) {
      ReleasedAlike(closing);
      r := TakenAlone(a, closing, W.Release(closing), t);
      LeadsFurther(s, t, a, r);
    } else {
      LeadsOn(s, t, a, ANY);
      r := M.Step(a, M.Run(t, ANY));
    }
    WakeMarks(w, id, enrollment, wid);
    hide Same, AlikeFor, W.Wake;
    SameFor(r, W.ClearAlertIf(closing, id), W.Wake(w, id, enrollment, wid).0);
  }

  lemma WakeMarks(w: W.World, id: nat, enrollment: bool, wid: Option<WrapperId>)
    ensures AlikeFor(W.ClearAlertIf(w.(closed := w.closed + {id}), id), W.Wake(w, id, enrollment, wid).0)
  {
    hide W.ClearAlertIf;
  }

  /** A notice that is worth showing. */
  lemma NoticeAlone(s: M.State, w: W.World, t: M.TaskId, n: Notice) returns (r: M.State)
    requires M.Inv(s) && Same(s, w) && t in s.tasks && s.tasks[t] == M.ShowIdle(n, false) && !W.Suppressed(w, n)
    ensures Leads(s, t, r) && r.tasks == s.tasks - {t} && Same(r, W.ShowIdle(w, n))
  {
    hide M.Inv, M.Step, Leads, SameAnswers, M.Vacate, W.TabOf, W.Suppressed;
    var sent := M.Env(W.WriteOk(w.device), M.Undecided, true);
    SectionRuns(s, t, sent);
    LeadsNowhere(s, t);
    LeadsOn(s, t, s, sent);
    r := M.Step(s, M.Run(t, sent));
    if w.slot == W.Nothing || (w.slot.IdleUp? && w.slot.session == n.session) {
      NextUnanswered(s, w);
      Vacated(s, w);
      VacateKeepsTasks(s);
      if W.WriteOk(w.device) {
        Shown(M.Vacate(s), w.(slot := W.Nothing), W.ShowIdle(w, n).(slot := W.ShowIdle(w, n).slot), n);
      }
    } else {
      SectionRuns(r, t, ANY);
      LeadsOn(s, t, r, ANY);
      TasksBack(s.tasks, t, M.QueueIdle(n, false));
      r := M.Step(r, M.Run(t, ANY));
    }
  }

  /** A prompt is parked, and its handler with it, or there is no room. */
  lemma InstallAlone(s: M.State, w: W.World, t: M.TaskId, session: Session, tool: Option<string>, enrollment: bool,
      body: Body) returns (r: M.State)
    requires M.Inv(s) && Same(s, w) && t in s.tasks && s.tasks[t] == M.Install(session, tool, enrollment, body)
    ensures var (v, id) := W.Install(w, session, tool, body, enrollment);
            && Leads(s, t, r) && Same(r, v)
            && r.tasks == if id.Some? then s.tasks[t := M.Parked(id.value)] else s.tasks - {t}
  {
    hide M.Inv, M.Step, Leads, SameAnswers, W.TabOf;
    var sent := M.Env(W.WriteOk(w.device), M.Undecided, true);
    var p := Prompt(w.nextId, session, tool, enrollment, body);
    NextUnanswered(s, w);
    Marked(s.log, w.answers, M.Pending(p), p.id, M.Queued);
    Marked(s.log, w.answers, M.Pending(p), p.id, M.Live);
    SectionRuns(s, t, sent);
    LeadsNowhere(s, t);
    LeadsOn(s, t, s, sent);
    r := M.Step(s, M.Run(t, sent));
  }

  /** The hook has to ask: nothing else settles the request. */
  predicate Asks(w: W.World, session: Option<Session>, tool: Option<string>) {
    && session.Some? && !IsUserInputTool(tool.GetOr("unknown"))
    && (w.sets.yolo && w.device.online ==>
          !W.Enrolled(w, session.value)
          && (W.WrapperOf(w.tabs, session.value).None? || W.WrapperOf(w.tabs, session.value).value !in w.sets.optOut))
  }

  /** The section at which an operation enters the alert engine, if it does; a handler that resumes is there already. */
  function EntryOf(w: W.World, op: W.Op): Option<M.Pc> {
    match op
    case OpRequest(session, tool, title, task) =>
      if !Asks(w, session, tool) then None
      else
        var text := if w.sets.yolo then "Auto-approve this tab?" else "Allow " + tool.GetOr("unknown") + "?";
        Some(M.Install(session.value, tool, w.sets.yolo, Body(title, text, Some(task))))
    case OpNotice(n) => if W.Suppressed(w, n) then None else Some(M.ShowIdle(n, false))
    case OpProgress(session) => Some(M.Progress(session))
    case OpCancelPending(session, only) => Some(M.CancelPending(session, only))
    case OpFocusIn(session) => Some(M.FocusIn(session))
    case OpKey(key) => Some(M.Snapshot(key))
    case OpRetab(tabs) => Some(M.Refresh(W.Sessions(tabs)))
    case OpUnregister(wid) => Some(M.Refresh(W.Sessions(Others(w, wid))))
    case OpDisconnect => Some(M.Reset)
    case _ => None
  }

  function Others(w: W.World, wid: WrapperId): seq<W.Wrapper> {
    var others := (x: W.Wrapper) => x.id != wid;
    Filter(w.tabs, others)
  }

  /** The handler that an operation leaves parked. */
  function ParkedBy(w: W.World, op: W.Op): Option<nat> {
    match op
    case OpRequest(session, tool, title, task) =>
      var reply := W.Request(w, session, tool, title, task).1;
      if reply.Parks? then Some(reply.id) else None
    case _ => None
  }

  lemma Spawned(s: M.State, w: W.World, t: M.TaskId, entry: M.Pc)
    requires M.Inv(s) && Same(s, w) && t !in s.tasks && M.IsEntry(entry)
    ensures var a := M.Step(s, M.Spawn(t, entry));
            M.Inv(a) && Same(a, w) && a.tasks == s.tasks[t := entry] && a.tasks - {t} == s.tasks
  {
    M.InvKept(s, M.Spawn(t, entry));
    hide M.Inv, SameAnswers;
  }

  lemma RequestAlone(s: M.State, w: W.World, t: M.TaskId, op: W.Op) returns (r: M.State)
    requires M.Inv(s) && Same(s, w) && op.OpRequest? && EntryOf(w, op).Some?
    requires t in s.tasks && s.tasks[t] == EntryOf(w, op).value
    ensures Leads(s, t, r) && Same(r, W.Apply(w, op))
    ensures r.tasks == match ParkedBy(w, op) case Some(id) => s.tasks[t := M.Parked(id)] case None => s.tasks - {t}
  {
    var pc := EntryOf(w, op).value;
    r := InstallAlone(s, w, t, pc.session, pc.tool, pc.enrollment, pc.body);
    hide M.Inv, Leads, Same, W.Install;
  }

  lemma UnregisterAlone(s: M.State, w: W.World, t: M.TaskId, wid: WrapperId) returns (r: M.State)
    requires M.Inv(s) && Same(s, w) && t in s.tasks && s.tasks[t] == M.Refresh(W.Sessions(Others(w, wid)))
    ensures Leads(s, t, r) && r.tasks == s.tasks - {t} && Same(r, W.Unregister(w, wid))
  {
    SameFor(s, w, W.DropEnrollment(w, wid));
    hide M.Inv, Leads, Same, W.Retab;
    r := TabsAlone(s, W.DropEnrollment(w, wid), t, Others(w, wid));
  }

  /** A task that runs its operation from beginning to end, with nobody in between, does exactly what the operation
      does as a whole, from any state in which both models agree; it leaves its handler parked, or nothing. */
  lemma OperationAlone(s: M.State, w: W.World, op: W.Op, t: M.TaskId) returns (r: M.State)
    requires M.Inv(s) && Same(s, w) && t !in s.tasks && EntryOf(w, op).Some?
    ensures Leads(M.Step(s, M.Spawn(t, EntryOf(w, op).value)), t, r) && Same(r, W.Apply(w, op))
    ensures r.tasks == match ParkedBy(w, op) case Some(id) => s.tasks[t := M.Parked(id)] case None => s.tasks
  {
    var entry := EntryOf(w, op).value;
    Spawned(s, w, t, entry);
    var a := M.Step(s, M.Spawn(t, entry));
    hide M.Inv, M.Step, Leads, Same, W.Sessions, W.Suppressed, Others;
    match op {
      case OpRequest(session, tool, title, task) =>
        r := RequestAlone(a, w, t, op);
        if ParkedBy(w, op).Some? { MovedTwice(s.tasks, t, entry, M.Parked(ParkedBy(w, op).value)); }
        hide W.Request, Asks;
      case OpNotice(n) => r := NoticeAlone(a, w, t, n);
      case OpProgress(session) => r := ProgressAlone(a, w, t, session);
      case OpCancelPending(session, only) => r := CancelAlone(a, w, t, session, only);
      case OpFocusIn(session) => r := FocusAlone(a, w, t, session);
      case OpKey(key) => r := KeyAlone(a, w, t, key);
      case OpRetab(tabs) => r := TabsAlone(a, w, t, tabs);
      case OpUnregister(wid) => r := UnregisterAlone(a, w, t, wid);
      case OpDisconnect => r := ResetAlone(a, w, t);
    }
    hide W.ShowIdle, W.CancelForProgress, W.CancelPending, W.CancelIdle, W.Consume, W.Retab, W.Unregister,
      W.Disconnect;
  }

  /** What does not enter the alert engine leaves it as it is. */
  lemma ElsewhereSame(s: M.State, w: W.World, op: W.Op)
    requires Same(s, w) && EntryOf(w, op).None? && !op.OpWake?
    ensures Same(s, W.Apply(w, op)) && ParkedBy(w, op) == None
  {
    hide SameAnswers, W.ClearTabs;
    if op.OpReconnect? { Runs.TabsCleared(w.device.(online := true, store := op.left), W.DEVICE_ALERT_TABS); }
    SameFor(s, w, W.Apply(w, op));
  }

  // ── Whole runs ───────────────────────────────────────────────────

  /** The handlers that wait after an operation. */
  function WaitingAfter(w: W.World, waiting: set<nat>, op: W.Op): set<nat> {
    if op.OpWake? then waiting - {op.id}
    else match ParkedBy(w, op) case Some(id) => waiting + {id} case None => waiting
  }

  /** Only handlers that were parked resume, each once. */
  predicate Proper(w: W.World, waiting: set<nat>, ops: seq<W.Op>)
    decreases |ops|
  {
    ops == []
    || ((ops[0].OpWake? ==> ops[0].id in waiting)
        && Proper(W.Apply(w, ops[0]), WaitingAfter(w, waiting, ops[0]), ops[1..]))
  }

  /** Every waiting handler is a parked task, and the tasks are numbered below `n`. */
  ghost predicate Waits(s: M.State, n: nat, waiting: set<nat>) {
    && (forall t :: t in s.tasks ==> t < n)
    && forall id :: id in waiting ==> exists t :: t in s.tasks && s.tasks[t] == M.Parked(id)
  }

  lemma {:induction false} AloneIsExec(s: M.State, t: M.TaskId, envs: seq<M.Env>) returns (events: seq<M.Event>)
    ensures M.Exec(s, events) == Alone(s, t, envs)
    decreases |envs|
  {
    hide M.Step;
    if envs == [] {
      events := [];
    } else {
      var rest := AloneIsExec(M.Step(s, M.Run(t, envs[0])), t, envs[1..]);
      events := [M.Run(t, envs[0])] + rest;
      assert events[1..] == rest;
    }
  }

  lemma StillWaits(s: M.State, r: M.State, n: nat, waiting: set<nat>, t: M.TaskId, parked: Option<nat>)
    requires Waits(s, n, waiting) && t == n
    requires r.tasks == match parked case Some(id) => s.tasks[t := M.Parked(id)] case None => s.tasks
    ensures Waits(r, n + 1, match parked case Some(id) => waiting + {id} case None => waiting)
  {
    var now := match parked case Some(id) => waiting + {id} case None => waiting;
    forall id | id in now ensures exists u :: u in r.tasks && r.tasks[u] == M.Parked(id) {
      if parked == Some(id) {
        assert r.tasks[t] == M.Parked(id);
      } else {
        var u :| u in s.tasks && s.tasks[u] == M.Parked(id);
        assert r.tasks[u] == M.Parked(id);
      }
    }
  }

  lemma OthersWait(s: M.State, r: M.State, n: nat, waiting: set<nat>, t: M.TaskId, id: nat)
    requires Waits(s, n, waiting) && t in s.tasks && s.tasks[t] == M.Parked(id) && r.tasks == s.tasks - {t}
    ensures Waits(r, n + 1, waiting - {id})
  {
    forall i | i in waiting - {id} ensures exists u :: u in r.tasks && r.tasks[u] == M.Parked(i) {
      var u :| u in s.tasks && s.tasks[u] == M.Parked(i);
      assert r.tasks[u] == M.Parked(i);
    }
  }

  /** One operation of a run, by the machine. */
  lemma NextAlone(s: M.State, w: W.World, op: W.Op, n: nat, waiting: set<nat>) returns (events: seq<M.Event>)
    requires M.Inv(s) && Same(s, w) && Waits(s, n, waiting) && (op.OpWake? ==> op.id in waiting)
    ensures var r := M.Exec(s, events);
            M.Inv(r) && Same(r, W.Apply(w, op)) && Waits(r, n + 1, WaitingAfter(w, waiting, op))
  {
    hide M.Inv, M.Step, Same, EntryOf, ParkedBy;
    if op.OpWake? {
      var t :| t in s.tasks && s.tasks[t] == M.Parked(op.id);
      var r := WakeAlone(s, w, t, op.id, op.enrollment, op.wid);
      OthersWait(s, r, n, waiting, t, op.id);
      var envs :| Alone(s, t, envs) == r && M.Inv(r);
      events := AloneIsExec(s, t, envs);
    } else if EntryOf(w, op).Some? {
      var r := OperationAlone(s, w, op, n);
      StillWaits(s, r, n, waiting, n, ParkedBy(w, op));
      var spawn := M.Spawn(n, EntryOf(w, op).value);
      var envs :| Alone(M.Step(s, spawn), n, envs) == r && M.Inv(r);
      var rest := AloneIsExec(M.Step(s, spawn), n, envs);
      events := [spawn] + rest;
      assert events[1..] == rest;
    } else {
      ElsewhereSame(s, w, op);
      events := [];
    }
    hide W.Apply;
  }

  lemma {:induction false} RunByMachine(s: M.State, w: W.World, ops: seq<W.Op>, n: nat, waiting: set<nat>)
      returns (events: seq<M.Event>)
    requires M.Inv(s) && Same(s, w) && Waits(s, n, waiting) && Proper(w, waiting, ops)
    ensures Same(M.Exec(s, events), W.Run(w, ops))
    decreases |ops|
  {
    if ops == [] {
      events := [];
    } else {
      var first := NextAlone(s, w, ops[0], n, waiting);
      hide M.Inv, Same, Waits, W.Apply;
      var next := WaitingAfter(w, waiting, ops[0]);
      var rest := RunByMachine(M.Exec(s, first), W.Apply(w, ops[0]), ops[1..], n + 1, next);
      events := first + rest;
      Safety.ExecTwice(s, first, rest);
    }
  }

  /** Every run of complete operations, on any link, is a run of the lock-section machine: some schedule of its tasks,
      and some answers of the other locks and the device, take it from its initial state to the same slot, queues,
      closed receivers and answers. What holds of all interleavings holds of the operations. */
  lemma OperationsAreRuns(fails: set<nat>, ops: seq<W.Op>)
    requires Proper(W.Initial(fails), {}, ops)
    ensures exists events :: Same(M.Exec(M.INITIAL, events), W.Run(W.Initial(fails), ops))
  {
    var events := RunByMachine(M.INITIAL, W.Initial(fails), ops, 0, {});
  }
}

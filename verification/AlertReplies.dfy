// What the permission hook answers, and what a run of operations has to do with
// it: an allow is never answered unasked (hooks.rs, `handle_permission_request`).

module AlertReplies {
  import opened Prelude
  import opened AlertTypes
  import opened AlertWorld
  import opened AlertRuns
  import opened AlertPromotion
  import opened AlertOutcomes

  // ── A request ────────────────────────────────────────────────────

  predicate ForUser(tool: Option<string>) { tool.Some? && IsUserInputTool(tool.value) }

  /** Nobody needs to be asked: Auto-approve is armed, the device is there to disarm it, and the wrapper opted in. */
  predicate Cleared(w: World, session: Option<Session>, tool: Option<string>) {
    w.sets.yolo && w.device.online && session.Some? && Enrolled(w, session.value) && !ForUser(tool)
  }

  /** The request is the terminal's: it is a question to the user, or nobody's, or the wrapper declined to be asked. */
  predicate LeftToTerminal(w: World, session: Option<Session>, tool: Option<string>) {
    || ForUser(tool) || session.None?
    || (w.sets.yolo && w.device.online && !Enrolled(w, session.value)
        && WrapperOf(w.tabs, session.value).Some? && WrapperOf(w.tabs, session.value).value in w.sets.optOut)
  }

  /** A prompt can be parked: behind the live alert while the queue has room, or on a device that takes it. */
  predicate Room(w: World) {
    if w.slot == Nothing then WriteOk(w.device) else |w.pending| < PENDING_QUEUE_CAP
  }

  /** The hook allows a request at once exactly when nobody needs to be asked, and only that goes on record; it leaves
      to the terminal what is the terminal's, with nothing changed; it asks otherwise, if there is room. What is parked
      is then live at its tab, or last in the queue; what finds no room is the terminal's too. */
  lemma RequestAnswers(w: World, session: Option<Session>, tool: Option<string>, title: string, task: string)
    ensures var (r, reply) := Request(w, session, tool, title, task);
            && (reply == AllowReply <==> Cleared(w, session, tool))
            && r.auto == w.auto + (if Cleared(w, session, tool) then [AutoAllow(tool, true, true)] else [])
            && (Cleared(w, session, tool) ==> r == w.(auto := r.auto))
            && (LeftToTerminal(w, session, tool) ==> reply == PassReply && r == w)
            && (reply.Parks? <==>
                  !Cleared(w, session, tool) && !LeftToTerminal(w, session, tool) && Room(w))
            && (reply.Parks? ==> Parked(w, r, reply.id, session.value, tool, title, task))
            && (reply == PassReply ==> r == w || r == SendFailed(w))
            && reply != DenyReply
  {
  }

  /** A plan to approve and a question asked are the terminal's, in any state and under Auto-approve too; so no other
      tool is by its name alone. */
  lemma QuestionsAreTheTerminals(w: World, session: Option<Session>, tool: string, title: string, task: string)
    ensures tool in {"ExitPlanMode", "AskUserQuestion"} ==>
              Request(w, session, Some(tool), title, task) == (w, PassReply)
    ensures tool !in {"ExitPlanMode", "AskUserQuestion"} ==> !ForUser(Some(tool))
  {
  }

  /** `r` is `w` with a new prompt, live or last in the queue. */
  predicate Parked(w: World, r: World, id: nat, session: Session, tool: Option<string>, title: string, task: string) {
    var question := if w.sets.yolo then "Auto-approve this tab?" else "Allow " + tool.GetOr("unknown") + "?";
    var p := Prompt(id, session, tool, w.sets.yolo, Body(title, question, Some(task)));
    && id == w.nextId && r.nextId == id + 1
    && if w.slot != Nothing then r == w.(pending := w.pending + [p], nextId := id + 1)
       else
         var tab := TabOf(w.tabs, session).GetOr(0);
         && r.slot == PromptUp(p, tab) && r.pending == w.pending && r.idle == w.idle
         && r.device.store == w.device.store[tab := p.body] && r.shown == w.shown + [id]
  }

  // ── The rest of the handler ──────────────────────────────────────

  /** The hook answers what was decided: an Allow allows, a Deny denies, unless it was about enrollment, and without
      a decision the request is the terminal's. The sets change only by what an enrollment prompt was answered. */
  lemma WakeAnswers(w: World, id: nat, enrollment: bool, wid: Option<WrapperId>)
    ensures var (r, reply) := Wake(w, id, enrollment, wid);
            && (reply == AllowReply <==> id in w.answers && w.answers[id] == Allow)
            && (reply == DenyReply <==> id in w.answers && w.answers[id] == Deny && !enrollment)
            && (reply == PassReply <==> id !in w.answers || (w.answers[id] == Deny && enrollment))
            && r.closed == w.closed + {id}
    ensures var (r, reply) := Wake(w, id, enrollment, wid);
            && (!enrollment || wid.None? || id !in w.answers ==> r.sets == w.sets)
            && (enrollment && wid.Some? && reply == AllowReply ==> r == if w.sets.yolo then MarkIn(r, wid.value) else r)
            && (enrollment && wid.Some? && id in w.answers && reply == PassReply ==> r == MarkOut(r, wid.value))
  {
    hide Promote;
  }

  // ── Where answers come from ──────────────────────────────────────

  /** Between `w` and `r` the prompt `p` was allowed without a key press, and that is on record. */
  predicate Recorded(w: World, r: World, p: Prompt) {
    !NeedsUser(p) && |w.auto| <= |r.auto| && exists a :: a in r.auto[|w.auto|..] && a.tool == p.tool
  }

  /** A prompt issued since, and no question to the user. */
  predicate New(w: World, p: Prompt) { p.id >= w.nextId && !NeedsUser(p) }

  /** From `w` to `r` prompts only go, or are new, and answers are given only as Allows to prompts that were queued,
      which go on record. */
  predicate Follows(w: World, r: World) {
    && w.nextId <= r.nextId && w.auto <= r.auto
    && (forall p :: p in r.pending ==> p in w.pending || New(w, p))
    && (r.slot.PromptUp? ==>
          r.slot.prompt in w.pending || New(w, r.slot.prompt)
          || (w.slot.PromptUp? && r.slot.prompt == w.slot.prompt))
    && (forall id :: id in w.answers ==> id in r.answers)
    && (forall id :: id in r.answers && (id in w.answers ==> r.answers[id] != w.answers[id]) ==>
          r.answers[id] == Allow && exists p :: p in w.pending && p.id == id && Recorded(w, r, p))
  }

  lemma {:induction false} RecordsHold(w: World, ps: seq<Prompt>, p: Prompt)
    requires p in ps && Judge(w, p) == EnrolledIn
    ensures exists a :: a in Records(w, ps) && a.tool == p.tool
  {
    if ps[0] == p {
      assert Records(w, ps)[0] == AutoAllow(p.tool, w.sets.yolo, true);
    } else {
      RecordsHold(w, ps[1..], p);
      var a :| a in Records(w, ps[1..]) && a.tool == p.tool;
      assert a in Records(w, ps);
    }
  }

  lemma GrantedRecorded(w: World, r: World, ps: seq<Prompt>, id: nat)
    requires id in Granted(w, ps) && r.auto == w.auto + Records(w, ps)
    ensures exists p :: p in ps && p.id == id && Recorded(w, r, p)
  {
    var p :| p in ps && Judge(w, p) == EnrolledIn && p.id == id;
    RecordsHold(w, ps, p);
    assert r.auto[|w.auto|..] == Records(w, ps);
    assert !NeedsUser(p);
    hide Judge, Records;
  }

  lemma PromotionQueue(w: World)
    requires w.slot == Nothing
    ensures var r := Promote(w);
            && w.nextId <= r.nextId && (forall p :: p in r.pending ==> p in w.pending)
            && (r.slot.PromptUp? ==> r.slot.prompt in w.pending)
  {
    QueueShrinks(w);
    PromotionIds(w);
    hide Promote;
  }

  lemma PromotionAnswers(w: World)
    requires w.slot == Nothing
    ensures var r := Promote(w);
            && w.auto <= r.auto && (forall id :: id in w.answers ==> id in r.answers)
            && (forall id :: id in r.answers && (id in w.answers ==> r.answers[id] != w.answers[id]) ==>
                  r.answers[id] == Allow && exists p :: p in w.pending && p.id == id && Recorded(w, r, p))
  {
    var k, r := FirstLanding(w.device, Asked(w)), Promote(w);
    PromotionSettlesPrefix(w);
    hide Promote, FirstLanding, Asked, NextShown;
    forall id | id in Granted(w, w.pending[..k])
      ensures exists p :: p in w.pending && p.id == id && Recorded(w, r, p)
    {
      GrantedRecorded(w, r, w.pending[..k], id);
    }
    hide Granted, Records, Recorded;
  }

  lemma PromotionFollows(w: World)
    requires w.slot == Nothing
    ensures Follows(w, Promote(w))
  {
    PromotionQueue(w);
    PromotionAnswers(w);
    hide Promote, Recorded;
  }

  /** What was done before promotion took nothing but alerts away. */
  lemma FollowsFrom(w: World, b: World, r: World)
    requires Follows(b, r) && b.slot == Nothing && b.nextId == w.nextId && b.auto == w.auto && b.answers == w.answers
    requires forall p :: p in b.pending ==> p in w.pending
    ensures Follows(w, r)
  {
    assert forall p :: Recorded(b, r, p) ==> Recorded(w, r, p);
    hide Recorded;
  }

  lemma ReleaseFollows(w: World, b: World)
    requires w.slot != Nothing && b.slot != Nothing
    requires b.nextId == w.nextId && b.auto == w.auto && b.answers == w.answers
    requires forall p :: p in b.pending ==> p in w.pending
    ensures Follows(w, Promote(Release(b)))
  {
    PromotionFollows(Release(b));
    FollowsFrom(w, Release(b), Promote(Release(b)));
    hide Promote, Follows;
  }

  lemma Unanswering(w: World, r: World)
    requires r.nextId == w.nextId && w.auto <= r.auto && r.answers == w.answers && r.slot in {Nothing, w.slot}
    requires forall p :: p in r.pending ==> p in w.pending
    ensures Follows(w, r)
  {
  }

  lemma CancelFollows(w: World, session: Session, only: Option<string>)
    ensures Follows(w, CancelForProgress(w, session)) && Follows(w, CancelIdle(w, session))
        && Follows(w, CancelPending(w, session, only))
  {
    var idle := NoticesWithout(w.idle, session);
    if w.slot != Nothing {
      ReleaseFollows(w, Purge(w, session).(idle := idle));
      ReleaseFollows(w, w.(idle := idle));
      ReleaseFollows(w, Purge(w, session));
      ReleaseFollows(w, w);
    }
    Unanswering(w, Purge(w, session).(idle := idle));
    Unanswering(w, w.(idle := idle));
    Unanswering(w, Purge(w, session));
    Unanswering(w, w);
    hide Promote, Follows;
  }

  lemma WakeFollows(w: World, id: nat, enrollment: bool, wid: Option<WrapperId>)
    ensures Follows(w, Wake(w, id, enrollment, wid).0)
  {
    var closing := w.(closed := w.closed + {id});
    if closing.slot.IsId(id) { ReleaseFollows(w, closing); }
    hide Promote, Recorded;
  }

  lemma RetabFollows(w: World, tabs: seq<Wrapper>)
    ensures Follows(w, Retab(w, tabs))
  {
    var b := w.(tabs := tabs, pending := OnTabs(w.pending, Sessions(tabs)));
    if w.slot == Nothing {
      PromotionFollows(b);
      FollowsFrom(w, b, Promote(b));
    } else {
      ReleaseFollows(w, b);
    }
    hide Promote, Recorded, OnTabs, Sessions;
  }

  lemma RequestFollows(w: World, from: Option<Session>, tool: Option<string>, title: string, task: string)
    ensures Follows(w, Request(w, from, tool, title, task).0)
  {
    hide Recorded;
  }

  lemma NoticeFollows(w: World, n: Notice)
    ensures Follows(w, ShowIdle(w, n))
  {
    hide Recorded;
  }

  lemma ReconnectFollows(w: World, left: map<nat, Body>)
    ensures Follows(w, Reconnect(w, left))
  {
    TabsCleared(w.device.(online := true, store := left), DEVICE_ALERT_TABS);
    hide Recorded, ClearTabs;
  }

  lemma ReportFollows(w: World, yolo: bool)
    ensures Follows(w, Report(w, yolo))
  {
    hide Recorded;
  }

  lemma UnregisterFollows(w: World, wid: WrapperId)
    ensures Follows(w, Unregister(w, wid))
  {
    var others := (x: Wrapper) => x.id != wid;
    var b := DropEnrollment(w, wid);
    RetabFollows(b, Filter(w.tabs, others));
    assert forall r, p :: Recorded(b, r, p) == Recorded(w, r, p);
    hide Retab, Recorded;
  }

  /** The operation is the decision of the live prompt. */
  predicate Decides(w: World, op: Op) {
    op.OpKey? && w.slot.PromptUp? && op.key != FocusKey && op.key != OtherKey
  }

  lemma KeyFollows(w: World, key: Key)
    requires !Decides(w, OpKey(key))
    ensures Follows(w, Consume(w, key).0)
  {
    if w.slot != Nothing { ReleaseFollows(w, w); }
    Unanswering(w, w);
    hide Promote, Follows;
  }

  lemma OperationFollows(w: World, op: Op)
    requires !Decides(w, op)
    ensures Follows(w, Apply(w, op))
  {
    match op {
      case OpRequest(from, tool, title, task) => RequestFollows(w, from, tool, title, task);
      case OpWake(id, enrollment, wid) => WakeFollows(w, id, enrollment, wid);
      case OpNotice(n) => NoticeFollows(w, n);
      case OpProgress(session) => CancelFollows(w, session, None);
      case OpCancelPending(session, only) => CancelFollows(w, session, only);
      case OpFocusIn(session) => CancelFollows(w, session, None);
      case OpKey(key) => KeyFollows(w, key);
      case OpRetab(tabs) => RetabFollows(w, tabs);
      case OpUnregister(wid) => UnregisterFollows(w, wid);
      case OpReconnect(left) => ReconnectFollows(w, left);
      case OpActivate(to) => Unanswering(w, w.(active := to));
      case OpReport(yolo) => ReportFollows(w, yolo);
      case OpDisconnect => Unanswering(w, Disconnect(w));
    }
    hide Follows, ShowIdle, Retab, Wake, Request, CancelForProgress, CancelIdle, CancelPending, Consume, Report,
      Unregister, Reconnect;
  }

  // ── Over runs ────────────────────────────────────────────────────

  /** The prompt `id` has left slot and queue. */
  predicate Gone(w: World, id: nat) {
    id < w.nextId && !(w.slot.PromptUp? && w.slot.prompt.id == id) && forall p :: p in w.pending ==> p.id != id
  }

  function AnswerTo(w: World, id: nat): Option<Outcome> {
    if id in w.answers then Some(w.answers[id]) else None
  }

  lemma FollowedByGone(w: World, r: World, id: nat)
    requires Follows(w, r) && Gone(w, id)
    ensures Gone(r, id) && AnswerTo(r, id) == AnswerTo(w, id)
  {
    hide Recorded;
  }

  lemma GoneStays(w: World, op: Op, id: nat)
    requires Gone(w, id)
    ensures Gone(Apply(w, op), id) && AnswerTo(Apply(w, op), id) == AnswerTo(w, id)
  {
    if Decides(w, op) {
      var d := Decided(w, OutcomeOf(op.key));
      DecidedAnswers(w, OutcomeOf(op.key));
      DecidedKeeps(w, OutcomeOf(op.key));
      PromotionFollows(d);
      assert Apply(w, op) == Promote(d);
      hide Promote, Follows, Decided;
      FollowedByGone(d, Promote(d), id);
    } else {
      OperationFollows(w, op);
      hide Apply, Follows;
      FollowedByGone(w, Apply(w, op), id);
    }
  }

  /** What became of a prompt that has left slot and queue never changes, whatever happens later: its handler
      answers the same whenever it resumes. */
  lemma {:induction false} ReplyIsSettled(w: World, ops: seq<Op>, id: nat, enrollment: bool, wid: Option<WrapperId>)
    requires Gone(w, id)
    ensures AnswerTo(Run(w, ops), id) == AnswerTo(w, id)
    ensures Wake(Run(w, ops), id, enrollment, wid).1 == Wake(w, id, enrollment, wid).1
    decreases |ops|
  {
    hide Promote;
    if ops != [] {
      GoneStays(w, ops[0], id);
      hide Apply, Gone;
      ReplyIsSettled(Apply(w, ops[0]), ops[1..], id, enrollment, wid);
      WakeAnswers(w, id, enrollment, wid);
      WakeAnswers(Run(w, ops), id, enrollment, wid);
    }
  }

  /** Once a key has decided a parked prompt that is still awaited, its handler answers the hook with that decision,
      whatever happens until it resumes. */
  lemma DecisionReachesHandler(fails: set<nat>, before: seq<Op>, key: Key, after: seq<Op>, wid: Option<WrapperId>)
    requires forall k :: 0 <= k < |before| ==> Plausible(before[k])
    requires var w := Run(Initial(fails), before); w.slot.PromptUp? && w.slot.prompt.id !in w.closed
    requires key != FocusKey && key != OtherKey
    ensures var w := Run(Initial(fails), before);
            Wake(Run(Consume(w, key).0, after), w.slot.prompt.id, w.slot.prompt.enrollment, wid).1
            == if key == AllowKey then AllowReply else if w.slot.prompt.enrollment then PassReply else DenyReply
  {
    var w := Run(Initial(fails), before);
    var p, r := w.slot.prompt, Consume(w, key).0;
    InitialHolds(fails);
    InvAlways(Initial(fails), before);
    DecisionSettles(w, key);
    hide Inv, Consume;
    ReplyIsSettled(r, after, p.id, p.enrollment, wid);
    WakeAnswers(r, p.id, p.enrollment, wid);
  }

  lemma DecisionSettles(w: World, key: Key)
    requires Inv(w) && w.slot.PromptUp? && w.slot.prompt.id !in w.closed && key != FocusKey && key != OtherKey
    ensures var (p, r) := (w.slot.prompt, Consume(w, key).0);
            Gone(r, p.id) && AnswerTo(r, p.id) == Some(OutcomeOf(key))
  {
    var d, p := Decided(w, OutcomeOf(key)), w.slot.prompt;
    DecidedAnswers(w, OutcomeOf(key));
    DecidedKeeps(w, OutcomeOf(key));
    PromotionFollows(d);
    assert Consume(w, key).0 == Promote(d);
    assert Gone(d, p.id) by { hide Decided, IdleBounded, OptInMeansYolo, AutoAllowsJustified; }
    hide Promote, Follows, Decided, Inv;
    FollowedByGone(d, Promote(d), p.id);
  }

  /** No prompt that is live or waits is a question to the user. */
  predicate NoQuestions(w: World) {
    (w.slot.PromptUp? ==> !NeedsUser(w.slot.prompt)) && forall p :: p in w.pending ==> !NeedsUser(p)
  }

  lemma NoQuestionsKept(w: World, op: Op)
    requires NoQuestions(w)
    ensures NoQuestions(Apply(w, op))
  {
    if Decides(w, op) {
      var d := Decided(w, OutcomeOf(op.key));
      DecidedAnswers(w, OutcomeOf(op.key));
      PromotionQueue(d);
      assert Apply(w, op) == Promote(d);
      hide Promote, Decided;
    } else {
      OperationFollows(w, op);
      hide Apply, Recorded;
    }
  }

  /** The operation allows the prompt `id`: the user presses an Allow key on it, or it is drained from the queue while
      Auto-approve is on and its wrapper opted in, and it is no question to the user. */
  predicate GrantsTo(w: World, op: Op, id: nat) {
    || (op == OpKey(AllowKey) && w.slot.PromptUp? && w.slot.prompt.id == id && !NeedsUser(w.slot.prompt))
    || exists p :: p in w.pending && p.id == id && Drained(w, Apply(w, op), p)
  }

  predicate Drained(w: World, r: World, p: Prompt) {
    !NeedsUser(p) && |w.auto| <= |r.auto|
    && exists a :: a in r.auto[|w.auto|..] && a == AutoAllow(p.tool, true, true)
  }

  lemma RecordedJustified(w: World, r: World, p: Prompt)
    requires Recorded(w, r, p) && AutoAllowsJustified(r)
    ensures Drained(w, r, p)
  {
    var a :| a in r.auto[|w.auto|..] && a.tool == p.tool;
    assert a in r.auto;
  }

  lemma OperationAllows(w: World, op: Op, id: nat)
    requires Inv(w) && Plausible(op) && NoQuestions(w)
    requires AnswerTo(w, id) != Some(Allow) && AnswerTo(Apply(w, op), id) == Some(Allow)
    ensures GrantsTo(w, op, id)
  {
    var r := Apply(w, op);
    InvKept(w, op);
    assert AutoAllowsJustified(r);
    var b := w;
    if Decides(w, op) {
      b := Decided(w, OutcomeOf(op.key));
      DecidedAnswers(w, OutcomeOf(op.key));
      DecidedKeeps(w, OutcomeOf(op.key));
      PromotionFollows(b);
      assert r == Promote(b) && b.auto == w.auto;
    } else {
      OperationFollows(w, op);
    }
    hide Inv, Apply, Promote, Decided, AutoAllowsJustified, Drained, Recorded, NeedsUser;
    if AnswerTo(b, id) != Some(Allow) {
      var p :| p in w.pending && p.id == id && Recorded(b, r, p);
      assert Recorded(w, r, p) by { hide Follows; }
      RecordedJustified(w, r, p);
    }
  }

  /** An Allow on record was given somewhere along the run. */
  lemma {:induction false} AllowIsTraced(w: World, ops: seq<Op>, id: nat)
    requires Inv(w) && NoQuestions(w) && forall k :: 0 <= k < |ops| ==> Plausible(ops[k])
    requires AnswerTo(w, id) != Some(Allow) && AnswerTo(Run(w, ops), id) == Some(Allow)
    ensures exists k :: 0 <= k < |ops| && GrantsTo(Run(w, ops[..k]), ops[k], id)
    decreases |ops|
  {
    var next := Apply(w, ops[0]);
    InvKept(w, ops[0]);
    NoQuestionsKept(w, ops[0]);
    if AnswerTo(next, id) == Some(Allow) {
      OperationAllows(w, ops[0], id);
      assert Run(w, ops[..0]) == w;
    } else {
      hide Inv, GrantsTo, Apply, NoQuestions;
      AllowIsTraced(next, ops[1..], id);
      var k :| 0 <= k < |ops[1..]| && GrantsTo(Run(next, ops[1..][..k]), ops[1..][k], id);
      assert ops[..k + 1][1..] == ops[1..][..k];
      assert Run(w, ops[..k + 1]) == Run(next, ops[1..][..k]);
    }
  }

  /** What the permission hook is answered by an operation. */
  function ReplyTo(w: World, op: Op): Option<Reply> {
    match op
    case OpRequest(session, tool, title, task) => Some(Request(w, session, tool, title, task).1)
    case OpWake(id, enrollment, wid) => Some(Wake(w, id, enrollment, wid).1)
    case _ => None
  }

  /** Over every run, on any link: `claude` is told to go ahead only if Auto-approve was on, with the device there and
      the wrapper opted in, when the request came in; or if the user pressed an Allow key on that very prompt; or if
      the prompt was drained while Auto-approve was on and its wrapper opted in. Never for a question to the user. */
  lemma NothingAllowedUnasked(fails: set<nat>, ops: seq<Op>, op: Op)
    requires forall k :: 0 <= k < |ops| ==> Plausible(ops[k])
    requires ReplyTo(Run(Initial(fails), ops), op) == Some(AllowReply)
    ensures op.OpRequest? ==> Cleared(Run(Initial(fails), ops), op.from, op.tool)
    ensures op.OpWake? ==> exists k :: 0 <= k < |ops| && GrantsTo(Run(Initial(fails), ops[..k]), ops[k], op.id)
  {
    hide Inv, Request, Wake, GrantsTo, Cleared;
    var w := Run(Initial(fails), ops);
    match op {
      case OpRequest(session, tool, title, task) => RequestAnswers(w, session, tool, title, task);
      case OpWake(id, enrollment, wid) =>
        WakeAnswers(w, id, enrollment, wid);
        InitialHolds(fails);
        AllowIsTraced(Initial(fails), ops, id);
      case _ =>
    }
  }

  // ── While the device is away ─────────────────────────────────────

  lemma StaysAway(w: World, op: Op)
    requires !w.device.online && !op.OpReconnect?
    ensures !Apply(w, op).device.online
  {
    match op {
      case OpKey(key) =>
        if w.slot != Nothing { AwayPromotes(Release(w)); }
        if w.slot.PromptUp? { AwayPromotes(Decided(w, OutcomeOf(key))); }
      case OpWake(id, enrollment, wid) =>
        if w.slot.IsId(id) { AwayPromotes(Release(w.(closed := w.closed + {id}))); }
      case OpProgress(session) => if w.slot != Nothing { CancelAway(w, session, None); }
      case OpCancelPending(session, only) => if w.slot != Nothing { CancelAway(w, session, only); }
      case OpFocusIn(session) => if w.slot != Nothing { CancelAway(w, session, None); }
      case OpRetab(tabs) => RetabAway(w, tabs);
      case OpUnregister(wid) =>
        var others := (x: Wrapper) => x.id != wid;
        RetabAway(DropEnrollment(w, wid), Filter(w.tabs, others));
      case _ =>
    }
    hide Promote;
  }

  lemma AwayPromotes(w: World)
    requires w.slot == Nothing && !w.device.online
    ensures !Promote(w).device.online
  {
    PromotionSettlesPrefix(w);
    hide Promote, AlsoAllows, Granted, Records, Asked, Tried;
  }

  lemma CancelAway(w: World, session: Session, only: Option<string>)
    requires w.slot != Nothing && !w.device.online
    ensures !CancelForProgress(w, session).device.online && !CancelIdle(w, session).device.online
    ensures !CancelPending(w, session, only).device.online
  {
    var purged := Purge(Release(w), session);
    AwayPromotes(purged.(idle := NoticesWithout(purged.idle, session)));
    AwayPromotes(Release(w.(idle := NoticesWithout(w.idle, session))));
    AwayPromotes(purged);
    AwayPromotes(Release(w));
    hide Promote;
  }

  lemma RetabAway(w: World, tabs: seq<Wrapper>)
    requires !w.device.online
    ensures !Retab(w, tabs).device.online
  {
    var r := w.(tabs := tabs, pending := OnTabs(w.pending, Sessions(tabs)));
    AwayPromotes(if w.slot == Nothing then r else Release(r));
    hide Promote;
  }

  lemma {:induction false} StaysAwayAlways(w: World, ops: seq<Op>)
    requires !w.device.online && forall k :: 0 <= k < |ops| ==> !ops[k].OpReconnect?
    ensures !Run(w, ops).device.online
    decreases |ops|
  {
    if ops != [] {
      StaysAway(w, ops[0]);
      hide Apply;
      StaysAwayAlways(Apply(w, ops[0]), ops[1..]);
    }
  }

  /** Once the device is gone, and until it is back, whatever else happens: nothing is live, and every request is left
      to its terminal, Auto-approve or not. */
  lemma AwayAsksNobody(fails: set<nat>, before: seq<Op>, after: seq<Op>, session: Option<Session>,
      tool: Option<string>, title: string, task: string)
    requires forall k :: 0 <= k < |before| ==> Plausible(before[k])
    requires forall k :: 0 <= k < |after| ==> !after[k].OpReconnect?
    ensures var w := Run(Disconnect(Run(Initial(fails), before)), after);
            && w.slot == Nothing && w.pending == [] && w.idle == []
            && Request(w, session, tool, title, task) == (w, PassReply)
  {
    var gone := Disconnect(Run(Initial(fails), before));
    InitialHolds(fails);
    InvAlways(Initial(fails), before);
    DisconnectKeeps(Run(Initial(fails), before));
    InvAlways(gone, after);
    StaysAwayAlways(gone, after);
    hide InOrder, IdleBounded, Run, OptInMeansYolo, AutoAllowsJustified;
  }

  /** A device that comes back finds nobody enrolled and nothing waiting: the first state it reports arms Auto-approve
      for no wrapper. */
  lemma DisconnectDisarms(w: World, left: map<nat, Body>, yolo: bool)
    ensures var r := Report(Reconnect(Disconnect(w), left), yolo);
            && r.sets == Enrollment(yolo, true, {}, {}) && r.slot == Nothing && r.pending == [] && r.idle == []
            && r.answers == w.answers && r.closed == w.closed && r.tabs == w.tabs
  {
    hide ClearTabs;
  }
}

// What every run of complete operations keeps.

module AlertRuns {
  import opened Prelude
  import opened AlertTypes
  import opened AlertWorld

  /** With the slot free, nothing waits. */
  predicate Quiet(w: World) {
    w.slot == Nothing ==> w.pending == [] && w.idle == []
  }

  /** Prompts have gone live in strictly increasing id order, and those that wait come later still. */
  ghost predicate InOrder(w: World) {
    && (forall i, j :: 0 <= i < j < |w.shown| ==> w.shown[i] < w.shown[j])
    && (forall i :: 0 <= i < |w.shown| ==> w.shown[i] < w.nextId)
    && Ordered(w.pending, EarlierId)
    && (forall p :: p in w.pending ==> p.id < w.nextId)
    && (forall i, p :: 0 <= i < |w.shown| && p in w.pending ==> w.shown[i] < p.id)
  }

  /** At most sixteen idle notices wait, one per session. */
  ghost predicate IdleBounded(w: World) {
    |w.idle| <= IDLE_QUEUE_CAP && Ordered(w.idle, DifferentSessions)
  }

  /** Someone opted in only while Auto-approve is on, and it is on only after a state report. */
  predicate OptInMeansYolo(w: World) {
    (w.sets.optIn != {} ==> w.sets.yolo) && (w.sets.yolo ==> w.sets.initialized)
  }

  /** Whatever was allowed without a key press had Auto-approve on, its wrapper opted in, and was not
      a question to the user. */
  predicate AutoAllowsJustified(w: World) {
    forall a :: a in w.auto ==> a.yolo && a.enrolled && !(a.tool.Some? && IsUserInputTool(a.tool.value))
  }

  /** What the device must show. */
  function Expected(slot: Shown): map<nat, Body> {
    if slot == Nothing then map[] else map[slot.tab := slot.Content()]
  }

  /** The live alert is at its session's tab, and a live prompt is on record; on a sound link the device shows
      exactly it; a device that is away has no alert. */
  predicate Mirrored(w: World) {
    && (w.slot != Nothing ==> w.slot.tab == TabOf(w.tabs, w.slot.Owner()).GetOr(0))
    && (w.slot.PromptUp? ==> w.slot.prompt.id in w.shown)
    && (!w.device.online ==> w.slot == Nothing)
    && (w.device.online && w.device.fails == {} ==> w.device.store == Expected(w.slot))
  }

  ghost predicate Core(w: World) {
    InOrder(w) && IdleBounded(w) && OptInMeansYolo(w) && AutoAllowsJustified(w) && Mirrored(w)
  }

  ghost predicate Inv(w: World) { Core(w) && Quiet(w) }

  // ── Building blocks ──────────────────────────────────────────────

  lemma OrderKept(w: World, r: World)
    requires InOrder(w) && r.pending == w.pending && r.shown == w.shown && w.nextId <= r.nextId
    ensures InOrder(r)
  {
  }

  lemma ShowIdleKeeps(w: World, n: Notice)
    requires Core(w)
    ensures Core(ShowIdle(w, n)) && ShowIdle(w, n).pending == w.pending
    ensures w.slot != Nothing ==> ShowIdle(w, n).slot != Nothing
  {
    OrderKept(w, ShowIdle(w, n));
    ShowIdleMirrored(w, n);
    hide InOrder, Mirrored;
  }

  lemma ShowIdleMirrored(w: World, n: Notice)
    requires Mirrored(w)
    ensures Mirrored(ShowIdle(w, n))
  {
  }

  lemma PopIdleKeeps(w: World)
    requires Core(w) && w.idle != []
    ensures Core(w.(idle := w.idle[1..]))
  {
  }

  /** Idle promotion ends with an alert live or no notice left. */
  lemma {:induction false} PromoteIdleKeeps(w: World)
    requires Core(w)
    ensures Core(PromoteIdle(w)) && PromoteIdle(w).pending == w.pending
    ensures PromoteIdle(w).slot == Nothing ==> PromoteIdle(w).idle == []
    decreases |w.idle|
  {
    if w.slot == Nothing && w.idle != [] {
      var popped := w.(idle := w.idle[1..]);
      PopIdleKeeps(w);
      hide Core;
      if TabOf(w.tabs, w.idle[0].session).None? {
        PromoteIdleKeeps(popped);
      } else {
        ShowIdleKeeps(popped, w.idle[0]);
        PromoteIdleKeeps(ShowIdle(popped, w.idle[0]));
      }
    }
  }

  lemma PopKeeps(w: World)
    requires Core(w) && w.pending != []
    ensures Core(w.(pending := w.pending[1..]))
  {
  }

  lemma AutoAnswerKeeps(w: World, p: Prompt)
    requires Core(w) && Judge(w, p) == EnrolledIn
    ensures Core(AutoAnswer(w, p))
  {
  }

  lemma GoLiveKeeps(w: World)
    requires Core(w) && w.pending != [] && w.slot == Nothing && WriteOk(w.device)
    ensures Core(GoLive(w.(pending := w.pending[1..]), w.pending[0]))
  {
    assert w.pending == [w.pending[0]] + w.pending[1..];
  }

  /** Promotion ends with an alert live or both queues empty. */
  lemma {:induction false} PromoteKeeps(w: World)
    requires Core(w) && w.slot == Nothing
    ensures Inv(Promote(w))
    decreases |w.pending|
  {
    if w.pending == [] {
      PromoteIdleKeeps(w);
    } else {
      var p, popped := w.pending[0], w.(pending := w.pending[1..]);
      PopKeeps(w);
      if WriteOk(w.device) { GoLiveKeeps(w); }
      var tried := SendFailed(popped);
      assert Core(tried);
      hide Core, PromoteIdle;
      match Judge(w, p) {
        case GaveUp => PromoteKeeps(popped);
        case EnrolledIn =>
          assert Judge(popped, p) == EnrolledIn;
          AutoAnswerKeeps(popped, p);
          PromoteKeeps(AutoAnswer(popped, p));
        case DeclinedOut => PromoteKeeps(popped);
        case Ask => if !WriteOk(w.device) { PromoteKeeps(tried); }
      }
    }
  }

  lemma ReleaseKeeps(w: World)
    requires Core(w) && w.slot != Nothing
    ensures Core(Release(w))
  {
  }

  lemma PurgeKeeps(w: World, kept: seq<Prompt>, idle: seq<Notice>)
    requires Core(w)
    requires (forall p :: p in kept ==> p in w.pending) && Ordered(kept, EarlierId)
    requires |idle| <= |w.idle| && Ordered(idle, DifferentSessions)
    ensures Core(w.(pending := kept, idle := idle))
  {
  }

  lemma QueuedKeeps(w: World, p: Prompt)
    requires Inv(w) && w.slot != Nothing && p.id == w.nextId
    ensures Inv(w.(pending := w.pending + [p], nextId := w.nextId + 1))
  {
    var r := w.pending + [p];
    assert forall q :: q in r <==> q in w.pending || q == p;
  }

  lemma LiveAtOnceKeeps(w: World, p: Prompt)
    requires Inv(w) && w.slot == Nothing && WriteOk(w.device) && p.id == w.nextId
    ensures Inv(GoLive(w, p).(nextId := w.nextId + 1))
  {
  }

  lemma SendFailedKeeps(w: World)
    requires Inv(w)
    ensures Inv(SendFailed(w))
  {
    SameQueues(w, SendFailed(w));
    hide InOrder, IdleBounded;
  }

  lemma InstallKeeps(w: World, session: Session, tool: Option<string>, body: Body, enrollment: bool)
    requires Inv(w)
    ensures Inv(Install(w, session, tool, body, enrollment).0)
  {
    hide Inv, GoLive, SendFailed, WriteOk;
    var p := Prompt(w.nextId, session, tool, enrollment, body);
    if w.slot != Nothing {
      QueuedKeeps(w, p);
    } else if WriteOk(w.device) {
      LiveAtOnceKeeps(w, p);
    } else {
      SendFailedKeeps(w);
    }
  }

  // ── Every operation ──────────────────────────────────────────────

  lemma HandOver(w: World)
    requires Core(w) && w.slot != Nothing
    ensures Inv(Promote(Release(w)))
  {
    ReleaseKeeps(w);
    PromoteKeeps(Release(w));
  }

  lemma PurgedKeeps(w: World, session: Session)
    requires Core(w)
    ensures Core(w.(pending := WithoutSession(w.pending, session)))
    ensures Core(w.(idle := NoticesWithout(w.idle, session)))
    ensures Core(w.(pending := WithoutSession(w.pending, session), idle := NoticesWithout(w.idle, session)))
  {
    var kept, idle := WithoutSession(w.pending, session), NoticesWithout(w.idle, session);
    PurgeKeeps(w, kept, w.idle);
    PurgeKeeps(w, w.pending, idle);
    PurgeKeeps(w, kept, idle);
  }

  lemma ClearAlertIfKeeps(w: World, id: nat)
    requires Inv(w)
    ensures Inv(ClearAlertIf(w, id))
  {
    if w.slot.IsId(id) { HandOver(w); }
  }

  lemma CancelForProgressKeeps(w: World, session: Session)
    requires Inv(w)
    ensures Inv(CancelForProgress(w, session))
  {
    PurgedKeeps(w, session);
    hide Core, Promote;
    if w.slot.OwnedBy(session) {
      HandOver(w.(pending := WithoutSession(w.pending, session), idle := NoticesWithout(w.idle, session)));
    }
  }

  lemma CancelIdleKeeps(w: World, session: Session)
    requires Inv(w)
    ensures Inv(CancelIdle(w, session))
  {
    PurgedKeeps(w, session);
    hide Core, Promote;
    if w.slot.IdleUp? && w.slot.session == session {
      HandOver(w.(idle := NoticesWithout(w.idle, session)));
    }
  }

  lemma CancelPendingKeeps(w: World, session: Session, only: Option<string>)
    requires Inv(w)
    ensures Inv(CancelPending(w, session, only))
  {
    PurgedKeeps(w, session);
    hide Core, Promote;
    if w.slot.PromptUp? && w.slot.prompt.session == session && (only == None || w.slot.prompt.tool == only) {
      HandOver(if only == None then Purge(w, session) else w);
    }
  }

  lemma EnrollKeeps(w: World, p: Prompt, o: Outcome)
    requires Core(w)
    ensures Core(Answer(Enroll(w, p, o), p, o)) && Answer(Enroll(w, p, o), p, o).slot == w.slot
  {
  }

  lemma DecideKeeps(w: World, o: Outcome)
    requires Inv(w) && w.slot.PromptUp?
    ensures var p := w.slot.prompt;
            Inv(Promote(ClearAlert(Answer(Enroll(w.(slot := Nothing), p, o), p, o), w.slot.tab)))
  {
    var p := w.slot.prompt;
    var r := Answer(Enroll(w, p, o), p, o);
    EnrollKeeps(w, p, o);
    HandOver(r);
    assert Release(r) == ClearAlert(Answer(Enroll(w.(slot := Nothing), p, o), p, o), w.slot.tab);
  }

  lemma ConsumeKeeps(w: World, key: Key)
    requires Inv(w)
    ensures Inv(Consume(w, key).0)
  {
    if w.slot.PromptUp? { DecideKeeps(w, OutcomeOf(key)); }
    if w.slot != Nothing { HandOver(w); }
    hide Core, Promote;
  }

  /** Moving the live alert to another tab of a changed list. */
  lemma RelocateKeeps(w: World, tabs: seq<Wrapper>, kept: seq<Prompt>, k: nat)
    requires Core(w) && Core(w.(pending := kept)) && w.slot != Nothing && TabOf(tabs, w.slot.Owner()) == Some(k)
    ensures var r := w.(tabs := tabs, pending := kept);
            Core(if k == w.slot.tab then r
              else SendAlert(ClearAlert(r, w.slot.tab), k, w.slot.Content()).(slot := w.slot.(tab := k)))
  {
    hide InOrder, IdleBounded;
    var r := w.(tabs := tabs, pending := kept);
    var moved := SendAlert(ClearAlert(r, w.slot.tab), k, w.slot.Content()).(slot := w.slot.(tab := k));
    SameQueues(w.(pending := kept), r);
    SameQueues(w.(pending := kept), moved);
  }

  lemma SameQueues(w: World, r: World)
    requires InOrder(w) && IdleBounded(w) && r.pending == w.pending && r.shown == w.shown && r.nextId == w.nextId
        && r.idle == w.idle
    ensures InOrder(r) && IdleBounded(r)
  {
  }

  lemma SlotlessRetab(w: World, tabs: seq<Wrapper>)
    requires Core(w) && w.slot == Nothing
    ensures Core(w.(tabs := tabs))
  {
  }

  lemma ReleaseAndRetab(w: World, tabs: seq<Wrapper>)
    requires Core(w)
    ensures w.slot == Nothing ==> Inv(Promote(w.(tabs := tabs)))
    ensures w.slot != Nothing ==> Inv(Promote(Release(w.(tabs := tabs))))
  {
    var r := if w.slot == Nothing then w else Release(w);
    if w.slot != Nothing {
      ReleaseKeeps(w);
      assert r.(tabs := tabs) == Release(w.(tabs := tabs));
    }
    SlotlessRetab(r, tabs);
    PromoteKeeps(r.(tabs := tabs));
  }

  lemma RetabKeeps(w: World, tabs: seq<Wrapper>)
    requires Inv(w)
    ensures Inv(Retab(w, tabs))
  {
    var kept := OnTabs(w.pending, Sessions(tabs));
    PurgeKeeps(w, kept, w.idle);
    hide Core, Promote;
    if w.slot == Nothing || TabOf(tabs, w.slot.Owner()).None? {
      ReleaseAndRetab(w.(pending := kept), tabs);
    } else {
      RelocateKeeps(w, tabs, kept, TabOf(tabs, w.slot.Owner()).value);
    }
  }

  /** On a sound link, clearing the first `n` tabs leaves only what lies beyond them. */
  lemma {:induction false} TabsCleared(d: Device, n: nat)
    ensures var r := ClearTabs(d, n);
            && r == d.(store := r.store, writes := d.writes + n)
            && (d.online && d.fails == {} ==> forall k :: k in r.store ==> k in d.store && k >= n)
  {
    if n > 0 { TabsCleared(d, n - 1); }
  }

  /** Whatever the sixteen tabs of a device show when it is opened, afterwards it shows exactly the
      live alert. */
  lemma ReconnectMirrors(w: World, left: map<nat, Body>)
    requires w.device.fails == {} && forall k :: k in left ==> k < DEVICE_ALERT_TABS
    ensures var r := Reconnect(w, left); r.device.online && r.slot == w.slot && r.device.store == Expected(w.slot)
  {
    var d := w.device.(online := true, store := left);
    TabsCleared(d, DEVICE_ALERT_TABS);
    assert ClearTabs(d, DEVICE_ALERT_TABS).store == map[];
  }

  lemma ReconnectKeeps(w: World, left: map<nat, Body>)
    requires Inv(w) && forall k :: k in left ==> k < DEVICE_ALERT_TABS
    ensures Inv(Reconnect(w, left))
  {
    var r := Reconnect(w, left);
    if w.device.fails == {} { ReconnectMirrors(w, left); }
    TabsCleared(w.device.(online := true, store := left), DEVICE_ALERT_TABS);
    SameQueues(w, r);
    hide InOrder, IdleBounded;
  }

  lemma RequestKeeps(w: World, from: Option<Session>, tool: Option<string>, title: string, task: string)
    requires Inv(w)
    ensures Inv(Request(w, from, tool, title, task).0)
  {
    if from.Some? {
      InstallKeeps(w, from.value, tool, Body(title, if w.sets.yolo then "Auto-approve this tab?"
        else "Allow " + tool.GetOr("unknown") + "?", Some(task)), w.sets.yolo);
      hide Install;
    }
    hide InOrder, IdleBounded, Mirrored;
    SameQueues(w, w.(auto := w.auto + [AutoAllow(tool, w.sets.yolo, true)]));
  }

  lemma MarkKeeps(w: World, wid: WrapperId)
    requires Inv(w)
    ensures Inv(MarkOut(w, wid))
    ensures w.sets.yolo ==> Inv(MarkIn(w, wid))
  {
    SameQueues(w, MarkOut(w, wid));
    SameQueues(w, MarkIn(w, wid));
    hide InOrder, IdleBounded;
  }

  lemma WakeKeeps(w: World, id: nat, enrollment: bool, wid: Option<WrapperId>)
    requires Inv(w)
    ensures Inv(Wake(w, id, enrollment, wid).0)
  {
    var closing := w.(closed := w.closed + {id});
    SameQueues(w, closing);
    assert Inv(closing) by { hide InOrder, IdleBounded; }
    hide Core, Promote;
    ClearAlertIfKeeps(closing, id);
    if wid.Some? { MarkKeeps(ClearAlertIf(closing, id), wid.value); }
  }

  lemma ReportKeeps(w: World, yolo: bool)
    requires Inv(w)
    ensures Inv(Report(w, yolo))
  {
    SameQueues(w, Report(w, yolo));
    hide InOrder, IdleBounded;
  }

  lemma UnregisterKeeps(w: World, wid: WrapperId)
    requires Inv(w)
    ensures Inv(Unregister(w, wid))
  {
    var r := DropEnrollment(w, wid);
    SameQueues(w, r);
    assert Inv(r) by { hide InOrder, IdleBounded; }
    RetabKeeps(r, Filter(w.tabs, (x: Wrapper) => x.id != wid));
  }

  lemma DisconnectKeeps(w: World)
    requires Inv(w)
    ensures Inv(Disconnect(w))
  {
  }

  /** A device that is opened shows alerts on its sixteen tabs only. */
  predicate Plausible(op: Op) {
    op.OpReconnect? ==> forall k :: k in op.left ==> k < DEVICE_ALERT_TABS
  }

  lemma InvKept(w: World, op: Op)
    requires Inv(w) && Plausible(op)
    ensures Inv(Apply(w, op))
  {
    match op {
      case OpRequest(from, tool, title, task) => RequestKeeps(w, from, tool, title, task);
      case OpWake(id, enrollment, wid) => WakeKeeps(w, id, enrollment, wid);
      case OpNotice(n) => ShowIdleKeeps(w, n); ShowIdleQuiet(w, n);
      case OpProgress(session) => CancelForProgressKeeps(w, session);
      case OpCancelPending(session, only) => CancelPendingKeeps(w, session, only);
      case OpFocusIn(session) => CancelIdleKeeps(w, session);
      case OpKey(key) => ConsumeKeeps(w, key);
      case OpRetab(tabs) => RetabKeeps(w, tabs);
      case OpUnregister(wid) => UnregisterKeeps(w, wid);
      case OpActivate(to) => SameQueues(w, w.(active := to)); hide InOrder, IdleBounded;
      case OpReport(yolo) => ReportKeeps(w, yolo);
      case OpDisconnect => DisconnectKeeps(w);
      case OpReconnect(left) => ReconnectKeeps(w, left);
    }
  }

  lemma ShowIdleQuiet(w: World, n: Notice)
    requires Quiet(w)
    ensures Quiet(ShowIdle(w, n))
  {
  }

  lemma {:induction false} InvAlways(w: World, ops: seq<Op>)
    requires Inv(w) && forall k :: 0 <= k < |ops| ==> Plausible(ops[k])
    ensures Inv(Run(w, ops))
    decreases |ops|
  {
    if ops != [] {
      InvKept(w, ops[0]);
      hide Inv;
      InvAlways(Apply(w, ops[0]), ops[1..]);
    }
  }

  lemma InitialHolds(fails: set<nat>)
    ensures Inv(Initial(fails))
  {
  }

  /** Over every run: with the slot free both queues are empty, prompts go live in strictly increasing
      id order, and the idle queue stays within its cap with one notice per session. */
  lemma QuiescenceAndOrder(fails: set<nat>, ops: seq<Op>)
    requires forall k :: 0 <= k < |ops| ==> Plausible(ops[k])
    ensures var w := Run(Initial(fails), ops); Quiet(w) && InOrder(w) && IdleBounded(w)
  {
    InitialHolds(fails);
    InvAlways(Initial(fails), ops);
  }

  /** Over every run, on any link: whatever was allowed without a key press had Auto-approve on and its
      wrapper opted in, on the drain path too, which never reads the Auto-approve flag. */
  lemma AutoAllowSafety(fails: set<nat>, ops: seq<Op>)
    requires forall k :: 0 <= k < |ops| ==> Plausible(ops[k])
    ensures var w := Run(Initial(fails), ops); AutoAllowsJustified(w) && OptInMeansYolo(w)
  {
    InitialHolds(fails);
    InvAlways(Initial(fails), ops);
  }

  /** Over every run on a link that loses no write: while the device is open it shows exactly the live
      alert, at the current tab of its session, or nothing. */
  lemma DeviceMirrors(ops: seq<Op>)
    requires forall k :: 0 <= k < |ops| ==> Plausible(ops[k])
    ensures var w := Run(Initial({}), ops);
            w.device.online && w.slot == Nothing ==> w.device.store == map[]
    ensures var w := Run(Initial({}), ops);
            w.device.online && w.slot != Nothing ==>
              w.device.store == map[TabOf(w.tabs, w.slot.Owner()).GetOr(0) := w.slot.Content()]
  {
    InitialHolds({});
    InvAlways(Initial({}), ops);
    FailsKept(Initial({}), ops);
  }

  lemma FailsKeptByOne(w: World, op: Op)
    ensures Apply(w, op).device.fails == w.device.fails
  {
    match op {
      case OpReconnect(left) => TabsCleared(w.device.(online := true, store := left), DEVICE_ALERT_TABS);
      case OpNotice(n) => ShowIdleKeepsLink(w, n);
      case OpKey(key) => ConsumeKeepsLink(w, key);
      case OpWake(id, enrollment, wid) => hide ClearTabs, ShowIdle, Consume, Promote;
      case OpRetab(tabs) => RetabKeepsLink(w, tabs);
      case OpUnregister(wid) =>
        var others := (x: Wrapper) => x.id != wid;
        RetabKeepsLink(DropEnrollment(w, wid), Filter(w.tabs, others));
      case _ => hide ClearTabs, ShowIdle, Consume, Promote, Retab;
    }
  }

  lemma ConsumeKeepsLink(w: World, key: Key)
    ensures Consume(w, key).0.device.fails == w.device.fails
  {
    hide Promote;
  }

  lemma RetabKeepsLink(w: World, tabs: seq<Wrapper>)
    ensures Retab(w, tabs).device.fails == w.device.fails
  {
    hide Promote;
  }

  lemma ShowIdleKeepsLink(w: World, n: Notice)
    ensures ShowIdle(w, n).device.fails == w.device.fails
  {
  }

  lemma {:induction false} FailsKept(w: World, ops: seq<Op>)
    ensures Run(w, ops).device.fails == w.device.fails
    decreases |ops|
  {
    if ops != [] {
      FailsKeptByOne(w, ops[0]);
      FailsKept(Apply(w, ops[0]), ops[1..]);
    }
  }
}

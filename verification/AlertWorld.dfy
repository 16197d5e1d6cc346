// The alert engine at operation granularity, as pure functions (alerts.rs,
// with the enrollment drivers of main.rs and hooks.rs). Every operation runs
// to completion before the next one starts. `AlertEngine` is the imperative
// form, proved equal to these functions.

module AlertWorld {
  import opened Prelude
  import opened AlertTypes

  /** What the alert code reads of a registered wrapper. */
  datatype Wrapper = Wrapper(id: WrapperId, session: Option<Session>, focused: bool, reportsFocus: bool)

  /** The alert slot, with the device tab the alert is shown on. */
  datatype Shown =
    | Nothing
    | IdleUp(id: nat, session: Session, tab: nat, body: Body)
    | PromptUp(prompt: Prompt, tab: nat)
  {
    predicate IsId(i: nat) { (IdleUp? && id == i) || (PromptUp? && prompt.id == i) }
    predicate OwnedBy(s: Session) { (IdleUp? && session == s) || (PromptUp? && prompt.session == s) }
    function Owner(): Session
      requires this != Nothing
    {
      if IdleUp? then session else prompt.session
    }
    function Content(): Body
      requires this != Nothing
    {
      if IdleUp? then body else prompt.body
    }
  }

  /** A request allowed without a key press, with what the daemon knew at that moment. */
  datatype AutoAllow = AutoAllow(tool: Option<string>, yolo: bool, enrolled: bool)

  /** Auto-approve: the switch, and who was asked. */
  datatype Enrollment = Enrollment(
    yolo: bool,
    initialized: bool,           // mode_initialized
    optIn: set<WrapperId>,
    optOut: set<WrapperId>
  )

  /** The HID device and the link to it. */
  datatype Device = Device(
    online: bool,                // the HID interface is open
    store: map<nat, Body>,       // the alerts the device shows, by tab
    fails: set<nat>,             // which writes fail, numbered from 0
    writes: nat
  )

  datatype World = World(
    slot: Shown,
    pending: seq<Prompt>,
    idle: seq<Notice>,
    tabs: seq<Wrapper>,          // registered wrappers in tab order
    active: Option<Session>,
    sets: Enrollment,
    device: Device,
    nextId: nat,
    closed: set<nat>,            // ids whose receiver is gone
    answers: map<nat, Outcome>,  // what was sent on each oneshot
    shown: seq<nat>,             // history: prompt ids in the order they went live
    auto: seq<AutoAllow>         // history: requests allowed without a key press
  )

  const DEVICE_ALERT_TABS: nat := 16

  // ── Wrappers and the device ──────────────────────────────────────

  function TabOf(tabs: seq<Wrapper>, session: Session): (r: Option<nat>)
    ensures r.Some? ==> r.value < |tabs| && tabs[r.value].session == Some(session)
    ensures r.None? ==> forall k :: 0 <= k < |tabs| ==> tabs[k].session != Some(session)
  {
    if tabs == [] then None
    else if tabs[0].session == Some(session) then Some(0)
    else match TabOf(tabs[1..], session)
         case None => None
         case Some(k) => Some(k + 1)
  }

  function WrapperOf(tabs: seq<Wrapper>, session: Session): Option<WrapperId> {
    match TabOf(tabs, session)
    case None => None
    case Some(k) => Some(tabs[k].id)
  }

  predicate WriteOk(d: Device) { d.online && d.writes !in d.fails }

  function SendTo(d: Device, tab: nat, body: Body): Device {
    d.(store := if WriteOk(d) then d.store[tab := body] else d.store, writes := d.writes + 1)
  }

  function ClearOn(d: Device, tab: nat): Device {
    d.(store := if WriteOk(d) then d.store - {tab} else d.store, writes := d.writes + 1)
  }

  function SendAlert(w: World, tab: nat, body: Body): World {
    w.(device := SendTo(w.device, tab, body))
  }

  function ClearAlert(w: World, tab: nat): World {
    w.(device := ClearOn(w.device, tab))
  }

  /** A send that fails costs a write; one that is not tried, the device being away, does not. */
  function SendFailed(w: World): World {
    w.(device := if w.device.online then w.device.(writes := w.device.writes + 1) else w.device)
  }

  // ── Installing and promoting ─────────────────────────────────────

  /** An idle "waiting for input" is noise for a focused terminal, and stuck on one that never reports focus. */
  predicate Suppressed(w: World, n: Notice) {
    n.kind == Waiting &&
    match TabOf(w.tabs, n.session)
    case None => false
    case Some(k) => w.tabs[k].focused || !w.tabs[k].reportsFocus
  }

  function ShowIdle(w: World, n: Notice): (r: World)
    ensures w.slot == Nothing ==> r.idle == w.idle
  {
    var tab := TabOf(w.tabs, n.session).GetOr(0);
    if Suppressed(w, n) then w
    else if w.slot == Nothing || (w.slot.IdleUp? && w.slot.session == n.session) then
      if !WriteOk(w.device) then SendFailed(w)
      else SendAlert(w, tab, n.body).(slot := IdleUp(w.nextId, n.session, tab, n.body), nextId := w.nextId + 1)
    else w.(idle := Enqueue(w.idle, n))
  }

  /** What promotion and device writes leave alone. */
  predicate SameSetting(w: World, r: World) {
    r.sets == w.sets && r.tabs == w.tabs && r.closed == w.closed && r.device.fails == w.device.fails
  }

  function PromoteIdle(w: World): (r: World)
    ensures SameSetting(w, r)
    decreases |w.idle|
  {
    if w.slot != Nothing || w.idle == [] then w
    else
      var popped := w.(idle := w.idle[1..]);
      if TabOf(w.tabs, w.idle[0].session).None? then PromoteIdle(popped)
      else PromoteIdle(ShowIdle(popped, w.idle[0]))
  }

  datatype Verdict = GaveUp | EnrolledIn | DeclinedOut | Ask

  /** What promotion decides about a queued prompt before it looks at the slot. */
  function Judge(w: World, p: Prompt): Verdict {
    if p.id in w.closed then GaveUp
    else match WrapperOf(w.tabs, p.session)
         case None => Ask
         case Some(wid) =>
           if !NeedsUser(p) && wid in w.sets.optIn then EnrolledIn
           else if !NeedsUser(p) && wid in w.sets.optOut then DeclinedOut
           else Ask
  }

  /** Sending reaches the handler only while its receiver is there. */
  function Answer(w: World, p: Prompt, o: Outcome): World {
    if p.id in w.closed then w else w.(answers := w.answers[p.id := o])
  }

  predicate Enrolled(w: World, session: Session) {
    WrapperOf(w.tabs, session).Some? && WrapperOf(w.tabs, session).value in w.sets.optIn
  }

  function AutoAnswer(w: World, p: Prompt): World {
    Answer(w, p, Allow).(auto := w.auto + [AutoAllow(p.tool, w.sets.yolo, Enrolled(w, p.session))])
  }

  function GoLive(w: World, p: Prompt): World {
    var tab := TabOf(w.tabs, p.session).GetOr(0);
    SendAlert(w, tab, p.body).(slot := PromptUp(p, tab), shown := w.shown + [p.id])
  }

  /** `try_install_next_pending` */
  function Promote(w: World): (r: World)
    ensures SameSetting(w, r)
    decreases |w.pending|
  {
    if w.pending == [] then PromoteIdle(w)
    else
      var p := w.pending[0];
      var popped := w.(pending := w.pending[1..]);
      match Judge(w, p)
      case GaveUp => Promote(popped)
      case EnrolledIn => Promote(AutoAnswer(popped, p))
      case DeclinedOut => Promote(popped)
      case Ask =>
        if w.slot != Nothing then w
        else if !WriteOk(w.device) then Promote(SendFailed(popped))
        else GoLive(popped, p)
  }

  /** `install_pending_alert`: the new world, and the id of the parked alert if there is one. */
  function Install(w: World, session: Session, tool: Option<string>, body: Body, enrollment: bool)
    : (World, Option<nat>)
  {
    var p := Prompt(w.nextId, session, tool, enrollment, body);
    if w.slot != Nothing then
      if |w.pending| >= PENDING_QUEUE_CAP then (w, None)
      else (w.(pending := w.pending + [p], nextId := w.nextId + 1), Some(p.id))
    else if !WriteOk(w.device) then (SendFailed(w), None)
    else (GoLive(w, p).(nextId := w.nextId + 1), Some(p.id))
  }

  // ── Cancelling ───────────────────────────────────────────────────

  /** Free the slot, clear the device tab and promote what waits. */
  function Release(w: World): World
    requires w.slot != Nothing
  {
    ClearAlert(w.(slot := Nothing), w.slot.tab)
  }

  function ClearAlertIf(w: World, id: nat): World {
    if w.slot.IsId(id) then Promote(Release(w)) else w
  }

  function Purge(w: World, session: Session): World {
    w.(pending := WithoutSession(w.pending, session))
  }

  function CancelForProgress(w: World, session: Session): World {
    if w.slot.OwnedBy(session) then
      var r := Purge(Release(w), session);
      Promote(r.(idle := NoticesWithout(w.idle, session)))
    else Purge(w, session).(idle := NoticesWithout(w.idle, session))
  }

  function CancelIdle(w: World, session: Session): World {
    var r := w.(idle := NoticesWithout(w.idle, session));
    if w.slot.IdleUp? && w.slot.session == session then Promote(Release(r)) else r
  }

  /** `cancel_pending_for_session` (no tool) and `cancel_pending_for_tool`. */
  function CancelPending(w: World, session: Session, tool: Option<string>): World {
    var hit := w.slot.PromptUp? && w.slot.prompt.session == session && (tool == None || w.slot.prompt.tool == tool);
    var r := if hit then Release(w) else w;
    var purged := if tool == None then Purge(r, session) else r;
    if hit then Promote(purged) else purged
  }

  // ── Keys ─────────────────────────────────────────────────────────

  function MarkIn(w: World, wid: WrapperId): World {
    w.(sets := w.sets.(optIn := w.sets.optIn + {wid}, optOut := w.sets.optOut - {wid}))
  }

  function MarkOut(w: World, wid: WrapperId): World {
    w.(sets := w.sets.(optOut := w.sets.optOut + {wid}, optIn := w.sets.optIn - {wid}))
  }

  /** An enrollment prompt decides about its wrapper before the queue is drained. */
  function Enroll(w: World, p: Prompt, o: Outcome): World {
    if !p.enrollment || !w.sets.yolo then w
    else match WrapperOf(w.tabs, p.session)
         case None => w
         case Some(wid) => if o == Allow then MarkIn(w, wid) else MarkOut(w, wid)
  }

  /** `consume_input_for_decision` */
  function Consume(w: World, key: Key): (World, KeyResult) {
    if key == OtherKey then (w, Passthrough)
    else if w.slot == Nothing then (w, if key == FocusKey then RaiseActive else Passthrough)
    else if key == FocusKey then
      (if w.slot.IdleUp? then Promote(Release(w)) else w, FocusSession(w.slot.Owner()))
    else if w.slot.IdleUp? then
      if key != DismissKey then (w, Passthrough)
      else (Promote(Release(w)), if w.active == Some(w.slot.session) then Passthrough else Consumed)
    else
      var p, o := w.slot.prompt, OutcomeOf(key);
      (Promote(ClearAlert(Answer(Enroll(w.(slot := Nothing), p, o), p, o), w.slot.tab)), Consumed)
  }

  // ── Tabs and the device ──────────────────────────────────────────

  function Sessions(tabs: seq<Wrapper>): (r: seq<Option<Session>>)
    ensures |r| == |tabs| && forall k :: 0 <= k < |tabs| ==> r[k] == tabs[k].session
  {
    seq(|tabs|, k requires 0 <= k < |tabs| => tabs[k].session)
  }

  /** A registry change followed by `refresh_for_tabs` on the new tab list. */
  function Retab(w: World, tabs: seq<Wrapper>): World {
    var r := w.(tabs := tabs, pending := OnTabs(w.pending, Sessions(tabs)));
    if w.slot == Nothing then Promote(r)
    else match TabOf(tabs, w.slot.Owner())
         case None => Promote(Release(r))
         case Some(k) =>
           if k == w.slot.tab then r
           else SendAlert(ClearAlert(r, w.slot.tab), k, w.slot.Content()).(slot := w.slot.(tab := k))
  }

  function ClearTabs(d: Device, n: nat): Device {
    if n == 0 then d else ClearOn(ClearTabs(d, n - 1), n - 1)
  }

  /** `resync_device`, on an open device */
  function Resync(w: World): World {
    var cleared := ClearTabs(w.device, DEVICE_ALERT_TABS);
    w.(device := if w.slot == Nothing then cleared else SendTo(cleared, w.slot.tab, w.slot.Content()))
  }

  /** The device is opened with whatever its sixteen tabs still show, and brought in line. */
  function Reconnect(w: World, left: map<nat, Body>): World {
    Resync(w.(device := w.device.(online := true, store := left)))
  }

  function Disconnect(w: World): World {
    w.(device := w.device.(online := false), sets := Enrollment(false, false, {}, {}),
       slot := Nothing, pending := [], idle := [])
  }

  // ── Auto-approve and the permission hook ─────────────────────────

  /** The wrapper input goes to: the active session's, else the first tab's. */
  function ActiveWrapper(w: World): Option<WrapperId> {
    var first := if w.tabs == [] then None else Some(w.tabs[0].id);
    match w.active
    case None => first
    case Some(s) => if WrapperOf(w.tabs, s).Some? then WrapperOf(w.tabs, s) else first
  }

  /** `DeviceStateChanged` */
  function Report(w: World, yolo: bool): World {
    var r := w.(sets := w.sets.(yolo := yolo, initialized := true));
    if !w.sets.initialized || w.sets.yolo == yolo then r
    else if !yolo then r.(sets := Enrollment(yolo, true, {}, {}))
    else match ActiveWrapper(w)
         case None => r
         case Some(wid) => MarkIn(r, wid)
  }

  function DropEnrollment(w: World, wid: WrapperId): World {
    w.(sets := w.sets.(optIn := w.sets.optIn - {wid}, optOut := w.sets.optOut - {wid}))
  }

  /** A wrapper's connection is torn down. */
  function Unregister(w: World, wid: WrapperId): World {
    var others := (x: Wrapper) => x.id != wid;
    Retab(DropEnrollment(w, wid), Filter(w.tabs, others))
  }

  datatype Reply = AllowReply | DenyReply | PassReply | Parks(id: nat)

  /** `handle_permission_request` up to its answer, or to the oneshot it parks on. */
  function Request(w: World, session: Option<Session>, tool: Option<string>, title: string, task: string)
    : (World, Reply)
  {
    var name := tool.GetOr("unknown");
    var opted := session.Some? && Enrolled(w, session.value);
    var declined := session.Some? && WrapperOf(w.tabs, session.value).Some?
      && WrapperOf(w.tabs, session.value).value in w.sets.optOut;
    if IsUserInputTool(name) then (w, PassReply)
    else if w.sets.yolo && w.device.online && opted then
      (w.(auto := w.auto + [AutoAllow(tool, w.sets.yolo, opted)]), AllowReply)
    else if w.sets.yolo && w.device.online && declined then (w, PassReply)
    else if session.None? then (w, PassReply)
    else
      var text := if w.sets.yolo then "Auto-approve this tab?" else "Allow " + name + "?";
      var (r, id) := Install(w, session.value, tool, Body(title, text, Some(task)), w.sets.yolo);
      (r, if id.None? then PassReply else Parks(id.value))
  }

  /** The parked handler resumes: its oneshot was answered or dropped, or the five minutes are over. */
  function Wake(w: World, id: nat, enrollment: bool, wid: Option<WrapperId>): (World, Reply) {
    var r := ClearAlertIf(w.(closed := w.closed + {id}), id);
    if id !in w.answers then (r, PassReply)
    else if w.answers[id] == Allow then
      (if enrollment && r.sets.yolo && wid.Some? then MarkIn(r, wid.value) else r, AllowReply)
    else if enrollment then (if wid.Some? then MarkOut(r, wid.value) else r, PassReply)
    else (r, DenyReply)
  }

  // ── Runs ─────────────────────────────────────────────────────────

  datatype Op =
    | OpRequest(from: Option<Session>, tool: Option<string>, title: string, task: string)
    | OpWake(id: nat, enrollment: bool, wid: Option<WrapperId>)
    | OpNotice(notice: Notice)
    | OpProgress(session: Session)
    | OpCancelPending(session: Session, only: Option<string>)
    | OpFocusIn(session: Session)
    | OpKey(key: Key)
    | OpRetab(tabs: seq<Wrapper>)
    | OpUnregister(wrapper: WrapperId)
    | OpActivate(to: Option<Session>)
    | OpReport(yolo: bool)
    | OpDisconnect
    | OpReconnect(left: map<nat, Body>)

  function Apply(w: World, op: Op): World {
    match op
    case OpRequest(session, tool, title, task) => Request(w, session, tool, title, task).0
    case OpWake(id, enrollment, wid) => Wake(w, id, enrollment, wid).0
    case OpNotice(n) => ShowIdle(w, n)
    case OpProgress(session) => CancelForProgress(w, session)
    case OpCancelPending(session, tool) => CancelPending(w, session, tool)
    case OpFocusIn(session) => CancelIdle(w, session)
    case OpKey(key) => Consume(w, key).0
    case OpRetab(tabs) => Retab(w, tabs)
    case OpUnregister(wid) => Unregister(w, wid)
    case OpActivate(session) => w.(active := session)
    case OpReport(yolo) => Report(w, yolo)
    case OpDisconnect => Disconnect(w)
    case OpReconnect(left) => Reconnect(w, left)
  }

  function Run(w: World, ops: seq<Op>): World
    decreases |ops|
  {
    if ops == [] then w else Run(Apply(w, ops[0]), ops[1..])
  }

  /** A freshly started daemon, over any link. */
  function Initial(fails: set<nat>): World {
    World(Nothing, [], [], [], None, Enrollment(false, false, {}, {}), Device(false, map[], fails, 0),
          0, {}, map[], [], [])
  }
}

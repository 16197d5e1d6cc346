// The alert engine in the form the daemon runs it: fields updated in place, and
// promotion in loops (alerts.rs, with its drivers in main.rs and hooks.rs).
// Every method is proved to take the world where the function of `AlertWorld`
// takes it.

module AlertEngine {
  import opened Prelude
  import opened AlertTypes
  import opened AlertWorld

  const KEYCODE_F20: nat := 0x006F
  const KEYCODE_KNOB_NEXT: nat := 0x012B
  const KEYCODE_KNOB_PREV: nat := 0x032B
  const QMK_CTRL_C: nat := 0x0106
  const HID_ENTER: nat := 0x28
  const HID_ESC: nat := 0x29
  const HID_Y: nat := 0x1C
  const HID_N: nat := 0x11

  /** `classify_input`, for a 16-bit QMK keycode. */
  function Classify(keycode: nat): Key {
    var low := keycode % 0x100;
    var ctrl := (keycode / 0x100) % 2 == 1;
    if keycode == KEYCODE_F20 then FocusKey
    else if keycode == KEYCODE_KNOB_NEXT || keycode == KEYCODE_KNOB_PREV then OtherKey
    else if keycode == QMK_CTRL_C then DenyKey
    else if ctrl then OtherKey
    else if low == HID_ENTER || low == HID_Y then AllowKey
    else if low == HID_N then DenyKey
    else if low == HID_ESC then DismissKey
    else OtherKey
  }

  /** Enter, y and n decide with or without Shift and Alt, as Esc dismisses; with Ctrl nothing does but Ctrl-C. */
  lemma KeysByModifier(modifiers: nat, base: nat)
    requires modifiers < 0x100 && base < 0x100
    ensures var (key, ctrl) := (Classify(modifiers * 0x100 + base), modifiers % 2 == 1);
            && (key == FocusKey <==> modifiers == 0 && base == 0x6F)
            && (key == AllowKey <==> !ctrl && (base == 0x28 || base == 0x1C))
            && (key == DenyKey <==> (!ctrl && base == 0x11) || (modifiers == 1 && base == 0x06))
            && (key == DismissKey <==> !ctrl && base == 0x29)
  {
    var keycode := modifiers * 0x100 + base;
    assert keycode / 0x100 == modifiers && keycode % 0x100 == base;
  }

  lemma {:induction false} TabOfIsFirst(tabs: seq<Wrapper>, session: Session, k: nat)
    requires k < |tabs| && tabs[k].session == Some(session)
    requires forall j :: 0 <= j < k ==> tabs[j].session != Some(session)
    ensures TabOf(tabs, session) == Some(k)
  {
    if k > 0 { TabOfIsFirst(tabs[1..], session, k - 1); }
  }

  lemma JudgedEqually(w: World, r: World, q: Prompt)
    requires SameSetting(w, r)
    ensures Judge(w, q) == Judge(r, q)
  {
  }

  lemma FailedSendKeepsQueue(w: World)
    ensures SendFailed(w).pending == w.pending
  {
  }

  class Engine {
    var slot: Shown
    var pendingQueue: seq<Prompt>
    var idleQueue: seq<Notice>
    var wrappers: seq<Wrapper>
    var active: Option<Session>
    var yolo: bool
    var modeInitialized: bool
    var optIn: set<WrapperId>
    var optOut: set<WrapperId>
    var online: bool
    var store: map<nat, Body>
    var writes: nat
    var nextAlertId: nat
    var closed: set<nat>
    var answers: map<nat, Outcome>
    const fails: set<nat>          // which writes the link loses
    ghost var shown: seq<nat>
    ghost var auto: seq<AutoAllow>

    ghost function View(): World
      reads this
    {
      World(slot, pendingQueue, idleQueue, wrappers, active, Enrollment(yolo, modeInitialized, optIn, optOut),
            Device(online, store, fails, writes), nextAlertId, closed, answers, shown, auto)
    }

    constructor (fails: set<nat>)
      ensures View() == Initial(fails)
    {
      slot, pendingQueue, idleQueue, wrappers, active := Nothing, [], [], [], None;
      yolo, modeInitialized, optIn, optOut := false, false, {}, {};
      online, store, writes, nextAlertId, closed, answers := false, map[], 0, 0, {}, map[];
      shown, auto := [], [];
      this.fails := fails;
    }

    // ── The device link ────────────────────────────────────────────

    method SendAlert(tab: nat, body: Body) returns (ok: bool)
      modifies `store, `writes
      ensures View() == AlertWorld.SendAlert(old(View()), tab, body)
      ensures ok == WriteOk(old(View().device))
    {
      ok := online && writes !in fails;
      if ok { store := store[tab := body]; }
      writes := writes + 1;
    }

    method ClearAlert(tab: nat)
      modifies `store, `writes
      ensures View() == AlertWorld.ClearAlert(old(View()), tab)
    {
      if online && writes !in fails { store := store - {tab}; }
      writes := writes + 1;
    }

    /** Take the alert off the slot and its device tab. */
    method FreeSlot()
      requires slot != Nothing
      modifies `slot, `store, `writes
      ensures View() == Release(old(View()))
    {
      var tab := slot.tab;
      slot := Nothing;
      ClearAlert(tab);
    }

    // ── Looking up wrappers ────────────────────────────────────────

    method TabIndexForSession(session: Session) returns (r: Option<nat>)
      ensures r == TabOf(wrappers, session)
    {
      var k := 0;
      while k < |wrappers|
        invariant k <= |wrappers| && forall j :: 0 <= j < k ==> wrappers[j].session != Some(session)
      {
        if wrappers[k].session == Some(session) {
          TabOfIsFirst(wrappers, session, k);
          return Some(k);
        }
        k := k + 1;
      }
      return None;
    }

    method WrapperIdForSession(session: Session) returns (r: Option<WrapperId>)
      ensures r == WrapperOf(wrappers, session)
    {
      var tab := TabIndexForSession(session);
      r := if tab.None? then None else Some(wrappers[tab.value].id);
    }

    // ── Installing and promoting ───────────────────────────────────

    method QueueIdle(n: Notice)
      modifies `idleQueue
      ensures View() == old(View()).(idle := Enqueue(old(idleQueue), n))
    {
      var k := 0;
      while k < |idleQueue| && idleQueue[k].session != n.session
        invariant k <= |idleQueue| && idleQueue == old(idleQueue)
        invariant forall j :: 0 <= j < k ==> idleQueue[j].session != n.session
      {
        k := k + 1;
      }
      assert k == NoticeOf(idleQueue, n.session);
      if k < |idleQueue| {
        idleQueue := idleQueue[k := n];
        return;
      }
      if |idleQueue| >= IDLE_QUEUE_CAP {
        idleQueue := idleQueue[1..];
      }
      idleQueue := idleQueue + [n];
    }

    method ShowIdleAlert(n: Notice)
      modifies this
      ensures View() == ShowIdle(old(View()), n)
    {
      var tab := TabIndexForSession(n.session);
      if n.kind == Waiting && tab.Some? {
        var w := wrappers[tab.value];
        if w.focused || !w.reportsFocus {
          return;
        }
      }
      if slot != Nothing && !(slot.IdleUp? && slot.session == n.session) {
        QueueIdle(n);
        return;
      }
      if !online {
        return;
      }
      var ok := SendAlert(tab.GetOr(0), n.body);
      if !ok {
        return;
      }
      slot := IdleUp(nextAlertId, n.session, tab.GetOr(0), n.body);
      nextAlertId := nextAlertId + 1;
    }

    /** `promote_queued_idle`: ends because showing a notice from a free slot queues nothing. */
    method PromoteQueuedIdle()
      modifies this
      ensures View() == PromoteIdle(old(View()))
    {
      while slot == Nothing && idleQueue != []
        invariant PromoteIdle(View()) == PromoteIdle(old(View()))
        decreases |idleQueue|
      {
        var q := idleQueue[0];
        idleQueue := idleQueue[1..];
        var tab := TabIndexForSession(q.session);
        if tab.None? {
          continue;
        }
        ShowIdleAlert(q);
      }
    }

    method SendOutcome(p: Prompt, o: Outcome)
      modifies `answers
      ensures View() == Answer(old(View()), p, o)
    {
      if p.id !in closed { answers := answers[p.id := o]; }
    }

    /** What the loop of `try_install_next_pending` decides about an entry before it looks at the slot. */
    method JudgeQueued(q: Prompt) returns (v: Verdict)
      ensures v == Judge(View(), q)
    {
      if q.id in closed {
        return GaveUp;
      }
      var wid := WrapperIdForSession(q.session);
      var isUserInput := q.tool.Some? && IsUserInputTool(q.tool.value);
      if wid.Some? {
        if !isUserInput && wid.value in optIn {
          return EnrolledIn;
        }
        if !isUserInput && wid.value in optOut {
          return DeclinedOut;
        }
      }
      return Ask;
    }

    /** Put a prompt on the device and in the slot, if the device takes it. */
    method PutLive(p: Prompt) returns (installed: bool)
      modifies this
      ensures installed == WriteOk(old(View().device))
      ensures View() == if installed then GoLive(old(View()), p) else SendFailed(old(View()))
    {
      var tab := TabIndexForSession(p.session);
      if !online {
        return false;
      }
      installed := SendAlert(tab.GetOr(0), p.body);
      if installed {
        slot := PromptUp(p, tab.GetOr(0));
        shown := shown + [p.id];
      }
    }

    method AllowUnasked(q: Prompt)
      requires Judge(View(), q) == EnrolledIn
      modifies `answers, `auto
      ensures View() == AutoAnswer(old(View()), q)
    {
      SendOutcome(q, Allow);
      auto := auto + [AutoAllow(q.tool, yolo, true)];
    }

    /** One turn of the loop in `try_install_next_pending`. */
    method PromoteHead() returns (done: bool)
      requires pendingQueue != []
      modifies this
      ensures done ==> View() == Promote(old(View()))
      ensures !done ==> Promote(View()) == Promote(old(View())) && |pendingQueue| < |old(pendingQueue)|
    {
      hide ShowIdle, PromoteIdle, AutoAnswer, GoLive, Judge, SendFailed;
      var q := pendingQueue[0];
      var v := JudgeQueued(q);
      pendingQueue := pendingQueue[1..];
      assert [q] + pendingQueue == old(pendingQueue);
      JudgedEqually(old(View()), View(), q);
      if v == EnrolledIn {
        AllowUnasked(q);
        assert pendingQueue == old(pendingQueue)[1..];
      }
      if v != Ask {
        return false;
      }
      if slot != Nothing {
        pendingQueue := [q] + pendingQueue;
        return true;
      }
      FailedSendKeepsQueue(View());
      done := PutLive(q);
    }

    /** `try_install_next_pending` */
    method TryInstallNextPending()
      modifies this
      ensures View() == Promote(old(View()))
    {
      while pendingQueue != []
        invariant Promote(View()) == Promote(old(View()))
        decreases |pendingQueue|
      {
        var done := PromoteHead();
        if done {
          return;
        }
      }
      PromoteQueuedIdle();
    }

    method InstallPendingAlert(session: Session, tool: Option<string>, body: Body, enrollment: bool)
        returns (id: Option<nat>)
      modifies this
      ensures (View(), id) == Install(old(View()), session, tool, body, enrollment)
    {
      if slot != Nothing {
        if |pendingQueue| >= PENDING_QUEUE_CAP {
          return None;
        }
        id := Some(nextAlertId);
        pendingQueue := pendingQueue + [Prompt(nextAlertId, session, tool, enrollment, body)];
        nextAlertId := nextAlertId + 1;
        return;
      }
      var ok := PutLive(Prompt(nextAlertId, session, tool, enrollment, body));
      if !ok {
        return None;
      }
      id := Some(nextAlertId);
      nextAlertId := nextAlertId + 1;
    }

    // ── Cancelling ─────────────────────────────────────────────────

    method ClearAlertIf(id: nat)
      modifies this
      ensures View() == AlertWorld.ClearAlertIf(old(View()), id)
    {
      if !slot.IsId(id) {
        return;
      }
      FreeSlot();
      TryInstallNextPending();
    }

    method DropQueuedForSession(session: Session)
      modifies `pendingQueue
      ensures View() == Purge(old(View()), session)
    {
      pendingQueue := WithoutSession(pendingQueue, session);
    }

    method DropQueuedIdle(session: Session)
      modifies `idleQueue
      ensures View() == old(View()).(idle := NoticesWithout(old(idleQueue), session))
    {
      idleQueue := NoticesWithout(idleQueue, session);
    }

    method CancelForSessionProgress(session: Session)
      modifies this
      ensures View() == CancelForProgress(old(View()), session)
    {
      var wasActive := slot.OwnedBy(session);
      if wasActive {
        FreeSlot();
      }
      DropQueuedForSession(session);
      DropQueuedIdle(session);
      if wasActive {
        TryInstallNextPending();
      }
    }

    method CancelIdleForSession(session: Session)
      modifies this
      ensures View() == CancelIdle(old(View()), session)
    {
      DropQueuedIdle(session);
      if !(slot.IdleUp? && slot.session == session) {
        return;
      }
      FreeSlot();
      TryInstallNextPending();
    }

    method CancelPendingInner(session: Session, requireTool: Option<string>)
      modifies this
      ensures View() == CancelPending(old(View()), session, requireTool)
    {
      var cleared := slot.PromptUp? && slot.prompt.session == session
        && (requireTool == None || slot.prompt.tool == requireTool);
      if cleared {
        FreeSlot();
      }
      if requireTool == None {
        DropQueuedForSession(session);
      }
      if cleared {
        TryInstallNextPending();
      }
    }

    method CancelPendingForTool(session: Session, tool: Option<string>)
      modifies this
      ensures View() == if tool.None? then old(View()) else CancelPending(old(View()), session, tool)
    {
      if tool.Some? {
        CancelPendingInner(session, tool);
      }
    }

    // ── Keys ───────────────────────────────────────────────────────

    method MarkYoloOptIn(wid: WrapperId)
      modifies `optIn, `optOut
      ensures View() == MarkIn(old(View()), wid)
    {
      optIn := optIn + {wid};
      optOut := optOut - {wid};
    }

    method MarkYoloOptOut(wid: WrapperId)
      modifies `optIn, `optOut
      ensures View() == MarkOut(old(View()), wid)
    {
      optOut := optOut + {wid};
      optIn := optIn - {wid};
    }

    /** The enrollment half of a decision on `p`, ahead of its answer. */
    method EnrollFor(p: Prompt, o: Outcome)
      modifies `optIn, `optOut
      ensures View() == Enroll(old(View()), p, o)
    {
      if p.enrollment && yolo {
        var wid := WrapperIdForSession(p.session);
        if wid.Some? {
          if o == Allow { MarkYoloOptIn(wid.value); } else { MarkYoloOptOut(wid.value); }
        }
      }
    }

    method ConsumeInputForDecision(keycode: nat) returns (r: KeyResult)
      modifies this
      ensures (View(), r) == Consume(old(View()), Classify(keycode))
    {
      var kind := Classify(keycode);
      if kind == OtherKey {
        return Passthrough;
      }
      if slot == Nothing {
        return if kind == FocusKey then RaiseActive else Passthrough;
      }
      var tab, owner := slot.tab, slot.Owner();
      if kind == FocusKey {
        if slot.IdleUp? {
          FreeSlot();
          TryInstallNextPending();
        }
        return FocusSession(owner);
      }
      if slot.IdleUp? && kind != DismissKey {
        return Passthrough;
      }
      var prev := slot;
      slot := Nothing;
      if prev.IdleUp? {
        r := if active == Some(prev.session) then Passthrough else Consumed;
      } else {
        EnrollFor(prev.prompt, OutcomeOf(kind));
        SendOutcome(prev.prompt, OutcomeOf(kind));
        r := Consumed;
      }
      ClearAlert(tab);
      TryInstallNextPending();
    }

    // ── Tabs and the device ────────────────────────────────────────

    /** Move the live alert to tab `k`. */
    method Relocate(k: nat)
      requires slot != Nothing
      modifies `slot, `store, `writes
      ensures var w := old(View());
              View() == AlertWorld.SendAlert(AlertWorld.ClearAlert(w, w.slot.tab), k, w.slot.Content())
                .(slot := w.slot.(tab := k))
    {
      var oldIndex, body := slot.tab, slot.Content();
      slot := slot.(tab := k);
      ClearAlert(oldIndex);
      var _ := SendAlert(k, body);
    }

    /** A registry change, and the `refresh_for_tabs` that follows it. */
    method RefreshForTabs(tabs: seq<Wrapper>)
      modifies this
      ensures View() == Retab(old(View()), tabs)
    {
      hide Promote, AlertWorld.ClearAlert, AlertWorld.SendAlert, Release, OnTabs, Sessions;
      wrappers := tabs;
      pendingQueue := OnTabs(pendingQueue, Sessions(tabs));
      if slot == Nothing {
        TryInstallNextPending();
        return;
      }
      var newIndex := TabIndexForSession(slot.Owner());
      if newIndex.None? {
        FreeSlot();
        TryInstallNextPending();
      } else if newIndex.value != slot.tab {
        Relocate(newIndex.value);
      }
    }

    method ResyncDevice()
      modifies `store, `writes
      ensures View() == if old(online) then Resync(old(View())) else old(View())
    {
      if !online {
        return;
      }
      var tab := 0;
      while tab < DEVICE_ALERT_TABS
        invariant tab <= DEVICE_ALERT_TABS && View() == old(View()).(device := ClearTabs(old(View().device), tab))
      {
        ClearAlert(tab);
        tab := tab + 1;
      }
      if slot != Nothing {
        var _ := SendAlert(slot.tab, slot.Content());
      }
    }

    /** `HidConnected`, on a device that still shows `left`. */
    method OnConnected(left: map<nat, Body>)
      modifies this
      ensures View() == Reconnect(old(View()), left)
    {
      online, store := true, left;
      ResyncDevice();
    }

    method ClearYoloEnrollment()
      modifies `optIn, `optOut
      ensures View() == old(View()).(sets := Enrollment(old(yolo), old(modeInitialized), {}, {}))
    {
      optIn, optOut := {}, {};
    }

    method ResetForDisconnect()
      modifies `slot, `pendingQueue, `idleQueue
      ensures View() == old(View()).(slot := Nothing, pending := [], idle := [])
    {
      slot, pendingQueue, idleQueue := Nothing, [], [];
    }

    /** `HidDisconnected` */
    method OnDisconnected()
      modifies this
      ensures View() == Disconnect(old(View()))
    {
      online, yolo, modeInitialized := false, false, false;
      ClearYoloEnrollment();
      ResetForDisconnect();
    }

    // ── Auto-approve and the permission hook ───────────────────────

    method ActiveWrapperId() returns (r: Option<WrapperId>)
      ensures r == ActiveWrapper(View())
    {
      if active.Some? {
        r := WrapperIdForSession(active.value);
        if r.Some? {
          return;
        }
      }
      r := if wrappers == [] then None else Some(wrappers[0].id);
    }

    /** `DeviceStateChanged` */
    method OnStateReport(reported: bool)
      modifies this
      ensures View() == Report(old(View()), reported)
    {
      var flipped := modeInitialized && yolo != reported;
      yolo, modeInitialized := reported, true;
      if flipped && reported {
        var wid := ActiveWrapperId();
        if wid.Some? { MarkYoloOptIn(wid.value); }
      } else if flipped {
        ClearYoloEnrollment();
      }
    }

    /** The end of a wrapper's connection, once it is sure to be the one on record. */
    method OnWrapperGone(wid: WrapperId)
      modifies this
      ensures View() == Unregister(old(View()), wid)
    {
      optIn, optOut := optIn - {wid}, optOut - {wid};
      var others := (x: Wrapper) => x.id != wid;
      RefreshForTabs(Filter(wrappers, others));
    }

    /** `handle_permission_request` up to its answer or its oneshot. */
    method HandlePermissionRequest(session: Option<Session>, tool: Option<string>, title: string, task: string)
        returns (r: Reply)
      modifies this
      ensures (View(), r) == Request(old(View()), session, tool, title, task)
    {
      var name := tool.GetOr("unknown");
      if IsUserInputTool(name) {
        return PassReply;
      }
      var wid := None;
      if session.Some? { wid := WrapperIdForSession(session.value); }
      if yolo && online && wid.Some? {
        if wid.value in optIn {
          auto := auto + [AutoAllow(tool, yolo, true)];
          return AllowReply;
        }
        if wid.value in optOut {
          return PassReply;
        }
      }
      if session.None? {
        return PassReply;
      }
      var text := if yolo then "Auto-approve this tab?" else "Allow " + name + "?";
      var id := InstallPendingAlert(session.value, tool, Body(title, text, Some(task)), yolo);
      r := if id.None? then PassReply else Parks(id.value);
    }

    /** The rest of `handle_permission_request`, once its wait on oneshot `id` is over. */
    method ResumeRequest(id: nat, wasEnrollment: bool, wid: Option<WrapperId>) returns (r: Reply)
      modifies this
      ensures (View(), r) == Wake(old(View()), id, wasEnrollment, wid)
    {
      var answered := id in answers;
      var outcome := if answered then answers[id] else Deny;
      closed := closed + {id};
      ClearAlertIf(id);
      if !answered {
        return PassReply;
      }
      if outcome == Allow {
        if wasEnrollment && yolo && wid.Some? { MarkYoloOptIn(wid.value); }
        return AllowReply;
      }
      if wasEnrollment {
        if wid.Some? { MarkYoloOptOut(wid.value); }
        return PassReply;
      }
      return DenyReply;
    }
  }
}

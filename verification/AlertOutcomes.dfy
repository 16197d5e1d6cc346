// What the single operations promise to those they concern: the session that is
// cancelled, the prompt that is decided, the handler that resumes (alerts.rs).

module AlertOutcomes {
  import opened Prelude
  import opened AlertTypes
  import opened AlertWorld
  import opened AlertRuns
  import opened AlertPromotion

  // ── Cancelling one kind of alert ─────────────────────────────────

  /** No notice of `session` is shown or waits. */
  predicate NoNotice(w: World, session: Session) {
    !(w.slot.IdleUp? && w.slot.session == session) && forall n :: n in w.idle ==> n.session != session
  }

  /** No prompt of `session` is live or waits. */
  predicate NoPrompt(w: World, session: Session) {
    !(w.slot.PromptUp? && w.slot.prompt.session == session) && forall p :: p in w.pending ==> p.session != session
  }

  lemma {:induction false} IdlePromotionNoNotice(w: World, session: Session)
    requires NoNotice(w, session)
    ensures NoNotice(PromoteIdle(w), session)
    decreases |w.idle|
  {
    if w.slot == Nothing && w.idle != [] {
      var popped := w.(idle := w.idle[1..]);
      var next := if TabOf(w.tabs, w.idle[0].session).None? then popped else ShowIdle(popped, w.idle[0]);
      assert NoNotice(next, session);
      hide NoNotice, ShowIdle;
      IdlePromotionNoNotice(next, session);
    }
  }

  lemma {:induction false} PromotionNoNotice(w: World, session: Session)
    requires NoNotice(w, session) && w.slot == Nothing
    ensures NoNotice(Promote(w), session)
    decreases |w.pending|
  {
    if w.pending == [] {
      IdlePromotionNoNotice(w, session);
    } else if Judge(w, w.pending[0]) == Ask && WriteOk(w.device) {
      hide Judge;
    } else {
      SkipStep(w);
      assert NoNotice(Skip(w), session);
      hide NoNotice, Promote, Judge, Skip;
      PromotionNoNotice(Skip(w), session);
    }
  }

  /** Looking at a session's window takes away its notices, and nothing else: a live prompt and the queued ones
      stay as they are, since looking is not deciding. */
  lemma FocusTakesNoticesOnly(w: World, session: Session)
    ensures NoNotice(CancelIdle(w, session), session)
    ensures w.slot.PromptUp? ==> CancelIdle(w, session) == w.(idle := NoticesWithout(w.idle, session))
  {
    var r := w.(idle := NoticesWithout(w.idle, session));
    if w.slot.IdleUp? && w.slot.session == session {
      PromotionNoNotice(Release(r), session);
    }
    hide Promote;
  }

  lemma PromotionNoPrompt(w: World, session: Session)
    requires w.slot == Nothing && NoPrompt(w, session)
    ensures NoPrompt(Promote(w), session)
  {
    PromotionSettlesPrefix(w);
    hide Promote, Judge, Asked, FirstLanding, AlsoAllows;
  }

  /** Coarse progress takes away every prompt of the session, live or queued, and leaves a notice on screen. */
  lemma ProgressTakesPromptsOnly(w: World, session: Session)
    ensures NoPrompt(CancelPending(w, session, None), session)
    ensures w.slot.IdleUp? ==>
              CancelPending(w, session, None).slot == w.slot && CancelPending(w, session, None).idle == w.idle
  {
    var hit := w.slot.PromptUp? && w.slot.prompt.session == session;
    if hit { PromotionNoPrompt(Purge(Release(w), session), session); }
    hide Promote;
  }

  /** A tool's progress moves nothing unless the live prompt is that session's and that tool's; then it frees the
      slot, and what stays queued is the end of the queue as it was. */
  lemma ToolProgressIsScoped(w: World, session: Session, tool: string)
    ensures var r := CancelPending(w, session, Some(tool));
            if w.slot.PromptUp? && w.slot.prompt.session == session && w.slot.prompt.tool == Some(tool)
            then exists k :: 0 <= k <= |w.pending| && r.pending == w.pending[k..]
            else r == w
  {
    if w.slot.PromptUp? && w.slot.prompt.session == session && w.slot.prompt.tool == Some(tool) {
      var d := Release(w);
      PromotionSettlesPrefix(d);
      var k := FirstLanding(d.device, Asked(d));
      hide Promote, Asked, FirstLanding, AlsoAllows;
      assert Promote(d).pending == w.pending[if k < |w.pending| then k + 1 else k..];
    }
  }

  // ── What an operation takes, and what comes next ─────────────────

  /** `r` is what promotion makes of `b`: the next alert that reaches the device is shown, and the rest stays queued. */
  predicate Promoted(b: World, r: World) { PrefixSettled(b, r, FirstLanding(b.device, Asked(b))) }

  /** The alert is off the slot and its tab. */
  function Freed(w: World): World
    requires w.slot != Nothing
  {
    w.(slot := Nothing, device := ClearOn(w.device, w.slot.tab))
  }

  lemma PromotionPromoted(b: World)
    requires b.slot == Nothing
    ensures Promoted(b, Promote(b))
  {
    PromotionSettlesPrefix(b);
    hide PrefixSettled, Promote;
  }

  lemma FreedIsPromoted(w: World, b: World)
    requires w.slot != Nothing && b == Freed(w)
    ensures Promoted(b, Promote(Release(w)))
  {
    PromotionPromoted(b);
    hide Promoted, Promote;
  }

  /** A session's progress takes its alert, its prompts and its notices, and nothing of any other session. */
  lemma ProgressTakes(w: World, session: Session)
    ensures var r := CancelForProgress(w, session);
            var kept := w.(pending := WithoutSession(w.pending, session), idle := NoticesWithout(w.idle, session));
            if w.slot != Nothing && w.slot.Owner() == session then Promoted(Freed(kept), r) else r == kept
  {
    var kept := w.(pending := WithoutSession(w.pending, session), idle := NoticesWithout(w.idle, session));
    if w.slot.OwnedBy(session) { FreedIsPromoted(kept, Freed(kept)); }
    hide Promoted, Promote;
  }

  /** Looking at a session takes its notices, shown or queued. */
  lemma FocusTakes(w: World, session: Session)
    ensures var (r, kept) := (CancelIdle(w, session), w.(idle := NoticesWithout(w.idle, session)));
            if w.slot.IdleUp? && w.slot.session == session then Promoted(Freed(kept), r) else r == kept
  {
    var kept := w.(idle := NoticesWithout(w.idle, session));
    if w.slot.IdleUp? && w.slot.session == session { FreedIsPromoted(kept, Freed(kept)); }
    hide Promoted, Promote;
  }

  /** A cancelled prompt is taken off, with the queued prompts of its session if no tool is named. */
  lemma CancelTakes(w: World, session: Session, only: Option<string>)
    ensures var r := CancelPending(w, session, only);
            var kept := if only == None then w.(pending := WithoutSession(w.pending, session)) else w;
            if w.slot.PromptUp? && w.slot.prompt.session == session && (only == None || w.slot.prompt.tool == only)
            then Promoted(Freed(kept), r) else r == kept
  {
    var kept := if only == None then w.(pending := WithoutSession(w.pending, session)) else w;
    if w.slot != Nothing { FreedIsPromoted(kept, Freed(kept)); }
    hide Promoted, Promote;
  }

  /** A handler that resumes takes its own alert off, if that is still live, and no other. */
  lemma WakeTakes(w: World, id: nat, enrollment: bool, wid: Option<WrapperId>)
    ensures var r, closing := Wake(w, id, enrollment, wid).0, w.(closed := w.closed + {id});
            if (w.slot.PromptUp? && w.slot.prompt.id == id) || (w.slot.IdleUp? && w.slot.id == id)
            then Promoted(Freed(closing), r.(sets := w.sets)) else r == closing.(sets := r.sets)
  {
    var closing := w.(closed := w.closed + {id});
    if w.slot != Nothing { FreedIsPromoted(closing, Freed(closing)); }
    assert w.slot == Nothing || Promote(Release(closing)).sets == w.sets;
    hide Promoted, Promote;
  }

  /** `body` went from tab `from` to tab `to` in two writes, as far as they succeeded. */
  predicate Moved(d: Device, r: Device, from: nat, to: nat, body: Body) {
    var cleared := if d.online && d.writes !in d.fails then d.store - {from} else d.store;
    && r == d.(store := r.store, writes := d.writes + 2)
    && r.store == if d.online && d.writes + 1 !in d.fails then cleared[to := body] else cleared
  }

  /** A change of tabs takes the prompts of sessions without one; a live alert goes if its session has none, moves if
      its session has moved, and otherwise stays as it is. */
  lemma TabsTake(w: World, tabs: seq<Wrapper>)
    ensures var r, kept := Retab(w, tabs), w.(tabs := tabs, pending := OnTabs(w.pending, Sessions(tabs)));
            if w.slot == Nothing then Promoted(kept, r)
            else match TabOf(tabs, w.slot.Owner())
                 case None => Promoted(Freed(kept), r)
                 case Some(k) =>
                   && r == kept.(slot := w.slot.(tab := k), device := r.device)
                   && (k == w.slot.tab ==> r.device == w.device)
                   && (k != w.slot.tab ==> Moved(w.device, r.device, w.slot.tab, k, w.slot.Content()))
  {
    var kept := w.(tabs := tabs, pending := OnTabs(w.pending, Sessions(tabs)));
    hide Promoted, Promote, OnTabs, Sessions, TabOf;
    if w.slot == Nothing {
      PromotionPromoted(kept);
    } else {
      FreedIsPromoted(kept, Freed(kept));
      hide Freed, Release;
    }
  }

  /** The end of a wrapper's connection forgets what it decided, and what any other decided stays; its tab is gone,
      with the alerts and prompts of sessions that have no other, and the other tabs stay in order. */
  lemma UnregisterForgets(w: World, wid: WrapperId)
    ensures var r := Unregister(w, wid);
            && (forall x :: x in r.sets.optIn <==> x in w.sets.optIn && x != wid)
            && (forall x :: x in r.sets.optOut <==> x in w.sets.optOut && x != wid)
            && r.sets.yolo == w.sets.yolo && r.sets.initialized == w.sets.initialized
            && (forall x :: x in r.tabs <==> x in w.tabs && x.id != wid)
            && (forall f: (Wrapper, Wrapper) -> bool :: Ordered(w.tabs, f) ==> Ordered(r.tabs, f))
            && (r.slot != Nothing ==> TabOf(r.tabs, r.slot.Owner()).Some?)
            && (forall p :: p in r.pending ==> p in w.pending && TabOf(r.tabs, p.session).Some?)
  {
    var others := (x: Wrapper) => x.id != wid;
    var b, tabs := DropEnrollment(w, wid), Filter(w.tabs, others);
    forall f: (Wrapper, Wrapper) -> bool | Ordered(w.tabs, f) ensures Ordered(tabs, f) {
      FilterKeepsOrder(w.tabs, others, f);
    }
    TabsLeaveOnlySeated(b, tabs);
    RetabSets(b, tabs);
    hide Retab, Ordered;
  }

  lemma RetabSets(w: World, tabs: seq<Wrapper>)
    ensures var r := Retab(w, tabs);
            r.sets == w.sets && r.tabs == tabs && forall p :: p in r.pending ==> p in w.pending
  {
    var kept := w.(tabs := tabs, pending := OnTabs(w.pending, Sessions(tabs)));
    QueueShrinks(if w.slot == Nothing then kept else Release(kept));
    hide Promote, Sessions;
  }

  lemma QueueShrinks(w: World)
    requires w.slot == Nothing
    ensures var r := Promote(w);
            (forall p :: p in r.pending ==> p in w.pending) && (r.slot.PromptUp? ==> r.slot.prompt in w.pending)
  {
    PromotionSettlesPrefix(w);
    ShownNext(w, Promote(w), FirstLanding(w.device, Asked(w)));
    hide Promote, FirstLanding, Asked, PrefixSettled;
  }

  /** A key that means something for the alert on screen takes it off; a decision answers it first, and settles the
      enrollment of its wrapper if that was asked. */
  lemma KeyTakes(w: World, key: Key)
    ensures var r := Consume(w, key).0;
            && (w.slot.IdleUp? && (key == FocusKey || key == DismissKey) ==> Promoted(Freed(w), r))
            && (w.slot.PromptUp? && key in {AllowKey, DenyKey, DismissKey} ==>
                  Promoted(Freed(w).(answers := Told(w, OutcomeOf(key)), sets := Joined(w, OutcomeOf(key))), r))
  {
    if w.slot.IdleUp? { FreedIsPromoted(w, Freed(w)); }
    if w.slot.PromptUp? {
      var d := Decided(w, OutcomeOf(key));
      PromotionPromoted(d);
      assert Freed(w).(answers := Told(w, OutcomeOf(key)), sets := Joined(w, OutcomeOf(key))) == d;
      hide Decided, Promoted, Promote, Told, Joined;
      assert key in {AllowKey, DenyKey, DismissKey} ==> Consume(w, key).0 == Promote(d);
    }
  }

  /** The answers once the live prompt has been decided. */
  function Told(w: World, o: Outcome): map<nat, Outcome>
    requires w.slot.PromptUp?
  {
    if w.slot.prompt.id in w.closed then w.answers else w.answers[w.slot.prompt.id := o]
  }

  /** The enrollment sets once the live prompt has been decided: an enrollment prompt puts its wrapper into one set and
      out of the other, while Auto-approve is on. */
  function Joined(w: World, o: Outcome): Enrollment
    requires w.slot.PromptUp?
  {
    var wid := WrapperOf(w.tabs, w.slot.prompt.session);
    if !w.slot.prompt.enrollment || !w.sets.yolo || wid.None? then w.sets
    else if o == Allow then w.sets.(optIn := w.sets.optIn + {wid.value}, optOut := w.sets.optOut - {wid.value})
    else w.sets.(optIn := w.sets.optIn - {wid.value}, optOut := w.sets.optOut + {wid.value})
  }

  // ── Deciding ─────────────────────────────────────────────────────

  /** A decision is sent to the prompt that was live, if its handler still waits; any other prompt is answered,
      if at all, with an Allow, and only while it leaves the queue. */
  lemma DecisionIsSent(w: World, key: Key)
    requires Inv(w) && w.slot.PromptUp? && key != FocusKey && key != OtherKey
    ensures var (p, r) := (w.slot.prompt, Consume(w, key).0);
            && (p.id !in w.closed ==> p.id in r.answers && r.answers[p.id] == OutcomeOf(key))
            && (forall id :: id in r.answers && id != p.id && (id in w.answers ==> r.answers[id] != w.answers[id]) ==>
                  r.answers[id] == Allow && exists q :: q in w.pending && q.id == id && q !in r.pending)
  {
    var d, p := Decided(w, OutcomeOf(key)), w.slot.prompt;
    assert Consume(w, key).0 == Promote(d);
    DecidedAnswers(w, OutcomeOf(key));
    PromotionSettlesPrefix(d);
    var k := FirstLanding(d.device, Asked(d));
    assert forall q :: q in w.pending ==> q.id != p.id;
    assert forall i :: 0 <= i < |w.pending| ==> w.pending[i] in w.pending;
    assert Ordered(d.pending, EarlierId);
    ShownNext(d, Promote(d), k);
    hide Promote, Decided, Asked, FirstLanding, Judge, Inv, Consume, NextShown, Records, Granted;
    GrantedLeave(d, k);
  }

  lemma DecidedAnswers(w: World, o: Outcome)
    requires w.slot.PromptUp?
    ensures var (d, p) := (Decided(w, o), w.slot.prompt);
            && d.slot == Nothing && d.pending == w.pending
            && d.answers == (if p.id in w.closed then w.answers else w.answers[p.id := o])
  {
  }

  lemma GrantedLeave(d: World, k: nat)
    requires k <= |d.pending| && Ordered(d.pending, EarlierId)
    ensures forall id :: id in Granted(d, d.pending[..k]) ==>
              exists q :: q in d.pending && q.id == id && forall j :: k <= j < |d.pending| ==> d.pending[j] != q
  {
    forall id | id in Granted(d, d.pending[..k])
      ensures exists q :: q in d.pending && q.id == id && forall j :: k <= j < |d.pending| ==> d.pending[j] != q
    {
      var q :| q in d.pending[..k] && Judge(d, q) == EnrolledIn && q.id == id;
      var i :| 0 <= i < k && d.pending[..k][i] == q;
      assert d.pending[i] == q;
      assert forall j :: k <= j < |d.pending| ==> EarlierId(d.pending[i], d.pending[j]);
    }
  }

  lemma {:induction false} IdlePromotionWrites(w: World)
    ensures PromoteIdle(w).device.writes >= w.device.writes
    decreases |w.idle|
  {
    if w.slot == Nothing && w.idle != [] {
      var popped := w.(idle := w.idle[1..]);
      IdlePromotionWrites(popped);
      IdlePromotionWrites(ShowIdle(popped, w.idle[0]));
    }
  }

  lemma {:induction false} PromotionWrites(w: World)
    requires w.slot == Nothing
    ensures Promote(w).device.writes >= w.device.writes
    decreases |w.pending|
  {
    if w.pending == [] {
      IdlePromotionWrites(w);
    } else if Judge(w, w.pending[0]) == Ask && WriteOk(w.device) {
      hide Judge;
    } else {
      SkipStep(w);
      assert Skip(w).device.writes >= w.device.writes;
      hide Promote, Judge, Skip;
      PromotionWrites(Skip(w));
    }
  }

  /** A key leaves everything as it was exactly when it is no answer to what is on screen: any key without an
      alert, the Claude button on a prompt, Allow and Deny on a notice, and every other key. */
  lemma KeysThatMoveNothing(w: World, key: Key)
    ensures Consume(w, key).0 == w
       <==> || key == OtherKey || w.slot == Nothing
            || (w.slot.PromptUp? && key == FocusKey)
            || (w.slot.IdleUp? && (key == AllowKey || key == DenyKey))
  {
    if w.slot != Nothing {
      PromotionWrites(Release(w));
      if w.slot.PromptUp? {
        DecidedAnswers(w, OutcomeOf(key));
        DecidedWrites(w, OutcomeOf(key));
        PromotionWrites(Decided(w, OutcomeOf(key)));
      }
    }
    hide Promote, WriteOk;
  }

  /** What a key comes back with: the Claude button names the session to raise; a decision on a prompt is consumed,
      and so is the Esc that dismisses a notice, unless its session is the active one, which is to get the key too;
      everything else passes through. */
  lemma KeysComeBack(w: World, key: Key)
    ensures var result := Consume(w, key).1;
            && (result == RaiseActive <==> key == FocusKey && w.slot == Nothing)
            && (forall s :: result == FocusSession(s) <==> key == FocusKey && w.slot != Nothing && s == w.slot.Owner())
            && (result == Consumed <==>
                  || (w.slot.PromptUp? && key in {AllowKey, DenyKey, DismissKey})
                  || (w.slot.IdleUp? && key == DismissKey && w.active != Some(w.slot.session)))
            && (result == Passthrough && Consume(w, key).0 != w ==>
                  w.slot.IdleUp? && key == DismissKey && w.active == Some(w.slot.session))
  {
    hide Promote;
  }

  /** A flip of the switch, and only a flip, changes who is enrolled: on, the wrapper that is active then, or the first
      one if the active session has none; off, nobody. */
  lemma FlipEnrollsActive(w: World, yolo: bool)
    ensures var (r, flipped) := (Report(w, yolo), w.sets.initialized && w.sets.yolo != yolo);
            && r == w.(sets := r.sets) && r.sets.yolo == yolo && r.sets.initialized
            && (!flipped ==> r.sets.optIn == w.sets.optIn && r.sets.optOut == w.sets.optOut)
            && (flipped && !yolo ==> r.sets.optIn == {} && r.sets.optOut == {})
            && (flipped && yolo ==>
                  forall wid :: wid in r.sets.optIn && wid !in r.sets.optOut
                    <==> (wid in w.sets.optIn && wid !in w.sets.optOut) || IsActive(w, wid))
            && (flipped && yolo ==> forall wid :: wid in r.sets.optOut <==> wid in w.sets.optOut && !IsActive(w, wid))
  {
    hide TabOf;
  }

  predicate IsActive(w: World, wid: WrapperId) {
    if w.active.Some? && exists k :: 0 <= k < |w.tabs| && w.tabs[k].session == w.active
    then WrapperOf(w.tabs, w.active.value) == Some(wid)
    else w.tabs != [] && w.tabs[0].id == wid
  }

  /** Whether a notice is worth showing: a question always, and that a session waits, unless its terminal is looked at
      or would never say so. */
  predicate WorthShowing(w: World, n: Notice) {
    n.kind == Question || TabOf(w.tabs, n.session).None?
    || var tab := w.tabs[TabOf(w.tabs, n.session).value]; !tab.focused && tab.reportsFocus
  }

  /** A notice is dropped if it is not worth showing; it waits behind an alert, but for an older notice of its own
      session; else it is on the screen at its session's tab, if the device takes it. */
  lemma NoticeShownOrQueued(w: World, n: Notice)
    ensures var r := ShowIdle(w, n);
            if !WorthShowing(w, n) then r == w
            else if w.slot.PromptUp? || (w.slot.IdleUp? && w.slot.session != n.session) then
              r == w.(idle := Enqueue(w.idle, n))
            else if WriteOk(w.device) then
              var tab := TabOf(w.tabs, n.session).GetOr(0);
              && r.slot == IdleUp(w.nextId, n.session, tab, n.body) && r.nextId == w.nextId + 1
              && r.device.store == w.device.store[tab := n.body] && r.idle == w.idle && r.pending == w.pending
            else r == w.(device := r.device) && r.device.store == w.device.store
  {
    hide TabOf, Enqueue;
  }

  lemma DecidedWrites(w: World, o: Outcome)
    requires w.slot.PromptUp?
    ensures Decided(w, o).device.writes == w.device.writes + 1
  {
  }

  // ── No dead prompt on the device ─────────────────────────────────

  /** A live prompt is still awaited, and only issued ids are closed. */
  predicate LiveIsAwaited(w: World) {
    (w.slot.PromptUp? ==> w.slot.prompt.id !in w.closed) && forall id :: id in w.closed ==> id < w.nextId
  }

  /** Handlers resume only on oneshots that were issued. */
  predicate Issued(w: World, op: Op) {
    op.OpWake? ==> op.id < w.nextId
  }

  lemma PromotionAwaited(w: World)
    requires w.slot == Nothing && forall id :: id in w.closed ==> id < w.nextId
    ensures LiveIsAwaited(Promote(w))
  {
    PromotionSettlesPrefix(w);
    PromotionIds(w);
    var k := FirstLanding(w.device, Asked(w));
    if k < |w.pending| { assert Judge(w, w.pending[k]) == Ask; }
    hide Promote, Asked, FirstLanding;
  }

  lemma {:induction false} IdlePromotionIds(w: World)
    ensures PromoteIdle(w).nextId >= w.nextId
    decreases |w.idle|
  {
    if w.slot == Nothing && w.idle != [] {
      var popped := w.(idle := w.idle[1..]);
      IdlePromotionIds(popped);
      IdlePromotionIds(ShowIdle(popped, w.idle[0]));
    }
  }

  lemma {:induction false} PromotionIds(w: World)
    requires w.slot == Nothing
    ensures Promote(w).nextId >= w.nextId && Promote(w).closed == w.closed
    decreases |w.pending|
  {
    if w.pending == [] {
      IdlePromotionIds(w);
    } else if Judge(w, w.pending[0]) == Ask && WriteOk(w.device) {
      hide Judge;
    } else {
      SkipStep(w);
      assert Skip(w).nextId == w.nextId && Skip(w).closed == w.closed;
      hide Promote, Judge, Skip;
      PromotionIds(Skip(w));
    }
  }

  lemma ReleasedAwaited(w: World)
    requires w.slot != Nothing && forall id :: id in w.closed ==> id < w.nextId
    ensures LiveIsAwaited(Promote(Release(w)))
  {
    PromotionAwaited(Release(w));
    hide Promote;
  }

  lemma CancelAwaited(w: World, session: Session, only: Option<string>)
    requires LiveIsAwaited(w)
    ensures LiveIsAwaited(CancelForProgress(w, session)) && LiveIsAwaited(CancelIdle(w, session))
        && LiveIsAwaited(CancelPending(w, session, only))
  {
    if w.slot != Nothing {
      var purged := Purge(Release(w), session);
      PromotionAwaited(purged.(idle := NoticesWithout(purged.idle, session)));
      PromotionAwaited(Release(w.(idle := NoticesWithout(w.idle, session))));
      PromotionAwaited(purged);
      PromotionAwaited(Release(w));
    }
    hide Promote;
  }

  lemma KeyAwaited(w: World, key: Key)
    requires LiveIsAwaited(w)
    ensures LiveIsAwaited(Consume(w, key).0)
  {
    if w.slot != Nothing {
      ReleasedAwaited(w);
      if w.slot.PromptUp? {
        DecidedKeeps(w, OutcomeOf(key));
        PromotionAwaited(Decided(w, OutcomeOf(key)));
      }
    }
    hide Promote;
  }

  lemma DecidedKeeps(w: World, o: Outcome)
    requires w.slot.PromptUp?
    ensures Decided(w, o).slot == Nothing && Decided(w, o).closed == w.closed && Decided(w, o).nextId == w.nextId
  {
  }

  lemma WakeAwaited(w: World, id: nat, enrollment: bool, wid: Option<WrapperId>)
    requires LiveIsAwaited(w) && id < w.nextId
    ensures LiveIsAwaited(Wake(w, id, enrollment, wid).0)
  {
    var closing := w.(closed := w.closed + {id});
    if closing.slot.IsId(id) { ReleasedAwaited(closing); }
    hide Promote;
  }

  lemma RetabAwaited(w: World, tabs: seq<Wrapper>)
    requires LiveIsAwaited(w)
    ensures LiveIsAwaited(Retab(w, tabs))
  {
    var r := w.(tabs := tabs, pending := OnTabs(w.pending, Sessions(tabs)));
    if w.slot == Nothing { PromotionAwaited(r); } else { ReleasedAwaited(r); }
    hide Promote, OnTabs, Sessions;
  }

  lemma OperationAwaited(w: World, op: Op)
    requires LiveIsAwaited(w) && Issued(w, op)
    ensures LiveIsAwaited(Apply(w, op))
  {
    match op {
      case OpRequest(from, tool, title, task) => RequestAwaited(w, from, tool, title, task);
      case OpWake(id, enrollment, wid) => WakeAwaited(w, id, enrollment, wid);
      case OpNotice(n) => NoticeAwaited(w, n);
      case OpProgress(session) => CancelAwaited(w, session, None);
      case OpCancelPending(session, only) => CancelAwaited(w, session, only);
      case OpFocusIn(session) => CancelAwaited(w, session, None);
      case OpKey(key) => KeyAwaited(w, key);
      case OpRetab(tabs) => RetabAwaited(w, tabs);
      case OpUnregister(wid) =>
        var others := (x: Wrapper) => x.id != wid;
        RetabAwaited(DropEnrollment(w, wid), Filter(w.tabs, others));
      case OpReconnect(left) => TabsCleared(w.device.(online := true, store := left), DEVICE_ALERT_TABS);
      case _ =>
    }
    hide Promote, ClearTabs, ShowIdle, Consume, Retab, Wake, Request;
  }

  lemma RequestAwaited(w: World, from: Option<Session>, tool: Option<string>, title: string, task: string)
    requires LiveIsAwaited(w)
    ensures LiveIsAwaited(Request(w, from, tool, title, task).0)
  {
  }

  lemma NoticeAwaited(w: World, n: Notice)
    requires LiveIsAwaited(w)
    ensures LiveIsAwaited(ShowIdle(w, n))
  {
  }

  predicate AllIssued(w: World, ops: seq<Op>)
    decreases |ops|
  {
    ops == [] || (Issued(w, ops[0]) && AllIssued(Apply(w, ops[0]), ops[1..]))
  }

  lemma {:induction false} AwaitedAlways(w: World, ops: seq<Op>)
    requires LiveIsAwaited(w) && AllIssued(w, ops)
    ensures LiveIsAwaited(Run(w, ops))
    decreases |ops|
  {
    if ops != [] {
      OperationAwaited(w, ops[0]);
      hide LiveIsAwaited, Apply;
      AwaitedAlways(Apply(w, ops[0]), ops[1..]);
    }
  }

  /** Over every run of complete operations, on any link, the device never holds a prompt nobody awaits: the
      abandoned prompts of interleaved runs need a handler that gives up in the middle of a promotion. */
  lemma NoDeadPrompt(fails: set<nat>, ops: seq<Op>)
    requires AllIssued(Initial(fails), ops)
    ensures var w := Run(Initial(fails), ops); w.slot.PromptUp? ==> w.slot.prompt.id !in w.closed
  {
    AwaitedAlways(Initial(fails), ops);
  }
}

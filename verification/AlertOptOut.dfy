// An opt-out is meant to last until Auto-approve is switched off. It can outlive
// that: a handler that wakes after the switch records its denial without looking
// at the flag (hooks.rs). The approval next to it does look, though under a lock it
// has released when it marks; `EnrollmentFlag` follows that.

module AlertOptOut {
  import opened Prelude
  import opened AlertTypes
  import opened AlertWorld
  import opened AlertRuns

  /** Someone opted out only while Auto-approve is on. */
  predicate OptOutMeansYolo(w: World) {
    w.sets.optOut != {} ==> w.sets.yolo
  }

  /** The handler of a denied enrollment prompt resumes after Auto-approve went off. */
  predicate LateDenial(w: World, op: Op) {
    && op.OpWake? && op.enrollment && op.wid.Some? && !w.sets.yolo
    && op.id in w.answers && w.answers[op.id] == Deny
  }

  /** Every operation keeps opt-outs within Auto-approve, except exactly a late denial. */
  lemma OptOutOutlivesExactlyByLateDenial(w: World, op: Op)
    requires OptOutMeansYolo(w) && OptInMeansYolo(w)
    ensures OptOutMeansYolo(Apply(w, op)) <==> !LateDenial(w, op)
  {
    match op {
      case OpReconnect(left) => TabsCleared(w.device.(online := true, store := left), DEVICE_ALERT_TABS);
      case OpNotice(n) => NoticeKeepsSets(w, n);
      case OpKey(key) => KeyKeepsOptOut(w, key);
      case OpRetab(tabs) => RetabKeepsSets(w, tabs);
      case OpUnregister(wid) =>
        var others := (x: Wrapper) => x.id != wid;
        RetabKeepsSets(DropEnrollment(w, wid), Filter(w.tabs, others));
      case _ => hide ClearTabs, ShowIdle, Consume, Promote, Retab;
    }
  }

  lemma NoticeKeepsSets(w: World, n: Notice)
    ensures ShowIdle(w, n).sets == w.sets
  {
  }

  lemma KeyKeepsOptOut(w: World, key: Key)
    requires OptOutMeansYolo(w)
    ensures OptOutMeansYolo(Consume(w, key).0)
  {
    hide Promote;
  }

  lemma RetabKeepsSets(w: World, tabs: seq<Wrapper>)
    ensures Retab(w, tabs).sets == w.sets
  {
    hide Promote;
  }

  lemma {:induction false} RunConcat(w: World, a: seq<Op>, b: seq<Op>)
    ensures Run(w, a + b) == Run(Run(w, a), b)
    decreases |a|
  {
    if a == [] {
      assert a + b == b;
    } else {
      assert (a + b)[1..] == a[1..] + b;
      hide Apply;
      RunConcat(Apply(w, a[0]), a[1..], b);
    }
  }

  function TwoTabs(): seq<Wrapper> {
    [Wrapper("a", Some("s"), false, true), Wrapper("b", Some("t"), false, true)]
  }

  lemma SecondTab()
    ensures TabOf(TwoTabs(), "t") == Some(1) && WrapperOf(TwoTabs(), "t") == Some("b")
  {
    assert TabOf(TwoTabs()[1..], "t") == Some(0);
  }

  /** Auto-approve is on with nobody enrolled, and nothing has happened yet. */
  predicate Fresh(w: World) {
    && w.sets == Enrollment(true, true, {}, {}) && w.tabs == TwoTabs() && w.slot == Nothing && w.pending == []
      && w.idle == []
    && w.active == None && w.nextId == 0 && w.closed == {} && w.answers == map[] && w.device.online
      && w.device.fails == {}
  }

  /** Some run leads from `w` to `r`. */
  ghost predicate Leads(w: World, r: World) {
    exists ops: seq<Op> :: Run(w, ops) == r
  }

  lemma LeadsOn(w: World, r: World, op: Op)
    requires Leads(w, r)
    ensures Leads(w, Apply(r, op))
  {
    var ops: seq<Op> :| Run(w, ops) == r;
    RunConcat(w, ops, [op]);
    assert Run(Apply(r, op), [op][1..]) == Apply(r, op);
    hide Apply;
  }

  lemma ReconnectKeepsRest(w: World)
    ensures var r := Reconnect(w, map[]);
            r.device.online && r == w.(device := r.device) && r.device.fails == w.device.fails
  {
    TabsCleared(w.device.(online := true, store := map[]), DEVICE_ALERT_TABS);
    hide ClearTabs;
  }

  lemma RetabEmpty(w: World, tabs: seq<Wrapper>)
    requires w.slot == Nothing && w.pending == [] && w.idle == []
    ensures Retab(w, tabs) == w.(tabs := tabs)
  {
    assert OnTabs(w.pending, Sessions(tabs)) == [];
  }

  lemma SetUp(tabs: seq<Wrapper>)
    requires tabs == TwoTabs()
    ensures Fresh(Report(Reconnect(Retab(Initial({}), tabs), map[]), true))
  {
    RetabEmpty(Initial({}), tabs);
    ReconnectKeepsRest(Initial({}).(tabs := tabs));
    hide TabOf, Reconnect, Retab;
  }

  lemma StartsFresh(tabs: seq<Wrapper>) returns (w: World)
    requires tabs == TwoTabs()
    ensures Leads(Initial({}), w) && Fresh(w)
  {
    SetUp(tabs);
    var w0 := Initial({});
    hide Fresh, Initial;
    w := ThreeSteps(w0, tabs, map[], true);
  }

  lemma SetUpApplies(w: World, tabs: seq<Wrapper>, left: map<nat, Body>, yolo: bool)
    ensures Apply(w, OpRetab(tabs)) == Retab(w, tabs) && Apply(w, OpReconnect(left)) == Reconnect(w, left)
    ensures Apply(w, OpReport(yolo)) == Report(w, yolo)
  {
    hide Retab, Reconnect, Report;
  }

  lemma ThreeSteps(w0: World, tabs: seq<Wrapper>, left: map<nat, Body>, yolo: bool) returns (w: World)
    ensures Leads(w0, w) && w == Report(Reconnect(Retab(w0, tabs), left), yolo)
  {
    assert Run(w0, []) == w0;
    assert Leads(w0, w0);
    hide Run, Retab, Reconnect, Report, Leads, Apply;
    SetUpApplies(w0, tabs, left, yolo);
    SetUpApplies(Retab(w0, tabs), tabs, left, yolo);
    SetUpApplies(Reconnect(Retab(w0, tabs), left), tabs, left, yolo);
    LeadsOn(w0, w0, OpRetab(tabs));
    LeadsOn(w0, Retab(w0, tabs), OpReconnect(left));
    LeadsOn(w0, Reconnect(Retab(w0, tabs), left), OpReport(yolo));
    w := Report(Reconnect(Retab(w0, tabs), left), yolo);
  }

  lemma Denied(w: World)
    requires Fresh(w)
    ensures var r := Apply(Apply(w, OpRequest(Some("t"), Some("Bash"), "", "")), OpKey(DenyKey));
            r.slot == Nothing && r.pending == [] && r.answers == map[0 := Deny]
              && r.sets == Enrollment(true, true, {}, {"b"})
            && r.tabs == w.tabs && r.active == None && r.device.online
  {
    SecondTab();
    hide TabOf, TwoTabs;
    var w1 := Apply(w, OpRequest(Some("t"), Some("Bash"), "", ""));
    assert w1 == GoLive(w, Prompt(0, "t", Some("Bash"), true, Body("", "Auto-approve this tab?", Some(""))))
      .(nextId := 1);
  }

  lemma Late(w: World)
    requires w.slot == Nothing && w.answers == map[0 := Deny] && w.sets == Enrollment(true, true, {}, {"b"})
    ensures var r := Apply(Apply(w, OpReport(false)), OpWake(0, true, Some("b")));
            r.sets == Enrollment(false, true, {}, {"b"}) && r.tabs == w.tabs && r.active == w.active
              && r.device.online == w.device.online
  {
  }

  /** `t` would be refused a prompt once Auto-approve is on again, though it was never asked since. */
  predicate RefusedUnasked(w: World) {
    !w.sets.yolo && w.sets.optOut == {"b"} && Request(Report(w, true), Some("t"), Some("Bash"), "", "").1 == PassReply
  }

  lemma LeftOptedOut(w: World, tabs: seq<Wrapper>)
    requires w.sets == Enrollment(false, true, {}, {"b"}) && tabs == TwoTabs() && w.tabs == tabs && w.active == None
        && w.device.online
    ensures RefusedUnasked(w)
  {
    SecondTab();
    hide TabOf;
    assert Report(w, true).sets == Enrollment(true, true, {"a"}, {"b"});
    hide Install;
  }

  /** A tab declines an enrollment prompt, and Auto-approve is switched off before the declining handler
      runs: the tab stays opted out. When Auto-approve is switched on again the tab is never asked. */
  lemma DenialOutlivesSwitch()
    ensures exists w :: Leads(Initial({}), w) && RefusedUnasked(w)
  {
    var tabs := TwoTabs();
    var w0 := Initial({});
    var w := StartsFresh(tabs);
    Denied(w);
    hide Fresh, RefusedUnasked, Leads, Initial, Apply;
    var asked := Apply(w, OpRequest(Some("t"), Some("Bash"), "", ""));
    LeadsOn(w0, w, OpRequest(Some("t"), Some("Bash"), "", ""));
    LeadsOn(w0, asked, OpKey(DenyKey));
    var denied := Apply(asked, OpKey(DenyKey));
    Late(denied);
    LeadsOn(w0, denied, OpReport(false));
    var off := Apply(denied, OpReport(false));
    LeadsOn(w0, off, OpWake(0, true, Some("b")));
    FreshTabs(w);
    LeftOptedOut(Apply(off, OpWake(0, true, Some("b"))), tabs);
  }

  lemma FreshTabs(w: World)
    requires Fresh(w)
    ensures w.tabs == TwoTabs() && w.active == None && w.device.online
  {
  }
}

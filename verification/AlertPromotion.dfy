// What one promotion does, in closed form: the longest skippable prefix of the
// queue is settled, the next prompt goes live, the rest stay in order
// (alerts.rs, `try_install_next_pending` and `promote_queued_idle`).

module AlertPromotion {
  import opened Prelude
  import opened AlertTypes
  import opened AlertWorld
  import opened AlertRuns

  function Count(tried: seq<bool>): nat {
    if tried == [] then 0 else (if tried[0] then 1 else 0) + Count(tried[1..])
  }

  /** Entry `j` reaches the device: it is tried, and the write after those of the entries tried before it succeeds. */
  predicate Lands(d: Device, tried: seq<bool>, j: nat)
    requires j < |tried|
  {
    tried[j] && d.online && d.writes + Count(tried[..j]) !in d.fails
  }

  /** The first entry that reaches the device; the number of entries if none does. */
  function FirstLanding(d: Device, tried: seq<bool>): (k: nat)
    ensures k <= |tried| && (k < |tried| ==> Lands(d, tried, k))
    ensures forall j :: 0 <= j < k ==> !Lands(d, tried, j)
    decreases |tried|
  {
    if tried == [] then 0
    else if tried[0] && WriteOk(d) then 0
    else
      var after := if tried[0] && d.online then d.(writes := d.writes + 1) else d;
      var k := FirstLanding(after, tried[1..]);
      assert forall j :: 0 < j <= |tried| ==> tried[..j][1..] == tried[1..][..j - 1];
      assert forall j :: 0 < j < |tried| && d.online ==> Lands(d, tried, j) == Lands(after, tried[1..], j - 1);
      k + 1
  }

  /** The queued prompts promotion must ask about. */
  function Asked(w: World): (r: seq<bool>)
    ensures |r| == |w.pending| && forall j :: 0 <= j < |r| ==> r[j] == (Judge(w, w.pending[j]) == Ask)
  {
    seq(|w.pending|, j requires 0 <= j < |w.pending| => Judge(w, w.pending[j]) == Ask)
  }

  /** The queued notices promotion tries to show. */
  function Tried(w: World): (r: seq<bool>)
    ensures |r| == |w.idle| && forall j :: 0 <= j < |r| ==> r[j] == Showable(w, w.idle[j])
  {
    seq(|w.idle|, j requires 0 <= j < |w.idle| => Showable(w, w.idle[j]))
  }

  predicate Showable(w: World, n: Notice) {
    TabOf(w.tabs, n.session).Some? && !Suppressed(w, n)
  }

  /** The ids of the prompts `ps` that promotion answers itself. */
  function Granted(w: World, ps: seq<Prompt>): set<nat> {
    set p | p in ps && Judge(w, p) == EnrolledIn :: p.id
  }

  /** `after` is `before` with Allow for `ids`. */
  predicate AlsoAllows(before: map<nat, Outcome>, after: map<nat, Outcome>, ids: set<nat>) {
    && after.Keys == before.Keys + ids
    && forall id :: id in after ==> after[id] == if id in ids then Allow else before[id]
  }

  /** What promotion puts on record for the prompts of `ps` that it answers itself. */
  function Records(w: World, ps: seq<Prompt>): seq<AutoAllow> {
    if ps == [] then []
    else
      var first := if Judge(w, ps[0]) == EnrolledIn then [AutoAllow(ps[0].tool, w.sets.yolo, true)] else [];
      first + Records(w, ps[1..])
  }

  /** The device after `n` sends failed. */
  function Spent(d: Device, n: nat): Device {
    if d.online then d.(writes := d.writes + n) else d
  }

  /** `r` is `w` after idle promotion lost its first `k` notices and showed the next one, if there is one. */
  predicate NoticeShown(w: World, r: World, k: nat)
    requires k <= |w.idle|
  {
    var d := Spent(w.device, Count(Tried(w)[..k]));
    if k == |w.idle| then r == w.(idle := [], device := d)
    else
      var n, tab := w.idle[k], TabOf(w.tabs, w.idle[k].session).GetOr(0);
      r == w.(slot := IdleUp(w.nextId, n.session, tab, n.body), idle := w.idle[k + 1..], nextId := w.nextId + 1,
              device := SendTo(d, tab, n.body))
  }

  /** `r` is `w` after promotion took its first `k` prompts off the queue and showed the next one; if there is none,
      the first notice that reaches the device. */
  predicate NextShown(w: World, r: World, k: nat)
    requires k <= |w.pending|
  {
    var d := Spent(w.device, Count(Asked(w)[..k]));
    if k == |w.pending| then
      var drained := w.(pending := [], device := d);
      NoticeShown(drained, r, FirstLanding(d, Tried(drained)))
    else
      var p, tab := w.pending[k], TabOf(w.tabs, w.pending[k].session).GetOr(0);
      r == w.(slot := PromptUp(p, tab), pending := w.pending[k + 1..], shown := w.shown + [p.id],
              device := SendTo(d, tab, p.body))
  }

  /** `r` is `w` after promotion settled its first `k` prompts, those of opted-in wrappers with an Allow that goes on
      record, and showed what comes next. */
  predicate PrefixSettled(w: World, r: World, k: nat)
    requires k <= |w.pending|
  {
    && AlsoAllows(w.answers, r.answers, Granted(w, w.pending[..k]))
    && r.auto == w.auto + Records(w, w.pending[..k])
    && NextShown(w, r.(answers := w.answers, auto := w.auto), k)
  }

  /** The oldest notice is lost without being shown. */
  function Lose(w: World): World
    requires w.idle != []
  {
    var popped := w.(idle := w.idle[1..]);
    if Showable(w, w.idle[0]) then SendFailed(popped) else popped
  }

  lemma LoseStep(w: World)
    requires w.slot == Nothing && w.idle != [] && (Showable(w, w.idle[0]) ==> !WriteOk(w.device))
    ensures PromoteIdle(w) == PromoteIdle(Lose(w)) && Lose(w).slot == Nothing
  {
  }

  lemma LostPrefix(w: World)
    requires w.idle != [] && (Showable(w, w.idle[0]) ==> !WriteOk(w.device))
    ensures FirstLanding(w.device, Tried(w)) == FirstLanding(Lose(w).device, Tried(Lose(w))) + 1
  {
    LoseShifts(w);
    hide Showable, Lose, Tried;
  }

  lemma LoseShifts(w: World)
    requires w.idle != [] && (Showable(w, w.idle[0]) ==> !WriteOk(w.device))
    ensures Tried(Lose(w)) == Tried(w)[1..] && |Tried(w)| > 0
    ensures Lose(w).device == if Tried(w)[0] && w.device.online then w.device.(writes := w.device.writes + 1)
        else w.device
  {
    var lost := Lose(w);
    forall n ensures Showable(lost, n) == Showable(w, n) { hide TabOf; }
    hide Showable;
  }

  lemma SpentOneMore(d: Device, tried: seq<bool>, k: nat)
    requires k < |tried|
    ensures Spent(Spent(d, if tried[0] then 1 else 0), Count(tried[1..][..k])) == Spent(d, Count(tried[..k + 1]))
  {
    assert tried[..k + 1][0] == tried[0] && tried[..k + 1][1..] == tried[1..][..k];
  }

  lemma LostOneMore(w: World, r: World, k: nat)
    requires w.idle != [] && k < |w.idle| && (Showable(w, w.idle[0]) ==> !WriteOk(w.device))
    requires NoticeShown(Lose(w), r, k)
    ensures NoticeShown(w, r, k + 1)
  {
    LoseShifts(w);
    SpentOneMore(w.device, Tried(w), k);
    hide Tried, Count;
  }

  /** With the slot free, the first notice whose session has a tab, that is not suppressed and that reaches
      the device is shown; those before it are gone, and the rest stay queued in order. */
  lemma {:induction false} IdlePromotionShowsFirst(w: World)
    requires w.slot == Nothing
    ensures NoticeShown(w, PromoteIdle(w), FirstLanding(w.device, Tried(w)))
    decreases |w.idle|
  {
    if w.idle == [] {
    } else if Showable(w, w.idle[0]) && WriteOk(w.device) {
    } else {
      hide Showable, Tried, FirstLanding;
      LoseStep(w);
      LostPrefix(w);
      hide PromoteIdle, NoticeShown;
      IdlePromotionShowsFirst(Lose(w));
      LostOneMore(w, PromoteIdle(w), FirstLanding(Lose(w).device, Tried(Lose(w))));
    }
  }

  /** The head of the queue is settled without being shown. */
  function Skip(w: World): World
    requires w.pending != []
  {
    var popped := w.(pending := w.pending[1..]);
    match Judge(w, w.pending[0])
    case EnrolledIn => AutoAnswer(popped, w.pending[0])
    case Ask => SendFailed(popped)
    case _ => popped
  }

  lemma SkipStep(w: World)
    requires w.slot == Nothing && w.pending != [] && (Judge(w, w.pending[0]) == Ask ==> !WriteOk(w.device))
    ensures Promote(w) == Promote(Skip(w)) && Skip(w).slot == Nothing
  {
  }

  lemma SkippedPrefix(w: World)
    requires w.pending != [] && (Judge(w, w.pending[0]) == Ask ==> !WriteOk(w.device))
    ensures FirstLanding(w.device, Asked(w)) == FirstLanding(Skip(w).device, Asked(Skip(w))) + 1
  {
    var tried := Asked(w);
    assert forall p :: Judge(Skip(w), p) == Judge(w, p);
    assert Asked(Skip(w)) == tried[1..];
    assert Skip(w).device == if tried[0] && w.device.online then w.device.(writes := w.device.writes + 1) else w.device;
  }

  lemma AllowsCompose(a: map<nat, Outcome>, b: map<nat, Outcome>, c: map<nat, Outcome>, first: set<nat>, rest: set<nat>)
    requires AlsoAllows(a, b, first) && AlsoAllows(b, c, rest)
    ensures AlsoAllows(a, c, rest + first)
  {
  }

  lemma SkipAllows(w: World)
    requires w.pending != []
    ensures AlsoAllows(w.answers, Skip(w).answers, if Judge(w, w.pending[0]) == EnrolledIn then {w.pending[0].id}
        else {})
  {
  }

  lemma AllowsOneMore(w: World, r: World, k: nat)
    requires w.pending != [] && k < |w.pending|
    requires AlsoAllows(Skip(w).answers, r.answers, Granted(Skip(w), Skip(w).pending[..k]))
    ensures AlsoAllows(w.answers, r.answers, Granted(w, w.pending[..k + 1]))
  {
    var p, next := w.pending[0], Skip(w);
    var first := if Judge(w, p) == EnrolledIn then {p.id} else {};
    assert w.pending[..k + 1] == [p] + next.pending[..k];
    GrantedSplits(w, next, p, next.pending[..k]);
    SkipAllows(w);
    hide AlsoAllows, Granted, Skip;
    AllowsCompose(w.answers, next.answers, r.answers, first, Granted(next, next.pending[..k]));
  }

  lemma {:induction false} RecordsEqually(w: World, next: World, ps: seq<Prompt>)
    requires SameSetting(w, next)
    ensures Records(w, ps) == Records(next, ps)
  {
    if ps != [] {
      assert Judge(w, ps[0]) == Judge(next, ps[0]);
      hide Judge;
      RecordsEqually(w, next, ps[1..]);
    }
  }

  lemma SkipRecords(w: World)
    requires w.pending != []
    ensures Skip(w).auto == w.auto + Records(w, [w.pending[0]]) && Skip(w).pending == w.pending[1..]
  {
  }

  lemma RecordsOfFirst(w: World, p: Prompt, ps: seq<Prompt>)
    ensures Records(w, [p] + ps) == Records(w, [p]) + Records(w, ps)
  {
    assert ([p] + ps)[1..] == ps && [p][1..] == [];
    hide Judge;
  }

  lemma RecordsOneMore(w: World, r: World, k: nat)
    requires w.pending != [] && k < |w.pending|
    requires r.auto == Skip(w).auto + Records(Skip(w), Skip(w).pending[..k])
    ensures r.auto == w.auto + Records(w, w.pending[..k + 1])
  {
    var p, ps := w.pending[0], w.pending[1..][..k];
    SkipRecords(w);
    RecordsEqually(w, Skip(w), ps);
    hide Skip, Judge, Records;
    RecordsOfFirst(w, p, ps);
    assert w.pending[..k + 1] == [p] + ps;
  }

  lemma SkipShifts(w: World)
    requires w.pending != []
    ensures Asked(Skip(w)) == Asked(w)[1..] && |Asked(w)| > 0
    ensures Skip(w) == w.(pending := w.pending[1..], answers := Skip(w).answers, auto := Skip(w).auto,
                          device := Spent(w.device, if Asked(w)[0] then 1 else 0))
  {
    assert forall p :: Judge(Skip(w), p) == Judge(w, p);
    hide Judge;
  }

  /** Answers and records do not matter to what is shown. */
  lemma NoticeShownEqually(w: World, v: World, r: World, k: nat)
    requires v == w.(answers := v.answers, auto := v.auto) && k <= |w.idle| && NoticeShown(v, r, k)
    ensures Tried(v) == Tried(w) && NoticeShown(w, r.(answers := w.answers, auto := w.auto), k)
  {
    forall n ensures Showable(v, n) == Showable(w, n) { hide TabOf; }
    assert Tried(v) == Tried(w);
    hide Showable, Tried, Count;
  }

  lemma ShownOneMore(w: World, r: World, k: nat)
    requires w.pending != [] && k < |w.pending|
    requires var next := Skip(w); NextShown(next, r.(answers := next.answers, auto := next.auto), k)
    ensures NextShown(w, r.(answers := w.answers, auto := w.auto), k + 1)
  {
    var next, d := Skip(w), Spent(w.device, Count(Asked(w)[..k + 1]));
    SkipShifts(w);
    SpentOneMore(w.device, Asked(w), k);
    hide Skip, Asked, Count, NoticeShown, FirstLanding, Spent;
    if k + 1 == |w.pending| {
      var drained, v := w.(pending := [], device := d), next.(pending := [], device := d);
      NoticeShownEqually(drained, v, r.(answers := next.answers, auto := next.auto), FirstLanding(d, Tried(v)));
    }
  }

  lemma SettledOneMore(w: World, r: World, k: nat)
    requires w.pending != [] && k < |w.pending| && PrefixSettled(Skip(w), r, k)
    ensures PrefixSettled(w, r, k + 1)
  {
    hide AlsoAllows, Granted, Records, NextShown, Skip;
    AllowsOneMore(w, r, k);
    RecordsOneMore(w, r, k);
    ShownOneMore(w, r, k);
  }

  lemma HeadShown(w: World)
    requires w.slot == Nothing && w.pending != [] && Judge(w, w.pending[0]) == Ask && WriteOk(w.device)
    ensures FirstLanding(w.device, Asked(w)) == 0 && PrefixSettled(w, Promote(w), 0)
  {
    assert w.pending[..0] == [];
    assert Granted(w, []) == {};
  }

  lemma NothingQueued(w: World)
    requires w.slot == Nothing && w.pending == []
    ensures FirstLanding(w.device, Asked(w)) == 0 && PrefixSettled(w, Promote(w), 0)
  {
    IdlePromotionShowsFirst(w);
    assert w.(pending := [], device := Spent(w.device, 0)) == w;
    assert Promote(w).(answers := w.answers, auto := w.auto) == PromoteIdle(w);
    hide PromoteIdle, NoticeShown, Tried;
    assert Granted(w, []) == {};
  }

  /** With the slot free, promotion settles the prompts before the first one that reaches the device:
      those of an opted-in wrapper are allowed, all others dropped. That one goes live with its id, and
      the rest stay queued in order. Only when none is left are the notices looked at: then the first one that
      reaches the device, after the writes that failed for prompts, is shown. */
  lemma {:induction false} PromotionSettlesPrefix(w: World)
    requires w.slot == Nothing
    ensures PrefixSettled(w, Promote(w), FirstLanding(w.device, Asked(w)))
    decreases |w.pending|
  {
    if w.pending == [] {
      NothingQueued(w);
    } else if Judge(w, w.pending[0]) == Ask && WriteOk(w.device) {
      HeadShown(w);
    } else {
      hide PrefixSettled, Asked, Judge, FirstLanding;
      SkipStep(w);
      SkippedPrefix(w);
      hide Promote;
      PromotionSettlesPrefix(Skip(w));
      SettledOneMore(w, Promote(w), FirstLanding(Skip(w).device, Asked(Skip(w))));
    }
  }

  lemma GrantedSplits(w: World, next: World, p: Prompt, ps: seq<Prompt>)
    requires SameSetting(w, next)
    ensures Granted(w, [p] + ps) == Granted(next, ps) + (if Judge(w, p) == EnrolledIn then {p.id} else {})
  {
    assert forall q :: q in [p] + ps <==> q == p || q in ps;
    assert forall q :: Judge(w, q) == Judge(next, q);
    var whole, rest := Granted(w, [p] + ps), Granted(next, ps);
    forall id | id in whole ensures id in rest || (Judge(w, p) == EnrolledIn && id == p.id) {
      var q :| q in [p] + ps && Judge(w, q) == EnrolledIn && q.id == id;
    }
    forall id | id in rest ensures id in whole {
      var q :| q in ps && Judge(next, q) == EnrolledIn && q.id == id;
      assert q in [p] + ps;
    }
  }

  /** With the slot free and no queued prompt reaching the device, the notices are looked at, after the writes that
      failed for prompts: the first one worth showing that reaches the device is on screen at its tab, the later ones
      stay queued in order, and all are gone only if none reaches it. */
  lemma NoticesTakeOver(w: World)
    requires w.slot == Nothing && FirstLanding(w.device, Asked(w)) == |w.pending|
    ensures var r := Promote(w);
            var drained := w.(pending := [], device := Spent(w.device, Count(Asked(w))));
            var k := FirstLanding(drained.device, Tried(drained));
            && r.pending == [] && NoticeShown(drained, r.(answers := w.answers, auto := w.auto), k)
            && (r.slot == Nothing <==> forall j :: 0 <= j < |w.idle| ==> !Lands(drained.device, Tried(drained), j))
  {
    PromotionSettlesPrefix(w);
    assert Asked(w)[..|w.pending|] == Asked(w);
    hide Promote, Asked, Tried, Count, AlsoAllows, Granted, Records;
  }

  /** Only the user can decide about `p`: it is awaited, and its wrapper is in neither set, or there is none, or the
      prompt is a question to the user. */
  predicate Undecided(w: World, p: Prompt) {
    && p.id !in w.closed
    && (NeedsUser(p) || TabOf(w.tabs, p.session).None?
        || var wid := w.tabs[TabOf(w.tabs, p.session).value].id; wid !in w.sets.optIn && wid !in w.sets.optOut)
  }

  /** `p` is awaited and no question, and its wrapper opted in. */
  predicate OptedIn(w: World, p: Prompt) {
    && p.id !in w.closed && !NeedsUser(p) && TabOf(w.tabs, p.session).Some?
    && w.tabs[TabOf(w.tabs, p.session).value].id in w.sets.optIn
  }

  lemma JudgedByEnrollment(w: World, p: Prompt)
    ensures Judge(w, p) == Ask <==> Undecided(w, p)
    ensures Judge(w, p) == EnrolledIn <==> OptedIn(w, p)
  {
  }

  lemma FirstAsked(d: Device, tried: seq<bool>, k: nat)
    requires d.online && d.fails == {} && k <= |tried| && forall j :: 0 <= j < k ==> !tried[j]
    requires k < |tried| ==> tried[k]
    ensures FirstLanding(d, tried) == k
  {
    assert forall j :: 0 <= j < k ==> !Lands(d, tried, j);
    assert k < |tried| ==> Lands(d, tried, k);
  }

  /** On a device that takes every write, the first queued prompt only the user can decide is the next one asked, and
      it is never passed over. Of those before it, exactly the prompts of opted-in wrappers are allowed. */
  lemma UndecidedIsAsked(w: World, k: nat)
    requires w.slot == Nothing && w.device.online && w.device.fails == {} && k <= |w.pending|
    requires forall j :: 0 <= j < k ==> !Undecided(w, w.pending[j])
    requires k < |w.pending| ==> Undecided(w, w.pending[k])
    ensures var r := Promote(w);
            && (k < |w.pending| ==>
                  r.slot == PromptUp(w.pending[k], TabOf(w.tabs, w.pending[k].session).GetOr(0))
                  && r.pending == w.pending[k + 1..])
            && forall id :: id in r.answers && (id in w.answers ==> r.answers[id] != w.answers[id]) ==>
                 r.answers[id] == Allow && exists j :: 0 <= j < k && w.pending[j].id == id && OptedIn(w, w.pending[j])
    ensures forall j :: 0 <= j < k && OptedIn(w, w.pending[j]) ==>
              w.pending[j].id in Promote(w).answers && Promote(w).answers[w.pending[j].id] == Allow
  {
    forall p ensures Judge(w, p) == Ask <==> Undecided(w, p) { JudgedByEnrollment(w, p); }
    forall p ensures Judge(w, p) == EnrolledIn <==> OptedIn(w, p) { JudgedByEnrollment(w, p); }
    hide Judge, OptedIn, Undecided;
    FirstAsked(w.device, Asked(w), k);
    PromotionSettlesPrefix(w);
    hide Promote, Asked, FirstLanding;
    assert forall j :: 0 <= j < k ==> w.pending[..k][j] == w.pending[j];
    forall id | id in Granted(w, w.pending[..k])
      ensures exists j :: 0 <= j < k && w.pending[j].id == id && OptedIn(w, w.pending[j])
    {
      var p :| p in w.pending[..k] && Judge(w, p) == EnrolledIn && p.id == id;
    }
    hide NoticeShown, Count, Records;
  }

  /** What promotion leaves queued, and the prompt it shows, if it shows one. */
  lemma ShownNext(w: World, r: World, k: nat)
    requires k <= |w.pending| && PrefixSettled(w, r, k) && w.slot == Nothing
    ensures r.pending == w.pending[if k < |w.pending| then k + 1 else k..]
    ensures k < |w.pending| ==>
              r.slot.PromptUp? && r.slot.prompt == w.pending[k] && r.shown == w.shown + [w.pending[k].id]
    ensures k == |w.pending| ==> !r.slot.PromptUp? && r.shown == w.shown
  {
    hide AlsoAllows, Granted, Records, FirstLanding, Asked, Tried, Count;
  }

  /** A queued notice is shown only when no prompt is queued. */
  lemma NoticesComeLast(w: World)
    requires w.slot == Nothing && Promote(w).slot.IdleUp?
    ensures Promote(w).pending == [] && forall j :: 0 <= j < |w.pending| ==> !Lands(w.device, Asked(w), j)
  {
    PromotionSettlesPrefix(w);
  }

  /** `q` is asked by the same wrapper, still awaited, and not a question to the user. */
  predicate Sibling(w: World, wid: WrapperId, q: Prompt) {
    WrapperOf(w.tabs, q.session) == Some(wid) && !NeedsUser(q) && q.id !in w.closed
  }

  lemma NoLandingBefore(d: Device, tried: seq<bool>, k: nat)
    requires k <= |tried| && forall j :: 0 <= j < k ==> !tried[j]
    ensures FirstLanding(d, tried) >= k
  {
    assert forall j :: 0 <= j < k ==> !Lands(d, tried, j);
  }

  /** Draining never reads the Auto-approve flag: prompts of an opted-in wrapper at the head of the queue are
      allowed, however many, with Auto-approve on or off. */
  lemma DrainIgnoresFlag(w: World, wid: WrapperId, n: nat)
    requires w.slot == Nothing && wid in w.sets.optIn
    requires n <= |w.pending| && forall j :: 0 <= j < n ==> Sibling(w, wid, w.pending[j])
    ensures var r := Promote(w);
            forall j :: 0 <= j < n ==> w.pending[j].id in r.answers && r.answers[w.pending[j].id] == Allow
  {
    PromotionSettlesPrefix(w);
    NoLandingBefore(w.device, Asked(w), n);
    var k := FirstLanding(w.device, Asked(w));
    forall j | 0 <= j < n ensures w.pending[j].id in Granted(w, w.pending[..k]) {
      assert w.pending[..k][j] == w.pending[j] && Judge(w, w.pending[j]) == EnrolledIn;
    }
    hide Promote, Asked, FirstLanding, Judge;
  }

  /** The world right after the live prompt was decided, before the queue is drained. */
  function Decided(w: World, o: Outcome): World
    requires w.slot.PromptUp?
  {
    var p := w.slot.prompt;
    ClearAlert(Answer(Enroll(w.(slot := Nothing), p, o), p, o), w.slot.tab)
  }

  lemma DecisionMarksWrapper(w: World, wid: WrapperId, o: Outcome)
    requires w.slot.PromptUp? && w.slot.prompt.enrollment && w.sets.yolo
        && WrapperOf(w.tabs, w.slot.prompt.session) == Some(wid)
    ensures var d := Decided(w, o); d.slot == Nothing && d.pending == w.pending && d.shown == w.shown
    ensures forall q :: Sibling(w, wid, q) ==> Judge(Decided(w, o), q) == if o == Allow then EnrolledIn else DeclinedOut
    ensures forall id :: id != w.slot.prompt.id ==> (id in Decided(w, o).answers <==> id in w.answers)
  {
  }

  /** One decision on an enrollment prompt settles the sibling prompts queued right behind it, however
      many there are: Allow allows every one of them, any other decision hands each back to its terminal,
      and none of them is asked on the device. */
  lemma OneDecisionSettlesSiblings(w: World, wid: WrapperId, key: Key, n: nat)
    requires Inv(w) && w.slot.PromptUp? && w.slot.prompt.enrollment && w.sets.yolo
    requires WrapperOf(w.tabs, w.slot.prompt.session) == Some(wid)
    requires n <= |w.pending| && forall j :: 0 <= j < n ==> Sibling(w, wid, w.pending[j])
    requires key == AllowKey || key == DenyKey || key == DismissKey
    ensures Consume(w, key).1 == Consumed
    ensures forall j :: 0 <= j < n ==> Settled(w, Consume(w, key).0, w.pending[j], key)
  {
    var d, o := Decided(w, OutcomeOf(key)), OutcomeOf(key);
    DecisionMarksWrapper(w, wid, o);
    assert Consume(w, key).0 == Promote(d);
    var k := FirstLanding(d.device, Asked(d));
    NoLandingBefore(d.device, Asked(d), n);
    PromotionSettlesPrefix(d);
    hide Promote, Decided, Judge, Sibling;
    forall j | 0 <= j < n ensures Settled(w, Promote(d), w.pending[j], key) {
      SiblingSettled(w, d, j, key);
    }
  }

  /** `q` left the queue unasked: allowed by an Allow, unanswered by anything else. */
  predicate Settled(w: World, r: World, q: Prompt, key: Key) {
    && q !in r.pending && !(r.slot.PromptUp? && r.slot.prompt == q)
      && (r.shown == w.shown || (|r.shown| == |w.shown| + 1 && r.shown[|w.shown|] != q.id))
    && if key == AllowKey then q.id in r.answers && r.answers[q.id] == Allow
       else q.id in r.answers ==> q.id in w.answers
  }

  lemma SiblingSettled(w: World, d: World, j: nat, key: Key)
    requires Inv(w) && w.slot.PromptUp? && d.slot == Nothing && d.pending == w.pending && d.shown == w.shown
    requires j < |w.pending| && j < FirstLanding(d.device, Asked(d))
    requires Judge(d, w.pending[j]) == if key == AllowKey then EnrolledIn else DeclinedOut
    requires forall id :: id != w.slot.prompt.id ==> (id in d.answers <==> id in w.answers)
    requires PrefixSettled(d, Promote(d), FirstLanding(d.device, Asked(d)))
    ensures Settled(w, Promote(d), w.pending[j], key)
  {
    var q, k, r := w.pending[j], FirstLanding(d.device, Asked(d)), Promote(d);
    hide Promote, FirstLanding, Judge, Asked, NextShown, Records, Inv, Granted;
    LaterOnly(w, j);
    ShownNext(d, r, k);
    GrantedById(d, k, j);
    assert q == d.pending[j];
  }

  lemma LaterOnly(w: World, j: nat)
    requires Inv(w) && w.slot.PromptUp? && j < |w.pending|
    ensures w.pending[j].id != w.slot.prompt.id
    ensures forall i :: j < i < |w.pending| ==> w.pending[i].id != w.pending[j].id
    ensures Ordered(w.pending, EarlierId)
  {
    hide IdleBounded, OptInMeansYolo, AutoAllowsJustified;
    assert forall i :: j < i < |w.pending| ==> EarlierId(w.pending[j], w.pending[i]);
    assert w.pending[j] in w.pending;
  }

  lemma GrantedById(d: World, k: nat, j: nat)
    requires Ordered(d.pending, EarlierId) && j < k <= |d.pending|
    ensures d.pending[j].id in Granted(d, d.pending[..k]) <==> Judge(d, d.pending[j]) == EnrolledIn
  {
    hide Judge;
    assert d.pending[..k][j] == d.pending[j];
    assert forall i :: 0 <= i < k && d.pending[i].id == d.pending[j].id ==> i == j;
  }

  // ── What a cancel leaves ─────────────────────────────────────────

  /** Nothing of `w` is live or waits for a session outside `ok`. */
  ghost predicate Only(w: World, ok: Session -> bool) {
    && (w.slot != Nothing ==> ok(w.slot.Owner()))
    && (forall p :: p in w.pending ==> ok(p.session))
    && (forall n :: n in w.idle ==> ok(n.session))
  }

  lemma {:induction false} IdlePromotionOnly(w: World, ok: Session -> bool)
    requires Only(w, ok)
    ensures Only(PromoteIdle(w), ok)
    decreases |w.idle|
  {
    if w.slot == Nothing && w.idle != [] {
      var popped := w.(idle := w.idle[1..]);
      assert Only(popped, ok);
      assert ok(w.idle[0].session);
      var next := if TabOf(w.tabs, w.idle[0].session).None? then popped else ShowIdle(popped, w.idle[0]);
      assert Only(next, ok);
      hide Only, ShowIdle;
      IdlePromotionOnly(next, ok);
    }
  }

  lemma {:induction false} PromotionOnly(w: World, ok: Session -> bool)
    requires Only(w, ok)
    ensures Only(Promote(w), ok)
    decreases |w.pending|
  {
    if w.pending == [] {
      IdlePromotionOnly(w, ok);
    } else {
      assert Only(Skip(w), ok);
      assert ok(w.pending[0].session);
      if Judge(w, w.pending[0]) == Ask && (w.slot != Nothing || WriteOk(w.device)) {
        hide Judge;
      } else {
        hide Only, Judge, PromoteIdle;
        PromotionOnly(Skip(w), ok);
      }
    }
  }

  /** When a session goes on by itself, nothing of it stays on the device or in a queue, whatever promotion
      brings up next. */
  lemma ProgressLeavesNothing(w: World, session: Session)
    ensures Only(CancelForProgress(w, session), (s: Session) => s != session)
  {
    var others := (s: Session) => s != session;
    var r := Purge(if w.slot.OwnedBy(session) then Release(w) else w, session);
    r := r.(idle := NoticesWithout(r.idle, session));
    assert Only(r, others);
    PromotionOnly(r, others);
    hide Promote;
  }

  /** After the tab list changed, only alerts and prompts of sessions with a tab are left. */
  lemma TabsLeaveOnlySeated(w: World, tabs: seq<Wrapper>)
    ensures var r := Retab(w, tabs);
            && (r.slot != Nothing ==> TabOf(r.tabs, r.slot.Owner()).Some?)
            && (forall p :: p in r.pending ==> TabOf(r.tabs, p.session).Some?)
  {
    OnTabsSeated(w.pending, tabs);
    var r := w.(tabs := tabs, pending := OnTabs(w.pending, Sessions(tabs)));
    hide Sessions, OnTabs, TabOf;
    PromotionSeated(if w.slot == Nothing then r else Release(r));
    hide Promote;
  }

  lemma OnTabsSeated(queue: seq<Prompt>, tabs: seq<Wrapper>)
    ensures forall p :: p in OnTabs(queue, Sessions(tabs)) ==> TabOf(tabs, p.session).Some?
  {
    forall p | p in OnTabs(queue, Sessions(tabs)) ensures TabOf(tabs, p.session).Some? {
      SeatedSession(tabs, p.session);
    }
  }

  lemma SeatedSession(tabs: seq<Wrapper>, session: Session)
    requires Some(session) in Sessions(tabs)
    ensures TabOf(tabs, session).Some?
  {
  }

  lemma PromotionSeated(w: World)
    requires w.slot == Nothing && forall p :: p in w.pending ==> TabOf(w.tabs, p.session).Some?
    ensures var r := Promote(w);
            && (r.slot != Nothing ==> TabOf(w.tabs, r.slot.Owner()).Some?)
            && (forall p :: p in r.pending ==> p in w.pending)
  {
    PromotionSettlesPrefix(w);
    if FirstLanding(w.device, Asked(w)) == |w.pending| { AllSettledSeated(w); }
  }

  lemma {:induction false} AllSettledSeated(w: World)
    requires w.slot == Nothing && FirstLanding(w.device, Asked(w)) == |w.pending|
    ensures Promote(w).slot != Nothing ==> TabOf(w.tabs, Promote(w).slot.Owner()).Some?
    decreases |w.pending|
  {
    if w.pending == [] {
      IdlePromotionShowsFirst(w);
    } else {
      SkipStep(w);
      SkippedPrefix(w);
      hide Promote, Asked, FirstLanding;
      AllSettledSeated(Skip(w));
    }
  }
}

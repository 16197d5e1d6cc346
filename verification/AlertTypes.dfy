// What the alert engine stores: permission prompts, idle notices and the
// answers a device key can give (alerts.rs).

module AlertTypes {
  import opened Prelude

  /** What an alert renders on the device. */
  datatype Body = Body(title: string, text: string, details: Option<string>)

  /** A parked permission request; its id names the oneshot its handler awaits. */
  datatype Prompt = Prompt(id: nat, session: Session, tool: Option<string>, enrollment: bool, body: Body)

  datatype NoticeKind = Waiting | Question

  /** An idle notice that waits for the alert slot. */
  datatype Notice = Notice(session: Session, body: Body, kind: NoticeKind)

  datatype Outcome = Allow | Deny

  /** How a device input relates to alerts: `InputKind` in the source. */
  datatype Key = FocusKey | AllowKey | DenyKey | DismissKey | OtherKey

  /** What becomes of a device input: `AlertOutcome` in the source. */
  datatype KeyResult = Passthrough | Consumed | FocusSession(session: Session) | RaiseActive

  const PENDING_QUEUE_CAP: nat := 4
  const IDLE_QUEUE_CAP: nat := 16

  /** Tools that exist to wait for the user; nothing may answer them automatically. */
  predicate IsUserInputTool(tool: string) {
    tool == "ExitPlanMode" || tool == "AskUserQuestion"
  }

  predicate NeedsUser(p: Prompt) {
    p.tool.Some? && IsUserInputTool(p.tool.value)
  }

  /** On a pending prompt Allow allows; every other decision key denies. */
  function OutcomeOf(k: Key): Outcome {
    if k == AllowKey then Allow else Deny
  }

  predicate DifferentIds(a: Prompt, b: Prompt) { a.id != b.id }

  predicate EarlierId(a: Prompt, b: Prompt) { a.id < b.id }

  predicate DifferentSessions(a: Notice, b: Notice) { a.session != b.session }

  /** `drop_queued_for_session`: the prompts of every other session, in order. */
  function WithoutSession(queue: seq<Prompt>, session: Session): (r: seq<Prompt>)
    ensures forall p :: p in r <==> p in queue && p.session != session
    ensures |r| <= |queue|
    ensures Ordered(queue, DifferentIds) ==> Ordered(r, DifferentIds)
    ensures Ordered(queue, EarlierId) ==> Ordered(r, EarlierId)
  {
    var keep := (p: Prompt) => p.session != session;
    RetainKeepsOrders(queue, keep);
    Filter(queue, keep)
  }

  /** `refresh_for_tabs`: the prompts whose session some tab still shows, in order. */
  function OnTabs(queue: seq<Prompt>, tabs: seq<Option<Session>>): (r: seq<Prompt>)
    ensures forall p :: p in r <==> p in queue && Some(p.session) in tabs
    ensures |r| <= |queue|
    ensures Ordered(queue, DifferentIds) ==> Ordered(r, DifferentIds)
    ensures Ordered(queue, EarlierId) ==> Ordered(r, EarlierId)
  {
    var keep := (p: Prompt) => Some(p.session) in tabs;
    RetainKeepsOrders(queue, keep);
    Filter(queue, keep)
  }

  lemma RetainKeepsOrders(queue: seq<Prompt>, keep: Prompt -> bool)
    ensures Ordered(queue, DifferentIds) ==> Ordered(Filter(queue, keep), DifferentIds)
    ensures Ordered(queue, EarlierId) ==> Ordered(Filter(queue, keep), EarlierId)
  {
    if Ordered(queue, DifferentIds) { FilterKeepsOrder(queue, keep, DifferentIds); }
    if Ordered(queue, EarlierId) { FilterKeepsOrder(queue, keep, EarlierId); }
  }

  lemma RetainKeepsSessions(idle: seq<Notice>, keep: Notice -> bool)
    ensures Ordered(idle, DifferentSessions) ==> Ordered(Filter(idle, keep), DifferentSessions)
  {
    if Ordered(idle, DifferentSessions) { FilterKeepsOrder(idle, keep, DifferentSessions); }
  }

  /** `drop_queued_idle`: the notices of every other session, in order. */
  function NoticesWithout(idle: seq<Notice>, session: Session): (r: seq<Notice>)
    ensures forall n :: n in r <==> n in idle && n.session != session
    ensures |r| <= |idle|
    ensures Ordered(idle, DifferentSessions) ==> Ordered(r, DifferentSessions)
  {
    var keep := (n: Notice) => n.session != session;
    RetainKeepsSessions(idle, keep);
    Filter(idle, keep)
  }

  /** The first notice of `session` in the idle queue; the length of the queue if there is none. */
  function NoticeOf(idle: seq<Notice>, session: Session): (k: nat)
    ensures k <= |idle| && (k < |idle| ==> idle[k].session == session)
    ensures forall j :: 0 <= j < k ==> idle[j].session != session
  {
    if idle == [] || idle[0].session == session then 0 else 1 + NoticeOf(idle[1..], session)
  }

  /** `queue_idle`: a newer notice replaces its session's older one in place; a full queue loses its oldest. The
      notices of other sessions stay, in order, but for the oldest one when a new session meets a full queue. */
  function Enqueue(idle: seq<Notice>, n: Notice): (r: seq<Notice>)
    ensures |idle| <= IDLE_QUEUE_CAP ==> 0 < |r| <= IDLE_QUEUE_CAP
    ensures n in r
    ensures Ordered(idle, DifferentSessions) ==> Ordered(r, DifferentSessions)
    ensures var full := |idle| >= IDLE_QUEUE_CAP && forall m :: m in idle ==> m.session != n.session;
            NoticesWithout(r, n.session) == NoticesWithout(if full then idle[1..] else idle, n.session)
  {
    var k := NoticeOf(idle, n.session);
    if k < |idle| then
      var r := idle[k := n];
      assert r[k] == n;
      ReplacedStays(idle, k, n);
      r
    else
      var rest := if |idle| >= IDLE_QUEUE_CAP then idle[1..] else idle;
      AppendedStays(rest, n);
      rest + [n]
  }

  lemma WithoutConcat(a: seq<Notice>, b: seq<Notice>, session: Session)
    ensures NoticesWithout(a + b, session) == NoticesWithout(a, session) + NoticesWithout(b, session)
  {
    var keep := (m: Notice) => m.session != session;
    FilterConcat(a, b, keep);
  }

  lemma NoneOfSession(m: Notice)
    ensures NoticesWithout([m], m.session) == []
  {
  }

  lemma AppendedStays(rest: seq<Notice>, n: Notice)
    ensures NoticesWithout(rest + [n], n.session) == NoticesWithout(rest, n.session)
  {
    WithoutConcat(rest, [n], n.session);
    NoneOfSession(n);
  }

  lemma ReplacedStays(idle: seq<Notice>, k: nat, n: Notice)
    requires k < |idle| && idle[k].session == n.session
    ensures NoticesWithout(idle[k := n], n.session) == NoticesWithout(idle, n.session)
    ensures exists m :: m in idle && m.session == n.session
  {
    var a, b := idle[..k], idle[k + 1..];
    assert idle == a + [idle[k]] + b && idle[k := n] == a + [n] + b;
    hide NoticesWithout;
    WithoutConcat(a + [idle[k]], b, n.session);
    WithoutConcat(a + [n], b, n.session);
    AppendedStays(a, n);
    AppendedStays(a, idle[k]);
    assert idle[k] in idle;
  }
}

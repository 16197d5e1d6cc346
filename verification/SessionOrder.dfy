// Which session is active, and in what order the others come (state.rs,
// `ClaudeState`; wrapper.rs, `tab_index_for_session`, `cycle_active` and
// `swap_to_previous_session`; hooks.rs, `handle_session_end`).

module SessionOrder {
  import opened Prelude
  import AlertWorld

  const RECENT_SESSIONS_MAX: nat := 16

  // ── The most-recently-used list ──────────────────────────────────

  function Without(s: seq<Session>, x: Session): (r: seq<Session>)
    ensures (forall y :: y in r <==> y in s && y != x) && |r| <= |s|
  {
    if s == [] then [] else if s[0] == x then Without(s[1..], x) else [s[0]] + Without(s[1..], x)
  }

  function Take<T>(s: seq<T>, n: nat): seq<T> {
    if |s| <= n then s else s[..n]
  }

  /** `set_active_session` on the list: drop, insert in front, truncate. */
  function Promoted(recent: seq<Session>, x: Session): seq<Session> {
    Take([x] + Without(recent, x), RECENT_SESSIONS_MAX)
  }

  /** The list after a history of activations, oldest first. */
  function Recents(history: seq<Session>): seq<Session> {
    if history == [] then []
    else Promoted(Recents(history[..|history| - 1]), history[|history| - 1])
  }

  /** The distinct elements of `s`, by their first occurrence. */
  function Distinct(s: seq<Session>): seq<Session> {
    if s == [] then [] else [s[0]] + Without(Distinct(s[1..]), s[0])
  }

  function Reversed<T>(s: seq<T>): seq<T> {
    if s == [] then [] else [s[|s| - 1]] + Reversed(s[..|s| - 1])
  }

  predicate Differ(a: Session, b: Session) { a != b }

  lemma {:induction false} WithoutAbsent(s: seq<Session>, x: Session)
    requires x !in s
    ensures Without(s, x) == s
  {
    if s != [] { WithoutAbsent(s[1..], x); }
  }

  lemma {:induction false} WithoutAt(s: seq<Session>, k: nat)
    requires Ordered(s, Differ) && k < |s|
    ensures Without(s, s[k]) == s[..k] + s[k + 1..]
  {
    if k == 0 {
      assert s[0] !in s[1..];
      WithoutAbsent(s[1..], s[0]);
    } else {
      WithoutAt(s[1..], k - 1);
      assert s[0] != s[k];
      assert [s[0]] + (s[1..][..k - 1] + s[1..][k..]) == s[..k] + s[k + 1..];
    }
  }

  lemma WithoutDiffers(s: seq<Session>, x: Session)
    requires Ordered(s, Differ)
    ensures Ordered(Without(s, x), Differ)
  {
    if x in s {
      var k :| 0 <= k < |s| && s[k] == x;
      WithoutAt(s, k);
    } else {
      WithoutAbsent(s, x);
    }
  }

  lemma {:induction false} DistinctDiffer(s: seq<Session>)
    ensures Ordered(Distinct(s), Differ)
  {
    if s != [] {
      DistinctDiffer(s[1..]);
      WithoutDiffers(Distinct(s[1..]), s[0]);
      var d := Without(Distinct(s[1..]), s[0]);
      assert forall j :: 0 <= j < |d| ==> d[j] in d;
    }
  }

  /** Truncating before dropping one element loses nothing that would have stayed within a shorter list. */
  lemma TruncateFirst(s: seq<Session>, x: Session, n: nat)
    requires Ordered(s, Differ)
    ensures Take(Without(Take(s, n + 1), x), n) == Take(Without(s, x), n)
  {
    if |s| > n + 1 {
      var t := s[..n + 1];
      if x in t {
        var k :| 0 <= k < |t| && t[k] == x;
        WithoutAt(s, k);
        WithoutAt(t, k);
        RemovedWithin(s, k, n);
      } else {
        WithoutAbsent(t, x);
        TruncateBehind(s, x, n);
      }
    }
  }

  lemma RemovedWithin(s: seq<Session>, k: nat, n: nat)
    requires k <= n && n + 1 < |s|
    ensures s[..n + 1][..k] + s[..n + 1][k + 1..] == (s[..k] + s[k + 1..])[..n]
  {
  }

  lemma TruncateBehind(s: seq<Session>, x: Session, n: nat)
    requires Ordered(s, Differ) && |s| > n + 1 && x !in s[..n + 1]
    ensures Take(Without(s, x), n) == s[..n]
  {
    if x in s {
      var k :| 0 <= k < |s| && s[k] == x;
      assert forall j :: 0 <= j <= n ==> s[..n + 1][j] == s[j];
      WithoutAt(s, k);
    } else {
      WithoutAbsent(s, x);
    }
  }

  /** The recent list is the first sixteen distinct sessions of the activation history, latest first. */
  lemma {:induction false} RecentsAreLatest(history: seq<Session>)
    ensures Recents(history) == Take(Distinct(Reversed(history)), RECENT_SESSIONS_MAX)
  {
    if history != [] {
      var init, x := history[..|history| - 1], history[|history| - 1];
      RecentsAreLatest(init);
      var d := Distinct(Reversed(init));
      DistinctDiffer(Reversed(init));
      assert Reversed(history)[1..] == Reversed(init);
      TruncateFirst(d, x, RECENT_SESSIONS_MAX - 1);
      TakeCons(x, Without(Take(d, RECENT_SESSIONS_MAX), x));
      TakeCons(x, Without(d, x));
    }
  }

  lemma TakeCons(x: Session, s: seq<Session>)
    ensures Take([x] + s, RECENT_SESSIONS_MAX) == [x] + Take(s, RECENT_SESSIONS_MAX - 1)
  {
  }

  /** `previous_session` on the list. */
  function Previous(recent: seq<Session>, active: Option<Session>, live: set<Session>): (r: Option<Session>)
    ensures r.Some? ==> r.value in recent && r.value in live && active != r
    ensures r.None? ==> forall s :: s in recent && s in live ==> active == Some(s)
  {
    if recent == [] then None
    else if active != Some(recent[0]) && recent[0] in live then Some(recent[0])
    else Previous(recent[1..], active, live)
  }

  /** What every run keeps: no session twice, at most sixteen, the active one in front. */
  ghost predicate Sound(recent: seq<Session>, active: Option<Session>) {
    && Ordered(recent, Differ) && |recent| <= RECENT_SESSIONS_MAX
    && (active.Some? ==> recent != [] && recent[0] == active.value)
  }

  lemma PromotedSound(recent: seq<Session>, x: Session)
    requires Ordered(recent, Differ)
    ensures Sound(Promoted(recent, x), Some(x))
  {
    WithoutDiffers(recent, x);
    var d := Without(recent, x);
    assert forall j :: 0 <= j < |d| ==> d[j] in d;
  }

  /** A double tap that switches from `a` to `b` is undone by the next one if and only if `a` still has a
      wrapper; then the two sessions keep toggling. */
  lemma SwapToggles(recent: seq<Session>, a: Session, b: Session, live: set<Session>)
    requires Sound(recent, Some(a)) && Previous(recent, Some(a), live) == Some(b)
    ensures Previous(Promoted(recent, b), Some(b), live) == Some(a) <==> a in live
    ensures a in live ==> Previous(Promoted(Promoted(recent, b), a), Some(a), live) == Some(b)
  {
    SwapBrings(recent, a, b);
    var swapped := Promoted(recent, b);
    PromotedSound(recent, b);
    SwapBrings(swapped, b, a);
  }

  lemma SwapBrings(recent: seq<Session>, a: Session, b: Session)
    requires Sound(recent, Some(a)) && b in recent && b != a
    ensures |Promoted(recent, b)| >= 2 && Promoted(recent, b)[0] == b && Promoted(recent, b)[1] == a
    ensures forall live: set<Session> :: a in live ==> Previous(Promoted(recent, b), Some(b), live) == Some(a)
  {
    var k :| 0 <= k < |recent| && recent[k] == b;
    WithoutAt(recent, k);
    var p := Promoted(recent, b);
    assert p[1] == a;
    assert p[1..][0] == a;
  }

  // ── Tab order ────────────────────────────────────────────────────

  datatype Bound = Bound(startedAt: nat, session: Option<Session>)

  /** Lexicographic order of ids. */
  predicate Below(a: string, b: string) {
    b != [] && (a == [] || a[0] < b[0] || (a[0] == b[0] && Below(a[1..], b[1..])))
  }

  lemma {:induction false} BelowTotal(a: string, b: string)
    ensures (Below(a, b) && a != b && !Below(b, a)) || (Below(b, a) && a != b && !Below(a, b))
        || (a == b && !Below(a, b))
  {
    if a != [] && b != [] && a[0] == b[0] {
      BelowTotal(a[1..], b[1..]);
      assert a == [a[0]] + a[1..] && b == [b[0]] + b[1..];
    }
  }

  lemma {:induction false} BelowTransitive(a: string, b: string, c: string)
    requires Below(a, b) && Below(b, c)
    ensures Below(a, c)
  {
    if a != [] && a[0] == b[0] == c[0] { BelowTransitive(a[1..], b[1..], c[1..]); }
  }

  /** Oldest wrapper first, ties broken by id. */
  predicate Before(w: map<WrapperId, Bound>, a: WrapperId, b: WrapperId) {
    a in w && b in w && (w[a].startedAt < w[b].startedAt || (w[a].startedAt == w[b].startedAt && Below(a, b)))
  }

  lemma BeforeTotal(w: map<WrapperId, Bound>, a: WrapperId, b: WrapperId)
    requires a in w && b in w
    ensures a == b || Before(w, a, b) || Before(w, b, a)
    ensures !(Before(w, a, b) && Before(w, b, a)) && !Before(w, a, a)
  {
    BelowTotal(a, b);
    BelowTotal(a, a);
  }

  lemma BeforeTransitive(w: map<WrapperId, Bound>, a: WrapperId, b: WrapperId, c: WrapperId)
    requires Before(w, a, b) && Before(w, b, c)
    ensures Before(w, a, c)
  {
    if w[a].startedAt == w[b].startedAt == w[c].startedAt { BelowTransitive(a, b, c); }
  }

  /** `r` lists the wrappers `ids` in tab order. */
  ghost predicate InTabOrder(w: map<WrapperId, Bound>, ids: set<WrapperId>, r: seq<WrapperId>) {
    && (forall id :: id in r <==> id in ids)
    && (forall i, j :: 0 <= i < j < |r| ==> Before(w, r[i], r[j]))
  }

  /** The tab order is the same whatever order the registry is iterated in. */
  lemma {:induction false} TabOrderUnique(w: map<WrapperId, Bound>, ids: set<WrapperId>, r: seq<WrapperId>,
      t: seq<WrapperId>)
    requires ids <= w.Keys && InTabOrder(w, ids, r) && InTabOrder(w, ids, t)
    ensures r == t
    decreases |r|
  {
    assert r != [] ==> r[0] in r;
    assert t != [] ==> t[0] in t;
    if ids != {} {
      var some :| some in ids;
      assert some in r && some in t;
      FirstIsLeast(w, ids, r, t);
      var rest := ids - {r[0]};
      RestInOrder(w, ids, r);
      RestInOrder(w, ids, t);
      TabOrderUnique(w, rest, r[1..], t[1..]);
    }
  }

  lemma FirstIsLeast(w: map<WrapperId, Bound>, ids: set<WrapperId>, r: seq<WrapperId>, t: seq<WrapperId>)
    requires ids <= w.Keys && InTabOrder(w, ids, r) && InTabOrder(w, ids, t) && r != [] && t != []
    ensures r[0] == t[0]
  {
    assert r[0] in t && t[0] in r;
    var i :| 0 <= i < |t| && t[i] == r[0];
    var j :| 0 <= j < |r| && r[j] == t[0];
    if i > 0 && j > 0 { BeforeTotal(w, r[0], t[0]); }
  }

  lemma RestInOrder(w: map<WrapperId, Bound>, ids: set<WrapperId>, r: seq<WrapperId>)
    requires ids <= w.Keys && InTabOrder(w, ids, r) && r != []
    ensures InTabOrder(w, ids - {r[0]}, r[1..])
  {
    assert r[0] in ids;
    BeforeTotal(w, r[0], r[0]);
    assert forall k :: 0 < k < |r| ==> r[k] != r[0];
    assert forall id :: id in r <==> id == r[0] || id in r[1..];
  }

  /** Where `id` belongs among `r`. */
  function Place(w: map<WrapperId, Bound>, r: seq<WrapperId>, id: WrapperId): (k: nat)
    ensures k <= |r| && (k < |r| ==> !Before(w, r[k], id)) && forall j :: 0 <= j < k ==> Before(w, r[j], id)
  {
    if r == [] || !Before(w, r[0], id) then 0 else 1 + Place(w, r[1..], id)
  }

  lemma PlacedInOrder(w: map<WrapperId, Bound>, ids: set<WrapperId>, r: seq<WrapperId>, id: WrapperId, k: nat)
    requires InTabOrder(w, ids, r) && ids <= w.Keys && id in w && id !in ids
    requires k <= |r| && (k < |r| ==> !Before(w, r[k], id)) && forall j :: 0 <= j < k ==> Before(w, r[j], id)
    ensures InTabOrder(w, ids + {id}, r[..k] + [id] + r[k..])
  {
    var t := r[..k] + [id] + r[k..];
    forall j | k <= j < |r| ensures Before(w, id, r[j]) {
      assert r[k] in ids;
      BeforeTotal(w, r[k], id);
      if j > k { BeforeTransitive(w, id, r[k], r[j]); }
    }
    assert forall i :: 0 <= i < |t| ==> t[i] == if i < k then r[i] else if i == k then id else r[i - 1];
    forall x ensures x in t <==> x in ids + {id} {
      if x in r { var i :| 0 <= i < |r| && r[i] == x; assert t[if i < k then i else i + 1] == x; }
      assert t[k] == id;
    }
  }

  ghost function TabOrderOf(w: map<WrapperId, Bound>, ids: set<WrapperId>): (r: seq<WrapperId>)
    requires ids <= w.Keys
    ensures InTabOrder(w, ids, r)
  {
    if ids == {} then []
    else
      var id :| id in ids;
      var rest := TabOrderOf(w, ids - {id});
      var k := Place(w, rest, id);
      PlacedInOrder(w, ids - {id}, rest, id, k);
      assert ids - {id} + {id} == ids;
      rest[..k] + [id] + rest[k..]
  }

  /** The sessions the knob can reach, in tab order. */
  function SessionsOf(w: map<WrapperId, Bound>, order: seq<WrapperId>): seq<Session>
    requires forall id :: id in order ==> id in w
  {
    if order == [] then []
    else (if w[order[0]].session.Some? then [w[order[0]].session.value] else []) + SessionsOf(w, order[1..])
  }

  // ── Cycling ──────────────────────────────────────────────────────

  function Position(seats: seq<Session>, s: Session): (k: nat)
    ensures k <= |seats| && (k < |seats| ==> seats[k] == s) && forall j :: 0 <= j < k ==> seats[j] != s
  {
    if seats == [] || seats[0] == s then 0 else 1 + Position(seats[1..], s)
  }

  /** The session `cycle_active` goes to; none when there is nothing to cycle. */
  function Next(seats: seq<Session>, active: Option<Session>, step: int): Option<Session> {
    if |seats| < 2 then None
    else
      var at := if active.Some? then Position(seats, active.value) else |seats|;
      var base := if at < |seats| then at else if step > 0 then -1 else 0;
      Some(seats[(base + step) % |seats|])
  }

  /** One step round a ring of `n`. */
  function Wrap(i: int, n: nat): nat
    requires -1 <= i <= n && n > 0
  {
    if i == n then 0 else if i < 0 then n - 1 else i
  }

  lemma WrapIsMod(i: int, n: nat)
    requires -1 <= i <= n && n > 0
    ensures i % n == Wrap(i, n)
  {
    if i < 0 { assert i == (-1) * n + (n - 1); }
  }

  /** The sessions visited by `n` steps forward. */
  function Visits(seats: seq<Session>, active: Option<Session>, n: nat): seq<Session>
    decreases n
  {
    if n == 0 then []
    else match Next(seats, active, 1)
         case None => []
         case Some(s) => [s] + Visits(seats, Some(s), n - 1)
  }

  /** From seat `k` a step leads to its neighbour. */
  lemma NextOf(seats: seq<Session>, k: nat, step: int)
    requires Ordered(seats, Differ) && |seats| >= 2 && k < |seats| && (step == 1 || step == -1)
    ensures Next(seats, Some(seats[k]), step) == Some(seats[Wrap(k + step, |seats|)])
  {
    assert Position(seats, seats[k]) == k;
    WrapIsMod(k + step, |seats|);
  }

  lemma {:induction false} VisitsRotate(seats: seq<Session>, k: nat, n: nat)
    requires Ordered(seats, Differ) && |seats| >= 2 && k < |seats| && n <= |seats|
    ensures Visits(seats, Some(seats[k]), n) == (seats[k + 1..] + seats[..k + 1])[..n]
    decreases n
  {
    if n > 0 {
      NextOf(seats, k, 1);
      var m := Wrap(k + 1, |seats|);
      hide Next;
      VisitsRotate(seats, m, n - 1);
      Rotation(seats, k, m, n);
    }
  }

  lemma Rotation(seats: seq<Session>, k: nat, m: nat, n: nat)
    requires 0 < n <= |seats| && k < |seats| && m == Wrap(k + 1, |seats|)
    ensures (seats[k + 1..] + seats[..k + 1])[..n] == [seats[m]] + (seats[m + 1..] + seats[..m + 1])[..n - 1]
  {
    var here, there := seats[k + 1..] + seats[..k + 1], seats[m + 1..] + seats[..m + 1];
    if m == 0 {
      assert here == seats && there[..n - 1] == seats[1..n];
    } else {
      assert here[0] == seats[m] && forall j :: 0 < j < n ==> here[j] == there[j - 1];
    }
  }

  /** With at most one wrapper per session, as many steps forward as there are bound wrappers visit each of
      their sessions once, and end on the one they started from. */
  lemma CycleVisitsAll(seats: seq<Session>, k: nat)
    requires Ordered(seats, Differ) && |seats| >= 2 && k < |seats|
    ensures var v := Visits(seats, Some(seats[k]), |seats|);
            multiset(v) == multiset(seats) && v[|v| - 1] == seats[k]
  {
    VisitsRotate(seats, k, |seats|);
    hide Visits;
    Turned(seats[..k + 1], seats[k + 1..]);
    assert seats == seats[..k + 1] + seats[k + 1..];
  }

  lemma Turned(a: seq<Session>, b: seq<Session>)
    requires a != []
    ensures (b + a)[..|a + b|] == b + a && (b + a)[|a + b| - 1] == a[|a| - 1]
    ensures multiset(b + a) == multiset(a + b)
  {
  }

  /** From a cold start the first turn forward lands on the first seat, the first turn back on the last. */
  lemma ColdStart(seats: seq<Session>, active: Option<Session>)
    requires |seats| >= 2 && (active.Some? ==> active.value !in seats)
    ensures Next(seats, active, 1) == Some(seats[0]) && Next(seats, active, -1) == Some(seats[|seats| - 1])
  {
    WrapIsMod(-1, |seats|);
    WrapIsMod(0, |seats|);
  }

  /** A step back undoes a step forward, and the other way round, if and only if the active session has a seat. */
  lemma BackUndoesForward(seats: seq<Session>, active: Session, step: int)
    requires Ordered(seats, Differ) && |seats| >= 2 && (step == 1 || step == -1)
    ensures Next(seats, Next(seats, Some(active), step), -step) == Some(active) <==> active in seats
  {
    if active in seats {
      var k := Position(seats, active);
      NextOf(seats, k, step);
      var m := Wrap(k + step, |seats|);
      NextOf(seats, m, -step);
      assert Wrap(m + (-step), |seats|) == k;
      assert Next(seats, Some(active), step) == Some(seats[m]);
      assert Next(seats, Some(seats[m]), -step) == Some(active);
    } else {
      StaysSeated(seats, Next(seats, Some(active), step), -step);
    }
  }

  lemma StaysSeated(seats: seq<Session>, active: Option<Session>, step: int)
    requires |seats| >= 2
    ensures Next(seats, active, step).Some? && Next(seats, active, step).value in seats
  {
    var at := if active.Some? then Position(seats, active.value) else |seats|;
    var base := if at < |seats| then at else if step > 0 then -1 else 0;
    assert Next(seats, active, step) == Some(seats[(base + step) % |seats|]);
  }

  // ── With the registry ────────────────────────────────────────────

  /** The first wrapper in `order` that is bound to `session`. */
  function IndexIn(w: map<WrapperId, Bound>, order: seq<WrapperId>, session: Session): (r: Option<nat>)
    requires forall id :: id in order ==> id in w
    ensures r.Some? ==> r.value < |order| && w[order[r.value]].session == Some(session)
    ensures r.None? ==> forall id :: id in order ==> w[id].session != Some(session)
  {
    if order == [] then None
    else if w[order[0]].session == Some(session) then Some(0)
    else match IndexIn(w, order[1..], session)
         case None => None
         case Some(j) => Some(j + 1)
  }

  /** The registry, listed in tab order, is the tab list the alert engine works on. */
  ghost predicate Lists(tabs: seq<AlertWorld.Wrapper>, w: map<WrapperId, Bound>, order: seq<WrapperId>) {
    && |tabs| == |order| && (forall id :: id in order ==> id in w)
    && forall k :: 0 <= k < |order| ==> tabs[k].id == order[k] && tabs[k].session == w[order[k]].session
  }

  /** The tab index of a session here is the one the alert engine uses. */
  lemma {:induction false} TabIndexIsTabOf(tabs: seq<AlertWorld.Wrapper>, w: map<WrapperId, Bound>,
      order: seq<WrapperId>, session: Session)
    requires Lists(tabs, w, order)
    ensures IndexIn(w, order, session) == AlertWorld.TabOf(tabs, session)
  {
    if order != [] { TabIndexIsTabOf(tabs[1..], w, order[1..], session); }
  }

  /** At most one wrapper per session. */
  ghost predicate OnePerSession(w: map<WrapperId, Bound>) {
    forall a, b :: a in w && b in w && a != b && w[a].session.Some? ==> w[a].session != w[b].session
  }

  lemma {:induction false} SeatsDiffer(w: map<WrapperId, Bound>, order: seq<WrapperId>)
    requires OnePerSession(w) && (forall id :: id in order ==> id in w)
    requires forall i, j :: 0 <= i < j < |order| ==> order[i] != order[j]
    ensures Ordered(SessionsOf(w, order), Differ)
    ensures forall s :: s in SessionsOf(w, order) ==> exists id :: id in order && w[id].session == Some(s)
  {
    if order != [] {
      SeatsDiffer(w, order[1..]);
      var rest := SessionsOf(w, order[1..]);
      assert forall j :: 0 <= j < |rest| ==> rest[j] in rest;
      assert order[0] in order;
      forall s | s in SessionsOf(w, order) ensures exists id :: id in order && w[id].session == Some(s) {
        if s in rest {
          var id :| id in order[1..] && w[id].session == Some(s);
          assert id in order;
        }
      }
      assert forall id :: id in order[1..] ==> id != order[0];
    }
  }

  /** The sessions the knob can reach, whatever order the registry is iterated in. */
  ghost function Seats(w: map<WrapperId, Bound>): seq<Session> {
    SessionsOf(w, TabOrderOf(w, w.Keys))
  }

  lemma SeatsAreDistinct(w: map<WrapperId, Bound>)
    requires OnePerSession(w)
    ensures Ordered(Seats(w), Differ)
  {
    var order := TabOrderOf(w, w.Keys);
    forall i, j | 0 <= i < j < |order| ensures order[i] != order[j] {
      BeforeTotal(w, order[i], order[i]);
    }
    SeatsDiffer(w, order);
  }

  lemma SessionsConcat(w: map<WrapperId, Bound>, order: seq<WrapperId>, k: nat)
    requires (forall id :: id in order ==> id in w) && k < |order|
    ensures SessionsOf(w, order[..k + 1])
         == SessionsOf(w, order[..k]) + (if w[order[k]].session.Some? then [w[order[k]].session.value] else [])
  {
    if k > 0 {
      assert order[..k + 1][1..] == order[1..][..k] && order[..k][1..] == order[1..][..k - 1];
      SessionsConcat(w, order[1..], k - 1);
    } else {
      assert order[..1][1..] == [] && order[..0] == [];
    }
  }

  /** The daemon's session bookkeeping, updated in place. */
  class ClaudeState {
    var active: Option<Session>
    var recent: seq<Session>
    var wrappers: map<WrapperId, Bound>

    ghost predicate Valid()
      reads this
    {
      Sound(recent, active)
    }

    constructor ()
      ensures Valid() && active == None && recent == [] && wrappers == map[]
    {
      active, recent, wrappers := None, [], map[];
    }

    method SetActiveSession(session: Session)
      requires Valid()
      modifies `active, `recent
      ensures Valid() && active == Some(session) && recent == Promoted(old(recent), session)
    {
      PromotedSound(recent, session);
      active := Some(session);
      recent := Without(recent, session);
      recent := [session] + recent;
      if |recent| > RECENT_SESSIONS_MAX { recent := recent[..RECENT_SESSIONS_MAX]; }
    }

    /** The list part of `handle_session_end`. */
    method EndSession(session: Session)
      requires Valid()
      modifies `active, `recent
      ensures Valid() && session !in recent && recent == Without(old(recent), session)
      ensures active == if old(active) == Some(session) then None else old(active)
    {
      WithoutDiffers(recent, session);
      recent := Without(recent, session);
      if active == Some(session) { active := None; }
    }

    method PreviousSession(live: set<Session>) returns (r: Option<Session>)
      ensures r == Previous(recent, active, live)
    {
      var i := 0;
      while i < |recent|
        invariant i <= |recent| && Previous(recent, active, live) == Previous(recent[i..], active, live)
      {
        if active != Some(recent[i]) && recent[i] in live {
          return Some(recent[i]);
        }
        assert recent[i..][1..] == recent[i + 1..];
        i := i + 1;
      }
      return None;
    }

    /** `swap_to_previous_session`, `live` being the sessions some wrapper is bound to. */
    method SwapToPreviousSession(live: set<Session>) returns (r: Option<Session>)
      requires Valid()
      modifies `active, `recent
      ensures Valid() && r == Previous(old(recent), old(active), live)
      ensures r.None? ==> active == old(active) && recent == old(recent)
      ensures r.Some? ==> active == r && recent == Promoted(old(recent), r.value)
    {
      r := PreviousSession(live);
      if r.Some? { SetActiveSession(r.value); }
    }

    /** The wrappers in tab order, from a registry iterated in any order. */
    method TabOrder() returns (order: seq<WrapperId>)
      ensures order == TabOrderOf(wrappers, wrappers.Keys)
    {
      order := [];
      var todo := wrappers.Keys;
      while todo != {}
        invariant todo <= wrappers.Keys && InTabOrder(wrappers, wrappers.Keys - todo, order)
        decreases |todo|
      {
        var id :| id in todo;
        var k := Place(wrappers, order, id);
        PlacedInOrder(wrappers, wrappers.Keys - todo, order, id, k);
        order := order[..k] + [id] + order[k..];
        assert wrappers.Keys - (todo - {id}) == wrappers.Keys - todo + {id};
        todo := todo - {id};
      }
      assert wrappers.Keys - {} == wrappers.Keys;
      TabOrderUnique(wrappers, wrappers.Keys, order, TabOrderOf(wrappers, wrappers.Keys));
    }

    static method FindSession(w: map<WrapperId, Bound>, order: seq<WrapperId>, session: Session)
        returns (r: Option<nat>)
      requires forall id :: id in order ==> id in w
      ensures r == IndexIn(w, order, session)
    {
      var k := 0;
      while k < |order|
        invariant k <= |order|
        invariant IndexIn(w, order, session)
               == match IndexIn(w, order[k..], session) case None => None case Some(j) => Some(j + k)
      {
        if w[order[k]].session == Some(session) {
          return Some(k);
        }
        assert order[k..][1..] == order[k + 1..];
        k := k + 1;
      }
      return None;
    }

    /** `tab_index_for_session` */
    method TabIndexForSession(session: Session) returns (r: Option<nat>)
      ensures r == IndexIn(wrappers, TabOrderOf(wrappers, wrappers.Keys), session)
    {
      var order := TabOrder();
      r := FindSession(wrappers, order, session);
    }

    static method SessionsInOrder(w: map<WrapperId, Bound>, order: seq<WrapperId>) returns (seats: seq<Session>)
      requires forall id :: id in order ==> id in w
      ensures seats == SessionsOf(w, order)
    {
      seats := [];
      for i := 0 to |order|
        invariant seats == SessionsOf(w, order[..i])
      {
        SessionsConcat(w, order, i);
        if w[order[i]].session.Some? { seats := seats + [w[order[i]].session.value]; }
      }
      assert order[..|order|] == order;
    }

    /** Where `cycle_active` goes from `active`: round the ring, with a place to start when nothing is active. */
    static method Target(seats: seq<Session>, active: Option<Session>, step: int) returns (next: Option<Session>)
      ensures next == Next(seats, active, step)
    {
      if |seats| < 2 {
        return None;
      }
      var at := if active.Some? then Position(seats, active.value) else |seats|;
      var base := if at < |seats| then at else if step > 0 then -1 else 0;
      return Some(seats[(base + step) % |seats|]);
    }

    /** `cycle_active`: `step` is 1 for the next tab, -1 for the one before. */
    method CycleActive(step: int)
      requires Valid()
      modifies `active, `recent
      ensures Valid()
      ensures var next := Next(Seats(wrappers), old(active), step);
              if next.None? then active == old(active) && recent == old(recent)
              else active == next && recent == Promoted(old(recent), next.value)
    {
      hide Promoted, Sound, SessionsOf, TabOrderOf, Next;
      var order := TabOrder();
      assert forall id :: id in order ==> id in wrappers;
      hide InTabOrder;
      var seats := SessionsInOrder(wrappers, order);
      var next := Target(seats, active, step);
      if next.Some? { SetActiveSession(next.value); }
    }
  }
}

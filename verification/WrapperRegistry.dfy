// The wrapper registry protocol: connections and their tokens, reconnects, daemon
// restarts, and the session ids that travel (wrapper.rs, `handle_wrapper_ws` and
// `wrapper_register_session`; coredeck-claude/src/main.rs, `run_ws`).

module WrapperRegistry {
  import opened Prelude

  /** A registry entry; `link` is the connection its commands go to. */
  datatype Entry = Entry(session: Option<Session>, token: nat, link: nat)

  datatype Registry = Registry(entries: map<WrapperId, Entry>, nextToken: nat)

  /** The registry part of `handle_wrapper_ws`: an earlier binding is preserved, else the cached one adopted. */
  function Insert(r: Registry, id: WrapperId, cached: Option<Session>, token: nat, link: nat): Registry {
    var preserved := if id in r.entries then r.entries[id].session else None;
    r.(entries := r.entries[id := Entry(if preserved.Some? then preserved else cached, token, link)])
  }

  /** Its end: the entry goes only if it still belongs to this connection. */
  function Remove(r: Registry, id: WrapperId, token: nat): Registry {
    if id in r.entries && r.entries[id].token == token then r.(entries := r.entries - {id}) else r
  }

  /** The registry part of `wrapper_register_session`. */
  function Bind(r: Registry, id: WrapperId, session: Session): Registry {
    if id in r.entries then r.(entries := r.entries[id := r.entries[id].(session := Some(session))]) else r
  }

  /** The daemon's registry, updated in place. */
  class Daemon {
    var entries: map<WrapperId, Entry>
    var nextToken: nat

    ghost function View(): Registry
      reads this
    {
      Registry(entries, nextToken)
    }

    constructor ()
      ensures View() == Registry(map[], 1)
    {
      entries, nextToken := map[], 1;
    }

    method Accept() returns (token: nat)
      modifies `nextToken
      ensures token == old(nextToken) && View() == old(View()).(nextToken := token + 1)
    {
      token := nextToken;
      nextToken := nextToken + 1;
    }

    method RegisterWrapper(id: WrapperId, cached: Option<Session>, token: nat, link: nat) returns (adopted: bool)
      modifies `entries
      ensures View() == Insert(old(View()), id, cached, token, link)
      ensures adopted <==>
                && cached.Some? && entries[id].session == cached
                && (id in old(entries) ==> old(entries[id].session) == None)
    {
      var preserved := None;
      if id in entries { preserved := entries[id].session; }
      adopted := preserved.None? && cached.Some?;
      entries := entries[id := Entry(if preserved.Some? then preserved else cached, token, link)];
    }

    method Unregister(id: WrapperId, token: nat) returns (removed: bool)
      modifies `entries
      ensures View() == Remove(old(View()), id, token)
          && removed == (id in old(entries) && old(entries[id].token) == token)
    {
      removed := id in entries && entries[id].token == token;
      if removed { entries := entries - {id}; }
    }

    method BindSession(id: WrapperId, session: Session) returns (link: Option<nat>)
      modifies `entries
      ensures View() == Bind(old(View()), id, session)
      ensures link == if id in old(entries) then Some(old(entries[id].link)) else None
    {
      if id !in entries {
        return None;
      }
      entries := entries[id := entries[id].(session := Some(session))];
      return Some(entries[id].link);
    }
  }

  // ── The whole system ─────────────────────────────────────────────

  /** A wrapper process; several may share a persistent id. */
  datatype Process = Process(id: WrapperId, cache: Option<Session>, link: Option<nat>)

  /** A connection: what its Register frame says, and the SessionBound frames on their way to the wrapper. */
  datatype Pipe = Pipe(id: WrapperId, greeting: Option<Session>, bound: seq<Session>)

  /** The daemon's task on a connection. */
  datatype Task = Task(token: nat, registered: bool)

  datatype System = System(
    registry: Registry,
    tasks: map<nat, Task>,
    pipes: map<nat, Pipe>,
    procs: map<nat, Process>,
    nextLink: nat,
    // history
    lastRegistered: map<WrapperId, nat>,   // by which connection, since the daemon started
    tornDown: set<nat>,
    posted: set<(WrapperId, Session)>
  )

  datatype Event =
    | Spawn(proc: nat, id: WrapperId)
    | Exit(proc: nat)
    | Connect(proc: nat)
    | Register(link: nat)
    | Post(id: WrapperId, session: Session)
    | Deliver(proc: nat)
    | Hang(proc: nat)
    | Teardown(link: nat)
    | Restart

  const INITIAL := System(Registry(map[], 1), map[], map[], map[], 0, map[], {}, {})

  predicate Enabled(s: System, e: Event) {
    match e
    case Spawn(p, _) => p !in s.procs
    case Exit(p) => p in s.procs
    case Connect(p) => p in s.procs && s.procs[p].link == None
    case Register(c) => c in s.tasks && !s.tasks[c].registered && c in s.pipes
    case Post(_, _) => true
    case Deliver(p) =>
      p in s.procs && s.procs[p].link.Some? && s.procs[p].link.value in s.pipes
        && s.pipes[s.procs[p].link.value].bound != []
    case Hang(p) => p in s.procs && s.procs[p].link.Some?
    case Teardown(c) => c in s.tasks && c in s.pipes
    case Restart => true
  }

  /** The wrapper's connect succeeds; the daemon starts a task with a fresh token, and the Register frame,
      with the cached session, is on its way. */
  function DoConnect(s: System, p: nat): System
    requires Enabled(s, Connect(p))
  {
    var c := s.nextLink;
    s.(registry := s.registry.(nextToken := s.registry.nextToken + 1),
       tasks := s.tasks[c := Task(s.registry.nextToken, false)],
       pipes := s.pipes[c := Pipe(s.procs[p].id, s.procs[p].cache, [])],
       procs := s.procs[p := s.procs[p].(link := Some(c))],
       nextLink := c + 1)
  }

  function DoRegister(s: System, c: nat): System
    requires Enabled(s, Register(c))
  {
    var id := s.pipes[c].id;
    s.(registry := Insert(s.registry, id, s.pipes[c].greeting, s.tasks[c].token, c),
       tasks := s.tasks[c := s.tasks[c].(registered := true)],
       lastRegistered := s.lastRegistered[id := c])
  }

  function DoPost(s: System, id: WrapperId, session: Session): System {
    var r := s.(registry := Bind(s.registry, id, session), posted := s.posted + {(id, session)});
    if id in s.registry.entries && s.registry.entries[id].link in s.pipes then
      var c := s.registry.entries[id].link;
      r.(pipes := s.pipes[c := s.pipes[c].(bound := s.pipes[c].bound + [session])])
    else r
  }

  function DoDeliver(s: System, p: nat): System
    requires Enabled(s, Deliver(p))
  {
    var c := s.procs[p].link.value;
    s.(procs := s.procs[p := s.procs[p].(cache := Some(s.pipes[c].bound[0]))],
       pipes := s.pipes[c := s.pipes[c].(bound := s.pipes[c].bound[1..])])
  }

  function DoTeardown(s: System, c: nat): System
    requires Enabled(s, Teardown(c))
  {
    s.(registry := if s.tasks[c].registered then Remove(s.registry, s.pipes[c].id, s.tasks[c].token) else s.registry,
       tasks := s.tasks - {c}, tornDown := s.tornDown + {c})
  }

  function Step(s: System, e: Event): System {
    if !Enabled(s, e) then s
    else match e
         case Spawn(p, id) => s.(procs := s.procs[p := Process(id, None, None)])
         case Exit(p) => s.(procs := s.procs - {p})
         case Connect(p) => DoConnect(s, p)
         case Register(c) => DoRegister(s, c)
         case Post(id, session) => DoPost(s, id, session)
         case Deliver(p) => DoDeliver(s, p)
         case Hang(p) => s.(procs := s.procs[p := s.procs[p].(link := None)])
         case Teardown(c) => DoTeardown(s, c)
         case Restart => s.(registry := Registry(map[], 1), tasks := map[], lastRegistered := map[])
  }

  function Run(s: System, events: seq<Event>): System
    decreases |events|
  {
    if events == [] then s else Run(Step(s, events[0]), events[1..])
  }

  // ── An entry stands for the connection that registered it last ───

  predicate TasksSound(s: System) {
    && (forall c :: c in s.pipes ==> c < s.nextLink)
    && (forall c :: c in s.tasks ==> c in s.pipes && c !in s.tornDown && s.tasks[c].token < s.registry.nextToken)
    && (forall c, d :: c in s.tasks && d in s.tasks && s.tasks[c].token == s.tasks[d].token ==> c == d)
    && (forall c :: c in s.tornDown ==> c < s.nextLink)
  }

  /** `id` is on record exactly if its last registration was not torn down, and then under that connection. */
  predicate Stands(s: System, id: WrapperId) {
    && (id in s.registry.entries <==> id in s.lastRegistered && s.lastRegistered[id] !in s.tornDown)
    && (id in s.lastRegistered ==> s.lastRegistered[id] in s.pipes && s.pipes[s.lastRegistered[id]].id == id)
    && (id in s.registry.entries ==>
          var c := s.registry.entries[id].link;
          c == s.lastRegistered[id] && c in s.tasks && s.tasks[c] == Task(s.registry.entries[id].token, true))
  }

  ghost predicate EntriesStand(s: System) { forall id :: Stands(s, id) }

  /** Every session held for a wrapper was posted for it. */
  predicate Genuine(s: System) {
    && (forall id :: id in s.registry.entries && s.registry.entries[id].session.Some? ==>
          (id, s.registry.entries[id].session.value) in s.posted)
    && (forall p :: p in s.procs && s.procs[p].cache.Some? ==> (s.procs[p].id, s.procs[p].cache.value) in s.posted)
    && (forall c :: c in s.pipes && s.pipes[c].greeting.Some? ==>
          (s.pipes[c].id, s.pipes[c].greeting.value) in s.posted)
    && (forall c, k :: c in s.pipes && 0 <= k < |s.pipes[c].bound| ==> (s.pipes[c].id, s.pipes[c].bound[k]) in s.posted)
    && (forall p :: p in s.procs && s.procs[p].link.Some? && s.procs[p].link.value in s.pipes ==>
          s.pipes[s.procs[p].link.value].id == s.procs[p].id)
  }

  ghost predicate Inv(s: System) {
    TasksSound(s) && EntriesStand(s) && Genuine(s)
    && forall p :: p in s.procs && s.procs[p].link.Some? ==> s.procs[p].link.value < s.nextLink
  }

  lemma ConnectKeepsTasks(s: System, p: nat)
    requires TasksSound(s) && Enabled(s, Connect(p))
    ensures TasksSound(DoConnect(s, p))
  {
  }

  lemma ConnectKeepsGenuine(s: System, p: nat)
    requires Inv(s) && Enabled(s, Connect(p))
    ensures Genuine(DoConnect(s, p))
  {
    hide EntriesStand;
  }

  lemma ConnectStands(s: System, p: nat, id: WrapperId)
    requires TasksSound(s) && Stands(s, id) && Enabled(s, Connect(p))
    ensures Stands(DoConnect(s, p), id)
  {
  }

  lemma ConnectKeeps(s: System, p: nat)
    requires Inv(s) && Enabled(s, Connect(p))
    ensures Inv(DoConnect(s, p))
  {
    ConnectKeepsTasks(s, p);
    ConnectKeepsGenuine(s, p);
    hide TasksSound, Genuine;
    forall id ensures Stands(DoConnect(s, p), id) { assert Stands(s, id); ConnectStands(s, p, id); }
    hide Stands;
  }

  lemma RegisterKeepsTasks(s: System, c: nat)
    requires TasksSound(s) && Enabled(s, Register(c))
    ensures TasksSound(DoRegister(s, c))
  {
  }

  lemma RegisterStands(s: System, c: nat, id: WrapperId)
    requires TasksSound(s) && Stands(s, id) && Enabled(s, Register(c))
    ensures Stands(DoRegister(s, c), id)
  {
  }

  lemma RegisterKeepsGenuine(s: System, c: nat)
    requires Genuine(s) && Enabled(s, Register(c))
    ensures Genuine(DoRegister(s, c))
  {
  }

  lemma RegisterKeeps(s: System, c: nat)
    requires Inv(s) && Enabled(s, Register(c))
    ensures Inv(DoRegister(s, c))
  {
    RegisterKeepsTasks(s, c);
    RegisterKeepsGenuine(s, c);
    hide TasksSound, Genuine;
    forall id ensures Stands(DoRegister(s, c), id) { assert Stands(s, id); RegisterStands(s, c, id); }
    hide Stands;
  }

  lemma PostKeepsTasks(s: System, id: WrapperId, session: Session)
    requires TasksSound(s)
    ensures TasksSound(DoPost(s, id, session))
  {
  }

  lemma PostStands(s: System, id: WrapperId, session: Session, other: WrapperId)
    requires Stands(s, other)
    ensures Stands(DoPost(s, id, session), other)
  {
  }

  lemma PostKeepsGenuine(s: System, id: WrapperId, session: Session)
    requires EntriesStand(s) && Genuine(s)
    ensures Genuine(DoPost(s, id, session))
  {
    assert Stands(s, id);
    hide EntriesStand;
  }

  lemma PostKeeps(s: System, id: WrapperId, session: Session)
    requires Inv(s)
    ensures Inv(DoPost(s, id, session))
  {
    PostKeepsTasks(s, id, session);
    PostKeepsGenuine(s, id, session);
    hide TasksSound, Genuine;
    forall other ensures Stands(DoPost(s, id, session), other) {
      assert Stands(s, other);
      PostStands(s, id, session, other);
    }
    hide Stands;
  }

  lemma DeliverKeeps(s: System, p: nat)
    requires Inv(s) && Enabled(s, Deliver(p))
    ensures Inv(DoDeliver(s, p))
  {
    var r := DoDeliver(s, p);
    forall id ensures Stands(r, id) { assert Stands(s, id); }
    hide EntriesStand, Stands;
  }

  lemma TeardownStands(s: System, c: nat, id: WrapperId)
    requires TasksSound(s) && Stands(s, id) && Enabled(s, Teardown(c))
    ensures Stands(DoTeardown(s, c), id)
  {
  }

  lemma TeardownKeeps(s: System, c: nat)
    requires Inv(s) && Enabled(s, Teardown(c))
    ensures Inv(DoTeardown(s, c))
  {
    var r := DoTeardown(s, c);
    forall id ensures Stands(r, id) { assert Stands(s, id); TeardownStands(s, c, id); }
    hide EntriesStand, Stands;
  }

  lemma RestartKeeps(s: System)
    requires Inv(s)
    ensures Inv(Step(s, Restart))
  {
    hide DoConnect, DoRegister, DoPost, DoDeliver, DoTeardown;
    assert EntriesStand(Step(s, Restart));
    hide EntriesStand;
  }

  /** A process as it was, but possibly hung up; or a new one, with nothing cached. */
  predicate SameOrNew(s: System, p: nat, q: Process) {
    || (p in s.procs && q.id == s.procs[p].id && q.cache == s.procs[p].cache
      && (q.link == s.procs[p].link || q.link == None))
    || (q.cache == None && q.link == None)
  }

  lemma OnlyProcesses(s: System, r: System)
    requires Inv(s) && r == s.(procs := r.procs) && forall p :: p in r.procs ==> SameOrNew(s, p, r.procs[p])
    ensures Inv(r)
  {
    assert TasksSound(r);
    forall id ensures Stands(r, id) { assert Stands(s, id); }
    hide TasksSound, EntriesStand, Stands;
  }

  /** Processes come, go and hang up without the daemon's knowledge. */
  lemma ProcessesKeep(s: System, e: Event)
    requires Inv(s) && Enabled(s, e) && (e.Spawn? || e.Exit? || e.Hang?)
    ensures Inv(Step(s, e))
  {
    hide Inv, DoConnect, DoRegister, DoPost, DoDeliver, DoTeardown;
    var r := s.(procs := Step(s, e).procs);
    assert Step(s, e) == r;
    OnlyProcesses(s, r);
  }

  lemma InvKept(s: System, e: Event)
    requires Inv(s)
    ensures Inv(Step(s, e))
  {
    hide Inv, DoConnect, DoRegister, DoPost, DoDeliver, DoTeardown;
    if Enabled(s, e) {
      match e {
        case Connect(p) => ConnectKeeps(s, p);
        case Register(c) => RegisterKeeps(s, c);
        case Post(id, session) => PostKeeps(s, id, session);
        case Deliver(p) => DeliverKeeps(s, p);
        case Teardown(c) => TeardownKeeps(s, c);
        case Restart => RestartKeeps(s);
        case _ => ProcessesKeep(s, e);
      }
    }
  }

  lemma {:induction false} InvAlways(s: System, events: seq<Event>)
    requires Inv(s)
    ensures Inv(Run(s, events))
    decreases |events|
  {
    if events != [] {
      InvKept(s, events[0]);
      hide Inv, Step;
      InvAlways(Step(s, events[0]), events[1..]);
    }
  }

  /** Over any interleaving of connects, registers, teardowns and restarts: a wrapper is on record exactly
      while the connection that registered it last, since the daemon started, has not been torn down, and
      its commands go to that connection. */
  lemma EntryStandsForLastRegister(events: seq<Event>, id: WrapperId)
    ensures var s := Run(INITIAL, events);
            && (id in s.registry.entries <==> id in s.lastRegistered && s.lastRegistered[id] !in s.tornDown)
            && (id in s.registry.entries ==> s.registry.entries[id].link == s.lastRegistered[id])
  {
    InvAlways(INITIAL, events);
    assert Stands(Run(INITIAL, events), id);
  }

  /** Across flaps and restarts, every session id held for a wrapper, in the registry, in a wrapper's cache
      or in flight, was once posted for that wrapper id. */
  lemma SessionsWerePosted(events: seq<Event>)
    ensures Genuine(Run(INITIAL, events))
  {
    InvAlways(INITIAL, events);
  }

  /** A restarted daemon adopts the session the wrapper cached. */
  lemma RestartAdopts(s: System, p: nat)
    requires Inv(s) && p in s.procs && s.procs[p].link == None
    ensures var r := Step(Step(Step(s, Restart), Connect(p)), Register(s.nextLink));
            s.procs[p].id in r.registry.entries && r.registry.entries[s.procs[p].id].session == s.procs[p].cache
  {
    hide EntriesStand, Genuine;
  }

  /** A brief flap: while the old entry stands, reconnecting keeps its binding, whatever the wrapper cached. */
  lemma FlapPreserves(s: System, p: nat)
    requires Inv(s) && p in s.procs && s.procs[p].link == None
    requires s.procs[p].id in s.registry.entries && s.registry.entries[s.procs[p].id].session.Some?
    ensures var id, was, c := s.procs[p].id, s.registry.entries[s.procs[p].id], s.nextLink;
            var r := Step(Step(Step(s, Connect(p)), Register(c)), Teardown(was.link));
            id in r.registry.entries && r.registry.entries[id].session == was.session
              && r.registry.entries[id].link == c
  {
    assert Stands(s, s.procs[p].id);
    hide EntriesStand, Genuine;
  }

  // ── A posted session is bound, told and remembered ───────────────

  /** A post for a wrapper on record binds that wrapper, and no other, to the session, under the token and connection
      it has, and puts the news on its way to that connection. A post for a wrapper nobody knows changes nothing. */
  lemma PostBinds(s: System, id: WrapperId, session: Session)
    requires Inv(s)
    ensures var r := Step(s, Post(id, session));
            && r.registry.entries.Keys == s.registry.entries.Keys && r.registry.nextToken == s.registry.nextToken
            && (forall other :: other in s.registry.entries && other != id ==>
                  r.registry.entries[other] == s.registry.entries[other])
            && (id !in s.registry.entries ==> r == s.(posted := r.posted))
            && (id in s.registry.entries ==>
                  var was := s.registry.entries[id];
                  && r.registry.entries[id] == Entry(Some(session), was.token, was.link)
                  && was.link in s.pipes && was.link in r.pipes
                  && r.pipes[was.link].bound == s.pipes[was.link].bound + [session])
  {
    assert Stands(s, id);
    hide EntriesStand, Genuine;
  }

  /** A wrapper that connected and registered is told of the next session posted for it. */
  lemma PostReachesWrapper(s: System, p: nat, session: Session)
    requires Inv(s) && p in s.procs && s.procs[p].link == None
    ensures var id, c := s.procs[p].id, s.nextLink;
            var r := Step(Step(Step(Step(s, Connect(p)), Register(c)), Post(id, session)), Deliver(p));
            && p in r.procs && r.procs[p] == Process(id, Some(session), Some(c))
            && id in r.registry.entries && r.registry.entries[id].session == Some(session)
            && r.registry.entries[id].link == c && r.registry.entries[id].token == s.registry.nextToken
  {
    hide EntriesStand, Genuine;
  }

  /** What an event in `s` makes of what was held for a wrapper. */
  function HeldNext(s: System, e: Event, id: WrapperId, was: Option<Option<Session>>): Option<Option<Session>> {
    if !Enabled(s, e) then was
    else match e
         case Post(to, session) => if to == id && was.Some? then Some(Some(session)) else was
         case Register(c) =>
           if s.pipes[c].id != id then was
           else Some(if was.Some? && was.value.Some? then was.value else s.pipes[c].greeting)
         case Teardown(c) => if id in s.lastRegistered && s.lastRegistered[id] == c then None else was
         case Restart => None
         case _ => was
  }

  /** What a history of events says about a wrapper: nothing, when it is not on record; else the session posted last
      while it stood, or else the one its registration brought along. */
  function Held(events: seq<Event>, id: WrapperId): Option<Option<Session>>
    decreases |events|
  {
    if events == [] then None
    else
      var before := events[..|events| - 1];
      HeldNext(Run(INITIAL, before), events[|events| - 1], id, Held(before, id))
  }

  lemma {:induction false} RunLast(s: System, events: seq<Event>, e: Event)
    ensures Run(s, events + [e]) == Step(Run(s, events), e)
    decreases |events|
  {
    hide Step;
    if events == [] {
      assert events + [e] == [e];
    } else {
      assert (events + [e])[1..] == events[1..] + [e];
      RunLast(Step(s, events[0]), events[1..], e);
    }
  }

  /** What the registry holds for `id`. */
  function Entered(s: System, id: WrapperId): Option<Option<Session>> {
    if id in s.registry.entries then Some(s.registry.entries[id].session) else None
  }

  /** Over any interleaving, restarts included, the session of a wrapper on record is the last one posted for it while
      it stood; before any post, the one its registration preserved or adopted. */
  lemma {:induction false} SessionIsLastPosted(events: seq<Event>, id: WrapperId)
    ensures Held(events, id) == Entered(Run(INITIAL, events), id)
    decreases |events|
  {
    if events != [] {
      var before, e := events[..|events| - 1], events[|events| - 1];
      var s := Run(INITIAL, before);
      assert events == before + [e];
      RunLast(INITIAL, before, e);
      SessionIsLastPosted(before, id);
      InvAlways(INITIAL, before);
      EventHolds(s, e, id);
    }
  }

  lemma EventHolds(s: System, e: Event, id: WrapperId)
    requires Inv(s)
    ensures HeldNext(s, e, id, Entered(s, id)) == Entered(Step(s, e), id)
  {
    assert Stands(s, id);
    hide EntriesStand, Genuine;
  }

  /** A binding lasts as long as the wrapper stays on record and nothing else is posted for it: reconnects, teardowns
      of older connections and other wrappers do not touch it. */
  lemma {:induction false} BindingLasts(s: System, events: seq<Event>, id: WrapperId, session: Session)
    requires Inv(s) && Entered(s, id) == Some(Some(session))
    requires forall k :: 0 <= k < |events| ==> !(events[k].Post? && events[k].id == id)
    requires forall k :: 0 <= k <= |events| ==> id in Run(s, events[..k]).registry.entries
    ensures Entered(Run(s, events), id) == Some(Some(session))
    decreases |events|
  {
    if events != [] {
      var next := Step(s, events[0]);
      InvKept(s, events[0]);
      forall k | 0 <= k <= |events[1..]| ensures id in Run(next, events[1..][..k]).registry.entries {
        assert events[..k + 1][1..] == events[1..][..k];
        assert id in Run(s, events[..k + 1]).registry.entries;
      }
      assert events[1..][..0] == [] && id in Run(next, events[1..][..0]).registry.entries;
      BindingKept(s, events[0], id);
      hide Inv, Step;
      BindingLasts(next, events[1..], id, session);
    }
  }

  lemma BindingKept(s: System, e: Event, id: WrapperId)
    requires Entered(s, id).Some? && Entered(s, id).value.Some? && !(e.Post? && e.id == id)
    requires id in Step(s, e).registry.entries
    ensures Entered(Step(s, e), id) == Entered(s, id)
  {
  }

  function Deliveries(p: nat, n: nat): seq<Event> {
    if n == 0 then [] else [Deliver(p)] + Deliveries(p, n - 1)
  }

  lemma {:induction false} LastIsCached(s: System, p: nat)
    requires Inv(s) && p in s.procs && s.procs[p].link.Some? && s.procs[p].link.value in s.pipes
    requires s.pipes[s.procs[p].link.value].bound != []
    ensures var bound := s.pipes[s.procs[p].link.value].bound;
            var r := Run(s, Deliveries(p, |bound|));
            && Inv(r) && p in r.procs && r.procs[p] == s.procs[p].(cache := Some(bound[|bound| - 1]))
    decreases |s.pipes[s.procs[p].link.value].bound|
  {
    var bound := s.pipes[s.procs[p].link.value].bound;
    var next := Step(s, Deliver(p));
    InvKept(s, Deliver(p));
    FirstDelivered(s, p);
    assert Deliveries(p, |bound|)[1..] == Deliveries(p, |bound| - 1);
    hide Inv, Step;
    if |bound| > 1 { LastIsCached(next, p); }
  }

  lemma FirstDelivered(s: System, p: nat)
    requires Enabled(s, Deliver(p))
    ensures var c, r := s.procs[p].link.value, Step(s, Deliver(p));
            && c in r.pipes && r.pipes[c].bound == s.pipes[c].bound[1..]
            && p in r.procs && r.procs[p] == s.procs[p].(cache := Some(s.pipes[c].bound[0]))
  {
  }

  lemma PostIsCached(s: System, p: nat, session: Session)
    requires Inv(s) && p in s.procs && s.procs[p].id in s.registry.entries
    requires s.procs[p].link == Some(s.registry.entries[s.procs[p].id].link)
    ensures var c, posted := s.procs[p].link.value, Step(s, Post(s.procs[p].id, session));
            c in posted.pipes &&
            var r := Run(posted, Deliveries(p, |posted.pipes[c].bound|));
            Inv(r) && p in r.procs && r.procs[p] == s.procs[p].(cache := Some(session))
  {
    var posted := Step(s, Post(s.procs[p].id, session));
    PostBinds(s, s.procs[p].id, session);
    InvKept(s, Post(s.procs[p].id, session));
    assert posted.procs == s.procs;
    hide Inv, Step;
    LastIsCached(posted, p);
  }

  /** The gap the cache is there to close: a session posted for a connected wrapper, once the frames on their way to it
      have arrived, is bound again after the daemon restarted and the wrapper came back. */
  lemma PostOutlivesRestart(s: System, p: nat, session: Session)
    requires Inv(s) && p in s.procs && s.procs[p].id in s.registry.entries
    requires s.procs[p].link == Some(s.registry.entries[s.procs[p].id].link)
    ensures var id, c := s.procs[p].id, s.procs[p].link.value;
            var posted := Step(s, Post(id, session));
            c in posted.pipes &&
            var told := Step(Run(posted, Deliveries(p, |posted.pipes[c].bound|)), Hang(p));
            Entered(Step(Step(Step(told, Restart), Connect(p)), Register(told.nextLink)), id) == Some(Some(session))
  {
    var posted := Step(s, Post(s.procs[p].id, session));
    PostIsCached(s, p, session);
    var heard := Run(posted, Deliveries(p, |posted.pipes[s.procs[p].link.value].bound|));
    HungUp(heard, p);
    hide Inv, Step;
    RestartAdopts(Step(heard, Hang(p)), p);
  }

  lemma HungUp(s: System, p: nat)
    requires Inv(s) && p in s.procs && s.procs[p].link.Some?
    ensures Inv(Step(s, Hang(p)))
    ensures p in Step(s, Hang(p)).procs && Step(s, Hang(p)).procs[p] == s.procs[p].(link := None)
  {
    InvKept(s, Hang(p));
    hide Inv;
  }
}

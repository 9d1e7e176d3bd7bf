/** Runs of the UDP session protocol that show what can happen, from the start on. */
module UdpScenarios {
  import Transport
  import opened Caster
  import opened Nearest
  import UdpPositions
  import opened UdpReaper
  import opened UdpRuns
  import opened UdpSafety
  import opened UdpSessions
  import UdpSilence
  import opened Wrappers

  const FIRST: Addr := ("192.0.2.1", 5009)
  const SECOND: Addr := ("192.0.2.2", 5009)

  // A hello of a rover that may use any mountpoint.
  function Greeting(addr: Addr, mountpoint: string): Job {
    HelloJob(Some("*"), mountpoint, None, addr)
  }

  // ---- single steps --------------------------------------------------------

  lemma GreetingAdmits(c: Config, s: State, addr: Addr, m: string, id: nat, now: real)
    requires m != "NEAREST" && Greeting(addr, m) in s.jobs && id !in s.sessions && Lookup(s.table, m).Some?
    ensures var s' := OnJob(c, s, Greeting(addr, m), id, now);
            s' == s.(
              jobs := s.jobs - multiset{Greeting(addr, m)}, outbox := s'.outbox,
              sessions := s.sessions[id := Session(m, addr, now + c.ttl, "*", false, 0, Some(|s.tasks|))],
              registered := s.registered + {id}, gauge := s.gauge + 1,
              tasks := s.tasks + [Task(id, Created, false)], pumped := s.pumped[id := []])
  {
    var t := s.(jobs := s.jobs - multiset{Greeting(addr, m)});
    assert Resolve(c, t.table, "*", m, None) == Allowed(m);
  }

  // An egress task starts on an open mountpoint: it streams from a new subscriber.
  lemma StartStreams(s: State, task: nat)
    requires WellFormed(s.net) && Runnable(s, task) && s.tasks[task].phase.Created? && !s.tasks[task].cancelled
    requires s.sessions[s.tasks[task].session].mountpoint in s.net.transports
    ensures var s' := OnStart(s, task);
            && s' == s.(net := s'.net, requests := s'.requests,
                        tasks := s.tasks[task := s.tasks[task].(phase := Streaming(|s.net.subs|))])
            && s'.net.transports == s.net.transports && s'.net.mountpoints == s.net.mountpoints && WellFormed(s'.net)
            && |s'.net.subs| == |s.net.subs| + 1 && s'.net.subs[..|s.net.subs|] == s.net.subs
            && s'.net.subs[|s.net.subs|].ledger == Transport.EMPTY_LEDGER
  {
  }

  // Its first round finds nothing and waits.
  lemma PumpWaits(c: Config, s: State, task: nat, sub: nat, timestamp: int)
    requires WellFormed(s.net) && Runnable(s, task) && s.tasks[task].phase == Streaming(sub)
    requires sub < |s.net.subs| && s.net.subs[sub].ledger == Transport.EMPTY_LEDGER
    ensures var s' := OnPump(c, s, task, timestamp);
            && s' == s.(net := s'.net, requests := s'.requests)
            && s'.net.transports == s.net.transports && s'.net.mountpoints == s.net.mountpoints && WellFormed(s'.net)
            && |s'.net.subs| == |s.net.subs| && s'.net.subs[sub].ledger.sub.consumer.Blocked?
            && forall j :: 0 <= j < |s.net.subs| && j != sub ==> s'.net.subs[j] == s.net.subs[j]
  {
  }

  lemma RegisterOpens(c: Config, s: State, m: string, now: real, site: Site)
    requires WellFormed(s.net) && m !in s.net.mountpoints
    ensures var s' := OnAsk(s, Register(m, true, now), site);
            && s' == s.(net := s'.net, requests := s'.requests, table := s.table + [Listing(m, site)])
            && s'.net.mountpoints == s.net.mountpoints[m := now] &&
                  s'.net.transports == s.net.transports[m := |s.net.hubs|]
            && s'.net.subs == s.net.subs && |s'.net.hubs| == |s.net.hubs| + 1 && WellFormed(s'.net)
  {
  }

  // ---- heard from too late -------------------------------------------------

  // Two sessions go silent, the reaper picks both and tears the first one down; while it waits for
  // that one's task a datagram of the second arrives.
  function LateNews(c: Config, site: Site): seq<ServerEvent> {
    var late := c.ttl + 1.0;
    [Ask(Register("BASE", true, 0.0), site),
     HelloArrives(Some("*"), "BASE", None, FIRST), HelloArrives(Some("*"), "BASE", None, SECOND),
     RunJob(Greeting(FIRST, "BASE"), 0, 0.0), RunJob(Greeting(SECOND, "BASE"), 1, 0.0),
     StartTask(0), StartTask(1), Pump(0, 0), Pump(1, 0),
     ReapPass(late, [0, 1]), DatagramArrives(1, SECOND, late, NoBody), DeliverCancel(0), ReapNext(late)]
  }

  lemma LateNewsIsOrdered(c: Config, site: Site)
    requires c.ttl >= 0.0
    ensures UdpReaper.ClockNeverGoesBack(LateNews(c, site))
  {
  }

  predicate Greeted(s: State) {
    && s.reaping == [] && s.registered == {} && s.sessions == map[] && s.tasks == [] && s.pumped == map[]
    && Lookup(s.table, "BASE").Some? && s.jobs == multiset{Greeting(FIRST, "BASE"), Greeting(SECOND, "BASE")}
    && WellFormed(s.net) && "BASE" in s.net.transports && s.net.subs == []
  }

  // Two sessions on one mountpoint, their egress tasks in these phases.
  predicate Both(c: Config, s: State, p: Phase, q: Phase) {
    && s.reaping == [] && s.registered == {0, 1} && s.pumped == map[0 := [], 1 := []]
    && s.sessions == map[0 := Session("BASE", FIRST, 0.0 + c.ttl, "*", false, 0, Some(0)),
                         1 := Session("BASE", SECOND, 0.0 + c.ttl, "*", false, 0, Some(1))]
    && s.tasks == [Task(0, p, false), Task(1, q, false)]
    && WellFormed(s.net) && "BASE" in s.net.transports
  }

  lemma LateNewsGreets(c: Config, site: Site, states: seq<State>)
    requires IsRun(c, LateNews(c, site), states)
    ensures Greeted(states[3])
  {
    var events := LateNews(c, site);
    RunStep(c, events, states, 0);
    BaseOpens(c, states[1], site);
    RunStep(c, events, states, 1);
    RunStep(c, events, states, 2);
    BothGreet(c, states[1], states[2], states[3]);
  }

  // The base is there, and nobody else.
  predicate Opened(s: State) {
    && s.reaping == [] && s.registered == {} && s.sessions == map[] && s.tasks == [] && s.pumped == map[]
    && Lookup(s.table, "BASE").Some? && s.jobs == multiset{}
    && WellFormed(s.net) && "BASE" in s.net.transports && s.net.subs == []
  }

  lemma BaseOpens(c: Config, s: State, site: Site)
    requires s == OnAsk(START, Register("BASE", true, 0.0), site)
    ensures Opened(s)
  {
    RegisterOpens(c, START, "BASE", 0.0, site);
    assert s.table == [Listing("BASE", site)];
  }

  lemma BothGreet(c: Config, s: State, t: State, u: State)
    requires Opened(s)
    requires t == Next(c, s, HelloArrives(Some("*"), "BASE", None, FIRST))
    requires u == Next(c, t, HelloArrives(Some("*"), "BASE", None, SECOND))
    ensures Greeted(u)
  {
  }

  predicate FirstIsIn(c: Config, s: State) {
    && s.reaping == [] && s.registered == {0} && s.pumped == map[0 := []] && s.tasks == [Task(0, Created, false)]
    && s.sessions == map[0 := Session("BASE", FIRST, 0.0 + c.ttl, "*", false, 0, Some(0))]
    && Lookup(s.table, "BASE").Some? && Greeting(SECOND, "BASE") in s.jobs
    && WellFormed(s.net) && "BASE" in s.net.transports && s.net.subs == []
  }

  lemma FirstIsAdmitted(c: Config, s: State, t: State)
    requires Greeted(s) && t == OnJob(c, s, Greeting(FIRST, "BASE"), 0, 0.0)
    ensures FirstIsIn(c, t)
  {
    assert Greeting(FIRST, "BASE") in s.jobs && Greeting(FIRST, "BASE") != Greeting(SECOND, "BASE");
    GreetingAdmits(c, s, FIRST, "BASE", 0, 0.0);
  }

  lemma SecondIsAdmitted(c: Config, s: State, t: State)
    requires FirstIsIn(c, s) && t == OnJob(c, s, Greeting(SECOND, "BASE"), 1, 0.0)
    ensures Both(c, t, Created, Created) && t.net.subs == []
  {
    GreetingAdmits(c, s, SECOND, "BASE", 1, 0.0);
  }

  lemma LateNewsOpens(c: Config, site: Site, states: seq<State>)
    requires IsRun(c, LateNews(c, site), states)
    ensures Both(c, states[5], Created, Created) && states[5].net.subs == []
  {
    LateNewsAdmitsOne(c, site, states);
    SecondGetsIn(c, LateNews(c, site), states, 4);
  }

  lemma FirstGetsIn(c: Config, events: seq<ServerEvent>, states: seq<State>, i: nat)
    requires IsRun(c, events, states) && i < |events| && events[i] == RunJob(Greeting(FIRST, "BASE"), 0, 0.0)
    requires Greeted(states[i])
    ensures FirstIsIn(c, states[i + 1])
  {
    RunStep(c, events, states, i);
    FirstIsAdmitted(c, states[i], states[i + 1]);
  }

  lemma SecondGetsIn(c: Config, events: seq<ServerEvent>, states: seq<State>, i: nat)
    requires IsRun(c, events, states) && i < |events| && events[i] == RunJob(Greeting(SECOND, "BASE"), 1, 0.0)
    requires FirstIsIn(c, states[i])
    ensures Both(c, states[i + 1], Created, Created) && states[i + 1].net.subs == []
  {
    RunStep(c, events, states, i);
    SecondIsAdmitted(c, states[i], states[i + 1]);
  }

  lemma LateNewsAdmitsOne(c: Config, site: Site, states: seq<State>)
    requires IsRun(c, LateNews(c, site), states)
    ensures FirstIsIn(c, states[4])
  {
    LateNewsGreets(c, site, states);
    FirstGetsIn(c, LateNews(c, site), states, 3);
  }

  lemma LateNewsStarts(c: Config, site: Site, states: seq<State>)
    requires IsRun(c, LateNews(c, site), states)
    ensures var s := states[7];
            && Both(c, s, Streaming(0), Streaming(1)) && |s.net.subs| == 2
            && s.net.subs[0].ledger == Transport.EMPTY_LEDGER && s.net.subs[1].ledger == Transport.EMPTY_LEDGER
  {
    LateNewsStartsOne(c, site, states);
    RunStep(c, LateNews(c, site), states, 6);
    SecondStarts(c, states[6], states[7]);
  }

  lemma LateNewsStartsOne(c: Config, site: Site, states: seq<State>)
    requires IsRun(c, LateNews(c, site), states)
    ensures var s := states[6];
            Both(c, s, Streaming(0), Created) && |s.net.subs| == 1 && s.net.subs[0].ledger == Transport.EMPTY_LEDGER
  {
    LateNewsOpens(c, site, states);
    RunStep(c, LateNews(c, site), states, 5);
    FirstStarts(c, states[5], states[6]);
  }

  lemma FirstStarts(c: Config, s: State, t: State)
    requires Both(c, s, Created, Created) && s.net.subs == [] && t == OnStart(s, 0)
    ensures Both(c, t, Streaming(0), Created) && |t.net.subs| == 1 && t.net.subs[0].ledger == Transport.EMPTY_LEDGER
  {
    StartStreams(s, 0);
  }

  lemma SecondStarts(c: Config, s: State, t: State)
    requires Both(c, s, Streaming(0), Created) && |s.net.subs| == 1 && s.net.subs[0].ledger == Transport.EMPTY_LEDGER
    requires t == OnStart(s, 1)
    ensures Both(c, t, Streaming(0), Streaming(1)) && |t.net.subs| == 2
    ensures t.net.subs[0].ledger == Transport.EMPTY_LEDGER && t.net.subs[1].ledger == Transport.EMPTY_LEDGER
  {
    StartStreams(s, 1);
    assert t.net.subs[0] == t.net.subs[..1][0];
  }

  // By the time of the pass both egress tasks wait for frames.
  lemma LateNewsStreams(c: Config, site: Site, states: seq<State>)
    requires IsRun(c, LateNews(c, site), states)
    ensures var s := states[9];
            && Both(c, s, Streaming(0), Streaming(1)) && |s.net.subs| == 2
            && s.net.subs[0].ledger.sub.consumer.Blocked? && s.net.subs[1].ledger.sub.consumer.Blocked?
  {
    var events := LateNews(c, site);
    LateNewsStarts(c, site, states);
    RunStep(c, events, states, 7);
    PumpWaits(c, states[7], 0, 0, 0);
    RunStep(c, events, states, 8);
    PumpWaits(c, states[8], 1, 1, 0);
  }

  // Both sessions are stale: the pass takes the first and leaves the second for later.
  lemma PassTakesTheFirst(c: Config, s: State, now: real)
    requires Both(c, s, Streaming(0), Streaming(1)) && 0.0 + c.ttl < now
    ensures Picks(s, now, [0, 1])
    ensures var s' := OnReapPass(s, now, [0, 1]);
            && s'.reaping == [(1, now)] && s'.registered == {1} && 1 in s'.sessions
            && 0 < |s'.tasks| && s'.tasks[0] == Task(0, Streaming(0), true)
  {
    var picked: seq<nat> := [0, 1];
    assert picked[0] == 0 && picked[1] == 1;
    assert StaleSessions(s, now) == {0, 1};
    var q := Queued(s, now, picked);
    assert q.reaping == [(0, now), (1, now)];
    var t := q.(reaping := q.reaping[1..]);
    assert t.reaping == [(1, now)];
    TornDownLeaves(t, 0, None);
    assert OnReapPass(s, now, picked) == TornDown(t, 0, None);
  }

  lemma NewsComesTooLate(c: Config, s: State, t: State, u: State, v: State, late: real)
    requires s.reaping == [(1, late)] && s.registered == {1} && 1 in s.sessions && WellFormed(t.net)
    requires t == OnDatagram(c, s, 1, SECOND, late, NoBody) && u == OnCancel(t, 0) && v == OnReapNext(u)
    ensures u.reaping == [(1, late)] && u.registered == {1} && 1 in u.sessions && u.sessions[1].expiry == late + c.ttl
    ensures 1 !in v.registered
  {
    assert SameContact(t, OnCancel(t, 0), 1);
    assert u.registered == t.registered;
    TornDownLeaves(u.(reaping := []), 1, None);
    assert u.reaping[1..] == [];
  }

  // The second session goes although it was heard from at the very moment it is torn down.
  lemma LateNewsDoesNotSave(c: Config, site: Site, states: seq<State>)
    requires c.ttl >= 0.0 && IsRun(c, LateNews(c, site), states)
    ensures var late := c.ttl + 1.0;
            && UdpReaper.ClockNeverGoesBack(LateNews(c, site)) && PickedAt(LateNews(c, site), states, 9, 1, late)
            && states[12].reaping == [(1, late)] && 1 in states[12].registered && 1 in states[12].sessions
            && states[12].sessions[1].expiry == late + c.ttl && 1 !in states[13].registered
  {
    var events, late := LateNews(c, site), c.ttl + 1.0;
    LateNewsIsOrdered(c, site);
    LateNewsPasses(c, site, states);
    RunStep(c, events, states, 10);
    RunStep(c, events, states, 11);
    RunStep(c, events, states, 12);
    NewsComesTooLate(c, states[10], states[11], states[12], states[13], late);
  }

  lemma LateNewsPasses(c: Config, site: Site, states: seq<State>)
    requires c.ttl >= 0.0 && IsRun(c, LateNews(c, site), states)
    ensures var late := c.ttl + 1.0;
            && PickedAt(LateNews(c, site), states, 9, 1, late)
            && states[10].reaping == [(1, late)] && states[10].registered == {1} && 1 in states[10].sessions
  {
    LateNewsStreams(c, site, states);
    RunStep(c, LateNews(c, site), states, 9);
    PassTakesTheFirst(c, states[9], c.ttl + 1.0);
    var picked: seq<nat> := [0, 1];
    assert picked[1] in picked;
  }

  // ---- one rover -----------------------------------------------------------

  const NOWHERE := Site(None, 0.0)

  // How the only session is served: its mountpoint, its current task and what that is doing, the
  // mountpoints that are open, the table, and the positions kept.
  datatype Ride = Ride(
    mountpoint: string, task: nat, phase: Phase, open: set<string>, table: seq<Listing>,
    positions: map<(string, nat), Place>)

  predicate Rides(s: State, r: Ride) {
    && s.registered == {0} && 0 in s.sessions && 0 in s.pumped && s.pumped[0] == []
    && s.sessions[0].mountpoint == r.mountpoint
    && s.sessions[0].scope == "*" && !s.sessions[0].dynamic && s.sessions[0].task == Some(r.task)
    && |s.tasks| == r.task + 1 && s.tasks[r.task] == Task(0, r.phase, false)
    && WellFormed(s.net) && r.open <= s.net.transports.Keys && s.table == r.table && s.positions == r.positions
  }

  predicate Fresh(s: State, sub: nat) {
    sub < |s.net.subs| && s.net.subs[sub].ledger == Transport.EMPTY_LEDGER
  }

  lemma RideStarts(s: State, t: State, r: Ride)
    requires Rides(s, r) && r.phase.Created? && r.mountpoint in r.open && t == OnStart(s, r.task)
    ensures Rides(t, r.(phase := Streaming(|s.net.subs|))) && Fresh(t, |s.net.subs|) && |t.net.subs| == |s.net.subs| + 1
  {
    StartStreams(s, r.task);
  }

  lemma RideWaits(c: Config, s: State, t: State, r: Ride, sub: nat)
    requires Rides(s, r) && r.phase == Streaming(sub) && Fresh(s, sub) && t == OnPump(c, s, r.task, 0)
    ensures Rides(t, r) && |t.net.subs| == |s.net.subs|
  {
    PumpWaits(c, s, r.task, sub, 0);
  }

  predicate Unplaced(table: seq<Listing>) {
    forall i :: 0 <= i < |table| ==> table[i].site.place.None?
  }

  lemma RideReports(c: Config, s: State, t: State, r: Ride, p: Place)
    requires Rides(s, r) && Unplaced(r.table) && t == OnDatagram(c, s, 0, FIRST, 0.0, Keepalive(Some(p)))
    ensures Rides(t, r.(positions := r.positions[(r.mountpoint, 0) := p]))
  {
    assert !OutOfRange(s.table, r.mountpoint, c.distance, p);
  }

  lemma RideAsks(c: Config, s: State, t: State, r: Ride, to: string)
    requires Rides(s, r) && t == OnDatagram(c, s, 0, FIRST, 0.0, SwitchTo(to, None))
    ensures Rides(t, r) && SwitchJob(0, to, None) in t.jobs
  {
  }

  lemma RideSwitches(c: Config, s: State, t: State, r: Ride, to: string)
    requires Rides(s, r) && to != "NEAREST" && to != r.mountpoint && Lookup(r.table, to).Some?
    requires SwitchJob(0, to, None) in s.jobs && t == OnJob(c, s, SwitchJob(0, to, None), 0, 0.0)
    ensures Rides(t, r.(mountpoint := to, task := r.task + 1, phase := Created)) && t.tasks[r.task].cancelled
  {
    assert Resolve(c, s.table, "*", to, None) == Allowed(to);
  }

  lemma RideCancels(s: State, t: State, r: Ride, u: nat)
    requires Rides(s, r) && u < r.task && t == OnCancel(s, u)
    ensures Rides(t, r)
  {
  }

  lemma RideSaysBye(c: Config, s: State, t: State, r: Ride)
    requires Rides(s, r) && t == OnDatagram(c, s, 0, FIRST, 0.0, Bye)
    ensures Rides(t, r) && ByeJob(0) in t.jobs
  {
  }

  lemma RideEnds(c: Config, s: State, t: State, r: Ride)
    requires Rides(s, r) && ByeJob(0) in s.jobs && t == OnJob(c, s, ByeJob(0), 0, 0.0)
    ensures t.registered == {} && t.positions == r.positions - {(r.mountpoint, 0)}
  {
  }

  lemma RideBegins(c: Config, s: State, t: State, m: string)
    requires m != "NEAREST" && Lookup(s.table, m).Some? && WellFormed(s.net)
    requires s.registered == {} && s.sessions == map[] && s.tasks == [] && s.positions == map[]
    requires Greeting(FIRST, m) in s.jobs && t == OnJob(c, s, Greeting(FIRST, m), 0, 0.0)
    ensures Rides(t, Ride(m, 0, Created, s.net.transports.Keys, s.table, map[])) && t.net == s.net
  {
    GreetingAdmits(c, s, FIRST, m, 0, 0.0);
  }

  lemma BeginsAt(c: Config, events: seq<ServerEvent>, states: seq<State>, i: nat, m: string)
    requires IsRun(c, events, states) && i < |events| && events[i] == RunJob(Greeting(FIRST, m), 0, 0.0)
    requires var s := states[i];
             && m != "NEAREST" && Lookup(s.table, m).Some? && Greeting(FIRST, m) in s.jobs
             && s.registered == {} && s.sessions == map[] && s.tasks == [] && s.positions == map[]
    ensures var s := states[i];
            Rides(states[i + 1], Ride(m, 0, Created, s.net.transports.Keys, s.table, map[])) &&
                states[i + 1].net == s.net
  {
    RunStep(c, events, states, i);
    RideBegins(c, states[i], states[i + 1], m);
  }

  lemma SwitchesAt(c: Config, events: seq<ServerEvent>, states: seq<State>, i: nat, r: Ride, to: string)
    requires IsRun(c, events, states) && i < |events| && events[i] == RunJob(SwitchJob(0, to, None), 0, 0.0)
    requires Rides(states[i], r) && to != "NEAREST" && to != r.mountpoint && Lookup(r.table, to).Some?
    requires SwitchJob(0, to, None) in states[i].jobs
    ensures Rides(states[i + 1], r.(mountpoint := to, task := r.task + 1, phase := Created))
    ensures states[i + 1].tasks[r.task].cancelled
  {
    RunStep(c, events, states, i);
    RideSwitches(c, states[i], states[i + 1], r, to);
  }

  lemma ByeAt(c: Config, events: seq<ServerEvent>, states: seq<State>, i: nat, r: Ride)
    requires IsRun(c, events, states) && i < |events| && events[i] == DatagramArrives(0, FIRST, 0.0, Bye)
    requires Rides(states[i], r)
    ensures Rides(states[i + 1], r) && ByeJob(0) in states[i + 1].jobs
  {
    RunStep(c, events, states, i);
    RideSaysBye(c, states[i], states[i + 1], r);
  }

  lemma EndsAt(c: Config, events: seq<ServerEvent>, states: seq<State>, i: nat, r: Ride)
    requires IsRun(c, events, states) && i < |events| && events[i] == RunJob(ByeJob(0), 0, 0.0)
    requires Rides(states[i], r) && ByeJob(0) in states[i].jobs
    ensures states[i + 1].registered == {} && states[i + 1].positions == r.positions - {(r.mountpoint, 0)}
  {
    RunStep(c, events, states, i);
    RideEnds(c, states[i], states[i + 1], r);
  }

  // ---- left behind ---------------------------------------------------------

  const A_AND_B: seq<Listing> := [Listing("A", NOWHERE), Listing("B", NOWHERE)]

  // A rover reports its place on A, switches to B and says bye.
  function LeftBehind(p: Place): seq<ServerEvent> {
    [Ask(Register("A", true, 0.0), NOWHERE), Ask(Register("B", true, 0.0), NOWHERE),
     HelloArrives(Some("*"), "A", None, FIRST), RunJob(Greeting(FIRST, "A"), 0, 0.0), StartTask(0), Pump(0, 0),
     DatagramArrives(0, FIRST, 0.0, Keepalive(Some(p))),
     DatagramArrives(0, FIRST, 0.0, SwitchTo("B", None)), RunJob(SwitchJob(0, "B", None), 0, 0.0),
     DeliverCancel(0), StartTask(1), Pump(1, 0),
     DatagramArrives(0, FIRST, 0.0, Bye), RunJob(ByeJob(0), 0, 0.0)]
  }

  // The mountpoints of this table are open, and there is no session.
  predicate Waiting(s: State, table: seq<Listing>, open: set<string>) {
    && s.registered == {} && s.sessions == map[] && s.tasks == [] && s.positions == map[]
    && s.table == table && s.net.mountpoints.Keys == open && s.net.transports.Keys == open && WellFormed(s.net)
  }

  lemma BothBasesOpen(s: State, t: State, c: Config)
    requires s == OnAsk(START, Register("A", true, 0.0), NOWHERE) && WellFormed(s.net)
    requires t == OnAsk(s, Register("B", true, 0.0), NOWHERE)
    ensures Waiting(t, A_AND_B, {"A", "B"})
  {
    RegisterOpens(c, START, "A", 0.0, NOWHERE);
    RegisterOpens(c, s, "B", 0.0, NOWHERE);
  }

  lemma LeftBehindOpens(c: Config, p: Place, states: seq<State>)
    requires IsRun(c, LeftBehind(p), states)
    ensures Waiting(states[2], A_AND_B, {"A", "B"})
  {
    RunStep(c, LeftBehind(p), states, 0);
    RunStep(c, LeftBehind(p), states, 1);
    BothBasesOpen(states[1], states[2], c);
  }

  function OnA(phase: Phase, positions: map<(string, nat), Place>): Ride {
    Ride("A", 0, phase, {"A", "B"}, A_AND_B, positions)
  }

  function OnB(phase: Phase, p: Place): Ride {
    Ride("B", 1, phase, {"A", "B"}, A_AND_B, map[("A", 0) := p])
  }

  lemma LeftBehindBegins(c: Config, p: Place, states: seq<State>)
    requires IsRun(c, LeftBehind(p), states)
    ensures Rides(states[4], OnA(Created, map[]))
  {
    LeftBehindOpens(c, p, states);
    RunStep(c, LeftBehind(p), states, 2);
    BeginsAt(c, LeftBehind(p), states, 3, "A");
  }

  lemma LeftBehindStreams(c: Config, p: Place, states: seq<State>) returns (sub: nat)
    requires IsRun(c, LeftBehind(p), states)
    ensures Rides(states[6], OnA(Streaming(sub), map[]))
  {
    LeftBehindBegins(c, p, states);
    RunStep(c, LeftBehind(p), states, 4);
    RunStep(c, LeftBehind(p), states, 5);
    sub := |states[4].net.subs|;
    RideStarts(states[4], states[5], OnA(Created, map[]));
    RideWaits(c, states[5], states[6], OnA(Streaming(sub), map[]), sub);
  }

  lemma LeftBehindReports(c: Config, p: Place, states: seq<State>) returns (sub: nat)
    requires IsRun(c, LeftBehind(p), states)
    ensures Rides(states[8], OnA(Streaming(sub), map[("A", 0) := p])) && SwitchJob(0, "B", None) in states[8].jobs
  {
    sub := LeftBehindStreams(c, p, states);
    RunStep(c, LeftBehind(p), states, 6);
    RunStep(c, LeftBehind(p), states, 7);
    RideReports(c, states[6], states[7], OnA(Streaming(sub), map[]), p);
    RideAsks(c, states[7], states[8], OnA(Streaming(sub), map[("A", 0) := p]), "B");
  }

  lemma LeftBehindSwitches(c: Config, p: Place, states: seq<State>)
    requires IsRun(c, LeftBehind(p), states)
    ensures Rides(states[9], OnB(Created, p))
  {
    var sub := LeftBehindReports(c, p, states);
    BIsListed();
    SwitchesAt(c, LeftBehind(p), states, 8, OnA(Streaming(sub), map[("A", 0) := p]), "B");
  }

  lemma BIsListed()
    ensures Lookup(A_AND_B, "B").Some?
  {
    assert A_AND_B[1].name == "B";
  }

  lemma LeftBehindCancels(c: Config, p: Place, states: seq<State>)
    requires IsRun(c, LeftBehind(p), states)
    ensures Rides(states[10], OnB(Created, p))
  {
    LeftBehindSwitches(c, p, states);
    RunStep(c, LeftBehind(p), states, 9);
    RideCancels(states[9], states[10], OnB(Created, p), 0);
  }

  lemma LeftBehindStreamsAgain(c: Config, p: Place, states: seq<State>) returns (sub: nat)
    requires IsRun(c, LeftBehind(p), states)
    ensures Rides(states[12], OnB(Streaming(sub), p))
  {
    LeftBehindCancels(c, p, states);
    RunStep(c, LeftBehind(p), states, 10);
    RunStep(c, LeftBehind(p), states, 11);
    sub := |states[10].net.subs|;
    RideStarts(states[10], states[11], OnB(Created, p));
    RideWaits(c, states[11], states[12], OnB(Streaming(sub), p), sub);
  }

  // The session is gone, and the position it reported on A is still kept.
  lemma PositionIsLeftBehind(c: Config, p: Place, states: seq<State>)
    requires IsRun(c, LeftBehind(p), states)
    ensures 0 in states[13].registered && states[14].registered == {}
    ensures UdpPositions.Tracked(states[14], 0, "A") == Some(p)
  {
    var sub := LeftBehindStreamsAgain(c, p, states);
    ByeAt(c, LeftBehind(p), states, 12, OnB(Streaming(sub), p));
    EndsAt(c, LeftBehind(p), states, 13, OnB(Streaming(sub), p));
  }

  // ---- back, and not served ------------------------------------------------

  // A rover's base closes its transport and comes back. The rover keeps being heard, and asks for the
  // base once more.
  function BaseIsBack(frame: Transport.Frame): seq<ServerEvent> {
    [Ask(Register("BASE", true, 0.0), NOWHERE), HelloArrives(Some("*"), "BASE", None, FIRST),
     RunJob(Greeting(FIRST, "BASE"), 0, 0.0), StartTask(0), Pump(0, 0),
     Ask(Close("BASE"), NOWHERE), Ask(RunShutdown(0), NOWHERE), Pump(0, 0),
     Ask(Register("BASE", true, 0.0), NOWHERE), Ask(Send("BASE", frame, 0.0), NOWHERE),
     DatagramArrives(0, FIRST, 0.0, Keepalive(None)),
     DatagramArrives(0, FIRST, 0.0, SwitchTo("BASE", None)), RunJob(SwitchJob(0, "BASE", None), 0, 0.0)]
  }

  function OnBase(phase: Phase, open: set<string>): Ride {
    Ride("BASE", 0, phase, open, [Listing("BASE", NOWHERE)], map[])
  }

  lemma OneBaseOpens(c: Config, s: State)
    requires s == OnAsk(START, Register("BASE", true, 0.0), NOWHERE)
    ensures Waiting(s, [Listing("BASE", NOWHERE)], {"BASE"}) && s.net.subs == []
  {
    RegisterOpens(c, START, "BASE", 0.0, NOWHERE);
  }

  lemma BackBegins(c: Config, frame: Transport.Frame, states: seq<State>)
    requires IsRun(c, BaseIsBack(frame), states)
    ensures Rides(states[3], OnBase(Created, {"BASE"})) && states[3].net.subs == []
    ensures "BASE" in states[3].net.mountpoints
  {
    RunStep(c, BaseIsBack(frame), states, 0);
    OneBaseOpens(c, states[1]);
    RunStep(c, BaseIsBack(frame), states, 1);
    BeginsAt(c, BaseIsBack(frame), states, 2, "BASE");
  }

  // The only subscriber is listed on the base's open transport, with this queue.
  predicate OnlyOn(n: System, queue: Transport.Subscriber) {
    && "BASE" in n.mountpoints && "BASE" in n.transports && |n.subs| == 1 && n.subs[0].listed
    && n.subs[0].hub == n.transports["BASE"] && n.subs[0].ledger.sub == queue
  }

  lemma BackStarts(s: State, t: State)
    requires Rides(s, OnBase(Created, {"BASE"})) && s.net.subs == [] && "BASE" in s.net.mountpoints
    requires t == OnStart(s, 0)
    ensures Rides(t, OnBase(Streaming(0), {"BASE"})) && Fresh(t, 0) && OnlyOn(t.net, Transport.FRESH)
  {
    RideStarts(s, t, OnBase(Created, {"BASE"}));
  }

  lemma BackWaits(c: Config, s: State, t: State)
    requires Rides(s, OnBase(Streaming(0), {"BASE"})) && Fresh(s, 0) && OnlyOn(s.net, Transport.FRESH)
    requires t == OnPump(c, s, 0, 0)
    ensures Rides(t, OnBase(Streaming(0), {"BASE"})) && OnlyOn(t.net, Transport.FRESH.(consumer := Transport.Blocked))
  {
    RideWaits(c, s, t, OnBase(Streaming(0), {"BASE"}), 0);
  }

  lemma BackStreams(c: Config, frame: Transport.Frame, states: seq<State>)
    requires IsRun(c, BaseIsBack(frame), states)
    ensures Rides(states[5], OnBase(Streaming(0), {"BASE"}))
    ensures OnlyOn(states[5].net, Transport.FRESH.(consumer := Transport.Blocked))
  {
    BackBegins(c, frame, states);
    RunStep(c, BaseIsBack(frame), states, 3);
    RunStep(c, BaseIsBack(frame), states, 4);
    BackStarts(states[3], states[4]);
    BackWaits(c, states[4], states[5]);
  }

  lemma BackCloses(s: State, t: State)
    requires Rides(s, OnBase(Streaming(0), {"BASE"})) && OnlyOn(s.net, Transport.FRESH.(consumer := Transport.Blocked))
    requires t == OnAsk(s, Close("BASE"), NOWHERE)
    ensures Rides(t, OnBase(Streaming(0), {})) && "BASE" in t.net.mountpoints && "BASE" !in t.net.transports
    ensures |t.net.subs| == 1 && t.net.subs[0].scheduled
    ensures t.net.subs[0].ledger.sub == Transport.FRESH.(consumer := Transport.Blocked)
  {
    assert t.positions == map[];
  }

  lemma BackShutsDown(s: State, t: State)
    requires Rides(s, OnBase(Streaming(0), {})) && |s.net.subs| == 1 && s.net.subs[0].scheduled
    requires s.net.subs[0].ledger.sub == Transport.FRESH.(consumer := Transport.Blocked)
    requires "BASE" in s.net.mountpoints && "BASE" !in s.net.transports
    requires t == OnAsk(s, RunShutdown(0), NOWHERE)
    ensures Rides(t, OnBase(Streaming(0), {})) && "BASE" in t.net.mountpoints && "BASE" !in t.net.transports
    ensures |t.net.subs| == 1
    ensures t.net.subs[0].ledger.sub == Transport.Subscriber([Transport.Sentinel], true, 1, Transport.Woken)
  {
  }

  lemma BackEnds(c: Config, s: State, t: State)
    requires Rides(s, OnBase(Streaming(0), {})) && "BASE" in s.net.mountpoints && "BASE" !in s.net.transports
    requires |s.net.subs| == 1
    requires s.net.subs[0].ledger.sub == Transport.Subscriber([Transport.Sentinel], true, 1, Transport.Woken)
    requires t == OnPump(c, s, 0, 0)
    ensures Rides(t, OnBase(Ended, {})) && "BASE" in t.net.mountpoints && "BASE" !in t.net.transports
  {
  }

  lemma BackIsShut(c: Config, frame: Transport.Frame, states: seq<State>)
    requires IsRun(c, BaseIsBack(frame), states)
    ensures Rides(states[7], OnBase(Streaming(0), {})) && |states[7].net.subs| == 1
    ensures "BASE" in states[7].net.mountpoints && "BASE" !in states[7].net.transports
    ensures states[7].net.subs[0].ledger.sub == Transport.Subscriber([Transport.Sentinel], true, 1, Transport.Woken)
  {
    BackStreams(c, frame, states);
    RunStep(c, BaseIsBack(frame), states, 5);
    RunStep(c, BaseIsBack(frame), states, 6);
    BackCloses(states[5], states[6]);
    BackShutsDown(states[6], states[7]);
  }

  lemma BackIsSilent(c: Config, frame: Transport.Frame, states: seq<State>)
    requires IsRun(c, BaseIsBack(frame), states)
    ensures Rides(states[8], OnBase(Ended, {})) && "BASE" in states[8].net.mountpoints
    ensures "BASE" !in states[8].net.transports
  {
    BackIsShut(c, frame, states);
    RunStep(c, BaseIsBack(frame), states, 7);
    BackEnds(c, states[7], states[8]);
  }

  lemma BackReopens(s: State, t: State)
    requires Rides(s, OnBase(Ended, {})) && "BASE" in s.net.mountpoints && "BASE" !in s.net.transports
    requires t == OnAsk(s, Register("BASE", true, 0.0), NOWHERE)
    ensures Rides(t, OnBase(Ended, {"BASE"})) && "BASE" in t.net.mountpoints && IsTheBase(t.net)
  {
    assert t.table == [Listing("BASE", NOWHERE)];
  }

  // The base's transport is one of its own.
  predicate IsTheBase(n: System) {
    "BASE" in n.transports && n.transports["BASE"] < |n.hubs| && n.hubs[n.transports["BASE"]].mountpoint == "BASE"
  }

  lemma BackPublishes(s: State, t: State, frame: Transport.Frame)
    requires Rides(s, OnBase(Ended, {"BASE"})) && "BASE" in s.net.mountpoints && IsTheBase(s.net)
    requires t == OnAsk(s, Send("BASE", frame, 0.0), NOWHERE)
    ensures Rides(t, OnBase(Ended, {"BASE"})) && PublishedOn(t.net, "BASE", frame)
  {
    var h := s.net.transports["BASE"];
    var log := t.net.hubs[h].log;
    assert log[|log| - 1].frame == frame;
  }

  lemma BackHasPublished(c: Config, frame: Transport.Frame, states: seq<State>)
    requires IsRun(c, BaseIsBack(frame), states)
    ensures Rides(states[10], OnBase(Ended, {"BASE"})) && PublishedOn(states[10].net, "BASE", frame)
  {
    BackIsSilent(c, frame, states);
    RunStep(c, BaseIsBack(frame), states, 8);
    RunStep(c, BaseIsBack(frame), states, 9);
    BackReopens(states[8], states[9]);
    BackPublishes(states[9], states[10], frame);
  }

  lemma BackIsHeard(c: Config, s: State, t: State, r: Ride)
    requires Rides(s, r) && t == OnDatagram(c, s, 0, FIRST, 0.0, Keepalive(None))
    ensures Rides(t, r)
  {
  }

  lemma BackIsGranted(c: Config, s: State, t: State)
    requires Rides(s, OnBase(Ended, {"BASE"})) && t == OnJob(c, s, SwitchJob(0, "BASE", None), 0, 0.0)
    ensures Resolve(c, s.table, "*", "BASE", None) == Allowed("BASE")
    ensures Rides(t, OnBase(Ended, {"BASE"}))
  {
  }

  // The base publishes again, its session is on the table and was heard, and asking for the base was
  // granted, but its task has ended and it is sent nothing.
  lemma BackAndNotServed(c: Config, frame: Transport.Frame, states: seq<State>)
    requires IsRun(c, BaseIsBack(frame), states)
    ensures var s := states[13];
            && 0 in s.registered && 0 in s.sessions && s.sessions[0].mountpoint == "BASE" && "BASE" in s.net.transports
            && PublishedOn(s.net, "BASE", frame) && UdpSilence.Stuck(s, 0, 0) && Built(s, 0) == []
  {
    BackHasPublished(c, frame, states);
    RunStep(c, BaseIsBack(frame), states, 10);
    RunStep(c, BaseIsBack(frame), states, 11);
    RunStep(c, BaseIsBack(frame), states, 12);
    BackIsHeard(c, states[10], states[11], OnBase(Ended, {"BASE"}));
    RideAsks(c, states[11], states[12], OnBase(Ended, {"BASE"}), "BASE");
    BackIsGranted(c, states[12], states[13]);
  }
}

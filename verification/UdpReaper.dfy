/** How long UDP sessions live: what renews their deadline, whom the reaper picks, and why a session
    leaves the table. Everything is said about the datagrams and passes of a run.
 */
module UdpReaper {
  import opened Caster
  import opened Nearest
  import opened UdpRuns
  import opened UdpSafety
  import opened UdpSessions
  import opened Wrappers

  datatype Heard = Heard(at: real, addr: Addr)

  // ---- what a session is heard by ------------------------------------------

  // The datagram of session id a step accepts, if it does: one naming the registered session, or the
  // hello that opens it.
  function News(c: Config, s: State, e: ServerEvent, id: nat): Option<Heard> {
    match e
    case DatagramArrives(own, addr, now, _) =>
      if own == id && id in s.registered && id in s.sessions then Some(Heard(now, addr)) else None
    case RunJob(job, freshId, now) =>
      if job.HelloJob? && job in s.jobs && freshId == id && id !in s.sessions && Admissible(c, s, job)
      then Some(Heard(now, job.addr)) else None
    case _ => None
  }

  predicate Admissible(c: Config, s: State, job: Job)
    requires job.HelloJob?
  {
    job.claims.Some? && Resolve(c, s.table, job.claims.value, job.requested, job.position).Allowed?
  }

  // Nothing about where and how long the session can be reached changed.
  predicate SameContact(s: State, s': State, id: nat) {
    && (id in s'.sessions <==> id in s.sessions)
    && (id in s.sessions ==>
          s'.sessions[id].addr == s.sessions[id].addr && s'.sessions[id].expiry == s.sessions[id].expiry)
  }

  predicate ContactIs(c: Config, s: State, id: nat, h: Heard) {
    id in s.sessions && s.sessions[id].addr == h.addr && s.sessions[id].expiry == h.at + c.ttl
  }

  ghost predicate Renews(c: Config, s: State, s': State, e: ServerEvent, id: nat) {
    match News(c, s, e, id)
    case Some(h) => ContactIs(c, s', id, h)
    case None => SameContact(s, s', id)
  }

  lemma RepointedSameContact(s: State, own: nat, mountpoint: string, id: nat)
    requires own in s.sessions
    ensures SameContact(s, Repointed(s, own, mountpoint), id)
  {
  }

  lemma TornDownSameContact(s: State, own: nat, current: Option<nat>, id: nat)
    requires own in s.sessions
    ensures SameContact(s, TornDown(s, own, current), id)
  {
  }

  lemma KeepaliveSameContact(c: Config, s: State, own: nat, position: Option<Place>, id: nat)
    requires own in s.sessions
    ensures SameContact(s, OnKeepalive(c, s, own, position), id)
  {
    if position.Some? {
      var t := s.(positions := s.positions[(s.sessions[own].mountpoint, own) := position.value]);
      var nearest := NearestOf(s.table, c.distance, position.value);
      if nearest.Some? {
        RepointedSameContact(t, own, nearest.value, id);
      }
    }
  }

  lemma DatagramRenews(c: Config, s: State, own: nat, addr: Addr, now: real, body: Body, id: nat)
    ensures Renews(c, s, OnDatagram(c, s, own, addr, now, body), DatagramArrives(own, addr, now, body), id)
  {
    if own in s.registered && own in s.sessions && body.Keepalive? {
      KeepaliveSameContact(c, Refreshed(c, s, own, addr, now), own, body.position, id);
    }
  }

  lemma HelloRenews(c: Config, s: State, job: Job, freshId: nat, now: real, id: nat)
    requires job.HelloJob? && freshId !in s.sessions
    ensures var s' := OnHello(c, s, job, freshId, now);
            if freshId == id && Admissible(c, s, job) then ContactIs(c, s', id, Heard(now, job.addr))
            else SameContact(s, s', id)
  {
  }

  lemma SessionJobSameContact(c: Config, s: State, own: nat, job: Job, id: nat)
    requires own in s.sessions
    ensures SameContact(s, OnSessionJob(c, s, own, job), id)
  {
    if job.SwitchJob? {
      var r := Resolve(c, s.table, s.sessions[own].scope, job.requested, job.position);
      if r.Allowed? {
        var t := s.(sessions := s.sessions[own := s.sessions[own].(dynamic := job.requested == "NEAREST")]);
        RepointedSameContact(t, own, r.mountpoint, id);
      }
    } else {
      TornDownSameContact(s, own, None, id);
      TornDownSameContact(Sent(s, Error(OUT_OF_RANGE), s.sessions[own].addr), own, None, id);
    }
  }

  lemma JobRenews(c: Config, s: State, job: Job, freshId: nat, now: real, id: nat)
    ensures Renews(c, s, OnJob(c, s, job, freshId, now), RunJob(job, freshId, now), id)
  {
    if job in s.jobs {
      var t := s.(jobs := s.jobs - multiset{job});
      if job.HelloJob? {
        if freshId !in s.sessions {
          HelloRenews(c, t, job, freshId, now, id);
        }
      } else if job.session in s.sessions {
        SessionJobSameContact(c, t, job.session, job, id);
      }
    }
  }

  lemma StartSameContact(s: State, task: nat, id: nat)
    requires WellFormed(s.net)
    ensures SameContact(s, OnStart(s, task), id)
  {
    if Runnable(s, task) && s.tasks[task].phase.Created? && !s.tasks[task].cancelled {
      var session := s.sessions[s.tasks[task].session];
      var asked := Asked(s, Subscribe(session.mountpoint));
      var t := EndedTask(Sent(asked, Error(MOUNTPOINT_UNAVAILABLE), session.addr), task);
      TornDownSameContact(t, s.tasks[task].session, Some(task), id);
    }
  }

  lemma FrameSameContact(c: Config, s: State, task: nat, sub: nat, frame: Transport.Frame, timestamp: int, id: nat)
    requires Runnable(s, task) && WellFormed(s.net)
    ensures SameContact(s, OnFrame(c, s, task, sub, frame, timestamp), id)
  {
  }

  lemma PumpSameContact(c: Config, s: State, task: nat, timestamp: int, id: nat)
    requires WellFormed(s.net)
    ensures SameContact(s, OnPump(c, s, task, timestamp), id)
  {
    if Runnable(s, task) && s.tasks[task].phase.Streaming? {
      var sub := s.tasks[task].phase.sub;
      var step := Consume(sub, GetStep(s.net, sub));
      var reply := Handled(s.net, step).1;
      if reply.Answered? && reply.outcome.Got? {
        FrameSameContact(c, Asked(s, step), task, sub, reply.outcome.frame, timestamp, id);
      }
    }
  }

  lemma ReapNextSameContact(s: State, id: nat)
    ensures SameContact(s, OnReapNext(s), id)
  {
    if s.reaping != [] && s.reaping[0].0 in s.sessions {
      TornDownSameContact(s.(reaping := s.reaping[1..]), s.reaping[0].0, None, id);
    }
  }

  // A step sets a session's address and deadline exactly if it accepts a datagram of it.
  lemma StepRenews(c: Config, s: State, e: ServerEvent, id: nat)
    requires WellFormed(s.net)
    ensures Renews(c, s, Next(c, s, e), e, id)
  {
    match e {
      case DatagramArrives(own, addr, now, body) => DatagramRenews(c, s, own, addr, now, body, id);
      case RunJob(job, freshId, now) => JobRenews(c, s, job, freshId, now, id);
      case StartTask(task) => StartSameContact(s, task, id);
      case Pump(task, timestamp) => PumpSameContact(c, s, task, timestamp, id);
      case DeliverCancel(task) => assert SameContact(s, OnCancel(s, task), id);
      case ReapPass(now, picked) => ReapNextSameContact(Queued(s, now, picked), id);
      case ReapNext(_) => ReapNextSameContact(s, id);
      case _ =>
    }
  }

  // ---- how a session leaves the table --------------------------------------

  // The step takes the registered session id off the table.
  predicate EndsBy(s: State, e: ServerEvent, id: nat) {
    match e
    case RunJob(job, _, _) => job in s.jobs && (job == ByeJob(id) || job == EvictJob(id))
    case StartTask(task) =>
      && Runnable(s, task) && s.tasks[task].phase.Created? && !s.tasks[task].cancelled && s.tasks[task].session == id
      && s.sessions[id].mountpoint !in s.net.transports
    case ReapPass(now, picked) => Picks(s, now, picked) && picked != [] && picked[0] == id
    case ReapNext(_) => s.reaping != [] && s.reaping[0].0 == id
    case _ => false
  }

  predicate Leaves(s: State, s': State, e: ServerEvent, id: nat) {
    id in s.registered && id in s.sessions ==> (id !in s'.registered <==> EndsBy(s, e, id))
  }

  // The reaper's queue is filled only by a pass that picks the session, at the time of the pass.
  predicate QueuedWhy(s: State, s': State, e: ServerEvent, id: nat, at: real) {
    (id, at) in s'.reaping ==>
      (id, at) in s.reaping || (e.ReapPass? && e.now == at && Picks(s, at, e.picked) && id in e.picked)
  }

  // No mountpoint is left for the session at this place: none in range at all, or not its own.
  predicate OutOfReach(c: Config, s: State, id: nat, p: Place)
    requires id in s.sessions
  {
    if s.sessions[id].dynamic then NearestOf(s.table, c.distance, p) == None
    else OutOfRange(s.table, s.sessions[id].mountpoint, c.distance, p)
  }

  predicate Spawns(c: Config, s: State, e: ServerEvent, job: Job) {
    && e.DatagramArrives? && !job.HelloJob? && e.session == job.session && News(c, s, e, job.session).Some?
    && (job.ByeJob? ==> e.body == Bye)
    && (job.EvictJob? ==>
          e.body.Keepalive? && e.body.position.Some? && OutOfReach(c, s, job.session, e.body.position.value))
  }

  predicate SpawnedWhy(c: Config, s: State, s': State, e: ServerEvent, job: Job) {
    (job.ByeJob? || job.EvictJob?) && job in s'.jobs ==> job in s.jobs || Spawns(c, s, e, job)
  }

  lemma DatagramSpawns(c: Config, s: State, own: nat, addr: Addr, now: real, body: Body, job: Job)
    ensures SpawnedWhy(c, s, OnDatagram(c, s, own, addr, now, body), DatagramArrives(own, addr, now, body), job)
  {
    if own in s.registered && own in s.sessions && body.Keepalive? && body.position.Some? {
      var t := Refreshed(c, s, own, addr, now);
      var jobs := OnKeepalive(c, t, own, body.position).jobs;
      assert jobs == s.jobs || (jobs == s.jobs + multiset{EvictJob(own)} && OutOfReach(c, s, own, body.position.value));
    }
  }

  lemma StepSpawns(c: Config, s: State, e: ServerEvent, job: Job)
    requires WellFormed(s.net)
    ensures SpawnedWhy(c, s, Next(c, s, e), e, job)
  {
    match e {
      case DatagramArrives(own, addr, now, body) => DatagramSpawns(c, s, own, addr, now, body, job);
      case RunJob(run, freshId, now) => assert OnJob(c, s, run, freshId, now).jobs <= s.jobs;
      case StartTask(task) => assert OnStart(s, task).jobs == s.jobs;
      case Pump(task, timestamp) => assert OnPump(c, s, task, timestamp).jobs == s.jobs;
      case DeliverCancel(task) => assert OnCancel(s, task).jobs == s.jobs;
      case ReapPass(now, picked) => assert OnReapPass(s, now, picked).jobs == s.jobs;
      case ReapNext(_) => assert OnReapNext(s).jobs == s.jobs;
      case _ =>
    }
  }

  lemma ReapNextQueue(s: State, id: nat, at: real)
    ensures (id, at) in OnReapNext(s).reaping ==> (id, at) in s.reaping
  {
  }

  lemma StepQueues(c: Config, s: State, e: ServerEvent, id: nat, at: real)
    requires WellFormed(s.net)
    ensures QueuedWhy(s, Next(c, s, e), e, id, at)
  {
    match e {
      case DatagramArrives(own, addr, now, body) => assert OnDatagram(c, s, own, addr, now, body).reaping == s.reaping;
      case RunJob(run, freshId, now) => assert OnJob(c, s, run, freshId, now).reaping == s.reaping;
      case StartTask(task) => assert OnStart(s, task).reaping == s.reaping;
      case Pump(task, timestamp) => assert OnPump(c, s, task, timestamp).reaping == s.reaping;
      case DeliverCancel(task) => assert OnCancel(s, task).reaping == s.reaping;
      case ReapPass(now, picked) => ReapNextQueue(Queued(s, now, picked), id, at);
      case ReapNext(_) => ReapNextQueue(s, id, at);
      case _ =>
    }
  }

  // ---- the table, step by step ---------------------------------------------

  lemma TornDownLeaves(s: State, own: nat, current: Option<nat>)
    requires own in s.sessions
    ensures TornDown(s, own, current).registered == s.registered - {own}
  {
  }

  lemma DatagramRegistered(c: Config, s: State, own: nat, addr: Addr, now: real, body: Body)
    ensures OnDatagram(c, s, own, addr, now, body).registered == s.registered
  {
  }

  lemma JobRegistered(c: Config, s: State, job: Job, freshId: nat, now: real)
    requires job in s.jobs && !job.HelloJob? && job.session in s.sessions
    ensures OnJob(c, s, job, freshId, now).registered ==
            if job.SwitchJob? then s.registered else s.registered - {job.session}
  {
    var t := s.(jobs := s.jobs - multiset{job});
    if job.EvictJob? {
      TornDownLeaves(Sent(t, Error(OUT_OF_RANGE), t.sessions[job.session].addr), job.session, None);
    } else if job.ByeJob? {
      TornDownLeaves(t, job.session, None);
    }
  }

  lemma HelloRegistered(c: Config, s: State, job: Job, freshId: nat, now: real)
    requires job.HelloJob?
    ensures s.registered <= OnJob(c, s, job, freshId, now).registered
  {
  }

  lemma StartRegistered(s: State, task: nat, id: nat)
    requires WellFormed(s.net) && id in s.registered && id in s.sessions
    ensures id !in OnStart(s, task).registered <==> EndsBy(s, StartTask(task), id)
  {
    if Runnable(s, task) && s.tasks[task].phase.Created? && !s.tasks[task].cancelled {
      var own := s.tasks[task].session;
      var session := s.sessions[own];
      var asked := Asked(s, Subscribe(session.mountpoint));
      var t := EndedTask(Sent(asked, Error(MOUNTPOINT_UNAVAILABLE), session.addr), task);
      TornDownLeaves(t, own, Some(task));
    }
  }

  lemma PumpRegistered(c: Config, s: State, task: nat, timestamp: int)
    requires WellFormed(s.net)
    ensures OnPump(c, s, task, timestamp).registered == s.registered
  {
  }

  lemma ReapNextRegistered(s: State, id: nat)
    requires id in s.registered && id in s.sessions
    ensures id !in OnReapNext(s).registered <==> s.reaping != [] && s.reaping[0].0 == id
  {
    if s.reaping != [] && s.reaping[0].0 in s.sessions {
      TornDownLeaves(s.(reaping := s.reaping[1..]), s.reaping[0].0, None);
    }
  }

  lemma JobLeaves(c: Config, s: State, job: Job, freshId: nat, now: real, id: nat)
    requires id in s.registered && id in s.sessions
    ensures id !in OnJob(c, s, job, freshId, now).registered <==>
        job in s.jobs && (job == ByeJob(id) || job == EvictJob(id))
  {
    if job.HelloJob? {
      HelloRegistered(c, s, job, freshId, now);
    } else if job in s.jobs && job.session in s.sessions {
      JobRegistered(c, s, job, freshId, now);
    }
  }

  lemma ReapPassLeaves(s: State, now: real, picked: seq<nat>, id: nat)
    requires id in s.registered && id in s.sessions
    ensures id !in OnReapPass(s, now, picked).registered <==> Picks(s, now, picked) && picked != [] && picked[0] == id
  {
    if Picks(s, now, picked) {
      ReapNextRegistered(Queued(s, now, picked), id);
    }
  }

  // A registered session leaves the table in exactly these steps.
  lemma StepLeaves(c: Config, s: State, e: ServerEvent, id: nat)
    requires WellFormed(s.net) && id in s.registered && id in s.sessions
    ensures id !in Next(c, s, e).registered <==> EndsBy(s, e, id)
  {
    match e {
      case DatagramArrives(own, addr, now, body) => DatagramRegistered(c, s, own, addr, now, body);
      case RunJob(job, freshId, now) => JobLeaves(c, s, job, freshId, now, id);
      case StartTask(task) => StartRegistered(s, task, id);
      case Pump(task, timestamp) => PumpRegistered(c, s, task, timestamp);
      case DeliverCancel(task) => assert OnCancel(s, task).registered == s.registered;
      case ReapPass(now, picked) => ReapPassLeaves(s, now, picked, id);
      case ReapNext(_) => ReapNextRegistered(s, id);
      case _ =>
    }
  }

  // ---- runs ----------------------------------------------------------------

  ghost predicate Lived(c: Config, s: State, s': State, e: ServerEvent) {
    && (forall id :: Renews(c, s, s', e, id))
    && (forall id, at :: QueuedWhy(s, s', e, id, at))
    && (forall job :: SpawnedWhy(c, s, s', e, job))
    && (forall id :: Leaves(s, s', e, id))
  }

  ghost predicate Living(c: Config, events: seq<ServerEvent>, states: seq<State>) {
    && |states| == |events| + 1 && states[0] == START
    && (forall n :: 0 <= n < |states| ==> states[n].registered <= states[n].sessions.Keys)
    && forall n :: 0 <= n < |events| ==> Lived(c, states[n], states[n + 1], events[n])
  }

  lemma StepIsLived(c: Config, s: State, e: ServerEvent)
    requires WellFormed(s.net)
    ensures Lived(c, s, Next(c, s, e), e)
  {
    forall id: nat
      ensures Renews(c, s, Next(c, s, e), e, id) && Leaves(s, Next(c, s, e), e, id)
    {
      StepRenews(c, s, e, id);
      if id in s.registered && id in s.sessions {
        StepLeaves(c, s, e, id);
      }
    }
    forall id: nat, at: real
      ensures QueuedWhy(s, Next(c, s, e), e, id, at)
    {
      StepQueues(c, s, e, id, at);
    }
    forall job: Job
      ensures SpawnedWhy(c, s, Next(c, s, e), e, job)
    {
      StepSpawns(c, s, e, job);
    }
  }

  lemma RunIsLiving(c: Config, events: seq<ServerEvent>, states: seq<State>)
    requires IsRun(c, events, states)
    ensures Living(c, events, states)
  {
    forall n | 0 <= n < |states|
      ensures states[n].registered <= states[n].sessions.Keys
    {
      StateIsSound(c, events, states, n);
    }
    forall n | 0 <= n < |events|
      ensures Lived(c, states[n], states[n + 1], events[n])
    {
      StepIsLived(c, states[n], events[n]);
    }
  }

  // ---- the latest datagram -------------------------------------------------

  // Step i of a run accepted a datagram of the session, and no later step before step n did.
  ghost predicate HeardLast(
      c: Config, events: seq<ServerEvent>, states: seq<State>, n: nat, i: nat, id: nat, h: Heard) {
    && i < n <= |events| < |states|
    && News(c, states[i], events[i], id) == Some(h)
    && forall j :: i < j < n ==> News(c, states[j], events[j], id).None?
  }

  lemma {:induction false} LatestDatagramIn(c: Config, events: seq<ServerEvent>, states: seq<State>, n: nat, id: nat)
    returns (i: nat, h: Heard)
    requires Living(c, events, states) && n <= |events| && id in states[n].sessions
    ensures HeardLast(c, events, states, n, i, id, h) && ContactIs(c, states[n], id, h)
    decreases n
  {
    var m := n - 1;
    assert n > 0;
    assert Lived(c, states[m], states[n], events[m]);
    assert Renews(c, states[m], states[n], events[m], id);
    var news := News(c, states[m], events[m], id);
    if news.Some? {
      i, h := m, news.value;
    } else {
      i, h := LatestDatagramIn(c, events, states, m, id);
    }
  }

  lemma HeardLastIsOne(
      c: Config, events: seq<ServerEvent>, states: seq<State>, n: nat, id: nat, i: nat, h: Heard, j: nat, g: Heard)
    requires HeardLast(c, events, states, n, i, id, h) && HeardLast(c, events, states, n, j, id, g)
    ensures i == j && h == g
  {
  }

  // The gauge is the size of the session table, and the return address and deadline of every session
  // are those of the latest datagram accepted from it: its deadline is that moment plus the TTL.
  ghost predicate Bookkept(c: Config, events: seq<ServerEvent>, states: seq<State>, n: nat)
    requires n < |states|
  {
    && states[n].gauge == |states[n].registered| && states[n].registered <= states[n].sessions.Keys
    && forall id :: id in states[n].sessions ==> exists i, h ::
         HeardLast(c, events, states, n, i, id, h) && ContactIs(c, states[n], id, h)
  }

  lemma BookkeepingIsExact(c: Config, events: seq<ServerEvent>, states: seq<State>, n: nat)
    requires IsRun(c, events, states) && n <= |events|
    ensures Bookkept(c, events, states, n)
  {
    RunIsLiving(c, events, states);
    StateIsSound(c, events, states, n);
    forall id | id in states[n].sessions
      ensures exists i, h :: HeardLast(c, events, states, n, i, id, h) && ContactIs(c, states[n], id, h)
    {
      var i, h := LatestDatagramIn(c, events, states, n, id);
    }
  }

  // ---- the reaper ----------------------------------------------------------

  // By step n the latest datagram of the session was more than the TTL before `at`.
  ghost predicate Silent(c: Config, events: seq<ServerEvent>, states: seq<State>, n: nat, id: nat, at: real) {
    exists i, h :: HeardLast(c, events, states, n, i, id, h) && h.at + c.ttl < at
  }

  ghost predicate PickedAt(events: seq<ServerEvent>, states: seq<State>, p: nat, id: nat, at: real) {
    && p < |events| < |states| && events[p].ReapPass? && events[p].now == at
    && Picks(states[p], at, events[p].picked) && id in events[p].picked
  }

  lemma SilentIffPastDeadline(c: Config, events: seq<ServerEvent>, states: seq<State>, n: nat, id: nat, at: real)
    requires Living(c, events, states) && n <= |events| && id in states[n].sessions
    ensures Silent(c, events, states, n, id, at) <==> states[n].sessions[id].expiry < at
  {
    var i, h := LatestDatagramIn(c, events, states, n, id);
    forall j, g | HeardLast(c, events, states, n, j, id, g)
      ensures g == h
    {
      HeardLastIsOne(c, events, states, n, id, i, h, j, g);
    }
  }

  // A pass of the reaper picks exactly the sessions not heard from for longer than the TTL.
  lemma ReapPassPicksTheSilent(
      c: Config, events: seq<ServerEvent>, states: seq<State>, p: nat, now: real, picked: seq<nat>, id: nat)
    requires IsRun(c, events, states) && p < |events|
    requires events[p] == ReapPass(now, picked) && Picks(states[p], now, picked)
    ensures id in picked <==> id in states[p].registered && Silent(c, events, states, p, id, now)
  {
    RunIsLiving(c, events, states);
    if id in states[p].sessions {
      SilentIffPastDeadline(c, events, states, p, id, now);
    }
    assert id in picked <==> id in StaleSessions(states[p], now);
  }

  lemma {:induction false} QueuedHasItsPass(
      c: Config, events: seq<ServerEvent>, states: seq<State>, n: nat, id: nat, at: real)
    returns (p: nat)
    requires Living(c, events, states) && n <= |events| && (id, at) in states[n].reaping
    ensures p < n && PickedAt(events, states, p, id, at)
    decreases n
  {
    assert n > 0;
    assert Lived(c, states[n - 1], states[n], events[n - 1]);
    assert QueuedWhy(states[n - 1], states[n], events[n - 1], id, at);
    if (id, at) in states[n - 1].reaping {
      p := QueuedHasItsPass(c, events, states, n - 1, id, at);
    } else {
      p := n - 1;
    }
  }

  // Whoever the reaper still has to tear down was picked by an earlier pass, being silent for longer
  // than the TTL at that moment.
  lemma ReapedOnlyAfterSilence(c: Config, events: seq<ServerEvent>, states: seq<State>, n: nat, id: nat, at: real)
    returns (p: nat)
    requires IsRun(c, events, states) && n <= |events| && (id, at) in states[n].reaping
    ensures p < n && PickedAt(events, states, p, id, at)
    ensures id in states[p].registered && Silent(c, events, states, p, id, at)
  {
    RunIsLiving(c, events, states);
    p := QueuedHasItsPass(c, events, states, n, id, at);
    ReapPassPicksTheSilent(c, events, states, p, at, events[p].picked, id);
  }

  // ---- a session that keeps being heard ------------------------------------

  // The clock reading an event carries.
  function ClockOf(e: ServerEvent): Option<real> {
    match e
    case DatagramArrives(_, _, now, _) => Some(now)
    case RunJob(_, _, now) => Some(now)
    case ReapPass(now, _) => Some(now)
    case ReapNext(now) => Some(now)
    case _ => None
  }

  ghost predicate ClockNeverGoesBack(events: seq<ServerEvent>) {
    forall i, j :: 0 <= i <= j < |events| && ClockOf(events[i]).Some? && ClockOf(events[j]).Some? ==>
      ClockOf(events[i]).value <= ClockOf(events[j]).value
  }

  lemma NewsHasTheClock(c: Config, s: State, e: ServerEvent, id: nat)
    requires News(c, s, e, id).Some?
    ensures ClockOf(e) == Some(News(c, s, e, id).value.at)
  {
  }

  // Two consecutive datagrams of the session, and its last one and each later pass of the reaper, are
  // at most the TTL apart.
  ghost predicate KeptAlive(c: Config, events: seq<ServerEvent>, states: seq<State>, id: nat)
    requires |states| == |events| + 1
  {
    && (forall i: nat, j: nat, h ::
          HeardLast(c, events, states, j, i, id, h) && j < |events| && News(c, states[j], events[j], id).Some? ==>
            News(c, states[j], events[j], id).value.at <= h.at + c.ttl)
    && (forall i: nat, p: nat, h ::
          HeardLast(c, events, states, |events|, i, id, h) && i < p < |events| && events[p].ReapPass? ==>
            events[p].now <= h.at + c.ttl)
  }

  // The first datagram of the session from step p on, or the end of the run.
  lemma {:induction false} NextDatagram(c: Config, events: seq<ServerEvent>, states: seq<State>, p: nat, id: nat)
    returns (j: nat)
    requires |states| == |events| + 1 && p <= |events|
    ensures p <= j <= |events| && (j < |events| ==> News(c, states[j], events[j], id).Some?)
    ensures forall k :: p <= k < j ==> News(c, states[k], events[k], id).None?
    decreases |events| - p
  {
    if p == |events| || News(c, states[p], events[p], id).Some? {
      j := p;
    } else {
      j := NextDatagram(c, events, states, p + 1, id);
    }
  }

  lemma NewsNotBeforeThePass(c: Config, events: seq<ServerEvent>, states: seq<State>, p: nat, j: nat, id: nat)
    requires |states| == |events| + 1 && ClockNeverGoesBack(events) && p <= j < |events| && events[p].ReapPass?
    requires News(c, states[j], events[j], id).Some?
    ensures events[p].now <= News(c, states[j], events[j], id).value.at
  {
    NewsHasTheClock(c, states[j], events[j], id);
    assert ClockOf(events[p]) == Some(events[p].now);
  }

  // Every pass comes within the TTL of the session's latest datagram.
  lemma KeptAliveAtPass(c: Config, events: seq<ServerEvent>, states: seq<State>, id: nat, p: nat, i: nat, h: Heard)
    requires |states| == |events| + 1 && ClockNeverGoesBack(events) && KeptAlive(c, events, states, id)
    requires p < |events| && events[p].ReapPass? && HeardLast(c, events, states, p, i, id, h)
    ensures events[p].now <= h.at + c.ttl
  {
    var j := NextDatagram(c, events, states, p, id);
    assert HeardLast(c, events, states, j, i, id, h);
    if j < |events| {
      NewsNotBeforeThePass(c, events, states, p, j, id);
    }
  }

  // A session heard from at least every TTL is never picked by the reaper.
  lemma KeptAliveIsNeverPicked(c: Config, events: seq<ServerEvent>, states: seq<State>, id: nat, p: nat, at: real)
    requires IsRun(c, events, states) && ClockNeverGoesBack(events) && KeptAlive(c, events, states, id)
    ensures !PickedAt(events, states, p, id, at)
  {
    if PickedAt(events, states, p, id, at) {
      ReapPassPicksTheSilent(c, events, states, p, at, events[p].picked, id);
      var i, h :| HeardLast(c, events, states, p, i, id, h) && h.at + c.ttl < at;
      KeptAliveAtPass(c, events, states, id, p, i, h);
    }
  }

  lemma KeptAliveIsNeverQueued(c: Config, events: seq<ServerEvent>, states: seq<State>, id: nat, n: nat, at: real)
    requires IsRun(c, events, states) && ClockNeverGoesBack(events) && KeptAlive(c, events, states, id) && n <= |events|
    ensures (id, at) !in states[n].reaping
  {
    if (id, at) in states[n].reaping {
      var p := ReapedOnlyAfterSilence(c, events, states, n, id, at);
      KeptAliveIsNeverPicked(c, events, states, id, p, at);
    }
  }

  // ---- why a session ends --------------------------------------------------

  // An earlier datagram of the session made the server spawn this handler.
  ghost predicate Caused(c: Config, events: seq<ServerEvent>, states: seq<State>, n: nat, job: Job)
    requires n <= |events| < |states|
  {
    exists j: nat :: j < n && Spawns(c, states[j], events[j], job)
  }

  lemma {:induction false} JobHasItsCause(c: Config, events: seq<ServerEvent>, states: seq<State>, n: nat, job: Job)
    requires Living(c, events, states) && n <= |events| && job in states[n].jobs && (job.ByeJob? || job.EvictJob?)
    ensures Caused(c, events, states, n, job)
    decreases n
  {
    assert n > 0;
    assert Lived(c, states[n - 1], states[n], events[n - 1]);
    assert SpawnedWhy(c, states[n - 1], states[n], events[n - 1], job);
    if job in states[n - 1].jobs {
      JobHasItsCause(c, events, states, n - 1, job);
      var j: nat :| j < n - 1 && Spawns(c, states[j], events[j], job);
      assert j < n;
    }
  }

  ghost predicate Picked(events: seq<ServerEvent>, states: seq<State>, n: nat, id: nat) {
    exists p: nat, at :: p <= n && PickedAt(events, states, p, id, at)
  }

  // A session leaves the table only because it said bye, because it reported a place out of reach of
  // every mountpoint it may use, because its mountpoint was gone when its egress started, or because
  // a pass of the reaper picked it.
  lemma SessionEndsOnlyFor(c: Config, events: seq<ServerEvent>, states: seq<State>, n: nat, id: nat)
    requires IsRun(c, events, states) && n < |events| && id in states[n].registered && id !in states[n + 1].registered
    ensures Caused(c, events, states, n, ByeJob(id)) || Caused(c, events, states, n, EvictJob(id))
         || (events[n].StartTask? && EndsBy(states[n], events[n], id)) || Picked(events, states, n, id)
  {
    RunIsLiving(c, events, states);
    assert Lived(c, states[n], states[n + 1], events[n]);
    assert Leaves(states[n], states[n + 1], events[n], id);
    match events[n] {
      case RunJob(job, _, _) => JobHasItsCause(c, events, states, n, job);
      case ReapPass(now, picked) => assert PickedAt(events, states, n, id, now);
      case ReapNext(_) =>
        var at := states[n].reaping[0].1;
        assert (id, at) in states[n].reaping;
        var p := QueuedHasItsPass(c, events, states, n, id, at);
      case _ =>
    }
  }

  // So a session heard from at least every TTL ends only by its own doing or for want of a base.
  lemma KeptAliveEndsOnlyFor(c: Config, events: seq<ServerEvent>, states: seq<State>, n: nat, id: nat)
    requires IsRun(c, events, states) && ClockNeverGoesBack(events) && KeptAlive(c, events, states, id)
    requires n < |events| && id in states[n].registered && id !in states[n + 1].registered
    ensures Caused(c, events, states, n, ByeJob(id)) || Caused(c, events, states, n, EvictJob(id))
         || (events[n].StartTask? && EndsBy(states[n], events[n], id))
  {
    SessionEndsOnlyFor(c, events, states, n, id);
    forall p: nat, at: real
      ensures !PickedAt(events, states, p, id, at)
    {
      KeptAliveIsNeverPicked(c, events, states, id, p, at);
    }
  }

  // ---- heard from too late -------------------------------------------------

  // A datagram of the session was accepted between steps p and m, not longer than the TTL before `now`.
  ghost predicate HeardBetween(
      c: Config, events: seq<ServerEvent>, states: seq<State>, p: nat, m: nat, id: nat, now: real)
    requires m <= |events| < |states|
  {
    exists j :: p < j < m && News(c, states[j], events[j], id).Some? &&
        now <= News(c, states[j], events[j], id).value.at + c.ttl
  }

  // The session a pass picked and the reaper now gets to is gone after this step. It has been heard
  // from within the TTL, and goes all the same, exactly if a datagram of it came in after the pass.
  lemma FreshWhenReapedIff(
      c: Config, events: seq<ServerEvent>, states: seq<State>, p: nat, m: nat, id: nat, at: real, now: real)
    requires IsRun(c, events, states) && ClockNeverGoesBack(events) && p < m < |events|
    requires PickedAt(events, states, p, id, at) && events[m] == ReapNext(now) && id in states[m].registered
    requires states[m].reaping != [] && states[m].reaping[0] == (id, at)
    ensures id !in states[m + 1].registered
    ensures !Silent(c, events, states, m, id, now) <==> HeardBetween(c, events, states, p, m, id, now)
  {
    RunIsLiving(c, events, states);
    assert Lived(c, states[m], states[m + 1], events[m]);
    assert Leaves(states[m], states[m + 1], events[m], id);
    ReapPassPicksTheSilent(c, events, states, p, at, events[p].picked, id);
    FreshIffHeardBetween(c, events, states, p, m, id, at, now);
  }

  lemma FreshIffHeardBetween(
      c: Config, events: seq<ServerEvent>, states: seq<State>, p: nat, m: nat, id: nat, at: real, now: real)
    requires Living(c, events, states) && ClockNeverGoesBack(events) && p < m < |events|
    requires events[p].ReapPass? && events[p].now == at && events[m] == ReapNext(now)
    requires Silent(c, events, states, p, id, at) && id in states[m].sessions
    ensures !Silent(c, events, states, m, id, now) <==> HeardBetween(c, events, states, p, m, id, now)
  {
    var i, h := LatestDatagramIn(c, events, states, m, id);
    SilentIffPastDeadline(c, events, states, m, id, now);
    assert ClockOf(events[p]) == Some(at) && ClockOf(events[m]) == Some(now);
    if i < p {
      EarlierIsSilent(c, events, states, p, m, id, at, i, h);
    }
    forall j | p < j < m && News(c, states[j], events[j], id).Some?
      ensures News(c, states[j], events[j], id).value.at <= h.at
    {
      NewsHasTheClock(c, states[j], events[j], id);
      NewsHasTheClock(c, states[i], events[i], id);
    }
  }

  lemma EarlierIsSilent(
      c: Config, events: seq<ServerEvent>, states: seq<State>, p: nat, m: nat, id: nat, at: real, i: nat, h: Heard)
    requires Silent(c, events, states, p, id, at) && i < p <= m && HeardLast(c, events, states, m, i, id, h)
    ensures h.at + c.ttl < at
  {
    var j, g :| HeardLast(c, events, states, p, j, id, g) && g.at + c.ttl < at;
    assert HeardLast(c, events, states, p, i, id, h);
    HeardLastIsOne(c, events, states, p, id, i, h, j, g);
  }
}

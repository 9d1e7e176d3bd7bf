/** What the rovers' requests do over whole runs: which one decides where a session is, whether it follows
    its rover, and when a reported place evicts it.
 */
module UdpRequests {
  import opened Caster
  import opened Nearest
  import opened UdpRuns
  import opened UdpSafety
  import opened UdpSessions
  import opened Wrappers

  // ---- granted requests ----------------------------------------------------

  // What a granted request gives a session: the token's scope, the mountpoint, and whether it asked for
  // the nearest one.
  datatype Grant = Grant(scope: string, mountpoint: string, nearest: bool)

  function GrantOf(c: Config, s: State, scope: string, requested: string, position: Option<Place>): Option<Grant> {
    match Resolve(c, s.table, scope, requested, position)
    case Allowed(m) => Some(Grant(scope, m, requested == "NEAREST"))
    case Refused(_) => None
  }

  // The request of session id the step grants: the hello that opens it, or a switch.
  function Granted(c: Config, s: State, e: ServerEvent, id: nat): Option<Grant> {
    if !e.RunJob? || e.job !in s.jobs then None
    else
      match e.job
      case HelloJob(claims, requested, position, _) =>
        if e.freshId == id && id !in s.sessions && claims.Some? then GrantOf(c, s, claims.value, requested, position)
        else None
      case SwitchJob(own, requested, position) =>
        if own == id && id in s.sessions then GrantOf(c, s, s.sessions[id].scope, requested, position) else None
      case _ => None
  }

  // The place the step accepts from the session.
  function PlaceFrom(s: State, e: ServerEvent, id: nat): Option<Place> {
    if e.DatagramArrives? && e.session == id && id in s.registered && id in s.sessions && e.body.Keepalive?
    then e.body.position else None
  }

  // Where a session that follows its rover is once that has reported this place.
  function Followed(c: Config, s: State, id: nat, p: Place): string
    requires id in s.sessions
  {
    var session, nearest := s.sessions[id], NearestOf(s.table, c.distance, p);
    if nearest.Some? && (session.scope == "*" || session.scope == "NEAREST" || session.scope == nearest.value)
    then nearest.value else session.mountpoint
  }

  predicate GrantHolds(s: State, id: nat, g: Grant) {
    && id in s.sessions && s.sessions[id].scope == g.scope && s.sessions[id].mountpoint == g.mountpoint
    && s.sessions[id].dynamic == g.nearest
  }

  predicate KeepsGrant(s: State, s': State, id: nat, mountpoint: string) {
    && id in s.sessions && id in s'.sessions && s'.sessions[id].scope == s.sessions[id].scope
    && s'.sessions[id].dynamic == s.sessions[id].dynamic && s'.sessions[id].mountpoint == mountpoint
  }

  // The step does to the session what its requests and reports say.
  ghost predicate Obeys(c: Config, s: State, s': State, e: ServerEvent, id: nat) {
    match Granted(c, s, e, id)
    case Some(g) => GrantHolds(s', id, g)
    case None =>
      if id !in s.sessions then id !in s'.sessions
      else match PlaceFrom(s, e, id)
        case Some(p) =>
          KeepsGrant(s, s', id, if s.sessions[id].dynamic then Followed(c, s, id, p) else s.sessions[id].mountpoint)
        case None => KeepsGrant(s, s', id, s.sessions[id].mountpoint)
  }

  // ---- one step ------------------------------------------------------------

  // Nothing of the grant changed.
  predicate Untouched(s: State, s': State, id: nat) {
    if id in s.sessions then KeepsGrant(s, s', id, s.sessions[id].mountpoint) else id !in s'.sessions
  }

  lemma RepointedMoves(s: State, own: nat, m: string, id: nat)
    requires own in s.sessions
    ensures if own == id then KeepsGrant(s, Repointed(s, own, m), id, m) else Untouched(s, Repointed(s, own, m), id)
  {
  }

  lemma TornDownUntouched(s: State, own: nat, current: Option<nat>, id: nat)
    requires own in s.sessions
    ensures Untouched(s, TornDown(s, own, current), id)
  {
  }

  lemma KeepaliveObeys(c: Config, s: State, own: nat, p: Place, id: nat)
    requires own in s.sessions
    ensures var s' := OnKeepalive(c, s, own, Some(p));
            if own == id && s.sessions[id].dynamic then KeepsGrant(s, s', id, Followed(c, s, id, p))
            else Untouched(s, s', id)
  {
    var t := s.(positions := s.positions[(s.sessions[own].mountpoint, own) := p]);
    var nearest := NearestOf(s.table, c.distance, p);
    if nearest.Some? {
      RepointedMoves(t, own, nearest.value, id);
    }
  }

  lemma DatagramObeys(c: Config, s: State, own: nat, addr: Addr, now: real, body: Body, id: nat)
    ensures Obeys(c, s, OnDatagram(c, s, own, addr, now, body), DatagramArrives(own, addr, now, body), id)
  {
    if own in s.registered && own in s.sessions && body.Keepalive? && body.position.Some? {
      KeepaliveObeys(c, Refreshed(c, s, own, addr, now), own, body.position.value, id);
    }
  }

  lemma SwitchObeys(c: Config, s: State, own: nat, job: Job, id: nat)
    requires own in s.sessions && job.SwitchJob?
    ensures var s' := OnSwitch(c, s, own, job.requested, job.position);
            var g := GrantOf(c, s, s.sessions[own].scope, job.requested, job.position);
            if own == id && g.Some? then GrantHolds(s', id, g.value) else Untouched(s, s', id)
  {
    var r := Resolve(c, s.table, s.sessions[own].scope, job.requested, job.position);
    if r.Allowed? {
      var session := s.sessions[own].(dynamic := job.requested == "NEAREST");
      RepointedMoves(s.(sessions := s.sessions[own := session]), own, r.mountpoint, id);
    }
  }

  lemma EndingJobUntouched(c: Config, s: State, own: nat, job: Job, id: nat)
    requires own in s.sessions && (job.ByeJob? || job.EvictJob?)
    ensures Untouched(s, OnSessionJob(c, s, own, job), id)
  {
    TornDownUntouched(s, own, None, id);
    TornDownUntouched(Sent(s, Error(OUT_OF_RANGE), s.sessions[own].addr), own, None, id);
  }

  lemma HelloObeys(c: Config, s: State, job: Job, freshId: nat, now: real, id: nat)
    requires job.HelloJob? && freshId !in s.sessions
    ensures var s' := OnHello(c, s, job, freshId, now);
            var g := if job.claims.Some? then GrantOf(c, s, job.claims.value, job.requested, job.position) else None;
            if freshId == id && g.Some? then GrantHolds(s', id, g.value) else Untouched(s, s', id)
  {
  }

  lemma JobObeys(c: Config, s: State, job: Job, freshId: nat, now: real, id: nat)
    ensures Obeys(c, s, OnJob(c, s, job, freshId, now), RunJob(job, freshId, now), id)
  {
    if job in s.jobs {
      var t := s.(jobs := s.jobs - multiset{job});
      if job.HelloJob? {
        if freshId !in s.sessions {
          HelloObeys(c, t, job, freshId, now, id);
        }
      } else if job.session in s.sessions {
        if job.SwitchJob? {
          SwitchObeys(c, t, job.session, job, id);
        } else {
          EndingJobUntouched(c, t, job.session, job, id);
        }
      }
    }
  }

  lemma StartUntouched(s: State, task: nat, id: nat)
    requires WellFormed(s.net)
    ensures Untouched(s, OnStart(s, task), id)
  {
    if Runnable(s, task) && s.tasks[task].phase.Created? && !s.tasks[task].cancelled {
      var own := s.tasks[task].session;
      var asked := Asked(s, Subscribe(s.sessions[own].mountpoint));
      var t := EndedTask(Sent(asked, Error(MOUNTPOINT_UNAVAILABLE), s.sessions[own].addr), task);
      TornDownUntouched(t, own, Some(task), id);
    }
  }

  lemma PumpUntouched(c: Config, s: State, task: nat, timestamp: int, id: nat)
    requires WellFormed(s.net)
    ensures Untouched(s, OnPump(c, s, task, timestamp), id)
  {
  }

  lemma ReapNextUntouched(s: State, id: nat)
    ensures Untouched(s, OnReapNext(s), id)
  {
    if s.reaping != [] && s.reaping[0].0 in s.sessions {
      TornDownUntouched(s.(reaping := s.reaping[1..]), s.reaping[0].0, None, id);
    }
  }

  lemma ReapPassUntouched(s: State, now: real, picked: seq<nat>, id: nat)
    ensures Untouched(s, OnReapPass(s, now, picked), id)
  {
    if Picks(s, now, picked) {
      ReapNextUntouched(Queued(s, now, picked), id);
    }
  }

  lemma CancelUntouched(s: State, task: nat, id: nat)
    requires WellFormed(s.net)
    ensures Untouched(s, OnCancel(s, task), id)
  {
  }

  // A session's token is that of its hello; where it is and whether it follows its rover change only by
  // a granted request, and by a reported place if it follows.
  lemma StepObeys(c: Config, s: State, e: ServerEvent, id: nat)
    requires WellFormed(s.net)
    ensures Obeys(c, s, Next(c, s, e), e, id)
  {
    match e {
      case DatagramArrives(own, addr, now, body) => DatagramObeys(c, s, own, addr, now, body, id);
      case RunJob(job, freshId, now) => JobObeys(c, s, job, freshId, now, id);
      case StartTask(task) => StartUntouched(s, task, id);
      case Pump(task, timestamp) => PumpUntouched(c, s, task, timestamp, id);
      case DeliverCancel(task) => CancelUntouched(s, task, id);
      case ReapPass(now, picked) => ReapPassUntouched(s, now, picked, id);
      case ReapNext(_) => ReapNextUntouched(s, id);
      case _ =>
    }
  }

  // ---- over a run ----------------------------------------------------------

  ghost predicate ObeysAll(c: Config, s: State, s': State, e: ServerEvent) {
    forall id :: Obeys(c, s, s', e, id)
  }

  ghost predicate Obeying(c: Config, events: seq<ServerEvent>, states: seq<State>) {
    && |states| == |events| + 1 && states[0] == START
    && forall k :: 0 <= k < |events| ==> ObeysAll(c, states[k], states[k + 1], events[k])
  }

  lemma StepObeysAll(c: Config, s: State, e: ServerEvent)
    requires WellFormed(s.net)
    ensures ObeysAll(c, s, Next(c, s, e), e)
  {
    forall id: nat
      ensures Obeys(c, s, Next(c, s, e), e, id)
    {
      StepObeys(c, s, e, id);
    }
  }

  lemma RunIsObeying(c: Config, events: seq<ServerEvent>, states: seq<State>)
    requires IsRun(c, events, states)
    ensures Obeying(c, events, states)
  {
    forall k | 0 <= k < |events|
      ensures ObeysAll(c, states[k], states[k + 1], events[k])
    {
      StepObeysAll(c, states[k], events[k]);
    }
  }

  // Step j granted a request of the session, and no later step before step n did.
  ghost predicate GrantedLast(
      c: Config, events: seq<ServerEvent>, states: seq<State>, n: nat, j: nat, id: nat, g: Grant) {
    && j < n <= |events| < |states| && Granted(c, states[j], events[j], id) == Some(g)
    && forall k :: j < k < n ==> Granted(c, states[k], events[k], id) == None
  }

  // What the last granted request of a session still decides: its scope, whether it follows its rover,
  // and, if not, where it is.
  predicate IsAsGranted(s: State, id: nat, g: Grant) {
    && id in s.sessions && s.sessions[id].scope == g.scope && s.sessions[id].dynamic == g.nearest
    && (!g.nearest ==> s.sessions[id].mountpoint == g.mountpoint)
  }

  lemma {:induction false} LastGrantIn(c: Config, events: seq<ServerEvent>, states: seq<State>, n: nat, id: nat)
    returns (j: nat, g: Grant)
    requires Obeying(c, events, states) && n <= |events| && id in states[n].sessions
    ensures GrantedLast(c, events, states, n, j, id, g) && IsAsGranted(states[n], id, g)
    decreases n
  {
    assert n > 0;
    assert ObeysAll(c, states[n - 1], states[n], events[n - 1]);
    assert Obeys(c, states[n - 1], states[n], events[n - 1], id);
    var granted := Granted(c, states[n - 1], events[n - 1], id);
    if granted.Some? {
      j, g := n - 1, granted.value;
    } else {
      j, g := LastGrantIn(c, events, states, n - 1, id);
    }
  }

  // In every reachable state a session is as its last granted request says: it follows its rover exactly
  // if that asked for NEAREST, and otherwise it is on the mountpoint that was granted.
  lemma SessionIsAsLastGranted(
      c: Config, events: seq<ServerEvent>, states: seq<State>, n: nat, j: nat, id: nat, g: Grant)
    requires IsRun(c, events, states) && GrantedLast(c, events, states, n, j, id, g) && id in states[n].sessions
    ensures IsAsGranted(states[n], id, g)
  {
    RunIsObeying(c, events, states);
    var i, h := LastGrantIn(c, events, states, n, id);
    assert i == j;
  }

  // ---- the token -----------------------------------------------------------

  // Step j is the hello that opened the session.
  predicate AdmittedAt(events: seq<ServerEvent>, states: seq<State>, j: nat, id: nat) {
    && j < |events| < |states| && events[j].RunJob? && events[j].job.HelloJob? && events[j].job in states[j].jobs
    && id !in states[j].sessions && id in states[j + 1].sessions
  }

  lemma {:induction false} SessionHasItsHello(c: Config, events: seq<ServerEvent>, states: seq<State>, n: nat, id: nat)
    returns (j: nat)
    requires Obeying(c, events, states) && n <= |events| && id in states[n].sessions
    ensures j < n && AdmittedAt(events, states, j, id)
    decreases n
  {
    assert n > 0;
    assert ObeysAll(c, states[n - 1], states[n], events[n - 1]);
    assert Obeys(c, states[n - 1], states[n], events[n - 1], id);
    if id in states[n - 1].sessions {
      j := SessionHasItsHello(c, events, states, n - 1, id);
    } else {
      j := n - 1;
    }
  }

  // A token decides for life: in every later state its session has that very scope, and with any other
  // than "*" and "NEAREST" it is on exactly that mountpoint.
  lemma TokenDecides(c: Config, events: seq<ServerEvent>, states: seq<State>, j: nat, n: nat, id: nat)
    requires IsRun(c, events, states) && AdmittedAt(events, states, j, id) && j < n <= |events|
    ensures var claims := events[j].job.claims;
            && claims.Some? && id in states[n].sessions && states[n].sessions[id].scope == claims.value
            && (claims.value != "*" && claims.value != "NEAREST" ==> states[n].sessions[id].mountpoint == claims.value)
  {
    RunIsObeying(c, events, states);
    assert ObeysAll(c, states[j], states[j + 1], events[j]);
    assert Obeys(c, states[j], states[j + 1], events[j], id);
    RunIsTraced(c, events, states);
    ScopeIsFixedIn(c, states, events, j + 1, n, id);
    StateHoldsScopes(c, events, states, n);
    assert ScopeAllows(states[n].sessions[id].scope, states[n].sessions[id].mountpoint);
  }

  // ---- following the rover -------------------------------------------------

  // Step n accepts this place from the session.
  predicate ReportsAt(events: seq<ServerEvent>, states: seq<State>, n: nat, id: nat, p: Place) {
    n < |events| < |states| && PlaceFrom(states[n], events[n], id) == Some(p)
  }

  // A session whose last granted request asked for NEAREST goes with its rover: an accepted place puts
  // it on the listing nearest to that place if its token allows it. Every other accepted place leaves
  // its session where it is.
  lemma RoverIsFollowedIff(
      c: Config, events: seq<ServerEvent>, states: seq<State>, n: nat, j: nat, id: nat, g: Grant, p: Place)
    requires IsRun(c, events, states) && ReportsAt(events, states, n, id, p)
    requires GrantedLast(c, events, states, n, j, id, g)
    ensures id in states[n + 1].sessions
    ensures forall i: nat :: g.nearest && IsNearest(states[n].table, c.distance, p, i) ==>
              var name := states[n].table[i].name;
              states[n + 1].sessions[id].mountpoint ==
              if g.scope == "*" || g.scope == "NEAREST" || g.scope == name then name
              else states[n].sessions[id].mountpoint
    ensures var table := states[n].table;
            !g.nearest || (forall i :: 0 <= i < |table| ==> !InMask(table[i].site, c.distance, p)) ==>
              states[n + 1].sessions[id].mountpoint == states[n].sessions[id].mountpoint
  {
    SessionIsAsLastGranted(c, events, states, n, j, id, g);
    RunIsObeying(c, events, states);
    assert ObeysAll(c, states[n], states[n + 1], events[n]);
    assert Obeys(c, states[n], states[n + 1], events[n], id);
    NearestIff(states[n].table, c.distance, p);
  }

  // ---- eviction ------------------------------------------------------------

  // No mountpoint is left at this place for a session granted this.
  ghost predicate NothingInReach(c: Config, s: State, g: Grant, p: Place) {
    if g.nearest then forall i :: 0 <= i < |s.table| ==> !InMask(s.table[i].site, c.distance, p)
    else exists i :: 0 <= i < |s.table| && s.table[i].name == g.mountpoint && IsBeyond(s.table[i].site, c, p)
  }

  predicate IsBeyond(site: Site, c: Config, p: Place) {
    site.place.Some? && site.mask > 0.0 && site.mask < c.distance(site.place.value, p)
  }

  lemma BeyondItsMask(c: Config, table: seq<Listing>, name: string, p: Place)
    requires Distinct(table)
    ensures OutOfRange(table, name, c.distance, p) <==>
            exists i :: 0 <= i < |table| && table[i].name == name && IsBeyond(table[i].site, c, p)
  {
    var site := Lookup(table, name);
    if site.Some? {
      var i :| 0 <= i < |table| && table[i] == Listing(name, site.value);
      assert forall j :: 0 <= j < |table| && table[j].name == name ==> j == i;
    }
  }

  lemma DatagramEvictsIff(c: Config, s: State, id: nat, addr: Addr, now: real, p: Place, g: Grant)
    requires id in s.registered && IsAsGranted(s, id, g) && Distinct(s.table)
    ensures var jobs := OnDatagram(c, s, id, addr, now, Keepalive(Some(p))).jobs;
            jobs == s.jobs + if NothingInReach(c, s, g, p) then multiset{EvictJob(id)} else multiset{}
  {
    NearestIff(s.table, c.distance, p);
    BeyondItsMask(c, s.table, g.mountpoint, p);
  }

  // An accepted place evicts its session exactly if no listing is in range of it, for one whose last
  // granted request asked for NEAREST, or else if it lies beyond the mask of the granted mountpoint.
  lemma KeepaliveEvictsIff(
      c: Config, events: seq<ServerEvent>, states: seq<State>, n: nat, j: nat, id: nat, g: Grant, p: Place)
    requires IsRun(c, events, states) && ReportsAt(events, states, n, id, p)
    requires GrantedLast(c, events, states, n, j, id, g)
    ensures states[n + 1].jobs ==
            states[n].jobs + if NothingInReach(c, states[n], g, p) then multiset{EvictJob(id)} else multiset{}
  {
    SessionIsAsLastGranted(c, events, states, n, j, id, g);
    TableFollowsRegistry(c, events, states, n);
    RunStep(c, events, states, n);
    DatagramEvictsIff(c, states[n], id, events[n].addr, events[n].now, p, g);
  }

  // Running it tells the rover, at its last address, and takes the session off the table.
  lemma EvictionEnds(c: Config, s: State, id: nat, freshId: nat, now: real)
    requires EvictJob(id) in s.jobs && id in s.registered && id in s.sessions
    ensures var s' := OnJob(c, s, EvictJob(id), freshId, now);
            && s'.registered == s.registered - {id}
            && s'.outbox == s.outbox + [(Error(OUT_OF_RANGE), s.sessions[id].addr)]
            && s'.jobs == s.jobs - multiset{EvictJob(id)}
  {
  }

  // ---- what is spawned -----------------------------------------------------

  // Every other accepted datagram spawns exactly what it asks for; one of an unknown session does nothing.
  lemma DatagramSpawnsExactly(c: Config, s: State, id: nat, addr: Addr, now: real, body: Body)
    ensures var s' := OnDatagram(c, s, id, addr, now, body);
            if id !in s.registered || id !in s.sessions then s' == s
            else match body
              case SwitchTo(requested, position) => s'.jobs == s.jobs + multiset{SwitchJob(id, requested, position)}
              case Bye => s'.jobs == s.jobs + multiset{ByeJob(id)}
              case NoBody => s'.jobs == s.jobs
              case Keepalive(position) => position.None? ==> s'.jobs == s.jobs && s'.positions == s.positions
  {
  }

  // The step brings the datagram the handler was spawned for.
  predicate AskedBy(s: State, e: ServerEvent, job: Job) {
    match job
    case HelloJob(claims, requested, position, addr) => e == HelloArrives(claims, requested, position, addr)
    case SwitchJob(id, requested, position) =>
      e.DatagramArrives? && e.session == id && id in s.registered && e.body == SwitchTo(requested, position)
    case ByeJob(id) => e.DatagramArrives? && e.session == id && id in s.registered && e.body == Bye
    case EvictJob(id) => PlaceFrom(s, e, id).Some?
  }

  lemma DatagramAsks(c: Config, s: State, own: nat, addr: Addr, now: real, body: Body, job: Job)
    ensures job in OnDatagram(c, s, own, addr, now, body).jobs ==>
              job in s.jobs || AskedBy(s, DatagramArrives(own, addr, now, body), job)
  {
    if own in s.registered && own in s.sessions && body.Keepalive? && body.position.Some? {
      var jobs := OnKeepalive(c, Refreshed(c, s, own, addr, now), own, body.position).jobs;
      assert jobs == s.jobs || jobs == s.jobs + multiset{EvictJob(own)};
    }
  }

  lemma StepAsks(c: Config, s: State, e: ServerEvent, job: Job)
    requires WellFormed(s.net)
    ensures job in Next(c, s, e).jobs ==> job in s.jobs || AskedBy(s, e, job)
  {
    match e {
      case DatagramArrives(own, addr, now, body) => DatagramAsks(c, s, own, addr, now, body, job);
      case RunJob(run, freshId, now) => assert OnJob(c, s, run, freshId, now).jobs <= s.jobs;
      case StartTask(task) => assert OnStart(s, task).jobs == s.jobs;
      case Pump(task, timestamp) => assert OnPump(c, s, task, timestamp).jobs == s.jobs;
      case DeliverCancel(task) => assert OnCancel(s, task).jobs == s.jobs;
      case ReapPass(now, picked) => assert OnReapPass(s, now, picked).jobs == s.jobs;
      case ReapNext(_) => assert OnReapNext(s).jobs == s.jobs;
      case _ =>
    }
  }

  ghost predicate AsksFor(s: State, s': State, e: ServerEvent) {
    forall job :: job in s'.jobs && job !in s.jobs ==> AskedBy(s, e, job)
  }

  ghost predicate Asking(events: seq<ServerEvent>, states: seq<State>) {
    && |states| == |events| + 1 && states[0] == START
    && forall k :: 0 <= k < |events| ==> AsksFor(states[k], states[k + 1], events[k])
  }

  lemma StepAsksFor(c: Config, s: State, e: ServerEvent, s': State)
    requires WellFormed(s.net) && s' == Next(c, s, e)
    ensures AsksFor(s, s', e)
  {
    forall job | job in s'.jobs && job !in s.jobs
      ensures AskedBy(s, e, job)
    {
      StepAsks(c, s, e, job);
    }
  }

  lemma RunIsAsking(c: Config, events: seq<ServerEvent>, states: seq<State>)
    requires IsRun(c, events, states)
    ensures Asking(events, states)
  {
    forall k | 0 <= k < |events|
      ensures AsksFor(states[k], states[k + 1], events[k])
    {
      RunStep(c, events, states, k);
      StepAsksFor(c, states[k], events[k], states[k + 1]);
    }
  }

  lemma {:induction false} JobIn(events: seq<ServerEvent>, states: seq<State>, n: nat, job: Job) returns (a: nat)
    requires Asking(events, states) && n <= |events| && job in states[n].jobs
    ensures a < n && AskedBy(states[a], events[a], job)
    decreases n
  {
    assert n > 0;
    assert AsksFor(states[n - 1], states[n], events[n - 1]);
    if job in states[n - 1].jobs {
      a := JobIn(events, states, n - 1, job);
    } else {
      a := n - 1;
    }
  }

  // No handler runs for nothing: every request granted was brought by an earlier datagram, with that very
  // token, mountpoint and position.
  lemma GrantWasAskedFor(c: Config, events: seq<ServerEvent>, states: seq<State>, j: nat, id: nat, g: Grant)
    returns (a: nat)
    requires IsRun(c, events, states) && j < |events| && Granted(c, states[j], events[j], id) == Some(g)
    ensures a < j && events[j].RunJob? && AskedBy(states[a], events[a], events[j].job)
  {
    RunIsAsking(c, events, states);
    a := JobIn(events, states, j, events[j].job);
  }

  // ---- what is answered ----------------------------------------------------

  // int() of the TTL: its whole part, towards zero.
  lemma TruncatedIff(x: real, n: int)
    ensures Truncated(x) == n <==>
            if x >= 0.0 then n as real <= x < n as real + 1.0 else n as real - 1.0 < x <= n as real
  {
  }

  // Whom a step other than a pump round tells what.
  function Answers(c: Config, s: State, e: ServerEvent): seq<(Packet, Addr)>
    requires WellFormed(s.net)
  {
    match e
    case RunJob(job, freshId, _) =>
      if job !in s.jobs then []
      else if job.HelloJob? then (if freshId in s.sessions then [] else [(HelloAnswer(c, s, job, freshId), job.addr)])
      else if job.session !in s.sessions then []
      else if job.EvictJob? then [(Error(OUT_OF_RANGE), s.sessions[job.session].addr)]
      else if job.ByeJob? then []
      else
        var r := Resolve(c, s.table, s.sessions[job.session].scope, job.requested, job.position);
        if r.Refused? then [(Error(r.code), s.sessions[job.session].addr)] else []
    case StartTask(task) =>
      if && task < |s.tasks| && s.tasks[task].session in s.sessions && s.tasks[task].session in s.pumped
         && s.tasks[task].phase == Created && !s.tasks[task].cancelled
         && s.sessions[s.tasks[task].session].mountpoint !in s.net.transports
      then [(Error(MOUNTPOINT_UNAVAILABLE), s.sessions[s.tasks[task].session].addr)] else []
    case _ => []
  }

  // A hello is answered by the session it opened and where that is, with the key and the intervals, or by
  // why there is none.
  function HelloAnswer(c: Config, s: State, job: Job, freshId: nat): Packet
    requires job.HelloJob?
  {
    if job.claims.None? then Error(INVALID_TOKEN)
    else match Resolve(c, s.table, job.claims.value, job.requested, job.position)
      case Refused(code) => Error(code)
      case Allowed(m) =>
        var kid := if c.signing then c.kid else "";
        HelloAck(freshId, m, kid, c.keepaliveInterval, Truncated(c.ttl))
  }

  lemma JobAnswers(c: Config, s: State, job: Job, freshId: nat, now: real)
    requires WellFormed(s.net)
    ensures OnJob(c, s, job, freshId, now).outbox == s.outbox + Answers(c, s, RunJob(job, freshId, now))
  {
    if job in s.jobs {
      var t := s.(jobs := s.jobs - multiset{job});
      if job.HelloJob? {
        if freshId !in s.sessions {
          HelloIsAnswered(c, t, job, freshId, now);
        }
      } else if job.session in s.sessions {
        SessionJobAnswers(c, t, job, freshId, now);
      }
    }
  }

  lemma HelloIsAnswered(c: Config, s: State, job: Job, freshId: nat, now: real)
    requires job.HelloJob?
    ensures OnHello(c, s, job, freshId, now).outbox == s.outbox + [(HelloAnswer(c, s, job, freshId), job.addr)]
  {
  }

  lemma SessionJobAnswers(c: Config, s: State, job: Job, freshId: nat, now: real)
    requires WellFormed(s.net) && !job.HelloJob? && job.session in s.sessions
    ensures OnSessionJob(c, s, job.session, job).outbox ==
            s.outbox + Answers(c, s.(jobs := multiset{job}), RunJob(job, freshId, now))
  {
  }

  lemma StartAnswers(c: Config, s: State, task: nat)
    requires WellFormed(s.net)
    ensures OnStart(s, task).outbox == s.outbox + Answers(c, s, StartTask(task))
  {
  }

  lemma CancelAnswers(s: State, task: nat)
    requires WellFormed(s.net)
    ensures OnCancel(s, task).outbox == s.outbox
  {
  }

  // Nobody is told anything else, and every answer goes to where it was asked from, or to the session's
  // latest address.
  lemma StepAnswers(c: Config, s: State, e: ServerEvent)
    requires WellFormed(s.net) && !e.Pump?
    ensures Next(c, s, e).outbox == s.outbox + Answers(c, s, e)
  {
    match e {
      case DatagramArrives(own, addr, now, body) => assert OnDatagram(c, s, own, addr, now, body).outbox == s.outbox;
      case RunJob(job, freshId, now) => JobAnswers(c, s, job, freshId, now);
      case StartTask(task) => StartAnswers(c, s, task);
      case DeliverCancel(task) => CancelAnswers(s, task);
      case ReapPass(now, picked) => assert OnReapPass(s, now, picked).outbox == s.outbox;
      case ReapNext(_) => assert OnReapNext(s).outbox == s.outbox;
      case _ =>
    }
  }
}

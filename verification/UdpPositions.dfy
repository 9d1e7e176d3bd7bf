/** The positions the UDP server tracks: over every run, which report each one comes from, and which
    outlive their session.
 */
module UdpPositions {
  import opened Caster
  import opened Nearest
  import opened UdpReaper
  import opened UdpRuns
  import opened UdpSafety
  import opened UdpSessions
  import opened Wrappers

  // The position kept for a session under a mountpoint.
  function Tracked(s: State, id: nat, m: string): Option<Place> {
    if (m, id) in s.positions then Some(s.positions[(m, id)]) else None
  }

  // ---- one step ------------------------------------------------------------

  // The position the step accepts from a registered session that is on this mountpoint.
  function Reported(s: State, e: ServerEvent, id: nat, m: string): Option<Place> {
    match e
    case DatagramArrives(own, _, _, body) =>
      if && own == id && id in s.registered && id in s.sessions && s.sessions[id].mountpoint == m
         && body.Keepalive?
      then body.position else None
    case _ => None
  }

  // The step closes or unregisters the mountpoint.
  predicate Shuts(s: State, e: ServerEvent, m: string) {
    && e.Ask? && m in s.net.mountpoints
    && (e.request == Unregister(m) || (e.request == Close(m) && m in s.net.transports))
  }

  // The step takes the session off the table while it is on this mountpoint.
  predicate EndsOn(s: State, e: ServerEvent, id: nat, m: string) {
    id in s.registered && id in s.sessions && s.sessions[id].mountpoint == m && EndsBy(s, e, id)
  }

  function TrackedNext(s: State, e: ServerEvent, id: nat, m: string): Option<Place> {
    match Reported(s, e, id, m)
    case Some(p) => Some(p)
    case None => if Shuts(s, e, m) || EndsOn(s, e, id, m) then None else Tracked(s, id, m)
  }

  lemma TornDownTracks(s: State, own: nat, current: Option<nat>, id: nat, m: string)
    requires own in s.sessions
    ensures Tracked(TornDown(s, own, current), id, m) ==
            if own == id && id in s.registered && s.sessions[id].mountpoint == m then None else Tracked(s, id, m)
  {
  }

  lemma RepointedTracks(s: State, own: nat, mountpoint: string, id: nat, m: string)
    requires own in s.sessions
    ensures Tracked(Repointed(s, own, mountpoint), id, m) == Tracked(s, id, m)
  {
  }

  lemma KeepaliveTracks(c: Config, s: State, own: nat, position: Option<Place>, id: nat, m: string)
    requires own in s.sessions
    ensures Tracked(OnKeepalive(c, s, own, position), id, m) ==
            if position.Some? && own == id && s.sessions[id].mountpoint == m then position else Tracked(s, id, m)
  {
    if position.Some? {
      var t := s.(positions := s.positions[(s.sessions[own].mountpoint, own) := position.value]);
      var nearest := NearestOf(s.table, c.distance, position.value);
      if nearest.Some? {
        RepointedTracks(t, own, nearest.value, id, m);
      }
    }
  }

  lemma DatagramTracks(c: Config, s: State, own: nat, addr: Addr, now: real, body: Body, id: nat, m: string)
    ensures Tracked(OnDatagram(c, s, own, addr, now, body), id, m)
            == TrackedNext(s, DatagramArrives(own, addr, now, body), id, m)
  {
    if own in s.registered && own in s.sessions && body.Keepalive? {
      KeepaliveTracks(c, Refreshed(c, s, own, addr, now), own, body.position, id, m);
    }
  }

  lemma SessionJobTracks(c: Config, s: State, own: nat, job: Job, id: nat, m: string)
    requires own in s.sessions && !job.HelloJob?
    ensures Tracked(OnSessionJob(c, s, own, job), id, m) ==
            if !job.SwitchJob? && own == id && id in s.registered && s.sessions[id].mountpoint == m then None
            else Tracked(s, id, m)
  {
    if job.SwitchJob? {
      var r := Resolve(c, s.table, s.sessions[own].scope, job.requested, job.position);
      if r.Allowed? {
        var session := s.sessions[own].(dynamic := job.requested == "NEAREST");
        RepointedTracks(s.(sessions := s.sessions[own := session]), own, r.mountpoint, id, m);
      }
    } else {
      TornDownTracks(s, own, None, id, m);
      TornDownTracks(Sent(s, Error(OUT_OF_RANGE), s.sessions[own].addr), own, None, id, m);
    }
  }

  lemma HelloTracks(c: Config, s: State, job: Job, freshId: nat, now: real)
    requires job.HelloJob?
    ensures OnHello(c, s, job, freshId, now).positions == s.positions
  {
  }

  lemma JobTracks(c: Config, s: State, job: Job, freshId: nat, now: real, id: nat, m: string)
    ensures Tracked(OnJob(c, s, job, freshId, now), id, m) == TrackedNext(s, RunJob(job, freshId, now), id, m)
  {
    if job in s.jobs && job.HelloJob? {
      if freshId !in s.sessions {
        HelloTracks(c, s.(jobs := s.jobs - multiset{job}), job, freshId, now);
      }
    } else if job in s.jobs && job.session in s.sessions {
      SessionJobTracks(c, s.(jobs := s.jobs - multiset{job}), job.session, job, id, m);
    }
  }

  lemma StartTracks(s: State, task: nat, id: nat, m: string)
    requires WellFormed(s.net)
    ensures Tracked(OnStart(s, task), id, m) == TrackedNext(s, StartTask(task), id, m)
  {
    if Runnable(s, task) && s.tasks[task].phase.Created? && !s.tasks[task].cancelled {
      var own := s.tasks[task].session;
      var session := s.sessions[own];
      var asked := Asked(s, Subscribe(session.mountpoint));
      var t := EndedTask(Sent(asked, Error(MOUNTPOINT_UNAVAILABLE), session.addr), task);
      TornDownTracks(t, own, Some(task), id, m);
    }
  }

  lemma PumpTracks(c: Config, s: State, task: nat, timestamp: int)
    requires WellFormed(s.net)
    ensures OnPump(c, s, task, timestamp).positions == s.positions
  {
  }

  lemma ReapNextTracks(s: State, id: nat, m: string)
    ensures Tracked(OnReapNext(s), id, m) ==
            if && s.reaping != [] && s.reaping[0].0 == id && id in s.registered && id in s.sessions
               && s.sessions[id].mountpoint == m
            then None else Tracked(s, id, m)
  {
    if s.reaping != [] && s.reaping[0].0 in s.sessions {
      TornDownTracks(s.(reaping := s.reaping[1..]), s.reaping[0].0, None, id, m);
    }
  }

  lemma AskTracks(s: State, r: Request, site: Site, id: nat, m: string)
    requires WellFormed(s.net)
    ensures Tracked(OnAsk(s, r, site), id, m) == TrackedNext(s, Ask(r, site), id, m)
  {
  }

  lemma ReapPassTracks(s: State, now: real, picked: seq<nat>, id: nat, m: string)
    ensures Tracked(OnReapPass(s, now, picked), id, m) == TrackedNext(s, ReapPass(now, picked), id, m)
  {
    if Picks(s, now, picked) {
      ReapNextTracks(Queued(s, now, picked), id, m);
    }
  }

  // A step changes the position kept for a session under a mountpoint only by a report, by the end of
  // the mountpoint, or by the end of the session on it.
  lemma StepTracks(c: Config, s: State, e: ServerEvent, id: nat, m: string)
    requires WellFormed(s.net)
    ensures Tracked(Next(c, s, e), id, m) == TrackedNext(s, e, id, m)
  {
    match e {
      case Ask(r, site) => AskTracks(s, r, site, id, m);
      case DatagramArrives(own, addr, now, body) => DatagramTracks(c, s, own, addr, now, body, id, m);
      case RunJob(job, freshId, now) => JobTracks(c, s, job, freshId, now, id, m);
      case StartTask(task) => StartTracks(s, task, id, m);
      case Pump(task, timestamp) => PumpTracks(c, s, task, timestamp);
      case DeliverCancel(task) => assert OnCancel(s, task).positions == s.positions;
      case ReapPass(now, picked) => ReapPassTracks(s, now, picked, id, m);
      case ReapNext(_) => ReapNextTracks(s, id, m);
      case _ =>
    }
  }

  // ---- over a run ----------------------------------------------------------

  ghost predicate Tracks(s: State, s': State, e: ServerEvent) {
    forall id, m :: Tracked(s', id, m) == TrackedNext(s, e, id, m)
  }

  ghost predicate Tracking(events: seq<ServerEvent>, states: seq<State>) {
    && |states| == |events| + 1 && states[0] == START
    && forall n :: 0 <= n < |events| ==> Tracks(states[n], states[n + 1], events[n])
  }

  lemma StepTracksAll(c: Config, s: State, e: ServerEvent)
    requires WellFormed(s.net)
    ensures Tracks(s, Next(c, s, e), e)
  {
    forall id: nat, m: string
      ensures Tracked(Next(c, s, e), id, m) == TrackedNext(s, e, id, m)
    {
      StepTracks(c, s, e, id, m);
    }
  }

  lemma RunIsTracking(c: Config, events: seq<ServerEvent>, states: seq<State>)
    requires IsRun(c, events, states)
    ensures Tracking(events, states)
  {
    forall n | 0 <= n < |events|
      ensures Tracks(states[n], states[n + 1], events[n])
    {
      StepTracksAll(c, states[n], events[n]);
    }
  }

  // Step j reported this position, and nothing since has replaced or dropped it by step n.
  ghost predicate ReportedLast(
      events: seq<ServerEvent>, states: seq<State>, n: nat, j: nat, id: nat, m: string, p: Place) {
    && j < n <= |events| < |states| && Reported(states[j], events[j], id, m) == Some(p)
    && forall k :: j < k < n ==>
         && Reported(states[k], events[k], id, m).None? && !Shuts(states[k], events[k], m)
         && !EndsOn(states[k], events[k], id, m)
  }

  lemma {:induction false} TrackedHasItsReport(
      events: seq<ServerEvent>, states: seq<State>, n: nat, id: nat, m: string) returns (j: nat)
    requires Tracking(events, states) && n <= |events| && Tracked(states[n], id, m).Some?
    ensures ReportedLast(events, states, n, j, id, m, Tracked(states[n], id, m).value)
    decreases n
  {
    assert n > 0;
    assert Tracks(states[n - 1], states[n], events[n - 1]);
    assert Tracked(states[n], id, m) == TrackedNext(states[n - 1], events[n - 1], id, m);
    if Reported(states[n - 1], events[n - 1], id, m).Some? {
      j := n - 1;
    } else {
      j := TrackedHasItsReport(events, states, n - 1, id, m);
    }
  }

  lemma {:induction false} ReportIsTracked(
      events: seq<ServerEvent>, states: seq<State>, n: nat, j: nat, id: nat, m: string, p: Place)
    requires Tracking(events, states) && ReportedLast(events, states, n, j, id, m, p)
    ensures Tracked(states[n], id, m) == Some(p)
    decreases n
  {
    assert Tracks(states[n - 1], states[n], events[n - 1]);
    assert Tracked(states[n], id, m) == TrackedNext(states[n - 1], events[n - 1], id, m);
    if j < n - 1 {
      ReportIsTracked(events, states, n - 1, j, id, m, p);
    }
  }

  // In every reachable state a position is kept for a session under a mountpoint exactly if it is the
  // last one reported there, with neither the mountpoint closed nor the session ended on it since.
  lemma PositionIsTheLastReportIff(
      c: Config, events: seq<ServerEvent>, states: seq<State>, n: nat, id: nat, m: string, p: Place)
    requires IsRun(c, events, states) && n <= |events|
    ensures Tracked(states[n], id, m) == Some(p) <==> exists j: nat :: ReportedLast(events, states, n, j, id, m, p)
  {
    RunIsTracking(c, events, states);
    if Tracked(states[n], id, m) == Some(p) {
      var j := TrackedHasItsReport(events, states, n, id, m);
    }
    forall j: nat | ReportedLast(events, states, n, j, id, m, p)
      ensures Tracked(states[n], id, m) == Some(p)
    {
      ReportIsTracked(events, states, n, j, id, m, p);
    }
  }

  // ---- after the session ---------------------------------------------------

  // The session was opened and is off the table.
  predicate Gone(s: State, id: nat) {
    id in s.sessions && id !in s.registered
  }

  lemma StartLeavesOff(s: State, task: nat)
    requires WellFormed(s.net)
    ensures OnStart(s, task).registered <= s.registered
  {
  }

  lemma ReapNextLeavesOff(s: State)
    ensures OnReapNext(s).registered <= s.registered
  {
  }

  lemma JobLeavesOff(c: Config, s: State, job: Job, freshId: nat, now: real, id: nat)
    requires Gone(s, id)
    ensures id !in OnJob(c, s, job, freshId, now).registered
  {
    if job in s.jobs && !job.HelloJob? && job.session in s.sessions {
      JobRegistered(c, s, job, freshId, now);
    }
  }

  // An ended session never comes back: a hello opens a new one.
  lemma StepLeavesOff(c: Config, s: State, e: ServerEvent, id: nat)
    requires WellFormed(s.net) && Gone(s, id)
    ensures Gone(Next(c, s, e), id)
  {
    StepMovesOn(c, s, e, id, 0);
    match e {
      case DatagramArrives(own, addr, now, body) => DatagramRegistered(c, s, own, addr, now, body);
      case RunJob(job, freshId, now) => JobLeavesOff(c, s, job, freshId, now, id);
      case StartTask(task) => StartLeavesOff(s, task);
      case Pump(task, timestamp) => PumpRegistered(c, s, task, timestamp);
      case DeliverCancel(task) => assert OnCancel(s, task).registered == s.registered;
      case ReapPass(now, picked) => ReapNextLeavesOff(Queued(s, now, picked));
      case ReapNext(_) => ReapNextLeavesOff(s);
      case _ =>
    }
  }

  lemma {:induction false} GoneForGood(c: Config, events: seq<ServerEvent>, states: seq<State>, n: nat, k: nat, id: nat)
    requires IsRun(c, events, states) && n <= k <= |events| && Gone(states[n], id)
    ensures Gone(states[k], id)
    decreases k
  {
    if n < k {
      GoneForGood(c, events, states, n, k - 1, id);
      RunStep(c, events, states, k - 1);
      StepLeavesOff(c, states[k - 1], events[k - 1], id);
    }
  }

  // On the table later, a session was not taken off it before.
  lemma NotEndedBefore(c: Config, events: seq<ServerEvent>, states: seq<State>, k: nat, d: nat, id: nat, m: string)
    requires IsRun(c, events, states) && k < d < |events| && id in states[d].registered
    ensures !EndsOn(states[k], events[k], id, m)
  {
    if EndsOn(states[k], events[k], id, m) {
      RunStep(c, events, states, k);
      StepLeaves(c, states[k], events[k], id);
      StepMovesOn(c, states[k], events[k], id, 0);
      GoneForGood(c, events, states, k + 1, d, id);
    }
  }

  // Session id ends in step d.
  ghost predicate EndsAt(events: seq<ServerEvent>, states: seq<State>, d: nat, id: nat) {
    d < |events| < |states| && id in states[d].registered && id in states[d].sessions &&
        EndsBy(states[d], events[d], id)
  }

  lemma AfterTheEnd(c: Config, events: seq<ServerEvent>, states: seq<State>, d: nat, k: nat, id: nat, m: string)
    requires IsRun(c, events, states) && EndsAt(events, states, d, id) && d < k < |events|
    ensures Reported(states[k], events[k], id, m).None? && !EndsOn(states[k], events[k], id, m)
  {
    RunStep(c, events, states, d);
    StepLeaves(c, states[d], events[d], id);
    StepMovesOn(c, states[d], events[d], id, 0);
    GoneForGood(c, events, states, d + 1, k, id);
  }

  // In step d and only there the session ends, and it reports nothing from then on.
  ghost predicate EndsOnceAt(events: seq<ServerEvent>, states: seq<State>, d: nat, id: nat, m: string) {
    && d < |events| < |states| && id in states[d].sessions
    && (EndsOn(states[d], events[d], id, m) <==> m == states[d].sessions[id].mountpoint)
    && (forall k: nat :: k < d ==> !EndsOn(states[k], events[k], id, m))
    && (forall k :: d < k < |events| ==> !EndsOn(states[k], events[k], id, m))
    && (forall k :: d <= k < |events| ==> Reported(states[k], events[k], id, m).None?)
  }

  lemma SessionEndsOnce(c: Config, events: seq<ServerEvent>, states: seq<State>, d: nat, id: nat, m: string)
    requires IsRun(c, events, states) && EndsAt(events, states, d, id)
    ensures EndsOnceAt(events, states, d, id, m)
  {
    forall k | d < k < |events|
      ensures Reported(states[k], events[k], id, m).None? && !EndsOn(states[k], events[k], id, m)
    {
      AfterTheEnd(c, events, states, d, k, id, m);
    }
    forall k: nat | k < d
      ensures !EndsOn(states[k], events[k], id, m)
    {
      NotEndedBefore(c, events, states, k, d, id, m);
    }
  }

  // Step j, before the session's end, reported its last position under m, and m has been open since.
  ghost predicate LastReportBeforeTheEnd(
      events: seq<ServerEvent>, states: seq<State>, d: nat, n: nat, j: nat, id: nat, m: string, p: Place) {
    && j < d < n <= |events| < |states| && Reported(states[j], events[j], id, m) == Some(p)
    && (forall k :: j < k < d ==> Reported(states[k], events[k], id, m).None?)
    && forall k :: j < k < n ==> !Shuts(states[k], events[k], m)
  }

  lemma LeftBehindAsReported(
      events: seq<ServerEvent>, states: seq<State>, d: nat, n: nat, j: nat, id: nat, m: string, p: Place)
    requires EndsAt(events, states, d, id) && EndsOnceAt(events, states, d, id, m) && d < n <= |events|
    ensures ReportedLast(events, states, n, j, id, m, p) <==>
            m != states[d].sessions[id].mountpoint && LastReportBeforeTheEnd(events, states, d, n, j, id, m, p)
  {
  }

  // A position outlives its session exactly if it is the last one the session reported on a mountpoint
  // it had left by its end, however it left, and that mountpoint has not been closed or unregistered
  // since.
  lemma PositionOutlivesSessionIff(
      c: Config, events: seq<ServerEvent>, states: seq<State>, d: nat, n: nat, id: nat, m: string, p: Place)
    requires IsRun(c, events, states) && EndsAt(events, states, d, id) && d < n <= |events|
    ensures Tracked(states[n], id, m) == Some(p) <==>
            && m != states[d].sessions[id].mountpoint
            && exists j: nat :: LastReportBeforeTheEnd(events, states, d, n, j, id, m, p)
  {
    PositionIsTheLastReportIff(c, events, states, n, id, m, p);
    SessionEndsOnce(c, events, states, d, id, m);
    forall j: nat
      ensures ReportedLast(events, states, n, j, id, m, p) <==>
              m != states[d].sessions[id].mountpoint && LastReportBeforeTheEnd(events, states, d, n, j, id, m, p)
    {
      LeftBehindAsReported(events, states, d, n, j, id, m, p);
    }
  }
}

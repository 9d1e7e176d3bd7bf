/** What holds over whole runs of the UDP session protocol. */
module UdpRuns {
  import opened Transport
  import opened Caster
  import opened Nearest
  import opened Wrappers
  import opened UdpSessions
  import opened UdpSafety

  // A run: the states the server goes through from the start, one step an event.
  ghost predicate IsRun(c: Config, events: seq<ServerEvent>, states: seq<State>) {
    && |states| == |events| + 1 && states[0] == START
    && forall i {:trigger events[i]} :: 0 <= i < |events| ==>
          WellFormed(states[i].net) && states[i + 1] == Next(c, states[i], events[i])
  }

  lemma RunStep(c: Config, events: seq<ServerEvent>, states: seq<State>, i: nat)
    requires IsRun(c, events, states) && i < |events|
    ensures WellFormed(states[i].net) && states[i + 1] == Next(c, states[i], events[i])
  {
    var e := events[i];
  }

  // Every list of events has its one run.
  function Trace(c: Config, events: seq<ServerEvent>): (states: seq<State>)
    ensures |states| == |events| + 1
  {
    seq(|events| + 1, i requires 0 <= i <= |events| => Played(c, events[..i]))
  }

  lemma {:induction false} RunIsPlayed(c: Config, events: seq<ServerEvent>, states: seq<State>, n: nat)
    requires IsRun(c, events, states) && n <= |events|
    ensures states[n] == Played(c, events[..n])
    decreases n
  {
    if n > 0 {
      RunIsPlayed(c, events, states, n - 1);
      PlayedStep(c, events, n - 1);
    }
  }

  lemma EveryEventListHasItsRun(c: Config, events: seq<ServerEvent>, states: seq<State>)
    ensures IsRun(c, events, states) <==> states == Trace(c, events)
  {
    if IsRun(c, events, states) {
      forall n | 0 <= n < |states|
        ensures states[n] == Trace(c, events)[n]
      {
        RunIsPlayed(c, events, states, n);
      }
    }
    forall i | 0 <= i < |events|
      ensures Played(c, events[..i + 1]) == Next(c, Played(c, events[..i]), events[i])
    {
      PlayedStep(c, events, i);
    }
  }

  ghost predicate TaskIsOwn(s: State, id: nat) {
    id in s.sessions && s.sessions[id].task.Some? ==>
      s.sessions[id].task.value < |s.tasks| && s.tasks[s.sessions[id].task.value].session == id
  }

  // What one step does to every session and task.
  ghost predicate Linked(c: Config, s: State, s': State, e: ServerEvent) {
    && (forall id, t :: MovesOn(s, s', id, t))
    && (forall id :: BuildsNone(s, s', id) || (e.Pump? && BuildsOne(c, s, s', id) && CarriesPublished(s, s', id)))
  }

  ghost predicate Traced(c: Config, states: seq<State>, events: seq<ServerEvent>) {
    && |states| == |events| + 1 && states[0] == START
    && (forall i, id :: 0 <= i < |states| ==> TaskIsOwn(states[i], id))
    && (forall i :: 0 <= i < |events| ==> Linked(c, states[i], states[i + 1], events[i]))
  }

  lemma StepIsLinked(c: Config, s: State, e: ServerEvent)
    requires ServerInv(c, s)
    ensures Linked(c, s, Next(c, s, e), e)
  {
    forall id: nat, t: nat
      ensures MovesOn(s, Next(c, s, e), id, t)
    {
      StepMovesOn(c, s, e, id, t);
    }
    forall id: nat
      ensures BuildsNone(s, Next(c, s, e), id)
           || (e.Pump? && BuildsOne(c, s, Next(c, s, e), id) && CarriesPublished(s, Next(c, s, e), id))
    {
      StepBuilds(c, s, e, id);
      if BuildsOne(c, s, Next(c, s, e), id) {
        PumpCarries(c, s, e.task, e.timestamp, id);
      }
    }
  }

  lemma PlayedStep(c: Config, events: seq<ServerEvent>, i: nat)
    requires i < |events|
    ensures Played(c, events[..i + 1]) == Next(c, Played(c, events[..i]), events[i])
  {
    assert events[..i + 1][..i] == events[..i];
  }

  lemma StateIsSound(c: Config, events: seq<ServerEvent>, states: seq<State>, n: nat)
    requires IsRun(c, events, states) && n <= |events|
    ensures ServerInv(c, states[n])
  {
    RunIsPlayed(c, events, states, n);
    ServerStaysSound(c, events[..n]);
  }

  lemma RunIsTraced(c: Config, events: seq<ServerEvent>, states: seq<State>)
    requires IsRun(c, events, states)
    ensures Traced(c, states, events)
  {
    forall i, id: nat | 0 <= i < |states|
      ensures TaskIsOwn(states[i], id)
    {
      StateIsSound(c, events, states, i);
      if id in states[i].sessions {
        assert SessionInv(c, states[i], id);
      }
    }
    forall i | 0 <= i < |events|
      ensures Linked(c, states[i], states[i + 1], events[i])
    {
      StateIsSound(c, events, states, i);
      StepIsLinked(c, states[i], events[i]);
    }
  }

  // ---- provenance ----------------------------------------------------------

  // Step i of a run built the k-th datagram of session id: a pump round of the task that was
  // current for the session, on the mountpoint the session was on at that moment; a datagram
  // that fits left for the session's address of that moment.
  ghost predicate BuiltAtStep(states: seq<State>, events: seq<ServerEvent>, i: nat, id: nat, k: nat, p: Pumped) {
    && i < |events| && i + 1 < |states| && events[i].Pump?
    && id in states[i].sessions && |Built(states[i], id)| == k
    && states[i].sessions[id].task == Some(p.task) && states[i].sessions[id].mountpoint == p.mountpoint
    && PublishedOn(states[i].net, p.mountpoint, p.frame)
    && (p.sent ==> states[i + 1].outbox == states[i].outbox + [(p.packet, states[i].sessions[id].addr)])
  }

  lemma BuiltInStep(c: Config, states: seq<State>, events: seq<ServerEvent>, i: nat, id: nat, k: nat)
    requires i < |events| && |states| == |events| + 1 && Linked(c, states[i], states[i + 1], events[i])
    requires |Built(states[i], id)| <= k < |Built(states[i + 1], id)|
    ensures BuiltAtStep(states, events, i, id, k, Built(states[i + 1], id)[k])
  {
    assert BuildsNone(states[i], states[i + 1], id) || BuildsOne(c, states[i], states[i + 1], id);
  }

  lemma BuiltStays(c: Config, s: State, s': State, e: ServerEvent, id: nat)
    requires Linked(c, s, s', e)
    ensures Built(s, id) <= Built(s', id)
  {
    assert BuildsNone(s, s', id) || BuildsOne(c, s, s', id);
  }

  lemma {:induction false} DatagramHasItsStep(
      c: Config, states: seq<State>, events: seq<ServerEvent>, n: nat, id: nat, k: nat)
    returns (i: nat)
    requires Traced(c, states, events) && n < |states| && k < |Built(states[n], id)|
    ensures i < n && BuiltAtStep(states, events, i, id, k, Built(states[n], id)[k])
    decreases n
  {
    assert n > 0;
    if k < |Built(states[n - 1], id)| {
      i := DatagramHasItsStep(c, states, events, n - 1, id, k);
      BuiltStays(c, states[n - 1], states[n], events[n - 1], id);
    } else {
      i := n - 1;
      BuiltInStep(c, states, events, i, id, k);
    }
  }

  lemma DatagramIsGenuine(c: Config, s: State, id: nat, k: nat)
    requires ServerInv(c, s) && k < |Built(s, id)|
    ensures var p := Built(s, id)[k];
            && p.packet.Correction? && p.packet.session == id && p.packet.seqNo == k % SEQ_MODULUS
            && Genuine(c, p.packet.correction, p.mountpoint, p.frame)
            && (p.sent <==> c.size(p.packet) <= c.maxDatagram)
  {
    assert PumpedInv(c, s.net, id, k, Built(s, id)[k]);
  }

  lemma PublishedHasItsRequest(s: State, mountpoint: string, frame: Frame) returns (published: nat, hub: nat)
    requires Follows(s) && PublishedOn(s.net, mountpoint, frame)
    ensures SentAt(s.requests, published, hub, mountpoint, frame)
  {
    var h, j :| 0 <= h < |s.net.hubs| && 0 <= j < |s.net.hubs[h].log| && s.net.hubs[h].mountpoint == mountpoint
                && s.net.hubs[h].log[j].frame == frame;
    LogIsExplained(s.requests, h, j);
    published, hub := s.net.hubs[h].log[j].at, h;
  }

  // Provenance. In every interleaving, every datagram built for a session names the mountpoint
  // its session was on when it was sent, carries under a valid signature a frame that a base
  // station had published on that very mountpoint, and has the session's next sequence number.
  lemma EveryCorrectionIsGenuine(c: Config, events: seq<ServerEvent>, states: seq<State>, id: nat, k: nat)
    returns (step: nat, published: nat, hub: nat)
    requires IsRun(c, events, states)
    requires k < |Built(states[|events|], id)|
    ensures GenuineDatagram(c, states, events, id, k, step, published, hub)
  {
    RunIsTraced(c, events, states);
    StateIsSound(c, events, states, |events|);
    step := DatagramHasItsStep(c, states, events, |events|, id, k);
    StateIsSound(c, events, states, step);
    published, hub := GenuineFrom(c, states, events, id, k, step);
  }

  lemma GenuineFrom(c: Config, states: seq<State>, events: seq<ServerEvent>, id: nat, k: nat, step: nat)
    returns (published: nat, hub: nat)
    requires |states| == |events| + 1 && k < |Built(states[|events|], id)| && step < |events|
    requires ServerInv(c, states[|events|]) && ServerInv(c, states[step])
    requires BuiltAtStep(states, events, step, id, k, Built(states[|events|], id)[k])
    ensures GenuineDatagram(c, states, events, id, k, step, published, hub)
  {
    DatagramIsGenuine(c, states[|events|], id, k);
    var p := Built(states[|events|], id)[k];
    published, hub := PublishedHasItsRequest(states[step], p.mountpoint, p.frame);
  }

  // The publication is among the requests made before the sending step.
  ghost predicate GenuineDatagram(c: Config, states: seq<State>, events: seq<ServerEvent>, id: nat, k: nat,
                                  step: nat, published: nat, hub: nat)
    requires |states| == |events| + 1 && k < |Built(states[|events|], id)|
  {
    var p := Built(states[|events|], id)[k];
    && BuiltAtStep(states, events, step, id, k, p)
    && p.packet.Correction? && p.packet.session == id && p.packet.seqNo == k % SEQ_MODULUS
    && Genuine(c, p.packet.correction, p.mountpoint, p.frame)
    && SentAt(states[step].requests, published, hub, p.mountpoint, p.frame)
    && (p.sent <==> c.size(p.packet) <= c.maxDatagram)
  }

  lemma {:induction false} SentIsWhatFitsIn(c: Config, states: seq<State>, events: seq<ServerEvent>, n: nat, id: nat)
    requires Traced(c, states, events) && n < |states|
    ensures CorrectionsTo(states[n].outbox, id) == SentOf(Built(states[n], id))
    decreases n
  {
    if n > 0 {
      SentIsWhatFitsIn(c, states, events, n - 1, id);
      var s, s' := states[n - 1], states[n];
      assert Linked(c, s, s', events[n - 1]);
      assert BuildsNone(s, s', id) || BuildsOne(c, s, s', id);
      if BuildsOne(c, s, s', id) {
        assert s'.pumped[id][..|s.pumped[id]|] == s.pumped[id];
      }
    }
  }

  // The corrections that leave for a session are exactly the built datagrams that fit the size
  // cap, in order: the gaps in the sequence numbers are exactly the oversize drops.
  lemma SentIsWhatFits(c: Config, events: seq<ServerEvent>, states: seq<State>, id: nat)
    requires IsRun(c, events, states)
    ensures CorrectionsTo(states[|events|].outbox, id) == SentOf(Built(states[|events|], id))
  {
    RunIsTraced(c, events, states);
    SentIsWhatFitsIn(c, states, events, |events|, id);
  }

  // The datagrams of a session are numbered consecutively modulo 2^32 across all its mountpoints,
  // so any two fewer than 2^32 apart carry different numbers.
  lemma SequenceNumbersDiffer(c: Config, events: seq<ServerEvent>, states: seq<State>, id: nat, j: nat, k: nat)
    requires IsRun(c, events, states)
    requires j < k < |Built(states[|events|], id)| && k - j < SEQ_MODULUS
    ensures NumberedApart(Built(states[|events|], id), j, k)
  {
    StateIsSound(c, events, states, |events|);
    NumberedApartIn(c, states[|events|], id, j, k);
  }

  // Datagrams j and k carry different numbers, consecutive ones if j and k are neighbours.
  ghost predicate NumberedApart(built: seq<Pumped>, j: nat, k: nat)
    requires j < k < |built|
  {
    && built[j].packet.Correction? && built[k].packet.Correction?
    && built[j].packet.seqNo != built[k].packet.seqNo
    && (k == j + 1 ==> built[k].packet.seqNo == (built[j].packet.seqNo + 1) % SEQ_MODULUS)
  }

  lemma NumberedApartIn(c: Config, s: State, id: nat, j: nat, k: nat)
    requires ServerInv(c, s) && j < k < |Built(s, id)| && k - j < SEQ_MODULUS
    ensures NumberedApart(Built(s, id), j, k)
  {
    DatagramIsNumbered(c, s, id, j);
    DatagramIsNumbered(c, s, id, k);
    ByPositionMeansApart(Built(s, id), j, k);
  }

  predicate ByPosition(built: seq<Pumped>, k: nat)
    requires k < |built|
  {
    built[k].packet.Correction? && built[k].packet.seqNo == k % SEQ_MODULUS
  }

  lemma ByPositionMeansApart(built: seq<Pumped>, j: nat, k: nat)
    requires j < k < |built| && k - j < SEQ_MODULUS && ByPosition(built, j) && ByPosition(built, k)
    ensures NumberedApart(built, j, k)
  {
    RemaindersDiffer(j, k);
  }

  lemma DatagramIsNumbered(c: Config, s: State, id: nat, k: nat)
    requires ServerInv(c, s) && k < |Built(s, id)|
    ensures ByPosition(Built(s, id), k)
  {
    assert PumpedInv(c, s.net, id, k, s.pumped[id][k]);
  }

  lemma RemaindersDiffer(j: nat, k: nat)
    requires j < k && k - j < SEQ_MODULUS
    ensures j % SEQ_MODULUS != k % SEQ_MODULUS
    ensures (j + 1) % SEQ_MODULUS == (j % SEQ_MODULUS + 1) % SEQ_MODULUS
  {
  }

  // ---- superseded tasks ----------------------------------------------------

  lemma {:induction false} SupersededIsSilentIn(
      c: Config, states: seq<State>, events: seq<ServerEvent>, n: nat, m: nat, t: nat, id: nat)
    requires Traced(c, states, events) && n <= m < |states| && Superseded(states[n], t)
    ensures Superseded(states[m], t)
    ensures Built(states[n], id) <= Built(states[m], id)
    ensures forall k :: |Built(states[n], id)| <= k < |Built(states[m], id)| ==> Built(states[m], id)[k].task != t
    decreases m
  {
    if n < m {
      SupersededIsSilentIn(c, states, events, n, m - 1, t, id);
      var s, s' := states[m - 1], states[m];
      assert Linked(c, s, s', events[m - 1]);
      assert BuildsNone(s, s', id) || BuildsOne(c, s, s', id);
      var own := s.tasks[t].session;
      assert MovesOn(s, s', own, t);
      assert TaskIsOwn(s, id);
    }
  }

  // Once superseded by a switch or a handoff, or torn down, an egress task builds, and so sends,
  // nothing for any session ever again, whenever its cancellation arrives.
  lemma SupersededTaskIsSilent(c: Config, events: seq<ServerEvent>, states: seq<State>, n: nat, t: nat, id: nat)
    requires IsRun(c, events, states)
    requires n <= |events| && Superseded(states[n], t)
    ensures var before, after := Built(states[n], id), Built(states[|events|], id);
            before <= after && forall k :: |before| <= k < |after| ==> after[k].task != t
  {
    RunIsTraced(c, events, states);
    SupersededIsSilentIn(c, states, events, n, |events|, t, id);
  }

  // A session never has two egress tasks that are neither ended nor cancelled.
  lemma OneActiveTaskPerSession(c: Config, events: seq<ServerEvent>, states: seq<State>, t: nat, u: nat)
    requires IsRun(c, events, states)
    requires var tasks := states[|events|].tasks;
             && t < |tasks| && u < |tasks| && tasks[t].session == tasks[u].session
             && !tasks[t].phase.Ended? && !tasks[t].cancelled && !tasks[u].phase.Ended? && !tasks[u].cancelled
    ensures t == u
  {
    StateIsSound(c, events, states, |events|);
    var s := states[|events|];
    assert TaskInv(s, t) && TaskInv(s, u);
  }

  // ---- authorization -------------------------------------------------------

  lemma {:induction false} ScopeIsFixedIn(
      c: Config, states: seq<State>, events: seq<ServerEvent>, n: nat, m: nat, id: nat)
    requires Traced(c, states, events) && n <= m < |states| && id in states[n].sessions
    ensures id in states[m].sessions && states[m].sessions[id].scope == states[n].sessions[id].scope
    decreases m
  {
    if n < m {
      ScopeIsFixedIn(c, states, events, n, m - 1, id);
      assert Linked(c, states[m - 1], states[m], events[m - 1]);
      assert MovesOn(states[m - 1], states[m], id, 0);
    }
  }

  ghost predicate ScopesHold(s: State) {
    forall id :: id in s.sessions ==> ScopeAllows(s.sessions[id].scope, s.sessions[id].mountpoint)
  }

  lemma StateHoldsScopes(c: Config, events: seq<ServerEvent>, states: seq<State>, n: nat)
    requires IsRun(c, events, states)
    requires n <= |events|
    ensures ScopesHold(states[n])
  {
    StateIsSound(c, events, states, n);
    ScopesHoldIn(c, states[n]);
  }

  lemma ScopesHoldIn(c: Config, s: State)
    requires ServerInv(c, s)
    ensures ScopesHold(s)
  {
    forall id | id in s.sessions
      ensures ScopeAllows(s.sessions[id].scope, s.sessions[id].mountpoint)
    {
      assert SessionInv(c, s, id);
    }
  }

  ghost predicate Pinned(states: seq<State>, n: nat, m: nat, id: nat)
    requires n < |states| && m < |states| && id in states[n].sessions
  {
    id in states[m].sessions && states[m].sessions[id].mountpoint == states[n].sessions[id].mountpoint
  }

  lemma PinnedIn(c: Config, states: seq<State>, events: seq<ServerEvent>, n: nat, m: nat, id: nat)
    requires Traced(c, states, events) && n <= m < |states| && id in states[n].sessions
    requires ScopesHold(states[n]) && ScopesHold(states[m]) && states[n].sessions[id].scope !in {"*", "NEAREST"}
    ensures Pinned(states, n, m, id)
  {
    ScopeIsFixedIn(c, states, events, n, m, id);
    assert ScopeAllows(states[n].sessions[id].scope, states[n].sessions[id].mountpoint);
    assert ScopeAllows(states[m].sessions[id].scope, states[m].sessions[id].mountpoint);
  }

  // In every reachable state every session is on a mountpoint its token allows; with a concrete
  // scope it stays on that one for life, across hello, switch, keepalive handoff and teardown.
  lemma ConcreteScopePins(c: Config, events: seq<ServerEvent>, states: seq<State>, n: nat, m: nat, id: nat)
    requires IsRun(c, events, states)
    requires n <= m <= |events| && id in states[n].sessions
    ensures ScopesHold(states[m])
    ensures states[n].sessions[id].scope !in {"*", "NEAREST"} ==> Pinned(states, n, m, id)
  {
    RunIsTraced(c, events, states);
    StateHoldsScopes(c, events, states, n);
    StateHoldsScopes(c, events, states, m);
    if states[n].sessions[id].scope !in {"*", "NEAREST"} {
      PinnedIn(c, states, events, n, m, id);
    }
  }

  // ---- keepalives, teardown and positions ----------------------------------

  // A keepalive that evicts nobody leaves nothing for a second one from the same place to do but
  // renew the deadline and address: no handoff, no new task, no eviction.
  lemma RepeatedKeepaliveIsQuiet(c: Config, s: State, id: nat, a: Addr, b: Addr, t: real, u: real, p: Place)
    requires id in s.registered && id in s.sessions
    requires OnDatagram(c, s, id, a, t, Keepalive(Some(p))).jobs == s.jobs
    ensures var s1 := OnDatagram(c, s, id, a, t, Keepalive(Some(p)));
            OnDatagram(c, s1, id, b, u, Keepalive(Some(p))) ==
            Refreshed(c, s1, id, b, u).(positions := s1.positions[(s1.sessions[id].mountpoint, id) := p])
  {
    var r := Refreshed(c, s, id, a, t);
    EvictionShows(r.jobs, id);
    var s1 := OnDatagram(c, s, id, a, t, Keepalive(Some(p)));
    assert s1 == OnKeepalive(c, r, id, Some(p));
    assert s1.registered == s.registered && s1.table == s.table && id in s1.sessions;
    assert s1.sessions[id].dynamic == s.sessions[id].dynamic && s1.sessions[id].scope == s.sessions[id].scope;
  }

  lemma EvictionShows(jobs: multiset<Job>, id: nat)
    ensures jobs + multiset{EvictJob(id)} != jobs
  {
    assert (jobs + multiset{EvictJob(id)})[EvictJob(id)] == jobs[EvictJob(id)] + 1;
  }

  // A session sent to the nearest mountpoint stays there while it reports that place.
  lemma NearestSessionStaysPut(c: Config, s: State, id: nat, p: Place)
    requires id in s.sessions && Distinct(s.table)
    requires NearestOf(s.table, c.distance, p) == Some(s.sessions[id].mountpoint)
    ensures OnKeepalive(c, s, id, Some(p)) == s.(positions := s.positions[(s.sessions[id].mountpoint, id) := p])
  {
    NearestIsAdmitted(s.table, c.distance, p, s.sessions[id].mountpoint, false);
  }

  lemma TeardownIsIdempotent(s: State, id: nat, a: Option<nat>, b: Option<nat>)
    requires id in s.sessions
    ensures TornDown(TornDown(s, id, a), id, b) == TornDown(s, id, a)
  {
  }

  // The mountpoints under which a session's position is tracked.
  function TrackedUnder(s: State, id: nat): set<string> {
    set k | k in s.positions && k.1 == id :: k.0
  }

  // Tearing down clears only the position under the session's current mountpoint: every tracked
  // position is gone afterwards exactly if none was kept under another mountpoint.
  lemma TeardownForgetsIff(s: State, id: nat, current: Option<nat>)
    requires id in s.registered && id in s.sessions
    ensures TrackedUnder(TornDown(s, id, current), id) == {} <==> TrackedUnder(s, id) <= {s.sessions[id].mountpoint}
  {
    var s' := TornDown(s, id, current);
    var mountpoint := s.sessions[id].mountpoint;
    assert forall k :: k in s'.positions <==> k in s.positions && k != (mountpoint, id);
    assert forall m :: m in TrackedUnder(s, id) <==> (m, id) in s.positions;
    assert forall m :: m in TrackedUnder(s', id) <==> (m, id) in s'.positions;
  }

  // A keepalive stores the position before the handoff it causes, so a session handed off by a
  // keepalive leaves that position behind when it is torn down.
  lemma HandoffLeavesPositionBehind(c: Config, s: State, id: nat, p: Place, m: string, current: Option<nat>)
    requires id in s.registered && id in s.sessions && s.sessions[id].dynamic
    requires NearestOf(s.table, c.distance, p) == Some(m) && ScopeAllows(s.sessions[id].scope, m)
    requires m != s.sessions[id].mountpoint
    ensures s.sessions[id].mountpoint in TrackedUnder(TornDown(OnKeepalive(c, s, id, Some(p)), id, current), id)
  {
    var key := (s.sessions[id].mountpoint, id);
    var kept := OnKeepalive(c, s, id, Some(p));
    assert kept.sessions[id].mountpoint == m && key in kept.positions && key in TornDown(kept, id, current).positions;
  }

  // ---- the mountpoint table ------------------------------------------------

  function Names(table: seq<Listing>): set<string> {
    set i | 0 <= i < |table| :: table[i].name
  }

  // The table lists exactly the registered mountpoints, each once.
  ghost predicate TableInv(s: State) {
    Distinct(s.table) && Names(s.table) == s.net.mountpoints.Keys
  }

  lemma NamesOfOne(l: Listing)
    ensures Names([l]) == {l.name}
  {
    assert [l][0] == l;
  }

  lemma NamesOfConcat(a: seq<Listing>, b: seq<Listing>)
    ensures Names(a + b) == Names(a) + Names(b)
  {
    forall name | name in Names(a) + Names(b)
      ensures name in Names(a + b)
    {
      if name in Names(a) {
        var i :| 0 <= i < |a| && a[i].name == name;
        assert (a + b)[i].name == name;
      } else {
        var i :| 0 <= i < |b| && b[i].name == name;
        assert (a + b)[|a| + i].name == name;
      }
    }
  }

  lemma {:induction false} WithoutDropsOne(table: seq<Listing>, name: string)
    requires Distinct(table)
    ensures Distinct(Without(table, name)) && Names(Without(table, name)) == Names(table) - {name}
  {
    if table != [] {
      assert Distinct(table[1..]);
      WithoutDropsOne(table[1..], name);
      var rest := Without(table[1..], name);
      NamesOfConcat([table[0]], table[1..]);
      NamesOfOne(table[0]);
      assert [table[0]] + table[1..] == table;
      assert table[0].name !in Names(table[1..]);
      if table[0].name == name {
        assert Without(table, name) == rest;
      } else {
        var kept := [table[0]] + rest;
        assert Without(table, name) == kept;
        NamesOfConcat([table[0]], rest);
        forall i, j | 0 <= i < j < |kept|
          ensures kept[i].name != kept[j].name
        {
          assert kept[j] == rest[j - 1] && kept[j].name in Names(rest);
        }
      }
    }
  }

  lemma RegisteredAfter(n: System, r: Request)
    requires WellFormed(n)
    ensures Handled(n, r).0.mountpoints.Keys ==
            match r
            case Register(m, validName, _) =>
              if m in n.mountpoints || validName then n.mountpoints.Keys + {m} else n.mountpoints.Keys
            case Unregister(m) => n.mountpoints.Keys - {m}
            case _ => n.mountpoints.Keys
  {
  }

  lemma TableKept(s: State, r: Request, site: Site)
    requires TableInv(s)
    ensures Distinct(TableAfter(s, r, site))
    ensures Names(TableAfter(s, r, site)) ==
            match r
            case Register(m, validName, _) =>
              if m in s.net.mountpoints || validName then s.net.mountpoints.Keys + {m} else s.net.mountpoints.Keys
            case Unregister(m) => s.net.mountpoints.Keys - {m}
            case _ => s.net.mountpoints.Keys
  {
    match r {
      case Register(m, validName, _) =>
        if m in s.net.mountpoints {
          var replaced := Replaced(s.table, m, site);
          assert forall i :: 0 <= i < |s.table| ==> replaced[i].name == s.table[i].name;
          assert Names(replaced) == Names(s.table);
        } else if validName {
          NamesOfConcat(s.table, [Listing(m, site)]);
          NamesOfOne(Listing(m, site));
          assert forall i :: 0 <= i < |s.table| ==> s.table[i].name in Names(s.table);
        }
      case Unregister(m) => WithoutDropsOne(s.table, m);
      case _ =>
    }
  }

  lemma AskKeepsTable(c: Config, s: State, r: Request, site: Site)
    requires TableInv(s) && WellFormed(s.net)
    ensures TableInv(Next(c, s, Ask(r, site)))
  {
    RegisteredAfter(s.net, r);
    TableKept(s, r, site);
  }

  lemma ServerStepKeepsTable(c: Config, s: State, e: ServerEvent)
    requires WellFormed(s.net) && !e.Ask?
    ensures Next(c, s, e).table == s.table && Next(c, s, e).net.mountpoints == s.net.mountpoints
  {
    match e {
      case DatagramArrives(id, addr, now, body) => assert OnDatagram(c, s, id, addr, now, body).table == s.table;
      case RunJob(job, freshId, now) => assert OnJob(c, s, job, freshId, now).table == s.table;
      case StartTask(task) => assert OnStart(s, task).table == s.table;
      case Pump(task, timestamp) => assert OnPump(c, s, task, timestamp).table == s.table;
      case DeliverCancel(task) => assert OnCancel(s, task).table == s.table;
      case ReapPass(now, picked) => assert OnReapPass(s, now, picked).table == s.table;
      case ReapNext(_) => assert OnReapNext(s).table == s.table;
      case _ =>
    }
  }

  lemma {:induction false} PlayedKeepsTable(c: Config, events: seq<ServerEvent>)
    ensures TableInv(Played(c, events))
  {
    if events != [] {
      var init, last := events[..|events| - 1], events[|events| - 1];
      PlayedKeepsTable(c, init);
      if last.Ask? {
        AskKeepsTable(c, Played(c, init), last.request, last.site);
      } else {
        ServerStepKeepsTable(c, Played(c, init), last);
      }
    }
  }

  // So looking a mountpoint up in the table is looking it up in the registry.
  lemma TableFollowsRegistry(c: Config, events: seq<ServerEvent>, states: seq<State>, n: nat)
    requires IsRun(c, events, states) && n <= |events|
    ensures TableInv(states[n])
  {
    RunIsPlayed(c, events, states, n);
    PlayedKeepsTable(c, events[..n]);
  }
}

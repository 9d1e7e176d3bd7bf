/** What the UDP session protocol keeps in every reachable state, whatever the interleaving. */
module UdpSafety {
  import opened Transport
  import opened Caster
  import opened Nearest
  import opened Wrappers
  import opened UdpSessions

  // ---- how the caster grows ------------------------------------------------

  // Subscribers stay on their transport, transports on their mountpoint, logs only get longer.
  ghost predicate Grows(a: System, b: System) {
    && |a.subs| <= |b.subs| && |a.hubs| <= |b.hubs|
    && (forall i :: 0 <= i < |a.subs| ==> b.subs[i].hub == a.subs[i].hub)
    && (forall h :: 0 <= h < |a.hubs| ==>
          b.hubs[h].mountpoint == a.hubs[h].mountpoint && a.hubs[h].log <= b.hubs[h].log)
  }

  lemma HandledGrows(n: System, r: Request)
    requires SystemInv(n)
    ensures Grows(n, Handled(n, r).0)
  {
    forall h | 0 <= h < |n.hubs|
      ensures var hub := Handled(n, r).0.hubs[h]; hub.mountpoint == n.hubs[h].mountpoint && n.hubs[h].log <= hub.log
    {
      HubAfter(n, r, h);
    }
    forall i | 0 <= i < |n.subs|
      ensures Handled(n, r).0.subs[i].hub == n.subs[i].hub
    {
      assert SubInv(n, n.subs[i]);
      SubAfter(n, r, i);
    }
  }

  // Subscriber `sub` is on a transport of this mountpoint.
  predicate Serves(n: System, sub: nat, mountpoint: string) {
    sub < |n.subs| && n.subs[sub].hub < |n.hubs| && n.hubs[n.subs[sub].hub].mountpoint == mountpoint
  }

  // The frame was published on a transport of this mountpoint.
  ghost predicate PublishedOn(n: System, mountpoint: string, frame: Frame) {
    exists h, k :: 0 <= h < |n.hubs| && 0 <= k < |n.hubs[h].log| && n.hubs[h].mountpoint == mountpoint &&
        n.hubs[h].log[k].frame == frame
  }

  lemma PublishedStaysPublished(a: System, b: System, mountpoint: string, frame: Frame)
    requires Grows(a, b) && PublishedOn(a, mountpoint, frame)
    ensures PublishedOn(b, mountpoint, frame)
  {
    var h, k :| 0 <= h < |a.hubs| && 0 <= k < |a.hubs[h].log| && a.hubs[h].mountpoint == mountpoint &&
        a.hubs[h].log[k].frame == frame;
    assert b.hubs[h].log[k].frame == frame;
  }

  // What a subscriber's `get` returns was published on its mountpoint.
  lemma GotIsPublished(n: System, sub: nat, step: Transport.Event, frame: Frame, mountpoint: string)
    requires SystemInv(n) && Serves(n, sub, mountpoint) && (step.BeginGet? || step.ResumeGet?)
    requires Handled(n, Consume(sub, step)).1 == Answered(Got(frame))
    ensures PublishedOn(n, mountpoint, frame)
  {
    var t := n.subs[sub];
    assert SubInv(n, t) && LedgerInv(t.ledger);
    var l := t.ledger;
    assert l.sub.queue[0] == Data(l.accepted[|l.fates|]);
    assert n.hubs[t.hub].log[t.start + |l.fates|].frame == frame;
  }

  // ---- what every step keeps -----------------------------------------------

  // A task that streams for the session it is the current task of is subscribed to the session's
  // mountpoint; a task neither ended nor cancelled is its session's current task.
  ghost predicate TaskInv(s: State, t: nat)
    requires t < |s.tasks|
  {
    var task := s.tasks[t];
    && task.session in s.sessions
    && (!task.phase.Ended? && !task.cancelled ==> s.sessions[task.session].task == Some(t))
    && (task.phase.Streaming? ==> task.phase.sub < |s.net.subs|)
    && (task.phase.Streaming? && s.sessions[task.session].task == Some(t) ==>
          Serves(s.net, task.phase.sub, s.sessions[task.session].mountpoint))
  }

  ghost predicate SessionInv(c: Config, s: State, id: nat)
    requires id in s.sessions
  {
    var session := s.sessions[id];
    && (session.task.Some? ==> session.task.value < |s.tasks| && s.tasks[session.task.value].session == id)
    && ScopeAllows(session.scope, session.mountpoint)
    && id in s.pumped && session.seqNo == |s.pumped[id]| % SEQ_MODULUS
  }

  // A datagram the pump built names the mountpoint its session was on at that time, carries a
  // frame published there, properly signed, under the next sequence number.
  ghost predicate PumpedInv(c: Config, n: System, id: nat, k: nat, p: Pumped) {
    && p.packet.Correction? && p.packet.session == id && p.packet.seqNo == k % SEQ_MODULUS
    && Genuine(c, p.packet.correction, p.mountpoint, p.frame)
    && PublishedOn(n, p.mountpoint, p.frame)
    && (p.sent <==> c.size(p.packet) <= c.maxDatagram)
  }

  ghost predicate FlowInv(c: Config, s: State) {
    && (forall t :: 0 <= t < |s.tasks| ==> TaskInv(s, t))
    && (forall id :: id in s.sessions ==> SessionInv(c, s, id))
  }

  ghost predicate BookInv(c: Config, s: State) {
    && Follows(s)
    && (forall id, k :: id in s.pumped && 0 <= k < |s.pumped[id]| ==> PumpedInv(c, s.net, id, k, s.pumped[id][k]))
    && s.registered <= s.sessions.Keys && s.gauge == |s.registered|
    && s.pumped.Keys <= s.sessions.Keys
    && CacheInv(c, s.cache)
  }

  ghost predicate ServerInv(c: Config, s: State) {
    FlowInv(c, s) && BookInv(c, s)
  }

  // Asking the caster changes nothing the server relies on.
  lemma AskedKeeps(c: Config, s: State, r: Request)
    requires ServerInv(c, s)
    ensures ServerInv(c, Asked(s, r))
  {
    AskedFollowsRun(s, r);
    RunKeepsSystem(s.requests);
    var s' := Asked(s, r);
    HandledGrows(s.net, r);
    forall t | 0 <= t < |s'.tasks|
      ensures TaskInv(s', t)
    {
      assert TaskInv(s, t);
    }
    forall id, k | id in s'.pumped && 0 <= k < |s'.pumped[id]|
      ensures PumpedInv(c, s'.net, id, k, s'.pumped[id][k])
    {
      assert PumpedInv(c, s.net, id, k, s.pumped[id][k]);
      PublishedStaysPublished(s.net, s'.net, s.pumped[id][k].mountpoint, s.pumped[id][k].frame);
    }
    forall id | id in s'.sessions
      ensures SessionInv(c, s', id)
    {
      assert SessionInv(c, s, id);
    }
  }

  lemma RepointedKeeps(c: Config, s: State, id: nat, mountpoint: string)
    requires FlowInv(c, s) && id in s.sessions && ScopeAllows(s.sessions[id].scope, mountpoint)
    ensures FlowInv(c, Repointed(s, id, mountpoint))
  {
    var s' := Repointed(s, id, mountpoint);
    assert SessionInv(c, s, id);
    forall t | 0 <= t < |s'.tasks|
      ensures TaskInv(s', t)
    {
      if t < |s.tasks| {
        assert TaskInv(s, t);
      }
    }
    forall j | j in s'.sessions
      ensures SessionInv(c, s', j)
    {
      assert SessionInv(c, s, j);
    }
  }

  lemma TornDownKeepsFlow(c: Config, s: State, id: nat, current: Option<nat>)
    requires FlowInv(c, s) && id in s.sessions
    requires current.Some? ==> current.value < |s.tasks| && s.tasks[current.value].phase.Ended?
    ensures FlowInv(c, TornDown(s, id, current))
  {
    var s' := TornDown(s, id, current);
    assert SessionInv(c, s, id);
    forall t | 0 <= t < |s'.tasks|
      ensures TaskInv(s', t)
    {
      assert TaskInv(s, t);
    }
    forall j | j in s'.sessions
      ensures SessionInv(c, s', j)
    {
      assert SessionInv(c, s, j);
    }
  }

  lemma TornDownKeepsBook(c: Config, s: State, id: nat, current: Option<nat>)
    requires BookInv(c, s) && id in s.sessions
    ensures BookInv(c, TornDown(s, id, current))
  {
    if id in s.registered {
      assert |s.registered - {id}| == |s.registered| - 1;
    }
  }

  // Steps that leave sessions, tasks, datagrams and the session table alone.
  lemma IdleKeeps(c: Config, s: State, s': State)
    requires ServerInv(c, s)
    requires s'.net == s.net && s'.requests == s.requests && s'.sessions == s.sessions && s'.registered == s.registered
    requires s'.gauge == s.gauge && s'.tasks == s.tasks && s'.cache == s.cache && s'.pumped == s.pumped
    ensures ServerInv(c, s')
  {
    forall t | 0 <= t < |s'.tasks|
      ensures TaskInv(s', t)
    {
      assert TaskInv(s, t);
    }
    forall j | j in s'.sessions
      ensures SessionInv(c, s', j)
    {
      assert SessionInv(c, s, j);
    }
  }

  // A change of one session that keeps its mountpoint, scope, task and sequence number.
  lemma TouchedKeeps(c: Config, s: State, id: nat, session: Session)
    requires ServerInv(c, s) && id in s.sessions
    requires session.mountpoint == s.sessions[id].mountpoint && session.scope == s.sessions[id].scope
    requires session.task == s.sessions[id].task && session.seqNo == s.sessions[id].seqNo
    ensures ServerInv(c, s.(sessions := s.sessions[id := session]))
  {
    var s' := s.(sessions := s.sessions[id := session]);
    assert SessionInv(c, s, id);
    forall t | 0 <= t < |s'.tasks|
      ensures TaskInv(s', t)
    {
      assert TaskInv(s, t);
    }
    forall j | j in s'.sessions
      ensures SessionInv(c, s', j)
    {
      assert SessionInv(c, s, j);
    }
  }

  lemma RepointedKeepsAll(c: Config, s: State, id: nat, mountpoint: string)
    requires ServerInv(c, s) && id in s.sessions && ScopeAllows(s.sessions[id].scope, mountpoint)
    ensures ServerInv(c, Repointed(s, id, mountpoint))
  {
    RepointedKeeps(c, s, id, mountpoint);
  }

  lemma DatagramKeeps(c: Config, s: State, id: nat, addr: Addr, now: real, body: Body)
    requires ServerInv(c, s)
    ensures ServerInv(c, OnDatagram(c, s, id, addr, now, body))
  {
    if id in s.registered && id in s.sessions {
      TouchedKeeps(c, s, id, s.sessions[id].(addr := addr, expiry := now + c.ttl));
      var t := Refreshed(c, s, id, addr, now);
      if body.Keepalive? {
        KeepaliveKeeps(c, t, id, body.position);
      } else {
        JobsKeep(c, t, OnDatagram(c, s, id, addr, now, body).jobs);
      }
    }
  }

  lemma JobsKeep(c: Config, s: State, jobs: multiset<Job>)
    requires ServerInv(c, s)
    ensures ServerInv(c, s.(jobs := jobs))
  {
    IdleKeeps(c, s, s.(jobs := jobs));
  }

  lemma KeepaliveKeeps(c: Config, s: State, id: nat, position: Option<Place>)
    requires ServerInv(c, s) && id in s.sessions
    ensures ServerInv(c, OnKeepalive(c, s, id, position))
  {
    if position.Some? {
      var t := s.(positions := s.positions[(s.sessions[id].mountpoint, id) := position.value]);
      IdleKeeps(c, s, t);
      var nearest := NearestOf(s.table, c.distance, position.value);
      if s.sessions[id].dynamic && nearest.Some? && ScopeAllows(s.sessions[id].scope, nearest.value) {
        RepointedKeepsAll(c, t, id, nearest.value);
      } else {
        IdleKeeps(c, t, OnKeepalive(c, s, id, position));
      }
    }
  }

  lemma AdmittedKeeps(c: Config, s: State, id: nat, session: Session)
    requires ServerInv(c, s) && id !in s.sessions
    requires ScopeAllows(session.scope, session.mountpoint) && session.seqNo == 0 && session.task == Some(|s.tasks|)
    ensures ServerInv(c, Admitted(s, id, session))
  {
    var s' := Admitted(s, id, session);
    forall t | 0 <= t < |s'.tasks|
      ensures TaskInv(s', t)
    {
      if t < |s.tasks| {
        assert TaskInv(s, t);
      }
    }
    forall j | j in s'.sessions
      ensures SessionInv(c, s', j)
    {
      if j != id {
        assert SessionInv(c, s, j);
      }
    }
  }

  lemma HelloKeeps(c: Config, s: State, job: Job, freshId: nat, now: real)
    requires ServerInv(c, s) && job.HelloJob? && freshId !in s.sessions
    ensures ServerInv(c, OnHello(c, s, job, freshId, now))
  {
    var s' := OnHello(c, s, job, freshId, now);
    if job.claims.None? {
      IdleKeeps(c, s, s');
    } else {
      match Resolve(c, s.table, job.claims.value, job.requested, job.position) {
        case Refused(code) => IdleKeeps(c, s, s');
        case Allowed(m) =>
          var t := Admitted(s, freshId, NewSession(c, s, job, m, now));
          AdmittedKeeps(c, s, freshId, NewSession(c, s, job, m, now));
          IdleKeeps(c, t, Sent(t, Ack(c, freshId, m), job.addr));
      }
    }
  }

  lemma SwitchKeeps(c: Config, s: State, id: nat, requested: string, position: Option<Place>)
    requires ServerInv(c, s) && id in s.sessions
    ensures ServerInv(c, OnSwitch(c, s, id, requested, position))
  {
    assert SessionInv(c, s, id);
    match Resolve(c, s.table, s.sessions[id].scope, requested, position) {
      case Refused(code) => IdleKeeps(c, s, OnSwitch(c, s, id, requested, position));
      case Allowed(m) =>
        var session := s.sessions[id].(dynamic := requested == "NEAREST");
        TouchedKeeps(c, s, id, session);
        var t := s.(sessions := s.sessions[id := session]);
        RepointedKeepsAll(c, t, id, m);
    }
  }

  lemma TornDownKeeps(c: Config, s: State, id: nat, current: Option<nat>)
    requires ServerInv(c, s) && id in s.sessions
    requires current.Some? ==> current.value < |s.tasks| && s.tasks[current.value].phase.Ended?
    ensures ServerInv(c, TornDown(s, id, current))
  {
    TornDownKeepsFlow(c, s, id, current);
    TornDownKeepsBook(c, s, id, current);
  }

  lemma SessionJobKeeps(c: Config, s: State, id: nat, job: Job)
    requires ServerInv(c, s) && id in s.sessions
    ensures ServerInv(c, OnSessionJob(c, s, id, job))
  {
    if job.SwitchJob? {
      SwitchKeeps(c, s, id, job.requested, job.position);
    } else if job.EvictJob? {
      var t := Sent(s, Error(OUT_OF_RANGE), s.sessions[id].addr);
      IdleKeeps(c, s, t);
      TornDownKeeps(c, t, id, None);
    } else {
      TornDownKeeps(c, s, id, None);
    }
  }

  lemma JobKeeps(c: Config, s: State, job: Job, freshId: nat, now: real)
    requires ServerInv(c, s)
    ensures ServerInv(c, OnJob(c, s, job, freshId, now))
  {
    if job in s.jobs {
      var t := s.(jobs := s.jobs - multiset{job});
      IdleKeeps(c, s, t);
      if job.HelloJob? {
        if freshId !in s.sessions {
          HelloKeeps(c, t, job, freshId, now);
        }
      } else if job.session in s.sessions {
        SessionJobKeeps(c, t, job.session, job);
      }
    }
  }

  lemma EndedKeeps(c: Config, s: State, task: nat)
    requires ServerInv(c, s) && task < |s.tasks|
    ensures ServerInv(c, EndedTask(s, task))
  {
    var s' := EndedTask(s, task);
    forall t | 0 <= t < |s'.tasks|
      ensures TaskInv(s', t)
    {
      assert TaskInv(s, t);
    }
    forall j | j in s'.sessions
      ensures SessionInv(c, s', j)
    {
      assert SessionInv(c, s, j);
    }
  }

  lemma StartKeeps(c: Config, s: State, task: nat)
    requires ServerInv(c, s)
    ensures ServerInv(c, OnStart(s, task))
  {
    if Runnable(s, task) && s.tasks[task].phase.Created? {
      if s.tasks[task].cancelled {
        EndedKeeps(c, s, task);
      } else {
        var id := s.tasks[task].session;
        var session := s.sessions[id];
        var t := Asked(s, Subscribe(session.mountpoint));
        AskedKeeps(c, s, Subscribe(session.mountpoint));
        var reply := Handled(s.net, Subscribe(session.mountpoint)).1;
        if reply.Joined? {
          RunKeepsSystem(s.requests);
          assert Serves(t.net, reply.sub, session.mountpoint);
          StreamingKeeps(c, t, task, reply.sub);
        } else {
          var u := Sent(t, Error(MOUNTPOINT_UNAVAILABLE), session.addr);
          IdleKeeps(c, t, u);
          EndedKeeps(c, u, task);
          TornDownKeeps(c, EndedTask(u, task), id, Some(task));
        }
      }
    }
  }

  lemma StreamingKeeps(c: Config, s: State, task: nat, sub: nat)
    requires ServerInv(c, s) && task < |s.tasks| && s.tasks[task].phase.Created? && s.tasks[task].session in s.sessions
    requires Serves(s.net, sub, s.sessions[s.tasks[task].session].mountpoint)
    ensures ServerInv(c, s.(tasks := s.tasks[task := s.tasks[task].(phase := Streaming(sub))]))
  {
    var s' := s.(tasks := s.tasks[task := s.tasks[task].(phase := Streaming(sub))]);
    forall t | 0 <= t < |s'.tasks|
      ensures TaskInv(s', t)
    {
      assert TaskInv(s, t);
    }
    forall j | j in s'.sessions
      ensures SessionInv(c, s', j)
    {
      assert SessionInv(c, s, j);
    }
  }

  // The guard in the pump is what makes this hold: only the session's current task gets past it,
  // and that task's subscription is on the session's mountpoint.
  lemma FrameKeeps(c: Config, s: State, task: nat, sub: nat, frame: Frame, timestamp: int)
    requires ServerInv(c, s) && Runnable(s, task)
    requires s.sessions[s.tasks[task].session].task == Some(task) ==>
               PublishedOn(s.net, s.sessions[s.tasks[task].session].mountpoint, frame)
    ensures ServerInv(c, OnFrame(c, s, task, sub, frame, timestamp))
  {
    var id := s.tasks[task].session;
    var session := s.sessions[id];
    if session.task != Some(task) {
      AskedKeeps(c, s, Leave(sub));
      EndedKeeps(c, Asked(s, Leave(sub)), task);
    } else {
      var (cache, signed) := SignFrame(c, s.cache, session.mountpoint, frame, timestamp);
      var packet := Correction(id, session.seqNo, signed);
      var p := Pumped(task, session.mountpoint, frame, packet, c.size(packet) <= c.maxDatagram);
      assert SessionInv(c, s, id);
      NumberedKeeps(c, s, id, p, cache);
      var t := Numbered(s, id, p, cache);
      IdleKeeps(c, t, OnFrame(c, s, task, sub, frame, timestamp));
    }
  }

  lemma NumberedKeepsPumped(c: Config, s: State, id: nat, p: Pumped, cache: map<string, (Frame, SignedCorrection)>)
    requires BookInv(c, s) && id in s.sessions && id in s.pumped && PumpedInv(c, s.net, id, |s.pumped[id]|, p)
    ensures var pumped := Numbered(s, id, p, cache).pumped;
            forall j, k :: j in pumped && 0 <= k < |pumped[j]| ==> PumpedInv(c, s.net, j, k, pumped[j][k])
  {
    var pumped := Numbered(s, id, p, cache).pumped;
    forall j, k | j in pumped && 0 <= k < |pumped[j]|
      ensures PumpedInv(c, s.net, j, k, pumped[j][k])
    {
      if j != id || k < |s.pumped[id]| {
        assert pumped[j][k] == s.pumped[j][k];
        assert PumpedInv(c, s.net, j, k, s.pumped[j][k]);
      }
    }
  }

  lemma NumberedKeepsFlow(c: Config, s: State, id: nat, p: Pumped, cache: map<string, (Frame, SignedCorrection)>)
    requires FlowInv(c, s) && id in s.sessions && id in s.pumped
    ensures FlowInv(c, Numbered(s, id, p, cache))
  {
    var s' := Numbered(s, id, p, cache);
    forall t | 0 <= t < |s'.tasks|
      ensures TaskInv(s', t)
    {
      assert TaskInv(s, t);
    }
    forall j | j in s'.sessions
      ensures SessionInv(c, s', j)
    {
      assert SessionInv(c, s, j);
    }
  }

  lemma NumberedKeeps(c: Config, s: State, id: nat, p: Pumped, cache: map<string, (Frame, SignedCorrection)>)
    requires ServerInv(c, s) && id in s.sessions && id in s.pumped && CacheInv(c, cache)
    requires PumpedInv(c, s.net, id, |s.pumped[id]|, p)
    ensures ServerInv(c, Numbered(s, id, p, cache))
  {
    NumberedKeepsFlow(c, s, id, p, cache);
    NumberedKeepsPumped(c, s, id, p, cache);
  }

  // The frame a streaming task got was published on its session's mountpoint, if it still counts.
  lemma GotServes(c: Config, s: State, task: nat, sub: nat, step: Transport.Event, frame: Frame)
    requires ServerInv(c, s) && Runnable(s, task) && s.tasks[task].phase == Streaming(sub) &&
        (step.BeginGet? || step.ResumeGet?)
    requires Handled(s.net, Consume(sub, step)).1 == Answered(Got(frame))
    requires s.sessions[s.tasks[task].session].task == Some(task)
    ensures PublishedOn(s.net, s.sessions[s.tasks[task].session].mountpoint, frame)
    ensures PublishedOn(Asked(s, Consume(sub, step)).net, s.sessions[s.tasks[task].session].mountpoint, frame)
  {
    var mountpoint := s.sessions[s.tasks[task].session].mountpoint;
    assert TaskInv(s, task);
    RunKeepsSystem(s.requests);
    GotIsPublished(s.net, sub, step, frame, mountpoint);
    HandledGrows(s.net, Consume(sub, step));
    PublishedStaysPublished(s.net, Asked(s, Consume(sub, step)).net, mountpoint, frame);
  }

  lemma PumpKeeps(c: Config, s: State, task: nat, timestamp: int)
    requires ServerInv(c, s)
    ensures ServerInv(c, OnPump(c, s, task, timestamp))
  {
    if Runnable(s, task) && s.tasks[task].phase.Streaming? {
      var sub := s.tasks[task].phase.sub;
      var step := GetStep(s.net, sub);
      var t := Asked(s, Consume(sub, step));
      AskedKeeps(c, s, Consume(sub, step));
      var reply := Handled(s.net, Consume(sub, step)).1;
      if reply.Answered? && reply.outcome.Got? {
        if s.sessions[s.tasks[task].session].task == Some(task) {
          GotServes(c, s, task, sub, step, reply.outcome.frame);
        }
        FrameKeeps(c, t, task, sub, reply.outcome.frame, timestamp);
      } else if reply.Answered? && reply.outcome.EndOfStream? {
        AskedKeeps(c, t, Leave(sub));
        EndedKeeps(c, Asked(t, Leave(sub)), task);
      }
    }
  }

  lemma CancelKeeps(c: Config, s: State, task: nat)
    requires ServerInv(c, s)
    ensures ServerInv(c, OnCancel(s, task))
  {
    if Runnable(s, task) && s.tasks[task].cancelled {
      match s.tasks[task].phase {
        case Created => EndedKeeps(c, s, task);
        case Streaming(sub) =>
          var t := Asked(s, Consume(sub, CancelGet));
          AskedKeeps(c, s, Consume(sub, CancelGet));
          AskedKeeps(c, t, Leave(sub));
          EndedKeeps(c, Asked(t, Leave(sub)), task);
        case Ended =>
      }
    }
  }

  lemma ReapNextKeeps(c: Config, s: State)
    requires ServerInv(c, s)
    ensures ServerInv(c, OnReapNext(s))
  {
    if s.reaping != [] {
      var t := s.(reaping := s.reaping[1..]);
      IdleKeeps(c, s, t);
      if s.reaping[0].0 in s.sessions {
        TornDownKeeps(c, t, s.reaping[0].0, None);
      }
    }
  }

  lemma ReapPassKeeps(c: Config, s: State, now: real, picked: seq<nat>)
    requires ServerInv(c, s)
    ensures ServerInv(c, OnReapPass(s, now, picked))
  {
    if Picks(s, now, picked) {
      IdleKeeps(c, s, Queued(s, now, picked));
      ReapNextKeeps(c, Queued(s, now, picked));
    }
  }

  lemma AskKeeps(c: Config, s: State, r: Request, site: Site)
    requires ServerInv(c, s)
    ensures ServerInv(c, OnAsk(s, r, site))
  {
    if Foreign(s, r) {
      AskedKeeps(c, s, r);
      IdleKeeps(c, Asked(s, r), OnAsk(s, r, site));
    }
  }

  lemma EveryEventKeepsServer(c: Config, s: State, e: ServerEvent)
    requires ServerInv(c, s)
    ensures ServerInv(c, Next(c, s, e))
  {
    match e {
      case Ask(r, site) => AskKeeps(c, s, r, site);
      case HelloArrives(_, _, _, _) => IdleKeeps(c, s, Next(c, s, e));
      case DatagramArrives(id, addr, now, body) => DatagramKeeps(c, s, id, addr, now, body);
      case RunJob(job, freshId, now) => JobKeeps(c, s, job, freshId, now);
      case StartTask(task) => StartKeeps(c, s, task);
      case Pump(task, timestamp) => PumpKeeps(c, s, task, timestamp);
      case DeliverCancel(task) => CancelKeeps(c, s, task);
      case ReapPass(now, picked) => ReapPassKeeps(c, s, now, picked);
      case ReapNext(_) => ReapNextKeeps(c, s);
    }
  }

  lemma {:induction false} ServerStaysSound(c: Config, events: seq<ServerEvent>)
    ensures ServerInv(c, Played(c, events))
  {
    if events != [] {
      ServerStaysSound(c, events[..|events| - 1]);
      EveryEventKeepsServer(c, Played(c, events[..|events| - 1]), events[|events| - 1]);
    }
  }

  // ---- what is sent, step by step ------------------------------------------

  // The datagrams built for a session so far.
  function Built(s: State, id: nat): seq<Pumped> {
    if id in s.pumped then s.pumped[id] else []
  }

  // The corrections of a session that went out, in order.
  function CorrectionsTo(outbox: seq<(Packet, Addr)>, id: nat): seq<Packet> {
    if outbox == [] then []
    else
      var last := outbox[|outbox| - 1].0;
      CorrectionsTo(outbox[..|outbox| - 1], id) + (if last.Correction? && last.session == id then [last] else [])
  }

  function SentOf(built: seq<Pumped>): seq<Packet> {
    if built == [] then []
    else
      var last := built[|built| - 1];
      SentOf(built[..|built| - 1]) + (if last.sent then [last.packet] else [])
  }

  lemma SendingAdds(s: State, packet: Packet, addr: Addr, id: nat)
    ensures CorrectionsTo(Sent(s, packet, addr).outbox, id)
            == CorrectionsTo(s.outbox, id) + if packet.Correction? && packet.session == id then [packet] else []
  {
    assert Sent(s, packet, addr).outbox[..|s.outbox|] == s.outbox;
  }

  // One round of session id's pump: its current task built a datagram on its current mountpoint,
  // and if it was not too large it went out.
  ghost predicate BuildsOne(c: Config, s: State, s': State, id: nat) {
    && id in s.sessions && id in s.pumped && id in s'.pumped
    && |s'.pumped[id]| == |s.pumped[id]| + 1 && s.pumped[id] <= s'.pumped[id]
    && var p := s'.pumped[id][|s.pumped[id]|];
       && s.sessions[id].task == Some(p.task) && s.sessions[id].mountpoint == p.mountpoint
       && p.packet.Correction? && p.packet.session == id
       && CorrectionsTo(s'.outbox, id) == CorrectionsTo(s.outbox, id) + (if p.sent then [p.packet] else [])
       && (p.sent ==> s'.outbox == s.outbox + [(p.packet, s.sessions[id].addr)])
  }

  ghost predicate BuildsNone(s: State, s': State, id: nat) {
    Built(s', id) == Built(s, id) && CorrectionsTo(s'.outbox, id) == CorrectionsTo(s.outbox, id)
  }

  lemma SendingBuildsNone(s: State, packet: Packet, addr: Addr, id: nat)
    requires !packet.Correction?
    ensures BuildsNone(s, Sent(s, packet, addr), id)
  {
    SendingAdds(s, packet, addr, id);
  }

  lemma AdmittingBuildsNone(s: State, freshId: nat, session: Session, id: nat)
    requires freshId !in s.pumped
    ensures BuildsNone(s, Admitted(s, freshId, session), id)
  {
  }

  lemma HelloBuildsNone(c: Config, s: State, job: Job, freshId: nat, now: real, id: nat)
    requires job.HelloJob? && freshId !in s.pumped
    ensures BuildsNone(s, OnHello(c, s, job, freshId, now), id)
  {
    if job.claims.None? {
      SendingBuildsNone(s, Error(INVALID_TOKEN), job.addr, id);
    } else {
      var r := Resolve(c, s.table, job.claims.value, job.requested, job.position);
      if r.Refused? {
        SendingBuildsNone(s, Error(r.code), job.addr, id);
      } else {
        var session := NewSession(c, s, job, r.mountpoint, now);
        AdmittingBuildsNone(s, freshId, session, id);
        SendingBuildsNone(Admitted(s, freshId, session), Ack(c, freshId, r.mountpoint), job.addr, id);
      }
    }
  }

  lemma SessionJobBuildsNone(c: Config, s: State, own: nat, job: Job, id: nat)
    requires own in s.sessions
    ensures BuildsNone(s, OnSessionJob(c, s, own, job), id)
  {
    if job.SwitchJob? {
      var r := Resolve(c, s.table, s.sessions[own].scope, job.requested, job.position);
      if r.Refused? {
        SendingAdds(s, Error(r.code), s.sessions[own].addr, id);
      }
    } else if job.EvictJob? {
      SendingAdds(s, Error(OUT_OF_RANGE), s.sessions[own].addr, id);
    }
  }

  lemma JobBuildsNone(c: Config, s: State, job: Job, freshId: nat, now: real, id: nat)
    requires s.pumped.Keys <= s.sessions.Keys
    ensures BuildsNone(s, OnJob(c, s, job, freshId, now), id)
  {
    if job in s.jobs {
      var t := s.(jobs := s.jobs - multiset{job});
      if job.HelloJob? {
        if freshId !in s.sessions {
          HelloBuildsNone(c, t, job, freshId, now, id);
        }
      } else if job.session in s.sessions {
        SessionJobBuildsNone(c, t, job.session, job, id);
      }
    }
  }

  lemma FrameBuilds(c: Config, s: State, task: nat, sub: nat, frame: Frame, timestamp: int, id: nat)
    requires Runnable(s, task) && WellFormed(s.net)
    ensures var s' := OnFrame(c, s, task, sub, frame, timestamp);
            if id == s.tasks[task].session && s.sessions[id].task == Some(task)
            then BuildsOne(c, s, s', id) else BuildsNone(s, s', id)
  {
    var own := s.tasks[task].session;
    var session := s.sessions[own];
    if session.task == Some(task) {
      var (cache, signed) := SignFrame(c, s.cache, session.mountpoint, frame, timestamp);
      var packet := Correction(own, session.seqNo, signed);
      var fits := c.size(packet) <= c.maxDatagram;
      var p := Pumped(task, session.mountpoint, frame, packet, fits);
      SendingAdds(Numbered(s, own, p, cache), packet, session.addr, id);
    }
  }

  lemma StartBuildsNone(s: State, task: nat, id: nat)
    requires WellFormed(s.net)
    ensures BuildsNone(s, OnStart(s, task), id)
  {
    if Runnable(s, task) && s.tasks[task].phase.Created? && !s.tasks[task].cancelled {
      var session := s.sessions[s.tasks[task].session];
      var t := Asked(s, Subscribe(session.mountpoint));
      if !Handled(s.net, Subscribe(session.mountpoint)).1.Joined? {
        assert OnStart(s, task).outbox == Sent(t, Error(MOUNTPOINT_UNAVAILABLE), session.addr).outbox;
        SendingAdds(t, Error(MOUNTPOINT_UNAVAILABLE), session.addr, id);
      }
    }
  }

  lemma PumpBuilds(c: Config, s: State, task: nat, timestamp: int, id: nat)
    requires WellFormed(s.net)
    ensures BuildsNone(s, OnPump(c, s, task, timestamp), id) || BuildsOne(c, s, OnPump(c, s, task, timestamp), id)
  {
    if Runnable(s, task) && s.tasks[task].phase.Streaming? {
      var sub := s.tasks[task].phase.sub;
      var step := Consume(sub, GetStep(s.net, sub));
      var reply := Handled(s.net, step).1;
      if reply.Answered? && reply.outcome.Got? {
        FrameBuilds(c, Asked(s, step), task, sub, reply.outcome.frame, timestamp, id);
      }
    }
  }

  lemma StepBuilds(c: Config, s: State, e: ServerEvent, id: nat)
    requires WellFormed(s.net) && s.pumped.Keys <= s.sessions.Keys
    ensures BuildsNone(s, Next(c, s, e), id) || BuildsOne(c, s, Next(c, s, e), id)
    ensures BuildsOne(c, s, Next(c, s, e), id) ==> e.Pump?
  {
    match e {
      case RunJob(job, freshId, now) => JobBuildsNone(c, s, job, freshId, now, id);
      case StartTask(task) => StartBuildsNone(s, task, id);
      case Pump(task, timestamp) => PumpBuilds(c, s, task, timestamp, id);
      case _ =>
    }
  }

  // ---- superseded tasks ----------------------------------------------------

  // Task t exists and is not (or no longer) the current task of its session.
  predicate Superseded(s: State, t: nat) {
    t < |s.tasks| && s.tasks[t].session in s.sessions && s.sessions[s.tasks[t].session].task != Some(t)
  }

  // A step keeps every session and its scope, and never makes an existing task current again: it
  // clears a session's task or sets a new one. The session of a task is fixed, a new task has yet to
  // run, and one starts streaming only from a subscriber made in that step.
  ghost predicate MovesOn(s: State, s': State, id: nat, t: nat) {
    && |s.tasks| <= |s'.tasks|
    && (t < |s.tasks| ==> s'.tasks[t].session == s.tasks[t].session)
    && (t < |s.tasks| ==>
          || s'.tasks[t].phase == s.tasks[t].phase || s'.tasks[t].phase.Ended?
          || (s.tasks[t].phase.Created? && s'.tasks[t].phase.Streaming? &&
                |s.net.subs| <= s'.tasks[t].phase.sub < |s'.net.subs|))
    && (|s.tasks| <= t < |s'.tasks| ==> s'.tasks[t].phase.Created?)
    && (id in s.sessions ==>
          && id in s'.sessions && s'.sessions[id].scope == s.sessions[id].scope
          && (s'.sessions[id].task == s.sessions[id].task || s'.sessions[id].task == None
              || s'.sessions[id].task.value >= |s.tasks|))
  }

  lemma RepointedMovesOn(s: State, own: nat, mountpoint: string, id: nat, t: nat)
    requires own in s.sessions
    ensures MovesOn(s, Repointed(s, own, mountpoint), id, t)
  {
  }

  lemma TornDownMovesOn(s: State, own: nat, current: Option<nat>, id: nat, t: nat)
    requires own in s.sessions
    ensures MovesOn(s, TornDown(s, own, current), id, t)
  {
  }

  lemma KeepaliveMovesOn(c: Config, s: State, own: nat, position: Option<Place>, id: nat, t: nat)
    requires own in s.sessions
    ensures MovesOn(s, OnKeepalive(c, s, own, position), id, t)
  {
    if position.Some? {
      var u := s.(positions := s.positions[(s.sessions[own].mountpoint, own) := position.value]);
      var nearest := NearestOf(s.table, c.distance, position.value);
      if nearest.Some? {
        RepointedMovesOn(u, own, nearest.value, id, t);
      }
    }
  }

  lemma DatagramMovesOn(c: Config, s: State, own: nat, addr: Addr, now: real, body: Body, id: nat, t: nat)
    ensures MovesOn(s, OnDatagram(c, s, own, addr, now, body), id, t)
  {
    if own in s.registered && own in s.sessions && body.Keepalive? {
      var r := Refreshed(c, s, own, addr, now);
      assert MovesOn(s, r, id, t);
      KeepaliveMovesOn(c, r, own, body.position, id, t);
    }
  }

  lemma SessionJobMovesOn(c: Config, s: State, own: nat, job: Job, id: nat, t: nat)
    requires own in s.sessions
    ensures MovesOn(s, OnSessionJob(c, s, own, job), id, t)
  {
    if job.SwitchJob? {
      var r := Resolve(c, s.table, s.sessions[own].scope, job.requested, job.position);
      if r.Allowed? {
        var u := s.(sessions := s.sessions[own := s.sessions[own].(dynamic := job.requested == "NEAREST")]);
        RepointedMovesOn(u, own, r.mountpoint, id, t);
      }
    } else {
      TornDownMovesOn(s, own, None, id, t);
      TornDownMovesOn(Sent(s, Error(OUT_OF_RANGE), s.sessions[own].addr), own, None, id, t);
    }
  }

  lemma JobMovesOn(c: Config, s: State, job: Job, freshId: nat, now: real, id: nat, t: nat)
    ensures MovesOn(s, OnJob(c, s, job, freshId, now), id, t)
  {
    if job in s.jobs && !job.HelloJob? && job.session in s.sessions {
      SessionJobMovesOn(c, s.(jobs := s.jobs - multiset{job}), job.session, job, id, t);
    }
  }

  lemma StartMovesOn(s: State, task: nat, id: nat, t: nat)
    requires WellFormed(s.net)
    ensures MovesOn(s, OnStart(s, task), id, t)
  {
    if Runnable(s, task) && s.tasks[task].phase.Created? && !s.tasks[task].cancelled {
      var session := s.sessions[s.tasks[task].session];
      var asked := Asked(s, Subscribe(session.mountpoint));
      var u := EndedTask(Sent(asked, Error(MOUNTPOINT_UNAVAILABLE), session.addr), task);
      TornDownMovesOn(u, s.tasks[task].session, Some(task), id, t);
    }
  }

  lemma PumpMovesOn(c: Config, s: State, task: nat, timestamp: int, id: nat, t: nat)
    requires WellFormed(s.net)
    ensures MovesOn(s, OnPump(c, s, task, timestamp), id, t)
  {
    if Runnable(s, task) && s.tasks[task].phase.Streaming? {
      var sub := s.tasks[task].phase.sub;
      var step := Consume(sub, GetStep(s.net, sub));
      var reply := Handled(s.net, step).1;
      if reply.Answered? && reply.outcome.Got? {
        FrameMovesOn(c, Asked(s, step), task, sub, reply.outcome.frame, timestamp, id, t);
      }
    }
  }

  lemma FrameMovesOn(c: Config, s: State, task: nat, sub: nat, frame: Frame, timestamp: int, id: nat, t: nat)
    requires Runnable(s, task) && WellFormed(s.net)
    ensures MovesOn(s, OnFrame(c, s, task, sub, frame, timestamp), id, t)
  {
  }

  lemma CancelMovesOn(s: State, task: nat, id: nat, t: nat)
    requires WellFormed(s.net)
    ensures MovesOn(s, OnCancel(s, task), id, t)
  {
  }

  lemma ReapNextMovesOn(s: State, id: nat, t: nat)
    ensures MovesOn(s, OnReapNext(s), id, t)
  {
    if s.reaping != [] && s.reaping[0].0 in s.sessions {
      TornDownMovesOn(s.(reaping := s.reaping[1..]), s.reaping[0].0, None, id, t);
    }
  }

  lemma StepMovesOn(c: Config, s: State, e: ServerEvent, id: nat, t: nat)
    requires WellFormed(s.net)
    ensures MovesOn(s, Next(c, s, e), id, t)
  {
    match e {
      case DatagramArrives(own, addr, now, body) => DatagramMovesOn(c, s, own, addr, now, body, id, t);
      case RunJob(job, freshId, now) => JobMovesOn(c, s, job, freshId, now, id, t);
      case StartTask(task) => StartMovesOn(s, task, id, t);
      case Pump(task, timestamp) => PumpMovesOn(c, s, task, timestamp, id, t);
      case DeliverCancel(task) => CancelMovesOn(s, task, id, t);
      case ReapPass(now, picked) => ReapNextMovesOn(Queued(s, now, picked), id, t);
      case ReapNext(_) => ReapNextMovesOn(s, id, t);
      case _ =>
    }
  }

  // ---- what a built datagram carries ---------------------------------------

  // The datagram session id got in this step carries a frame published on its mountpoint before.
  ghost predicate CarriesPublished(s: State, s': State, id: nat) {
    id in s.pumped && id in s'.pumped && |s.pumped[id]| < |s'.pumped[id]|
    && PublishedOn(s.net, s'.pumped[id][|s.pumped[id]|].mountpoint, s'.pumped[id][|s.pumped[id]|].frame)
  }

  lemma FrameCarries(c: Config, s: State, task: nat, sub: nat, frame: Frame, timestamp: int)
    requires Runnable(s, task) && WellFormed(s.net) && s.sessions[s.tasks[task].session].task == Some(task)
    ensures var id := s.tasks[task].session;
            var s' := OnFrame(c, s, task, sub, frame, timestamp);
            && id in s'.pumped && |s'.pumped[id]| == |s.pumped[id]| + 1
            && s'.pumped[id][|s.pumped[id]|].mountpoint == s.sessions[id].mountpoint
            && s'.pumped[id][|s.pumped[id]|].frame == frame
  {
  }

  lemma PumpCarries(c: Config, s: State, task: nat, timestamp: int, id: nat)
    requires ServerInv(c, s) && BuildsOne(c, s, OnPump(c, s, task, timestamp), id)
    ensures CarriesPublished(s, OnPump(c, s, task, timestamp), id)
  {
    if Runnable(s, task) && s.tasks[task].phase.Streaming? {
      var sub := s.tasks[task].phase.sub;
      var get := GetStep(s.net, sub);
      var reply := Handled(s.net, Consume(sub, get)).1;
      if reply.Answered? && reply.outcome.Got? {
        FrameBuilds(c, Asked(s, Consume(sub, get)), task, sub, reply.outcome.frame, timestamp, id);
        FrameCarries(c, Asked(s, Consume(sub, get)), task, sub, reply.outcome.frame, timestamp);
        GotServes(c, s, task, sub, get, reply.outcome.frame);
      }
    }
  }
}

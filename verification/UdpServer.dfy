/** The UDP egress server as an object, each method tied to a step of the session protocol. */
module UdpServer {
  import opened Transport
  import opened Caster
  import opened Nearest
  import opened Wrappers
  import opened UdpSafety
  import opened UdpSessions

  // The first n rounds of an egress task.
  function Rounds(c: Config, s: State, task: nat, clock: nat -> int, n: nat): (r: State)
    requires WellFormed(s.net)
    ensures WellFormed(r.net)
  {
    if n == 0 then s else OnPump(c, Rounds(c, s, task, clock, n - 1), task, clock(n - 1))
  }

  lemma TakingShortens(n: System, sub: nat, step: Transport.Event, frame: Frame)
    requires WellFormed(n) && (step.BeginGet? || step.ResumeGet?)
    requires Handled(n, Request.Consume(sub, step)).1 == Answered(Got(frame))
    ensures sub < |n.subs| && sub < |Handled(n, Request.Consume(sub, step)).0.subs|
    ensures |Handled(n, Request.Consume(sub, step)).0.subs[sub].ledger.sub.queue| < |n.subs[sub].ledger.sub.queue|
  {
  }

  class RTCMDatagramServer {
    const config: Config
    const caster: NTRIPCaster
    var table: seq<Listing>
    var sessions: map<nat, Session>
    var registered: set<nat>
    var gauge: int
    var tasks: seq<Task>
    var jobs: multiset<Job>
    var reaping: seq<(nat, real)>
    var cache: map<string, (Frame, SignedCorrection)>
    var positions: map<(string, nat), Place>
    var outbox: seq<(Packet, Addr)>
    ghost var requests: seq<Request>
    ghost var pumped: map<nat, seq<Pumped>>

    ghost function View(): State
      reads this, caster
    {
      State(
        caster.View(), requests, table, sessions, registered, gauge, tasks, jobs, reaping, cache, positions, pumped,
        outbox)
    }

    // What every handler keeps: tasks, sessions, datagrams, cache and gauge are consistent, and so is
    // the caster after the requests made of it.
    ghost predicate Valid()
      reads this, caster
    {
      ServerInv(config, View())
    }

    constructor (config: Config, caster: NTRIPCaster)
      requires caster.View() == EMPTY_SYSTEM
      ensures this.config == config && this.caster == caster && View() == START && Valid()
    {
      this.config, this.caster := config, caster;
      table, sessions, registered, gauge, tasks, jobs := [], map[], {}, 0, [], multiset{};
      reaping, cache, positions, outbox, requests, pumped := [], map[], map[], [], [], map[];
    }

    method Send(packet: Packet, addr: Addr)
      modifies this
      ensures View() == Sent(old(View()), packet, addr)
    {
      outbox := outbox + [(packet, addr)];
    }

    method CancelTask(task: Option<nat>)
      modifies this
      ensures View() == Cancelled(old(View()), task)
    {
      if task.Some? && task.value < |tasks| {
        tasks := tasks[task.value := tasks[task.value].(cancelled := true)];
      }
    }

    // Restart a session's egress against another mountpoint.
    method Repoint(id: nat, mountpoint: string)
      requires id in sessions
      modifies this
      ensures View() == Repointed(old(View()), id, mountpoint)
    {
      var session := sessions[id];
      if mountpoint == session.mountpoint {
        return;
      }
      var oldTask := session.task;
      sessions := sessions[id := session.(mountpoint := mountpoint, task := Some(|tasks|))];
      tasks := tasks + [Task(id, Created, false)];
      if oldTask.Some? && oldTask.value < |tasks| - 1 {
        tasks := tasks[oldTask.value := tasks[oldTask.value].(cancelled := true)];
      }
    }

    method Teardown(id: nat, current: Option<nat>)
      requires id in sessions
      modifies this
      ensures View() == TornDown(old(View()), id, current)
    {
      if id !in registered {
        return;
      }
      registered := registered - {id};
      gauge := gauge - 1;
      var session := sessions[id];
      positions := positions - {(session.mountpoint, id)};
      sessions := sessions[id := session.(task := None)];
      if session.task != current {
        CancelTask(session.task);
      }
    }

    method ResolveMountpoint(scope: string, requested: string, position: Option<Place>) returns (r: Resolved)
      ensures r == Resolve(config, table, scope, requested, position)
    {
      var wildcard := Wildcard(scope);
      if requested == "NEAREST" {
        if position.None? {
          return Refused(MISSING_POSITION);
        }
        var nearest := FindNearest(table, config.distance, position.value);
        if nearest.None? {
          return Refused(MOUNTPOINT_UNAVAILABLE);
        }
        if !wildcard && nearest.value != scope {
          return Refused(UNAUTHORIZED_MOUNTPOINT);
        }
        return Allowed(nearest.value);
      }
      if !wildcard && requested != scope {
        return Refused(UNAUTHORIZED_MOUNTPOINT);
      }
      if Lookup(table, requested).None? {
        return Refused(MOUNTPOINT_UNAVAILABLE);
      }
      r := Allowed(requested);
    }

    method HandleKeepalive(id: nat, position: Option<Place>)
      requires id in sessions
      modifies this
      ensures View() == OnKeepalive(config, old(View()), id, position)
    {
      if position.None? {
        return;
      }
      var p, session := position.value, sessions[id];
      positions := positions[(session.mountpoint, id) := p];
      if session.dynamic {
        var nearest := FindNearest(table, config.distance, p);
        if nearest.None? {
          jobs := jobs + multiset{EvictJob(id)};
        } else if ScopeAllows(session.scope, nearest.value) {
          Repoint(id, nearest.value);
        }
      } else if OutOfRange(table, session.mountpoint, config.distance, p) {
        jobs := jobs + multiset{EvictJob(id)};
      }
    }

    method Refresh(id: nat, addr: Addr, now: real)
      requires id in sessions
      modifies this`sessions
      ensures View() == Refreshed(config, old(View()), id, addr, now)
    {
      sessions := sessions[id := sessions[id].(addr := addr, expiry := now + config.ttl)];
    }

    // A decodable datagram other than a hello.
    method HandleDatagram(id: nat, addr: Addr, now: real, body: Body)
      requires Valid()
      modifies this
      ensures View() == OnDatagram(config, old(View()), id, addr, now, body) && Valid()
    {
      DatagramKeeps(config, View(), id, addr, now, body);
      if id !in registered || id !in sessions {
        return;
      }
      Refresh(id, addr, now);
      match body {
        case Keepalive(position) => HandleKeepalive(id, position);
        case SwitchTo(requested, position) => jobs := jobs + multiset{SwitchJob(id, requested, position)};
        case Bye => jobs := jobs + multiset{ByeJob(id)};
        case NoBody =>
      }
    }

    // A hello is handled by a task of its own.
    method SpawnHello(claims: Option<string>, requested: string, position: Option<Place>, addr: Addr)
      requires Valid()
      modifies this`jobs
      ensures WellFormed(old(caster.View()))
      ensures View() == Next(config, old(View()), HelloArrives(claims, requested, position, addr)) && Valid()
    {
      EveryEventKeepsServer(config, View(), HelloArrives(claims, requested, position, addr));
      jobs := jobs + multiset{HelloJob(claims, requested, position, addr)};
    }

    // A new session enters the table with its egress task.
    method Admit(id: nat, session: Session)
      modifies this
      ensures View() == Admitted(old(View()), id, session)
    {
      sessions, registered, gauge := sessions[id := session], registered + {id}, gauge + 1;
      tasks := tasks + [Task(id, Created, false)];
      pumped := pumped[id := []];
    }

    method HandleHello(job: Job, freshId: nat, now: real)
      requires job.HelloJob?
      modifies this
      ensures View() == OnHello(config, old(View()), job, freshId, now)
    {
      if job.claims.None? {
        Send(Error(INVALID_TOKEN), job.addr);
        return;
      }
      var resolved := ResolveMountpoint(job.claims.value, job.requested, job.position);
      if resolved.Refused? {
        Send(Error(resolved.code), job.addr);
        return;
      }
      var session := Session(
        resolved.mountpoint, job.addr, now + config.ttl, job.claims.value, job.requested == "NEAREST",
        0, Some(|tasks|));
      Admit(freshId, session);
      var kid := if config.signing then config.kid else "";
      Send(HelloAck(freshId, resolved.mountpoint, kid, config.keepaliveInterval, Truncated(config.ttl)), job.addr);
    }

    method HandleSwitch(id: nat, requested: string, position: Option<Place>)
      requires id in sessions
      modifies this
      ensures View() == OnSwitch(config, old(View()), id, requested, position)
    {
      var resolved := ResolveMountpoint(sessions[id].scope, requested, position);
      if resolved.Refused? {
        Send(Error(resolved.code), sessions[id].addr);
        return;
      }
      sessions := sessions[id := sessions[id].(dynamic := requested == "NEAREST")];
      Repoint(id, resolved.mountpoint);
    }

    method Evict(id: nat)
      requires id in sessions
      modifies this
      ensures View() == OnSessionJob(config, old(View()), id, EvictJob(id))
    {
      Send(Error(OUT_OF_RANGE), sessions[id].addr);
      Teardown(id, None);
    }

    method SignCorrection(mountpoint: string, frame: Frame, timestamp: int) returns (signed: SignedCorrection)
      modifies this
      ensures (cache, signed) == SignFrame(config, old(cache), mountpoint, frame, timestamp)
      ensures View() == old(View()).(cache := cache)
    {
      if mountpoint in cache && cache[mountpoint].0 == frame {
        return cache[mountpoint].1;
      }
      var payload := CorrectionFrame(timestamp, mountpoint, frame.bytes);
      var signature := if config.signing then config.sign(payload) else [];
      signed := SignedCorrection(payload, signature);
      cache := cache[mountpoint := (frame, signed)];
    }

    // What the server asks of the caster.
    method Subscribe(mountpoint: string) returns (reply: Reply)
      requires WellFormed(caster.View())
      modifies this`requests, caster
      ensures View() == Asked(old(View()), Request.Subscribe(mountpoint))
      ensures reply == Handled(old(caster.View()), Request.Subscribe(mountpoint)).1
    {
      reply := caster.Subscribe(mountpoint);
      requests := requests + [Request.Subscribe(mountpoint)];
    }

    method Consume(sub: nat, step: Transport.Event) returns (reply: Reply)
      requires WellFormed(caster.View())
      modifies this`requests, caster
      ensures View() == Asked(old(View()), Request.Consume(sub, step))
      ensures reply == Handled(old(caster.View()), Request.Consume(sub, step)).1
    {
      reply := caster.Consume(sub, step);
      requests := requests + [Request.Consume(sub, step)];
    }

    method Leave(sub: nat)
      requires WellFormed(caster.View())
      modifies this`requests, caster
      ensures View() == Asked(old(View()), Request.Leave(sub))
    {
      caster.Leave(sub);
      requests := requests + [Request.Leave(sub)];
    }

    method EndTask(task: nat)
      requires task < |tasks|
      modifies this`tasks
      ensures View() == EndedTask(old(View()), task)
    {
      tasks := tasks[task := tasks[task].(phase := Ended)];
    }

    // The egress task's first run, up to its first `get`.
    method StartEgress(task: nat)
      requires Valid() && Runnable(View(), task) && tasks[task].phase.Created?
      modifies this, caster
      ensures WellFormed(old(caster.View())) && View() == OnStart(old(View()), task) && Valid()
    {
      StartKeeps(config, View(), task);
      if tasks[task].cancelled {
        EndTask(task);
        return;
      }
      var id := tasks[task].session;
      var session := sessions[id];
      var reply := Subscribe(session.mountpoint);
      if reply.Joined? {
        tasks := tasks[task := tasks[task].(phase := Streaming(reply.sub))];
      } else {
        Send(Error(MOUNTPOINT_UNAVAILABLE), session.addr);
        EndTask(task);
        Teardown(id, Some(task));
      }
    }

    // The pump's round once it has a frame.
    method PumpFrame(task: nat, sub: nat, frame: Frame, timestamp: int)
      requires WellFormed(caster.View()) && Runnable(View(), task)
      modifies this, caster
      ensures View() == OnFrame(config, old(View()), task, sub, frame, timestamp)
      ensures WellFormed(caster.View()) && task < |tasks|
      ensures tasks[task].phase.Ended? ||
          (Runnable(View(), task) && tasks == old(tasks) && caster.View() == old(caster.View()))
    {
      var id := tasks[task].session;
      var session := sessions[id];
      if session.task != Some(task) {
        Leave(sub);
        EndTask(task);
        return;
      }
      var signed := SignCorrection(session.mountpoint, frame, timestamp);
      var packet := Correction(id, session.seqNo, signed);
      var fits := config.size(packet) <= config.maxDatagram;
      sessions := sessions[id := session.(seqNo := (session.seqNo + 1) % SEQ_MODULUS)];
      pumped := pumped[id := pumped[id] + [Pumped(task, session.mountpoint, frame, packet, fits)]];
      if fits {
        Send(packet, session.addr);
      }
    }

    // Items waiting in the queue of a streaming task.
    ghost function Waiting(sub: nat): nat
      reads caster
    {
      if sub < |caster.subs| then |caster.subs[sub].ledger.sub.queue| else 0
    }

    // One round of the pump; the task goes on with another while `more`.
    method Pump(task: nat, timestamp: int) returns (more: bool)
      requires Valid() && Runnable(View(), task) && tasks[task].phase.Streaming?
      modifies this, caster
      ensures WellFormed(old(caster.View())) && View() == OnPump(config, old(View()), task, timestamp) && Valid()
      ensures more ==>
                && Runnable(View(), task) && tasks[task].phase == old(tasks)[task].phase
                && Waiting(tasks[task].phase.sub) < old(Waiting(tasks[task].phase.sub))
    {
      PumpKeeps(config, View(), task, timestamp);
      more := PumpRound(task, timestamp);
    }

    // The pump's `get`, begun or resumed; a frame it returns is one less to wait for.
    method Get(sub: nat) returns (reply: Reply)
      requires WellFormed(caster.View())
      modifies this`requests, caster
      ensures View() == Asked(old(View()), Request.Consume(sub, GetStep(old(caster.View()), sub)))
      ensures reply == Handled(old(caster.View()), Request.Consume(sub, GetStep(old(caster.View()), sub))).1
      ensures WellFormed(caster.View())
      ensures reply.Answered? && reply.outcome.Got? ==> Waiting(sub) < old(Waiting(sub))
    {
      var resumed := sub < |caster.subs| && !caster.subs[sub].ledger.sub.consumer.Idle?;
      var step := if resumed then ResumeGet else BeginGet;
      ghost var before := caster.View();
      reply := Consume(sub, step);
      if reply.Answered? && reply.outcome.Got? {
        TakingShortens(before, sub, step, reply.outcome.frame);
      }
    }

    method PumpRound(task: nat, timestamp: int) returns (more: bool)
      requires WellFormed(caster.View()) && Runnable(View(), task) && tasks[task].phase.Streaming?
      modifies this, caster
      ensures View() == OnPump(config, old(View()), task, timestamp)
      ensures more ==>
                && Runnable(View(), task) && tasks[task].phase == old(tasks)[task].phase
                && Waiting(tasks[task].phase.sub) < old(Waiting(tasks[task].phase.sub))
    {
      var sub := tasks[task].phase.sub;
      var reply := Get(sub);
      more := false;
      if reply.Answered? && reply.outcome.Got? {
        PumpFrame(task, sub, reply.outcome.frame, timestamp);
        more := tasks[task].phase.Streaming?;
      } else if reply.Answered? && reply.outcome.EndOfStream? {
        Leave(sub);
        EndTask(task);
      }
    }

    // The pump, until `get` suspends it or its stream is over; the clock is read once a round.
    method RunPump(task: nat, clock: nat -> int) returns (rounds: nat)
      requires Valid() && Runnable(View(), task) && tasks[task].phase.Streaming?
      modifies this, caster
      ensures WellFormed(old(caster.View())) && View() == Rounds(config, old(View()), task, clock, rounds) && Valid()
    {
      rounds := 0;
      var more := true;
      while more
        invariant Valid() && (more ==> Runnable(View(), task) && tasks[task].phase.Streaming?)
        invariant View() == Rounds(config, old(View()), task, clock, rounds)
        decreases more, if more then Waiting(tasks[task].phase.sub) else 0
      {
        more := Pump(task, clock(rounds));
        rounds := rounds + 1;
      }
    }

    // The cancellation of a task reaches it.
    method DeliverCancel(task: nat)
      requires Valid() && Runnable(View(), task) && tasks[task].cancelled
      modifies this, caster
      ensures WellFormed(old(caster.View())) && View() == OnCancel(old(View()), task) && Valid()
    {
      CancelKeeps(config, View(), task);
      match tasks[task].phase {
        case Created => EndTask(task);
        case Streaming(sub) =>
          var reply := Consume(sub, CancelGet);
          Leave(sub);
          EndTask(task);
        case Ended =>
      }
    }

    // A spawned handler runs.
    method RunJob(job: Job, freshId: nat, now: real)
      requires Valid() && job in jobs
      requires if job.HelloJob? then freshId !in sessions else job.session in sessions
      modifies this
      ensures View() == OnJob(config, old(View()), job, freshId, now) && Valid()
    {
      JobKeeps(config, View(), job, freshId, now);
      RunHandler(job, freshId, now);
    }

    method RunHandler(job: Job, freshId: nat, now: real)
      requires job in jobs
      requires if job.HelloJob? then freshId !in sessions else job.session in sessions
      modifies this
      ensures View() == OnJob(config, old(View()), job, freshId, now)
    {
      jobs := jobs - multiset{job};
      match job {
        case HelloJob(_, _, _, _) => HandleHello(job, freshId, now);
        case SwitchJob(id, requested, position) => HandleSwitch(id, requested, position);
        case EvictJob(id) => Evict(id);
        case ByeJob(id) => Teardown(id, None);
      }
    }

    // The list comprehension of the reaper: the sessions whose deadline has passed, once each.
    method ListStale(now: real) returns (picked: seq<nat>)
      ensures Lists(picked, StaleSessions(View(), now))
    {
      var stale := set id | id in registered && id in sessions && sessions[id].expiry < now;
      assert stale == StaleSessions(View(), now);
      picked := [];
      var left := stale;
      while left != {}
        invariant left <= stale
        invariant forall i :: 0 <= i < |picked| ==> picked[i] in stale && picked[i] !in left
        invariant forall id :: id in stale ==> id in left || id in picked
        invariant forall i, j :: 0 <= i < j < |picked| ==> picked[i] != picked[j]
        decreases |left|
      {
        var id :| id in left;
        left := left - {id};
        picked := picked + [id];
      }
    }

    // The reaper wakes up: it lists the stale sessions and starts with the first.
    method ReapPass(now: real) returns (picked: seq<nat>)
      requires Valid() && reaping == []
      modifies this
      ensures Picks(old(View()), now, picked) && View() == OnReapPass(old(View()), now, picked) && Valid()
    {
      picked := ListStale(now);
      ReapPassKeeps(config, View(), now, picked);
      reaping := seq(|picked|, i requires 0 <= i < |picked| => (picked[i], now));
      Reap();
    }

    // The reaper goes on once the task of the last session it tore down is over.
    method ReapNext()
      requires Valid()
      modifies this
      ensures View() == OnReapNext(old(View())) && Valid()
    {
      ReapNextKeeps(config, View());
      Reap();
    }

    method Reap()
      modifies this
      ensures View() == OnReapNext(old(View()))
    {
      if reaping != [] {
        var id := reaping[0].0;
        reaping := reaping[1..];
        if id in sessions {
          Teardown(id, None);
        }
      }
    }
  }
}

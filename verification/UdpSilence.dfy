/** Sessions whose correction stream has ended: over every run, when that happens to a session still on
    the table, and what it takes to be served again.
 */
module UdpSilence {
  import Transport
  import opened Caster
  import opened Nearest
  import opened UdpDelivery
  import opened UdpPositions
  import opened UdpReaper
  import opened UdpRuns
  import opened UdpSafety
  import opened UdpSessions
  import opened Wrappers

  // ---- what gives a session another task -----------------------------------

  // The step sends the session to another mountpoint: a keepalive nearer to that one, or a switch.
  predicate MovesBy(c: Config, s: State, e: ServerEvent, id: nat) {
    match e
    case DatagramArrives(own, _, _, body) =>
      && own == id && id in s.registered && id in s.sessions && body.Keepalive? && body.position.Some?
      && s.sessions[id].dynamic && MovesTo(s, id, NearestOf(s.table, c.distance, body.position.value))
    case RunJob(job, _, _) =>
      && job in s.jobs && job.SwitchJob? && job.session == id && id in s.sessions
      && SwitchesTo(s, id, Resolve(c, s.table, s.sessions[id].scope, job.requested, job.position))
    case _ => false
  }

  predicate MovesTo(s: State, id: nat, m: Option<string>)
    requires id in s.sessions
  {
    m.Some? && m.value != s.sessions[id].mountpoint && ScopeAllows(s.sessions[id].scope, m.value)
  }

  predicate SwitchesTo(s: State, id: nat, r: Resolved)
    requires id in s.sessions
  {
    r.Allowed? && r.mountpoint != s.sessions[id].mountpoint
  }

  // The step takes the session off the table.
  predicate TakesOff(s: State, e: ServerEvent, id: nat) {
    id in s.registered && EndsBy(s, e, id)
  }

  // The session's task and mountpoint after the step.
  predicate SameTask(s: State, s': State, id: nat) {
    && id in s.sessions && id in s'.sessions
    && s'.sessions[id].task == s.sessions[id].task && s'.sessions[id].mountpoint == s.sessions[id].mountpoint
  }

  predicate NewTask(s: State, s': State, id: nat) {
    && id in s.sessions && id in s'.sessions
    && s'.sessions[id].task == Some(|s.tasks|) && s'.sessions[id].mountpoint != s.sessions[id].mountpoint
  }

  predicate NoTask(s: State, s': State, id: nat) {
    && id in s.sessions && id in s'.sessions
    && s'.sessions[id].task == None && s'.sessions[id].mountpoint == s.sessions[id].mountpoint
  }

  predicate Assigns(c: Config, s: State, s': State, e: ServerEvent, id: nat) {
    if MovesBy(c, s, e, id) then NewTask(s, s', id)
    else if TakesOff(s, e, id) then NoTask(s, s', id)
    else SameTask(s, s', id)
  }

  lemma RepointedAssigns(s: State, own: nat, m: string, id: nat)
    requires own in s.sessions && id in s.sessions
    ensures var s' := Repointed(s, own, m);
            if own == id && m != s.sessions[id].mountpoint then NewTask(s, s', id) else SameTask(s, s', id)
  {
  }

  lemma TornDownAssigns(s: State, own: nat, current: Option<nat>, id: nat)
    requires own in s.sessions && id in s.sessions
    ensures var s' := TornDown(s, own, current);
            if own == id && id in s.registered then NoTask(s, s', id) else SameTask(s, s', id)
  {
  }

  lemma KeepaliveAssigns(c: Config, s: State, own: nat, position: Option<Place>, id: nat)
    requires own in s.sessions && id in s.sessions
    ensures var s' := OnKeepalive(c, s, own, position);
            if && own == id && position.Some? && s.sessions[id].dynamic
               && MovesTo(s, id, NearestOf(s.table, c.distance, position.value))
            then NewTask(s, s', id) else SameTask(s, s', id)
  {
    if position.Some? {
      var t := s.(positions := s.positions[(s.sessions[own].mountpoint, own) := position.value]);
      var nearest := NearestOf(s.table, c.distance, position.value);
      if nearest.Some? {
        RepointedAssigns(t, own, nearest.value, id);
      }
    }
  }

  lemma DatagramAssigns(c: Config, s: State, own: nat, addr: Addr, now: real, body: Body, id: nat)
    requires id in s.sessions
    ensures Assigns(c, s, OnDatagram(c, s, own, addr, now, body), DatagramArrives(own, addr, now, body), id)
  {
    if own in s.registered && own in s.sessions && body.Keepalive? {
      KeepaliveAssigns(c, Refreshed(c, s, own, addr, now), own, body.position, id);
    }
  }

  lemma SwitchAssigns(c: Config, s: State, own: nat, job: Job, id: nat)
    requires own in s.sessions && id in s.sessions && job.SwitchJob?
    ensures var s' := OnSwitch(c, s, own, job.requested, job.position);
            var r := Resolve(c, s.table, s.sessions[own].scope, job.requested, job.position);
            if own == id && r.Allowed? && r.mountpoint != s.sessions[id].mountpoint then NewTask(s, s', id)
            else SameTask(s, s', id)
  {
    var r := Resolve(c, s.table, s.sessions[own].scope, job.requested, job.position);
    if r.Allowed? {
      var session := s.sessions[own].(dynamic := job.requested == "NEAREST");
      RepointedAssigns(s.(sessions := s.sessions[own := session]), own, r.mountpoint, id);
    }
  }

  lemma EndingJobAssigns(c: Config, s: State, own: nat, job: Job, id: nat)
    requires own in s.sessions && id in s.sessions && (job.ByeJob? || job.EvictJob?)
    ensures var s' := OnSessionJob(c, s, own, job);
            if own == id && id in s.registered then NoTask(s, s', id) else SameTask(s, s', id)
  {
    TornDownAssigns(s, own, None, id);
    TornDownAssigns(Sent(s, Error(OUT_OF_RANGE), s.sessions[own].addr), own, None, id);
  }

  lemma HelloAssigns(c: Config, s: State, job: Job, freshId: nat, now: real, id: nat)
    requires id in s.sessions && job.HelloJob? && freshId !in s.sessions
    ensures SameTask(s, OnHello(c, s, job, freshId, now), id)
  {
  }

  lemma JobAssigns(c: Config, s: State, job: Job, freshId: nat, now: real, id: nat)
    requires id in s.sessions
    ensures Assigns(c, s, OnJob(c, s, job, freshId, now), RunJob(job, freshId, now), id)
  {
    if job in s.jobs {
      var t := s.(jobs := s.jobs - multiset{job});
      if job.HelloJob? {
        if freshId !in s.sessions {
          HelloAssigns(c, t, job, freshId, now, id);
        }
      } else if job.session in s.sessions {
        if job.SwitchJob? {
          SwitchAssigns(c, t, job.session, job, id);
        } else {
          EndingJobAssigns(c, t, job.session, job, id);
        }
      }
    }
  }

  lemma StartAssigns(c: Config, s: State, task: nat, id: nat)
    requires WellFormed(s.net) && id in s.sessions
    ensures Assigns(c, s, OnStart(s, task), StartTask(task), id)
  {
    if Runnable(s, task) && s.tasks[task].phase.Created? && !s.tasks[task].cancelled {
      var own := s.tasks[task].session;
      var session := s.sessions[own];
      var asked := Asked(s, Subscribe(session.mountpoint));
      TornDownAssigns(EndedTask(Sent(asked, Error(MOUNTPOINT_UNAVAILABLE), session.addr), task), own, Some(task), id);
    }
  }

  lemma PumpAssigns(c: Config, s: State, task: nat, timestamp: int, id: nat)
    requires WellFormed(s.net) && id in s.sessions
    ensures SameTask(s, OnPump(c, s, task, timestamp), id)
  {
  }

  lemma ReapNextAssigns(s: State, id: nat)
    requires id in s.sessions
    ensures var s' := OnReapNext(s);
            if s.reaping != [] && s.reaping[0].0 == id && id in s.registered then NoTask(s, s', id)
            else SameTask(s, s', id)
  {
    if s.reaping != [] && s.reaping[0].0 in s.sessions {
      TornDownAssigns(s.(reaping := s.reaping[1..]), s.reaping[0].0, None, id);
    }
  }

  lemma ReapPassAssigns(c: Config, s: State, now: real, picked: seq<nat>, id: nat)
    requires id in s.sessions
    ensures Assigns(c, s, OnReapPass(s, now, picked), ReapPass(now, picked), id)
  {
    if Picks(s, now, picked) {
      ReapNextAssigns(Queued(s, now, picked), id);
    }
  }

  // A session gets another task exactly by being sent to another mountpoint, and loses its task exactly
  // by being taken off the table. Nothing else the server hears changes either.
  lemma StepAssigns(c: Config, s: State, e: ServerEvent, id: nat)
    requires WellFormed(s.net) && id in s.sessions
    ensures Assigns(c, s, Next(c, s, e), e, id)
  {
    match e {
      case DatagramArrives(own, addr, now, body) => DatagramAssigns(c, s, own, addr, now, body, id);
      case RunJob(job, freshId, now) => JobAssigns(c, s, job, freshId, now, id);
      case StartTask(task) => StartAssigns(c, s, task, id);
      case Pump(task, timestamp) => PumpAssigns(c, s, task, timestamp, id);
      case DeliverCancel(task) => assert SameTask(s, OnCancel(s, task), id);
      case ReapPass(now, picked) => ReapPassAssigns(c, s, now, picked, id);
      case ReapNext(_) => ReapNextAssigns(s, id);
      case _ =>
    }
  }

  // ---- what each step does to the tasks ------------------------------------

  ghost predicate TasksAreOwn(s: State) {
    forall id :: id in s.sessions ==> TaskIsOwn(s, id)
  }

  // The step neither starts nor ends the task, and cancels it only if it is no longer current.
  predicate Spares(s: State, s': State, t: nat) {
    && |s.tasks| <= |s'.tasks|
    && (t < |s.tasks| ==> s'.tasks[t].phase == s.tasks[t].phase && s'.tasks[t].session == s.tasks[t].session)
    && (t < |s.tasks| && Current(s', t) ==> s'.tasks[t].cancelled == s.tasks[t].cancelled)
    && (|s.tasks| <= t < |s'.tasks| ==> s'.tasks[t].phase.Created? && !s'.tasks[t].cancelled)
  }

  lemma RepointedSpares(s: State, own: nat, m: string, t: nat)
    requires own in s.sessions && TaskIsOwn(s, own)
    ensures Spares(s, Repointed(s, own, m), t)
  {
  }

  lemma TornDownSpares(s: State, own: nat, current: Option<nat>, t: nat)
    requires own in s.sessions && TaskIsOwn(s, own)
    ensures Spares(s, TornDown(s, own, current), t)
  {
  }

  lemma KeepaliveSpares(c: Config, s: State, own: nat, position: Option<Place>, t: nat)
    requires own in s.sessions && TaskIsOwn(s, own)
    ensures Spares(s, OnKeepalive(c, s, own, position), t)
  {
    if position.Some? {
      var u := s.(positions := s.positions[(s.sessions[own].mountpoint, own) := position.value]);
      var nearest := NearestOf(s.table, c.distance, position.value);
      if nearest.Some? {
        RepointedSpares(u, own, nearest.value, t);
      }
    }
  }

  lemma DatagramSpares(c: Config, s: State, own: nat, addr: Addr, now: real, body: Body, t: nat)
    requires TasksAreOwn(s)
    ensures Spares(s, OnDatagram(c, s, own, addr, now, body), t)
  {
    if own in s.registered && own in s.sessions && body.Keepalive? {
      assert TaskIsOwn(s, own);
      KeepaliveSpares(c, Refreshed(c, s, own, addr, now), own, body.position, t);
    }
  }

  lemma SessionJobSpares(c: Config, s: State, own: nat, job: Job, t: nat)
    requires own in s.sessions && TaskIsOwn(s, own)
    ensures Spares(s, OnSessionJob(c, s, own, job), t)
  {
    if job.SwitchJob? {
      var r := Resolve(c, s.table, s.sessions[own].scope, job.requested, job.position);
      if r.Allowed? {
        var session := s.sessions[own].(dynamic := job.requested == "NEAREST");
        RepointedSpares(s.(sessions := s.sessions[own := session]), own, r.mountpoint, t);
      }
    } else {
      TornDownSpares(s, own, None, t);
      TornDownSpares(Sent(s, Error(OUT_OF_RANGE), s.sessions[own].addr), own, None, t);
    }
  }

  lemma HelloSpares(c: Config, s: State, job: Job, freshId: nat, now: real, t: nat)
    requires job.HelloJob?
    ensures Spares(s, OnHello(c, s, job, freshId, now), t)
  {
  }

  lemma JobSpares(c: Config, s: State, job: Job, freshId: nat, now: real, t: nat)
    requires TasksAreOwn(s)
    ensures Spares(s, OnJob(c, s, job, freshId, now), t)
  {
    if job in s.jobs {
      var u := s.(jobs := s.jobs - multiset{job});
      if job.HelloJob? {
        if freshId !in s.sessions {
          HelloSpares(c, u, job, freshId, now, t);
        }
      } else if job.session in s.sessions {
        assert TaskIsOwn(s, job.session);
        SessionJobSpares(c, u, job.session, job, t);
      }
    }
  }

  lemma ReapNextSpares(s: State, t: nat)
    requires TasksAreOwn(s)
    ensures Spares(s, OnReapNext(s), t)
  {
    if s.reaping != [] && s.reaping[0].0 in s.sessions {
      assert TaskIsOwn(s, s.reaping[0].0);
      TornDownSpares(s.(reaping := s.reaping[1..]), s.reaping[0].0, None, t);
    }
  }

  lemma ReapPassSpares(s: State, now: real, picked: seq<nat>, t: nat)
    requires TasksAreOwn(s)
    ensures Spares(s, OnReapPass(s, now, picked), t)
  {
    if Picks(s, now, picked) {
      ReapNextSpares(Queued(s, now, picked), t);
    }
  }

  lemma StepSpares(c: Config, s: State, e: ServerEvent, t: nat)
    requires WellFormed(s.net) && TasksAreOwn(s) && !e.StartTask? && !e.Pump? && !e.DeliverCancel?
    ensures Spares(s, Next(c, s, e), t)
  {
    match e {
      case DatagramArrives(own, addr, now, body) => DatagramSpares(c, s, own, addr, now, body, t);
      case RunJob(job, freshId, now) => JobSpares(c, s, job, freshId, now, t);
      case ReapPass(now, picked) => ReapPassSpares(s, now, picked, t);
      case ReapNext(_) => ReapNextSpares(s, t);
      case _ =>
    }
  }

  // ---- a task's own steps --------------------------------------------------

  // The task's round finds that its subscriber was shut down, and nothing is left to come.
  predicate StreamEnds(s: State, e: ServerEvent, t: nat) {
    && e.Pump? && e.task == t && t < |s.tasks| && s.tasks[t].phase.Streaming?
    && s.tasks[t].phase.sub < |s.net.subs| && s.net.subs[s.tasks[t].phase.sub].ledger.sub.cancelled
  }

  // What a step does to a current task that is not cancelled.
  predicate EndsWithItsStream(s: State, s': State, e: ServerEvent, t: nat) {
    && t < |s.tasks| && t < |s'.tasks|
    && (s'.tasks[t].phase.Ended? <==> s.tasks[t].phase.Ended? || StreamEnds(s, e, t))
    && !s'.tasks[t].cancelled
  }

  lemma StartEnds(s: State, task: nat, t: nat)
    requires WellFormed(s.net) && Current(s, t) && !s.tasks[t].cancelled && s.tasks[t].session in s.registered
    requires Current(OnStart(s, task), t) && TasksAreOwn(s)
    ensures EndsWithItsStream(s, OnStart(s, task), StartTask(task), t)
  {
    if Runnable(s, task) && s.tasks[task].phase.Created? && !s.tasks[task].cancelled {
      var own := s.tasks[task].session;
      var session := s.sessions[own];
      assert TaskIsOwn(s, own);
      var asked := Asked(s, Subscribe(session.mountpoint));
      var u := EndedTask(Sent(asked, Error(MOUNTPOINT_UNAVAILABLE), session.addr), task);
      TornDownSpares(u, own, Some(task), t);
      TornDownAssigns(u, own, Some(task), own);
    }
  }

  // With a sound queue `get` finds the end of the stream exactly if the subscriber was cancelled.
  lemma EndOfStreamIff(n: System, sub: nat)
    requires WellFormed(n) && sub < |n.subs| && Transport.LedgerInv(n.subs[sub].ledger)
    ensures Handled(n, Consume(sub, GetStep(n, sub))).1 == Answered(Transport.EndOfStream) <==>
        n.subs[sub].ledger.sub.cancelled
  {
  }

  lemma PumpOfAnother(c: Config, s: State, task: nat, timestamp: int, t: nat)
    requires WellFormed(s.net) && t < |s.tasks| && t != task
    ensures t < |OnPump(c, s, task, timestamp).tasks| && OnPump(c, s, task, timestamp).tasks[t] == s.tasks[t]
  {
  }

  lemma PumpOfCurrent(c: Config, s: State, t: nat, timestamp: int)
    requires WellFormed(s.net) && Runnable(s, t) && s.tasks[t].phase.Streaming? && Current(s, t)
    requires !s.tasks[t].cancelled
    ensures var s' := OnPump(c, s, t, timestamp);
            var sub := s.tasks[t].phase.sub;
            && t < |s'.tasks| && !s'.tasks[t].cancelled
            && (s'.tasks[t].phase.Ended? <==>
                  Handled(s.net, Consume(sub, GetStep(s.net, sub))).1 == Answered(Transport.EndOfStream))
  {
  }

  lemma PumpEnds(c: Config, s: State, task: nat, timestamp: int, t: nat)
    requires ServerInv(c, s) && SystemInv(s.net) && Current(s, t) && !s.tasks[t].cancelled
    ensures EndsWithItsStream(s, OnPump(c, s, task, timestamp), Pump(task, timestamp), t)
  {
    assert TaskInv(s, t) && SessionInv(c, s, s.tasks[t].session);
    if task != t {
      PumpOfAnother(c, s, task, timestamp, t);
    } else if s.tasks[t].phase.Streaming? {
      PumpOfCurrent(c, s, t, timestamp);
      EndOfStreamIff(s.net, s.tasks[t].phase.sub);
    }
  }

  lemma CancelEnds(s: State, task: nat, t: nat)
    requires WellFormed(s.net) && t < |s.tasks| && !s.tasks[t].cancelled
    ensures EndsWithItsStream(s, OnCancel(s, task), DeliverCancel(task), t)
  {
  }

  lemma OwnTasks(c: Config, s: State)
    requires ServerInv(c, s)
    ensures TasksAreOwn(s)
  {
    forall id | id in s.sessions
      ensures TaskIsOwn(s, id)
    {
      assert SessionInv(c, s, id);
    }
  }

  // The current task of a session on the table ends only at the end of its stream.
  lemma StepEnds(c: Config, s: State, e: ServerEvent, s': State, t: nat)
    requires ServerInv(c, s) && SystemInv(s.net) && s' == Next(c, s, e)
    requires Current(s, t) && !s.tasks[t].cancelled && s.tasks[t].session in s.registered && Current(s', t)
    ensures EndsWithItsStream(s, s', e, t)
  {
    if e.Pump? {
      PumpEnds(c, s, e.task, e.timestamp, t);
    } else {
      OwnTasks(c, s);
      QuietStepEnds(c, s, e, s', t);
    }
  }

  lemma QuietStepEnds(c: Config, s: State, e: ServerEvent, s': State, t: nat)
    requires WellFormed(s.net) && TasksAreOwn(s) && s' == Next(c, s, e) && !e.Pump?
    requires Current(s, t) && !s.tasks[t].cancelled && s.tasks[t].session in s.registered && Current(s', t)
    ensures EndsWithItsStream(s, s', e, t)
  {
    if e.StartTask? {
      StartEnds(s, e.task, t);
    } else if e.DeliverCancel? {
      CancelEnds(s, e.task, t);
    } else {
      StepSpares(c, s, e, t);
      SparedGoesOn(s, s', e, t);
    }
  }

  lemma SparedGoesOn(s: State, s': State, e: ServerEvent, t: nat)
    requires t < |s.tasks| && Spares(s, s', t) && !s.tasks[t].cancelled && Current(s', t) && !e.Pump?
    ensures EndsWithItsStream(s, s', e, t)
  {
  }

  // ---- over a run ----------------------------------------------------------

  // The current task of a session on the table.
  predicate Serving(s: State, t: nat) {
    Current(s, t) && s.tasks[t].session in s.registered
  }

  ghost predicate Goes(s: State, s': State, e: ServerEvent, t: nat) {
    && |s.tasks| <= |s'.tasks|
    && (|s.tasks| <= t < |s'.tasks| ==> s'.tasks[t].phase.Created? && !s'.tasks[t].cancelled)
    && (t < |s.tasks| && Serving(s', t) ==> Serving(s, t))
    && (t < |s.tasks| && Serving(s', t) && !s.tasks[t].cancelled ==> EndsWithItsStream(s, s', e, t))
  }

  lemma NewTaskIsLive(c: Config, s: State, e: ServerEvent, t: nat)
    requires ServerInv(c, s) && |s.tasks| <= t < |Next(c, s, e).tasks|
    ensures Next(c, s, e).tasks[t].phase.Created? && !Next(c, s, e).tasks[t].cancelled
  {
    if e.StartTask? {
      StartMakesNoTask(s, e.task);
    } else if e.Pump? {
      PumpMakesNoTask(c, s, e.task, e.timestamp);
    } else if !e.DeliverCancel? {
      OwnTasks(c, s);
      StepSpares(c, s, e, t);
    }
  }

  lemma StartMakesNoTask(s: State, task: nat)
    requires WellFormed(s.net)
    ensures |OnStart(s, task).tasks| == |s.tasks|
  {
  }

  lemma PumpMakesNoTask(c: Config, s: State, task: nat, timestamp: int)
    requires WellFormed(s.net)
    ensures |OnPump(c, s, task, timestamp).tasks| == |s.tasks|
  {
  }

  lemma WasServing(c: Config, s: State, e: ServerEvent, t: nat)
    requires ServerInv(c, s) && t < |s.tasks| && Serving(Next(c, s, e), t)
    ensures Serving(s, t)
  {
    WasCurrent(c, s, e, t);
    if s.tasks[t].session !in s.registered {
      StepLeavesOff(c, s, e, s.tasks[t].session);
    }
  }

  lemma StepGoes(c: Config, s: State, e: ServerEvent, s': State, t: nat)
    requires ServerInv(c, s) && SystemInv(s.net) && s' == Next(c, s, e)
    ensures Goes(s, s', e, t)
  {
    StepMovesOn(c, s, e, 0, t);
    if |s.tasks| <= t < |s'.tasks| {
      NewTaskIsLive(c, s, e, t);
    } else if t < |s.tasks| && Serving(s', t) {
      WasServing(c, s, e, t);
      if !s.tasks[t].cancelled {
        StepEnds(c, s, e, s', t);
      }
    }
  }

  ghost predicate Going(events: seq<ServerEvent>, states: seq<State>) {
    && |states| == |events| + 1 && states[0] == START
    && forall k :: 0 <= k < |events| ==> Proceeds(states[k], states[k + 1], events[k])
  }

  ghost predicate Proceeds(s: State, s': State, e: ServerEvent) {
    forall t :: Goes(s, s', e, t)
  }

  lemma StepProceeds(c: Config, s: State, e: ServerEvent, s': State)
    requires ServerInv(c, s) && s' == Next(c, s, e)
    ensures Proceeds(s, s', e)
  {
    RunKeepsSystem(s.requests);
    forall t: nat
      ensures Goes(s, s', e, t)
    {
      StepGoes(c, s, e, s', t);
    }
  }

  lemma RunIsGoing(c: Config, events: seq<ServerEvent>, states: seq<State>)
    requires IsRun(c, events, states)
    ensures Going(events, states)
  {
    forall k | 0 <= k < |events|
      ensures Proceeds(states[k], states[k + 1], events[k])
    {
      StateIsSound(c, events, states, k);
      RunStep(c, events, states, k);
      StepProceeds(c, states[k], events[k], states[k + 1]);
    }
  }

  lemma {:induction false} TasksGrow(events: seq<ServerEvent>, states: seq<State>, k: nat, n: nat)
    requires Going(events, states) && k <= n <= |events|
    ensures |states[k].tasks| <= |states[n].tasks|
    decreases n
  {
    if k < n {
      TasksGrow(events, states, k, n - 1);
      assert Proceeds(states[n - 1], states[n], events[n - 1]);
      assert Goes(states[n - 1], states[n], events[n - 1], 0);
    }
  }

  ghost predicate StreamEnded(events: seq<ServerEvent>, states: seq<State>, n: nat, t: nat)
    requires n <= |events| < |states|
  {
    exists k: nat :: k < n && StreamEnds(states[k], events[k], t)
  }

  lemma {:induction false} EndedIffIn(events: seq<ServerEvent>, states: seq<State>, n: nat, t: nat)
    requires Going(events, states) && n <= |events| && Serving(states[n], t)
    ensures !states[n].tasks[t].cancelled
    ensures states[n].tasks[t].phase.Ended? <==> StreamEnded(events, states, n, t)
    decreases n
  {
    assert n > 0;
    var s, s', e := states[n - 1], states[n], events[n - 1];
    assert Proceeds(s, s', e);
    assert Goes(s, s', e, t);
    if t < |s.tasks| {
      EndedIffIn(events, states, n - 1, t);
      StreamEndedOneMore(events, states, n, t);
    } else {
      forall k: nat | k < n
        ensures t >= |states[k].tasks|
      {
        TasksGrow(events, states, k, n - 1);
      }
    }
  }

  lemma StreamEndedOneMore(events: seq<ServerEvent>, states: seq<State>, n: nat, t: nat)
    requires 0 < n <= |events| < |states|
    ensures StreamEnded(events, states, n, t) <==>
            StreamEnded(events, states, n - 1, t) || StreamEnds(states[n - 1], events[n - 1], t)
  {
    if StreamEnded(events, states, n - 1, t) {
      var k: nat :| k < n - 1 && StreamEnds(states[k], events[k], t);
      assert k < n && StreamEnds(states[k], events[k], t);
    }
  }

  // The current task of a session on the table is never cancelled, and it has ended exactly if in an
  // earlier round of it the subscriber it read from was found shut down.
  lemma CurrentTaskEndedIff(c: Config, events: seq<ServerEvent>, states: seq<State>, n: nat, id: nat, t: nat)
    requires IsRun(c, events, states) && n <= |events|
    requires id in states[n].registered && id in states[n].sessions && states[n].sessions[id].task == Some(t)
    ensures t < |states[n].tasks| && !states[n].tasks[t].cancelled
    ensures states[n].tasks[t].phase.Ended? <==> StreamEnded(events, states, n, t)
  {
    StateIsSound(c, events, states, n);
    assert SessionInv(c, states[n], id);
    RunIsGoing(c, events, states);
    EndedIffIn(events, states, n, t);
  }

  // ---- silence -------------------------------------------------------------

  // The session's current task has ended.
  predicate Stuck(s: State, id: nat, t: nat) {
    id in s.sessions && s.sessions[id].task == Some(t) && t < |s.tasks| && s.tasks[t].phase.Ended?
  }

  lemma StuckBuildsNothing(c: Config, s: State, e: ServerEvent, id: nat, t: nat)
    requires ServerInv(c, s) && Stuck(s, id, t)
    ensures Built(Next(c, s, e), id) == Built(s, id)
  {
    StepBuilds(c, s, e, id);
    if BuildsOne(c, s, Next(c, s, e), id) {
      PumpBuildsOwn(c, s, e.task, e.timestamp, id);
    }
  }

  // The steps that end the silence of a session.
  predicate Releases(c: Config, s: State, e: ServerEvent, id: nat) {
    MovesBy(c, s, e, id) || TakesOff(s, e, id)
  }

  ghost predicate StaysSilent(c: Config, s: State, s': State, e: ServerEvent, id: nat, t: nat) {
    && Built(s', id) == Built(s, id)
    && (if Releases(c, s, e, id) then Superseded(s', t)
        else Stuck(s', id, t) && (id in s.registered ==> id in s'.registered))
  }

  lemma StepStaysSilent(c: Config, s: State, e: ServerEvent, s': State, id: nat, t: nat)
    requires ServerInv(c, s) && Stuck(s, id, t) && s' == Next(c, s, e)
    ensures StaysSilent(c, s, s', e, id, t)
  {
    StuckBuildsNothing(c, s, e, id, t);
    assert SessionInv(c, s, id);
    StepMovesOn(c, s, e, id, t);
    StepAssigns(c, s, e, id);
    if id in s.registered {
      StepLeaves(c, s, e, id);
    }
  }

  lemma StuckStep(c: Config, events: seq<ServerEvent>, states: seq<State>, k: nat, id: nat, t: nat)
    requires IsRun(c, events, states) && k < |events| && Stuck(states[k], id, t)
    ensures StaysSilent(c, states[k], states[k + 1], events[k], id, t)
  {
    StateIsSound(c, events, states, k);
    RunStep(c, events, states, k);
    StepStaysSilent(c, states[k], events[k], states[k + 1], id, t);
  }

  ghost predicate Unreleased(c: Config, events: seq<ServerEvent>, states: seq<State>, n: nat, m: nat, id: nat)
    requires n <= m <= |events| < |states|
  {
    forall k: nat :: n <= k < m ==> !Releases(c, states[k], events[k], id)
  }

  ghost predicate Silencing(c: Config, events: seq<ServerEvent>, states: seq<State>, id: nat, t: nat) {
    && |states| == |events| + 1
    && forall k :: 0 <= k < |events| && Stuck(states[k], id, t) ==>
         StaysSilent(c, states[k], states[k + 1], events[k], id, t)
  }

  lemma RunIsSilencing(c: Config, events: seq<ServerEvent>, states: seq<State>, id: nat, t: nat)
    requires IsRun(c, events, states)
    ensures Silencing(c, events, states, id, t)
  {
    forall k | 0 <= k < |events| && Stuck(states[k], id, t)
      ensures StaysSilent(c, states[k], states[k + 1], events[k], id, t)
    {
      StuckStep(c, events, states, k, id, t);
    }
  }

  // As long as nothing releases it the session builds nothing, and then its task is another for good.
  lemma {:induction false} SilentIn(
      c: Config, events: seq<ServerEvent>, states: seq<State>, n: nat, m: nat, id: nat, t: nat)
    requires Silencing(c, events, states, id, t) && Traced(c, states, events)
    requires n <= m <= |events| && Stuck(states[n], id, t)
    ensures if Unreleased(c, events, states, n, m, id)
            then Stuck(states[m], id, t) && Built(states[m], id) == Built(states[n], id)
                 && (id in states[n].registered ==> id in states[m].registered)
            else Superseded(states[m], t)
    decreases m
  {
    if n < m {
      SilentIn(c, events, states, n, m - 1, id, t);
      if Unreleased(c, events, states, n, m - 1, id) {
        assert StaysSilent(c, states[m - 1], states[m], events[m - 1], id, t);
      } else {
        SupersededIsSilentIn(c, states, events, m - 1, m, t, id);
      }
    }
  }

  // A session whose current task has ended builds nothing, however often it is heard and whatever its
  // base does, exactly until it is sent to a different mountpoint or taken off the table.
  lemma SilentUntilMoved(c: Config, events: seq<ServerEvent>, states: seq<State>, n: nat, m: nat, id: nat, t: nat)
    requires IsRun(c, events, states) && n <= m <= |events| && Stuck(states[n], id, t)
    ensures Stuck(states[m], id, t) <==> forall k: nat :: n <= k < m ==> !Releases(c, states[k], events[k], id)
    ensures Stuck(states[m], id, t) ==> Built(states[m], id) == Built(states[n], id)
    ensures Stuck(states[m], id, t) && id in states[n].registered ==> id in states[m].registered
  {
    RunIsTraced(c, events, states);
    RunIsSilencing(c, events, states, id, t);
    SilentIn(c, events, states, n, m, id, t);
    assert TaskIsOwn(states[m], id);
  }

  // ---- why a stream ends ---------------------------------------------------

  // The step runs the scheduled shutdown of the subscriber.
  predicate RunsShutdown(s: State, e: ServerEvent, sub: nat) {
    e.Ask? && e.request == RunShutdown(sub) && sub < |s.net.subs| && s.net.subs[sub].scheduled
  }

  predicate Cut(n: System, sub: nat) {
    sub < |n.subs| && n.subs[sub].ledger.sub.cancelled
  }

  // The requests that cancel a subscriber.
  lemma CutBy(n: System, r: Request, sub: nat)
    requires WellFormed(n) && Cut(Handled(n, r).0, sub)
    ensures sub < |n.subs|
    ensures Cut(n, sub) || (r == RunShutdown(sub) && n.subs[sub].scheduled) || r == Leave(sub)
         || r == Consume(sub, Transport.CancelGet)
  {
  }

  lemma AskCuts(s: State, r: Request, site: Site, t: nat, sub: nat)
    requires WellFormed(s.net) && StreamsFrom(s, t, sub) && Cut(OnAsk(s, r, site).net, sub)
    ensures Cut(s.net, sub) || RunsShutdown(s, Ask(r, site), sub)
  {
    if Foreign(s, r) {
      CutBy(s.net, r, sub);
    }
  }

  lemma StartCuts(s: State, task: nat, sub: nat)
    requires WellFormed(s.net) && Cut(OnStart(s, task).net, sub)
    ensures Cut(s.net, sub)
  {
    if Runnable(s, task) && s.tasks[task].phase.Created? && !s.tasks[task].cancelled {
      CutBy(s.net, Subscribe(s.sessions[s.tasks[task].session].mountpoint), sub);
    }
  }

  lemma FrameCuts(c: Config, s: State, task: nat, own: nat, frame: Transport.Frame, timestamp: int, sub: nat)
    requires Runnable(s, task) && WellFormed(s.net) && Cut(OnFrame(c, s, task, own, frame, timestamp).net, sub)
    ensures Cut(s.net, sub) || (own == sub && OnFrame(c, s, task, own, frame, timestamp).tasks[task].phase.Ended?)
  {
    if own != sub && s.sessions[s.tasks[task].session].task != Some(task) {
      CutBy(s.net, Leave(own), sub);
    }
  }

  // A round that does not end its task cancels nobody's subscriber, and one that does only its own.
  lemma PumpCuts(c: Config, s: State, task: nat, timestamp: int, sub: nat)
    requires WellFormed(s.net) && Cut(OnPump(c, s, task, timestamp).net, sub)
    ensures Cut(s.net, sub) || (StreamsFrom(s, task, sub) && !StreamsFrom(OnPump(c, s, task, timestamp), task, sub))
  {
    if Runnable(s, task) && s.tasks[task].phase.Streaming? {
      var own := s.tasks[task].phase.sub;
      var step := Consume(own, GetStep(s.net, own));
      var t := Asked(s, step);
      var reply := Handled(s.net, step).1;
      if Cut(t.net, sub) {
        CutBy(s.net, step, sub);
      } else if reply.Answered? && reply.outcome.Got? {
        FrameCuts(c, t, task, own, reply.outcome.frame, timestamp, sub);
      } else if reply.Answered? && reply.outcome.EndOfStream? {
        CutBy(t.net, Leave(own), sub);
      }
    }
  }

  lemma CancelCuts(s: State, task: nat, sub: nat)
    requires WellFormed(s.net) && Cut(OnCancel(s, task).net, sub) && task < |s.tasks|
    requires s.tasks[task].phase != Streaming(sub)
    ensures Cut(s.net, sub)
  {
    if Runnable(s, task) && s.tasks[task].cancelled && s.tasks[task].phase.Streaming? {
      var own := s.tasks[task].phase.sub;
      var t := Asked(s, Consume(own, Transport.CancelGet));
      CutBy(t.net, Leave(own), sub);
      CutBy(s.net, Consume(own, Transport.CancelGet), sub);
    }
  }

  lemma StepCuts(c: Config, s: State, e: ServerEvent, s': State, t: nat, sub: nat)
    requires ServerInv(c, s) && OwnSubs(s) && s' == Next(c, s, e) && t < |s.tasks| && !s.tasks[t].cancelled
    requires StreamsFrom(s, t, sub) && StreamsFrom(s', t, sub) && Cut(s'.net, sub)
    ensures Cut(s.net, sub) || RunsShutdown(s, e, sub)
  {
    match e {
      case Ask(r, site) => AskCuts(s, r, site, t, sub);
      case StartTask(task) => StartCuts(s, task, sub);
      case Pump(task, timestamp) => PumpCuts(c, s, task, timestamp, sub);
      case DeliverCancel(task) =>
        if task < |s.tasks| && task != t {
          assert !StreamsFrom(s, task, sub);
          CancelCuts(s, task, sub);
        }
      case DatagramArrives(id, addr, now, body) => assert OnDatagram(c, s, id, addr, now, body).net == s.net;
      case RunJob(job, freshId, now) => assert OnJob(c, s, job, freshId, now).net == s.net;
      case ReapPass(now, picked) => assert OnReapPass(s, now, picked).net == s.net;
      case ReapNext(_) => assert OnReapNext(s).net == s.net;
      case _ =>
    }
  }

  // What a task that just started reads from is not shut down yet.
  lemma StepCutsOld(c: Config, s: State, e: ServerEvent, s': State, t: nat, sub: nat)
    requires ServerInv(c, s) && OwnSubs(s) && s' == Next(c, s, e) && StreamsFrom(s', t, sub) && Cut(s'.net, sub)
    ensures StreamsFrom(s, t, sub)
  {
    StreamedBefore(c, s, e, t, sub);
    if e == StartTask(t) && |s.net.subs| <= sub {
      StartCuts(s, t, sub);
    }
  }

  predicate ReadsShut(s: State, t: nat, sub: nat) {
    StreamsFrom(s, t, sub) && Serving(s, t) && Cut(s.net, sub)
  }

  // The step shuts down what the task reads from only by running its scheduled shutdown, and moves no
  // session whose task stays.
  predicate ShutsWhy(s: State, s': State, e: ServerEvent, t: nat, sub: nat) {
    ReadsShut(s', t, sub) ==>
      StreamsFrom(s, t, sub) && Serving(s, t) && (ReadsShut(s, t, sub) || RunsShutdown(s, e, sub))
  }

  predicate MovesWhy(s: State, s': State, id: nat, t: nat) {
    id in s.sessions && id in s'.sessions && t < |s.tasks| && s'.sessions[id].task == Some(t) ==>
      s.sessions[id].task == Some(t) && s.sessions[id].mountpoint == s'.sessions[id].mountpoint
  }

  ghost predicate Explains(s: State, s': State, e: ServerEvent) {
    && (forall t, sub :: ShutsWhy(s, s', e, t, sub))
    && (forall id, t :: MovesWhy(s, s', id, t))
  }

  ghost predicate Explained(events: seq<ServerEvent>, states: seq<State>) {
    && |states| == |events| + 1 && states[0] == START
    && forall k :: 0 <= k < |events| ==> Explains(states[k], states[k + 1], events[k])
  }

  lemma RunIsExplained(c: Config, events: seq<ServerEvent>, states: seq<State>)
    requires IsRun(c, events, states) && Going(events, states)
    ensures Explained(events, states)
  {
    forall k | 0 <= k < |events|
      ensures Explains(states[k], states[k + 1], events[k])
    {
      StepIsExplained(c, events, states, k, states[k], states[k + 1], events[k]);
    }
  }

  lemma StepIsExplained(
      c: Config, events: seq<ServerEvent>, states: seq<State>, k: nat, s: State, s': State, e: ServerEvent)
    requires IsRun(c, events, states) && Going(events, states) && k < |events|
    requires s == states[k] && s' == states[k + 1] && e == events[k]
    ensures Explains(s, s', e)
  {
    forall t: nat, sub: nat
      ensures ShutsWhy(s, s', e, t, sub)
    {
      if ReadsShut(s', t, sub) {
        CutStep(c, events, states, k, t, sub);
      }
    }
    forall id: nat, t: nat
      ensures MovesWhy(s, s', id, t)
    {
      SamePlaceStep(c, events, states, k, id, t);
    }
  }

  lemma CutStep(c: Config, events: seq<ServerEvent>, states: seq<State>, k: nat, t: nat, sub: nat)
    requires IsRun(c, events, states) && Going(events, states) && k < |events| && ReadsShut(states[k + 1], t, sub)
    ensures ShutsWhy(states[k], states[k + 1], events[k], t, sub)
  {
    StateIsSound(c, events, states, k);
    RunDelivers(c, events, states, k);
    RunStep(c, events, states, k);
    StepCutsOld(c, states[k], events[k], states[k + 1], t, sub);
    assert Proceeds(states[k], states[k + 1], events[k]);
    assert Goes(states[k], states[k + 1], events[k], t);
    EndedIffIn(events, states, k, t);
    StepCuts(c, states[k], events[k], states[k + 1], t, sub);
  }

  lemma {:induction false} CutHasItsStep(
      events: seq<ServerEvent>, states: seq<State>, n: nat, t: nat, sub: nat) returns (j: nat)
    requires Explained(events, states) && n <= |events| && ReadsShut(states[n], t, sub)
    ensures j < n && RunsShutdown(states[j], events[j], sub) && StreamsFrom(states[j], t, sub) && Serving(states[j], t)
    decreases n
  {
    assert n > 0;
    assert Explains(states[n - 1], states[n], events[n - 1]);
    assert ShutsWhy(states[n - 1], states[n], events[n - 1], t, sub);
    if ReadsShut(states[n - 1], t, sub) {
      j := CutHasItsStep(events, states, n - 1, t, sub);
    } else {
      j := n - 1;
    }
  }

  lemma {:induction false} ServedBefore(events: seq<ServerEvent>, states: seq<State>, k: nat, n: nat, t: nat)
    requires Going(events, states) && k <= n <= |events| && t < |states[k].tasks| && Serving(states[n], t)
    ensures Serving(states[k], t)
    decreases n
  {
    if k < n {
      TasksGrow(events, states, k, n - 1);
      assert Proceeds(states[n - 1], states[n], events[n - 1]);
      assert Goes(states[n - 1], states[n], events[n - 1], t);
      ServedBefore(events, states, k, n - 1, t);
    }
  }

  lemma SameTaskSamePlace(c: Config, s: State, e: ServerEvent, s': State, id: nat, t: nat)
    requires WellFormed(s.net) && s' == Next(c, s, e) && id in s.sessions
    ensures MovesWhy(s, s', id, t)
  {
    StepAssigns(c, s, e, id);
  }

  lemma SamePlaceStep(c: Config, events: seq<ServerEvent>, states: seq<State>, k: nat, id: nat, t: nat)
    requires IsRun(c, events, states) && k < |events|
    ensures MovesWhy(states[k], states[k + 1], id, t)
  {
    RunStep(c, events, states, k);
    if id in states[k].sessions {
      SameTaskSamePlace(c, states[k], events[k], states[k + 1], id, t);
    }
  }

  // While its task is the same a session is on the same mountpoint.
  lemma {:induction false} StaysOn(
      c: Config, events: seq<ServerEvent>, states: seq<State>, k: nat, n: nat, id: nat, t: nat)
    requires Explained(events, states) && Traced(c, states, events) && Going(events, states) && k <= n <= |events|
    requires id in states[k].sessions && t < |states[k].tasks|
    requires id in states[n].sessions && states[n].sessions[id].task == Some(t)
    ensures states[k].sessions[id].mountpoint == states[n].sessions[id].mountpoint
    decreases n
  {
    if k < n {
      TasksGrow(events, states, k, n - 1);
      ScopeIsFixedIn(c, states, events, k, n - 1, id);
      assert Explains(states[n - 1], states[n], events[n - 1]);
      assert MovesWhy(states[n - 1], states[n], id, t);
      StaysOn(c, events, states, k, n - 1, id, t);
    }
  }

  // In step j the task's subscriber was shut down, since a request before had closed the transport of
  // the mountpoint it was on.
  ghost predicate ShutAt(events: seq<ServerEvent>, states: seq<State>, j: nat, t: nat, sub: nat, at: nat, m: string) {
    && j < |events| < |states| && StreamsFrom(states[j], t, sub) && RunsShutdown(states[j], events[j], sub)
    && ClosedAt(states[j].requests, at, states[j].net.subs[sub].hub, m) && states[j].net.subs[sub].joined < at
  }

  lemma ShutWhy(c: Config, events: seq<ServerEvent>, states: seq<State>, j: nat, t: nat, sub: nat) returns (at: nat)
    requires IsRun(c, events, states) && j < |events| && RunsShutdown(states[j], events[j], sub)
    requires StreamsFrom(states[j], t, sub) && Serving(states[j], t)
    ensures ShutAt(events, states, j, t, sub, at, states[j].sessions[states[j].tasks[t].session].mountpoint)
  {
    StateIsSound(c, events, states, j);
    assert TaskInv(states[j], t);
    at := ShutdownIsExplained(states[j].requests, sub);
  }

  // A session on the table goes silent only because the mountpoint it is on was closed while its task
  // was reading from it: the task's subscriber was shut down for that, and a later round of it ended.
  lemma SilentBecauseClosed(c: Config, events: seq<ServerEvent>, states: seq<State>, n: nat, id: nat, t: nat)
    returns (j: nat, k: nat, sub: nat, at: nat)
    requires IsRun(c, events, states) && n <= |events| && id in states[n].registered && Stuck(states[n], id, t)
    ensures j < k < n && StreamEnds(states[k], events[k], t) && states[k].tasks[t].phase == Streaming(sub)
    ensures ShutAt(events, states, j, t, sub, at, states[n].sessions[id].mountpoint)
  {
    CurrentTaskEndedIff(c, events, states, n, id, t);
    RunIsGoing(c, events, states);
    k :| k < n && StreamEnds(states[k], events[k], t);
    sub := states[k].tasks[t].phase.sub;
    StateIsSound(c, events, states, n);
    assert SessionInv(c, states[n], id);
    ServedBefore(events, states, k, n, t);
    RunIsExplained(c, events, states);
    j := CutHasItsStep(events, states, k, t, sub);
    at := ShutWhy(c, events, states, j, t, sub);
    ShutOnItsMountpoint(c, events, states, j, n, id, t);
  }

  lemma ShutOnItsMountpoint(c: Config, events: seq<ServerEvent>, states: seq<State>, j: nat, n: nat, id: nat, t: nat)
    requires IsRun(c, events, states) && Going(events, states) && j <= n <= |events| && Stuck(states[n], id, t)
    requires Serving(states[j], t)
    ensures states[j].tasks[t].session == id && states[j].sessions[id].mountpoint == states[n].sessions[id].mountpoint
  {
    RunIsTraced(c, events, states);
    RunIsExplained(c, events, states);
    assert TaskIsOwn(states[n], id);
    TaskStaysOwn(c, events, states, j, n, t);
    StaysOn(c, events, states, j, n, id, t);
  }

  lemma {:induction false} TaskStaysOwn(c: Config, events: seq<ServerEvent>, states: seq<State>, j: nat, n: nat, t: nat)
    requires Traced(c, states, events) && j <= n <= |events| && t < |states[j].tasks|
    ensures t < |states[n].tasks| && states[n].tasks[t].session == states[j].tasks[t].session
    decreases n
  {
    if j < n {
      TaskStaysOwn(c, events, states, j, n - 1, t);
      assert Linked(c, states[n - 1], states[n], events[n - 1]);
      assert MovesOn(states[n - 1], states[n], 0, t);
    }
  }
}

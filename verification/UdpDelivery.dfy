/** From the queue to the datagrams: over every run, an egress task builds exactly one datagram for
    each frame its subscriber hands out while it is its session's current task.
 */
module UdpDelivery {
  import opened Transport
  import opened Caster
  import Nearest
  import opened UdpRuns
  import opened UdpSafety
  import opened UdpSessions
  import opened Wrappers

  // The frames of the datagrams one task built, in order.
  function FramesBy(built: seq<Pumped>, t: nat): seq<Frame> {
    if built == [] then []
    else
      var last := built[|built| - 1];
      FramesBy(built[..|built| - 1], t) + (if last.task == t then [last.frame] else [])
  }

  lemma FramesByOneMore(built: seq<Pumped>, p: Pumped, t: nat)
    ensures FramesBy(built + [p], t) == FramesBy(built, t) + if p.task == t then [p.frame] else []
  {
    assert (built + [p])[..|built|] == built;
  }

  predicate StreamsFrom(s: State, t: nat, sub: nat) {
    t < |s.tasks| && s.tasks[t].phase == Streaming(sub)
  }

  // The task is its session's current one.
  predicate Current(s: State, t: nat) {
    t < |s.tasks| && s.tasks[t].session in s.sessions && s.sessions[s.tasks[t].session].task == Some(t)
  }

  function FramesOf(s: State, t: nat): seq<Frame>
    requires t < |s.tasks|
  {
    FramesBy(Built(s, s.tasks[t].session), t)
  }

  function Received(n: System, sub: nat): seq<Frame>
    requires sub < |n.subs|
  {
    n.subs[sub].ledger.received
  }

  // ---- what every step keeps -----------------------------------------------

  // A current task has built one datagram for each frame it received, and one that has yet to start none.
  ghost predicate TaskDelivers(s: State, t: nat) {
    && (t < |s.tasks| && s.tasks[t].phase.Streaming? && s.tasks[t].phase.sub < |s.net.subs| && Current(s, t) ==>
          FramesOf(s, t) == Received(s.net, s.tasks[t].phase.sub))
    && (t < |s.tasks| && s.tasks[t].phase.Created? ==> FramesOf(s, t) == [])
    && (t >= |s.tasks| ==> forall id: nat :: FramesBy(Built(s, id), t) == [])
  }

  ghost predicate OwnSubs(s: State) {
    && (forall t: nat, sub: nat :: StreamsFrom(s, t, sub) ==> sub < |s.net.subs|)
    && (forall t: nat, u: nat, sub: nat :: StreamsFrom(s, t, sub) && StreamsFrom(s, u, sub) ==> t == u)
  }

  ghost predicate DeliveryInv(s: State) {
    OwnSubs(s) && forall t: nat :: TaskDelivers(s, t)
  }

  // ---- the caster ----------------------------------------------------------

  lemma ReceivedAfter(n: System, r: Request, i: nat)
    requires WellFormed(n) && i < |n.subs|
    ensures |n.subs| <= |Handled(n, r).0.subs|
    ensures Received(Handled(n, r).0, i) ==
            Received(n, i) + if r.Consume? && r.sub == i && Handled(n, r).1.Answered? && Handled(n, r).1.outcome.Got?
                             then [Handled(n, r).1.outcome.frame] else []
  {
  }

  lemma NewSubReceivedNothing(n: System, r: Request, i: nat)
    requires WellFormed(n) && |n.subs| <= i < |Handled(n, r).0.subs|
    ensures Received(Handled(n, r).0, i) == []
  {
  }

  // ---- one step ------------------------------------------------------------

  // The step hands subscriber i nothing.
  predicate GotNothing(n: System, n': System, i: nat) {
    i < |n.subs| ==> i < |n'.subs| && Received(n', i) == Received(n, i)
  }

  ghost predicate NewSubsAreFresh(n: System, n': System) {
    forall i :: |n.subs| <= i < |n'.subs| ==> Received(n', i) == []
  }

  lemma StartHandsNothing(s: State, task: nat, i: nat)
    requires WellFormed(s.net)
    ensures GotNothing(s.net, OnStart(s, task).net, i)
    ensures NewSubsAreFresh(s.net, OnStart(s, task).net)
  {
    if Runnable(s, task) && s.tasks[task].phase.Created? && !s.tasks[task].cancelled {
      var r := Subscribe(s.sessions[s.tasks[task].session].mountpoint);
      if i < |s.net.subs| {
        ReceivedAfter(s.net, r, i);
      }
      forall j | |s.net.subs| <= j < |Handled(s.net, r).0.subs|
        ensures Received(Handled(s.net, r).0, j) == []
      {
        NewSubReceivedNothing(s.net, r, j);
      }
      assert OnStart(s, task).net == Handled(s.net, r).0;
    }
  }

  lemma CancelHandsNothing(s: State, task: nat, i: nat)
    requires WellFormed(s.net)
    ensures GotNothing(s.net, OnCancel(s, task).net, i)
    ensures |OnCancel(s, task).net.subs| == |s.net.subs|
  {
    if Runnable(s, task) && s.tasks[task].cancelled && s.tasks[task].phase.Streaming? {
      CancellingHandsNothing(s, s.tasks[task].phase.sub, i);
    }
  }

  lemma CancellingHandsNothing(s: State, sub: nat, i: nat)
    requires WellFormed(s.net)
    ensures var n := Asked(Asked(s, Consume(sub, CancelGet)), Leave(sub)).net;
            GotNothing(s.net, n, i) && |n.subs| == |s.net.subs|
  {
    if i < |s.net.subs| {
      ReceivedAfter(s.net, Consume(sub, CancelGet), i);
      ReceivedAfter(Asked(s, Consume(sub, CancelGet)).net, Leave(sub), i);
    }
  }

  lemma AskHandsNothing(s: State, r: Request, site: Nearest.Site, t: nat, sub: nat)
    requires WellFormed(s.net) && StreamsFrom(s, t, sub)
    ensures GotNothing(s.net, OnAsk(s, r, site).net, sub)
  {
    if Foreign(s, r) && sub < |s.net.subs| {
      ReceivedAfter(s.net, r, sub);
    }
  }

  lemma AskMakesFreshSubs(s: State, r: Request, site: Nearest.Site)
    requires WellFormed(s.net)
    ensures NewSubsAreFresh(s.net, OnAsk(s, r, site).net)
  {
    if Foreign(s, r) {
      forall j | |s.net.subs| <= j < |Handled(s.net, r).0.subs|
        ensures Received(Handled(s.net, r).0, j) == []
      {
        NewSubReceivedNothing(s.net, r, j);
      }
    }
  }

  lemma FrameHands(c: Config, s: State, task: nat, sub: nat, frame: Frame, timestamp: int, i: nat)
    requires Runnable(s, task) && WellFormed(s.net)
    ensures var s' := OnFrame(c, s, task, sub, frame, timestamp);
            GotNothing(s.net, s'.net, i) && |s'.net.subs| == |s.net.subs|
  {
    if i < |s.net.subs| {
      ReceivedAfter(s.net, Leave(sub), i);
    }
  }

  // A pump round hands another subscriber nothing, and its own at most the frame it then builds a
  // datagram of, if it is still current.
  lemma PumpHandsOthersNothing(c: Config, s: State, task: nat, timestamp: int, i: nat)
    requires WellFormed(s.net) && !StreamsFrom(s, task, i)
    ensures GotNothing(s.net, OnPump(c, s, task, timestamp).net, i)
    ensures |OnPump(c, s, task, timestamp).net.subs| == |s.net.subs|
  {
    if Runnable(s, task) && s.tasks[task].phase.Streaming? {
      var sub := s.tasks[task].phase.sub;
      var step := Consume(sub, GetStep(s.net, sub));
      var t := Asked(s, step);
      var reply := Handled(s.net, step).1;
      if i < |s.net.subs| {
        ReceivedAfter(s.net, step, i);
        ReceivedAfter(t.net, Leave(sub), i);
      }
      if reply.Answered? && reply.outcome.Got? {
        FrameHands(c, t, task, sub, reply.outcome.frame, timestamp, i);
      }
    }
  }

  lemma PumpKeepsSubCount(c: Config, s: State, task: nat, timestamp: int)
    requires WellFormed(s.net)
    ensures |OnPump(c, s, task, timestamp).net.subs| == |s.net.subs|
  {
    PumpHandsOthersNothing(c, s, task, timestamp, if StreamsFrom(s, task, 0) then 1 else 0);
  }

  lemma FrameDelivers(c: Config, s: State, task: nat, sub: nat, frame: Frame, timestamp: int)
    requires Runnable(s, task) && WellFormed(s.net) && StreamsFrom(s, task, sub) && Current(s, task)
    requires sub < |s.net.subs|
    ensures var s' := OnFrame(c, s, task, sub, frame, timestamp);
            && task < |s'.tasks| && s'.tasks[task].session == s.tasks[task].session && s'.net == s.net
            && FramesOf(s', task) == FramesOf(s, task) + [frame]
  {
    var id := s.tasks[task].session;
    FrameBuilds(c, s, task, sub, frame, timestamp, id);
    FrameCarries(c, s, task, sub, frame, timestamp);
    var s' := OnFrame(c, s, task, sub, frame, timestamp);
    var p := s'.pumped[id][|s.pumped[id]|];
    assert s'.pumped[id] == s.pumped[id] + [p];
    FramesByOneMore(s.pumped[id], p, task);
  }

  // A current task's round: what its subscriber hands out is what it builds.
  lemma PumpDelivers(c: Config, s: State, task: nat, sub: nat, timestamp: int)
    requires Runnable(s, task) && WellFormed(s.net) && StreamsFrom(s, task, sub) && Current(s, task)
    requires sub < |s.net.subs|
    requires FramesOf(s, task) == Received(s.net, sub)
    ensures var s' := OnPump(c, s, task, timestamp);
            StreamsFrom(s', task, sub) && sub < |s'.net.subs| && s'.tasks[task].session == s.tasks[task].session ==>
              FramesOf(s', task) == Received(s'.net, sub)
  {
    var step := Consume(sub, GetStep(s.net, sub));
    var t := Asked(s, step);
    var reply := Handled(s.net, step).1;
    ReceivedAfter(s.net, step, sub);
    if reply.Answered? && reply.outcome.Got? {
      FrameDelivers(c, t, task, sub, reply.outcome.frame, timestamp);
    }
  }

  // ---- who builds what -----------------------------------------------------

  lemma PumpBuildsOwn(c: Config, s: State, task: nat, timestamp: int, id: nat)
    requires WellFormed(s.net) && BuildsOne(c, s, OnPump(c, s, task, timestamp), id)
    ensures s.sessions[id].task == Some(task) && task < |s.tasks|
  {
    if Runnable(s, task) && s.tasks[task].phase.Streaming? {
      var sub := s.tasks[task].phase.sub;
      var step := Consume(sub, GetStep(s.net, sub));
      var reply := Handled(s.net, step).1;
      if reply.Answered? && reply.outcome.Got? {
        FrameBuilds(c, Asked(s, step), task, sub, reply.outcome.frame, timestamp, id);
      }
    }
  }

  lemma OthersBuildNothing(c: Config, s: State, e: ServerEvent, u: nat, id: nat)
    requires WellFormed(s.net) && s.pumped.Keys <= s.sessions.Keys
    requires e.Pump? ==> e.task != u || u >= |s.tasks|
    ensures FramesBy(Built(Next(c, s, e), id), u) == FramesBy(Built(s, id), u)
  {
    StepBuilds(c, s, e, id);
    NoneForAnother(c, s, e, Next(c, s, e), u, id);
  }

  lemma NoneForAnother(c: Config, s: State, e: ServerEvent, s': State, u: nat, id: nat)
    requires WellFormed(s.net) && s' == Next(c, s, e) && (BuildsNone(s, s', id) || (e.Pump? && BuildsOne(c, s, s', id)))
    requires e.Pump? ==> e.task != u || u >= |s.tasks|
    ensures FramesBy(Built(s', id), u) == FramesBy(Built(s, id), u)
  {
    if e.Pump? && BuildsOne(c, s, s', id) {
      PumpBuildsOwn(c, s, e.task, e.timestamp, id);
      BuiltByAnother(c, s, s', e.task, u, id);
    }
  }

  lemma BuiltByAnother(c: Config, s: State, s': State, task: nat, u: nat, id: nat)
    requires BuildsOne(c, s, s', id) && s.sessions[id].task == Some(task) && task != u
    ensures FramesBy(Built(s', id), u) == FramesBy(Built(s, id), u)
  {
    var p := s'.pumped[id][|s.pumped[id]|];
    assert s'.pumped[id] == s.pumped[id] + [p];
    FramesByOneMore(s.pumped[id], p, u);
  }

  // ---- every step ----------------------------------------------------------

  lemma StepHandsNothing(c: Config, s: State, e: ServerEvent, t: nat, sub: nat)
    requires WellFormed(s.net) && OwnSubs(s) && StreamsFrom(s, t, sub) && (e.Pump? ==> e.task != t)
    ensures GotNothing(s.net, Next(c, s, e).net, sub)
  {
    match e {
      case Ask(r, site) => AskHandsNothing(s, r, site, t, sub);
      case DatagramArrives(id, addr, now, body) => assert OnDatagram(c, s, id, addr, now, body).net == s.net;
      case RunJob(job, freshId, now) => assert OnJob(c, s, job, freshId, now).net == s.net;
      case StartTask(task) => StartHandsNothing(s, task, sub);
      case Pump(task, timestamp) => PumpHandsOthersNothing(c, s, task, timestamp, sub);
      case DeliverCancel(task) => CancelHandsNothing(s, task, sub);
      case ReapPass(now, picked) => assert OnReapPass(s, now, picked).net == s.net;
      case ReapNext(_) => assert OnReapNext(s).net == s.net;
      case _ =>
    }
  }

  lemma StepKeepsSubCount(c: Config, s: State, e: ServerEvent)
    requires WellFormed(s.net) && !e.Ask? && !e.StartTask?
    ensures |Next(c, s, e).net.subs| == |s.net.subs|
  {
    match e {
      case DatagramArrives(id, addr, now, body) => assert OnDatagram(c, s, id, addr, now, body).net == s.net;
      case RunJob(job, freshId, now) => assert OnJob(c, s, job, freshId, now).net == s.net;
      case Pump(task, timestamp) => PumpKeepsSubCount(c, s, task, timestamp);
      case DeliverCancel(task) => CancelHandsNothing(s, task, 0);
      case ReapPass(now, picked) => assert OnReapPass(s, now, picked).net == s.net;
      case ReapNext(_) => assert OnReapNext(s).net == s.net;
      case _ =>
    }
  }

  lemma StepMakesFreshSubs(c: Config, s: State, e: ServerEvent)
    requires WellFormed(s.net)
    ensures NewSubsAreFresh(s.net, Next(c, s, e).net) && |s.net.subs| <= |Next(c, s, e).net.subs|
  {
    if e.Ask? {
      AskMakesFreshSubs(s, e.request, e.site);
    } else if e.StartTask? {
      StartHandsNothing(s, e.task, 0);
    } else {
      StepKeepsSubCount(c, s, e);
    }
  }

  // Only its own start sets a task streaming.
  lemma StartsAlone(c: Config, s: State, e: ServerEvent, t: nat)
    requires WellFormed(s.net) && t < |s.tasks| && s.tasks[t].phase.Created?
    ensures t < |Next(c, s, e).tasks|
    ensures Next(c, s, e).tasks[t].phase.Streaming? ==> e == StartTask(t)
  {
    StepMovesOn(c, s, e, 0, t);
    if e.StartTask? {
      if e.task != t {
        StartLeavesOthers(s, e.task, t);
      }
    } else if !e.Ask? {
      StepKeepsSubCount(c, s, e);
    }
  }

  lemma StartLeavesOthers(s: State, task: nat, t: nat)
    requires WellFormed(s.net) && task != t && t < |s.tasks|
    ensures t < |OnStart(s, task).tasks| && OnStart(s, task).tasks[t].phase == s.tasks[t].phase
  {
  }

  // Who streams after the step streamed before, or was started by it.
  lemma StreamedBefore(c: Config, s: State, e: ServerEvent, t: nat, sub: nat)
    requires WellFormed(s.net) && OwnSubs(s) && StreamsFrom(Next(c, s, e), t, sub)
    ensures sub < |Next(c, s, e).net.subs| && t < |s.tasks|
    ensures StreamsFrom(s, t, sub) || (e == StartTask(t) && |s.net.subs| <= sub)
  {
    StepMovesOn(c, s, e, 0, t);
    StepMakesFreshSubs(c, s, e);
    assert t < |s.tasks|;
    if s.tasks[t].phase.Created? {
      StartsAlone(c, s, e, t);
    } else {
      assert StreamsFrom(s, t, sub);
    }
  }

  lemma StepKeepsOwnSubs(c: Config, s: State, e: ServerEvent)
    requires WellFormed(s.net) && OwnSubs(s)
    ensures OwnSubs(Next(c, s, e))
  {
    forall t: nat, sub: nat | StreamsFrom(Next(c, s, e), t, sub)
      ensures sub < |Next(c, s, e).net.subs|
    {
      StreamedBefore(c, s, e, t, sub);
    }
    forall t: nat, u: nat, sub: nat | StreamsFrom(Next(c, s, e), t, sub) && StreamsFrom(Next(c, s, e), u, sub)
      ensures t == u
    {
      StreamedBefore(c, s, e, t, sub);
      StreamedBefore(c, s, e, u, sub);
    }
  }

  // A task current after the step was current before, or had yet to be made.
  lemma WasCurrent(c: Config, s: State, e: ServerEvent, t: nat)
    requires ServerInv(c, s) && t < |s.tasks| && Current(Next(c, s, e), t)
    ensures Current(s, t) && Next(c, s, e).tasks[t].session == s.tasks[t].session
  {
    assert TaskInv(s, t);
    StepMovesOn(c, s, e, s.tasks[t].session, t);
  }

  lemma StreamingKeepsDelivering(c: Config, s: State, e: ServerEvent, t: nat, sub: nat)
    requires ServerInv(c, s) && DeliveryInv(s)
    requires StreamsFrom(s, t, sub) && StreamsFrom(Next(c, s, e), t, sub) && Current(Next(c, s, e), t)
    ensures sub < |Next(c, s, e).net.subs| && FramesOf(Next(c, s, e), t) == Received(Next(c, s, e).net, sub)
  {
    WasCurrent(c, s, e, t);
    StepMakesFreshSubs(c, s, e);
    assert TaskDelivers(s, t);
    if e.Pump? && e.task == t {
      assert SessionInv(c, s, s.tasks[t].session);
      PumpDelivers(c, s, t, sub, e.timestamp);
    } else {
      StepHandsNothing(c, s, e, t, sub);
      OthersBuildNothing(c, s, e, t, s.tasks[t].session);
    }
  }

  lemma StartedDeliversNothingYet(c: Config, s: State, e: ServerEvent, t: nat, sub: nat)
    requires ServerInv(c, s) && DeliveryInv(s) && t < |s.tasks| && s.tasks[t].phase.Created?
    requires StreamsFrom(Next(c, s, e), t, sub)
    ensures sub < |Next(c, s, e).net.subs| && Next(c, s, e).tasks[t].session == s.tasks[t].session
    ensures FramesOf(Next(c, s, e), t) == [] && Received(Next(c, s, e).net, sub) == []
  {
    StepMovesOn(c, s, e, 0, t);
    StepMakesFreshSubs(c, s, e);
    StartsAlone(c, s, e, t);
    assert TaskDelivers(s, t);
    OthersBuildNothing(c, s, e, t, s.tasks[t].session);
  }

  // A task that had not started has built nothing, before or after.
  lemma UnstartedBuildsNothing(c: Config, s: State, e: ServerEvent, t: nat, id: nat)
    requires ServerInv(c, s) && TaskDelivers(s, t)
    requires t >= |s.tasks| || (s.tasks[t].phase.Created? && id == s.tasks[t].session)
    ensures FramesBy(Built(Next(c, s, e), id), t) == []
  {
    if e.Pump? && e.task == t && t < |s.tasks| {
      assert Next(c, s, e) == s;
    } else {
      OthersBuildNothing(c, s, e, t, id);
    }
  }

  lemma StepDelivers(c: Config, s: State, e: ServerEvent, t: nat)
    requires ServerInv(c, s) && DeliveryInv(s)
    ensures TaskDelivers(Next(c, s, e), t)
  {
    var s' := Next(c, s, e);
    assert TaskDelivers(s, t);
    StepMovesOn(c, s, e, 0, t);
    if t >= |s.tasks| {
      forall id: nat
        ensures FramesBy(Built(s', id), t) == []
      {
        UnstartedBuildsNothing(c, s, e, t, id);
      }
    } else if s'.tasks[t].phase.Created? {
      UnstartedBuildsNothing(c, s, e, t, s.tasks[t].session);
    } else if s'.tasks[t].phase.Streaming? && Current(s', t) {
      if s.tasks[t].phase.Created? {
        StartedDeliversNothingYet(c, s, e, t, s'.tasks[t].phase.sub);
      } else {
        StreamingKeepsDelivering(c, s, e, t, s'.tasks[t].phase.sub);
      }
    }
  }

  lemma StepKeepsDelivery(c: Config, s: State, e: ServerEvent)
    requires ServerInv(c, s) && DeliveryInv(s)
    ensures DeliveryInv(Next(c, s, e))
  {
    StepKeepsOwnSubs(c, s, e);
    forall t: nat
      ensures TaskDelivers(Next(c, s, e), t)
    {
      StepDelivers(c, s, e, t);
    }
  }

  lemma NothingToDeliverYet()
    ensures DeliveryInv(START)
  {
  }

  lemma DeliveryGoesOn(c: Config, s: State, e: ServerEvent, s': State)
    requires ServerInv(c, s) && DeliveryInv(s) && s' == Next(c, s, e)
    ensures DeliveryInv(s')
  {
    StepKeepsDelivery(c, s, e);
  }

  lemma {:induction false} RunDelivers(c: Config, events: seq<ServerEvent>, states: seq<State>, n: nat)
    requires IsRun(c, events, states) && n <= |events|
    ensures DeliveryInv(states[n])
    decreases n
  {
    if n == 0 {
      NothingToDeliverYet();
    } else {
      RunDelivers(c, events, states, n - 1);
      StateIsSound(c, events, states, n - 1);
      RunStep(c, events, states, n - 1);
      DeliveryGoesOn(c, states[n - 1], events[n - 1], states[n]);
    }
  }

  // ---- from the base station to the datagrams ------------------------------

  // In every reachable state the frames of the datagrams a current egress task built are, in order and
  // one datagram each, exactly the frames its subscriber handed out: none is skipped, none sent twice.
  lemma DatagramsAreTheFramesReceived(c: Config, events: seq<ServerEvent>, states: seq<State>, n: nat, t: nat, sub: nat)
    requires IsRun(c, events, states) && n <= |events|
    requires StreamsFrom(states[n], t, sub) && Current(states[n], t)
    ensures sub < |states[n].net.subs| && FramesOf(states[n], t) == Received(states[n].net, sub)
  {
    RunDelivers(c, events, states, n);
    assert TaskDelivers(states[n], t);
  }

  // Where in the order of acceptance the k-th frame became a datagram.
  lemma {:induction false} ConsumedAtHits(fates: seq<Fate>, k: nat) returns (j: nat)
    requires k < |fates| && fates[k].Consumed?
    ensures j < |ConsumedAt(fates)| && ConsumedAt(fates)[j] == k
  {
    var m := |fates| - 1;
    if k < m {
      j := ConsumedAtHits(fates[..m], k);
    } else {
      j := |ConsumedAt(fates[..m])|;
    }
  }

  // The frame accepted as number k still waits, was pushed out by newer ones, or became a datagram.
  ghost predicate AccountedFor(s: State, t: nat, l: Ledger, k: nat)
    requires t < |s.tasks|
  {
    || k >= |l.fates|
    || l.fates[k] == Evicted
    || exists j: nat :: j < |ConsumedAt(l.fates)| && ConsumedAt(l.fates)[j] == k && j < |FramesOf(s, t)|
                        && k < |l.accepted| && FramesOf(s, t)[j] == l.accepted[k]
  }

  lemma AcceptedIsAccountedFor(s: State, t: nat, l: Ledger, k: nat)
    requires t < |s.tasks| && LedgerInv(l) && !l.sub.cancelled && FramesOf(s, t) == l.received && k < |l.accepted|
    ensures AccountedFor(s, t, l, k)
  {
    if k < |l.fates| && l.fates[k].Consumed? {
      var j := ConsumedAtHits(l.fates, k);
      assert l.received[j] == l.accepted[ConsumedAt(l.fates)[j]];
    }
  }

  // What the subscriber accepted as number k is what request `at` published.
  predicate PublishedBy(n: System, sub: nat, k: nat, at: nat) {
    && sub < |n.subs| && n.subs[sub].hub < |n.hubs| && n.subs[sub].start + k < |n.hubs[n.subs[sub].hub].log|
    && n.hubs[n.subs[sub].hub].log[n.subs[sub].start + k].at == at
  }

  // Every frame published on the mountpoint's transport since a current task subscribed was accepted
  // by its live subscriber, and is waiting, was pushed out by newer frames, or is in a datagram.
  lemma PublishedIsAccountedFor(c: Config, events: seq<ServerEvent>, states: seq<State>, n: nat, t: nat, sub: nat,
                                at: nat, m: string, frame: Frame)
    returns (k: nat)
    requires IsRun(c, events, states) && n <= |events| && StreamsFrom(states[n], t, sub) && Current(states[n], t)
    requires sub < |states[n].net.subs|
    requires var own := states[n].net.subs[sub];
             own.listed && Live(own) && own.joined < at && SentAt(states[n].requests, at, own.hub, m, frame)
    ensures var l := states[n].net.subs[sub].ledger;
            && k < |l.accepted| && l.accepted[k] == frame && AccountedFor(states[n], t, l, k)
            && PublishedBy(states[n].net, sub, k, at)
  {
    StateIsSound(c, events, states, n);
    DatagramsAreTheFramesReceived(c, events, states, n, t, sub);
    LiveSubAccepts(states[n], sub, at, m, frame);
    k := AcceptedIsFound(states[n].net, sub, at, frame);
    AcceptedIsAccountedFor(states[n], t, states[n].net.subs[sub].ledger, k);
  }

  lemma LiveSubAccepts(s: State, sub: nat, at: nat, m: string, frame: Frame)
    requires Follows(s) && sub < |s.net.subs|
    requires var own := s.net.subs[sub];
             own.listed && Live(own) && own.joined < at && SentAt(s.requests, at, own.hub, m, frame)
    ensures var own := s.net.subs[sub];
            own.hub < |s.net.hubs| && Accepted(own, s.net.hubs[own.hub].log, at, frame) && LedgerInv(own.ledger)
  {
    RunKeepsSystem(s.requests);
    LiveRoverAcceptsEverything(s.requests, sub, at, m, frame);
  }

  lemma AcceptedIsFound(n: System, sub: nat, at: nat, frame: Frame) returns (k: nat)
    requires sub < |n.subs| && n.subs[sub].hub < |n.hubs|
    requires Accepted(n.subs[sub], n.hubs[n.subs[sub].hub].log, at, frame)
    ensures k < |n.subs[sub].ledger.accepted| && n.subs[sub].ledger.accepted[k] == frame && PublishedBy(n, sub, k, at)
  {
    var own, log := n.subs[sub], n.hubs[n.subs[sub].hub].log;
    k :| 0 <= k < |own.ledger.accepted| && own.start + k < |log| && log[own.start + k].at == at &&
        own.ledger.accepted[k] == frame;
  }
}

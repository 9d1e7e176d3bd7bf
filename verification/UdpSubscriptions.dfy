/** No subscription of an egress task outlives it: over every run, whoever stops streaming has left its
    transport, and whoever was superseded before it started never joins one.
 */
module UdpSubscriptions {
  import Transport
  import opened Caster
  import Nearest
  import opened UdpDelivery
  import opened UdpRuns
  import opened UdpSafety
  import opened UdpSessions
  import opened UdpSilence
  import opened Wrappers

  // The subscriber is off its transport's list and shut down.
  predicate HasLeft(n: System, sub: nat) {
    sub < |n.subs| && !n.subs[sub].listed && n.subs[sub].ledger.sub.cancelled
  }

  // ---- one step ------------------------------------------------------------

  lemma LeftForGood(n: System, r: Request, sub: nat)
    requires WellFormed(n) && HasLeft(n, sub)
    ensures HasLeft(Handled(n, r).0, sub)
  {
  }

  lemma LeavingLeaves(n: System, sub: nat)
    requires WellFormed(n) && sub < |n.subs| && n.subs[sub].ledger.sub.consumer.Idle?
    ensures HasLeft(Handled(n, Leave(sub)).0, sub)
  {
    Transport.AcceptedAfter(n.subs[sub].ledger, Transport.Shutdown);
  }

  // A `get` that came to an end leaves its consumer outside of it.
  lemma GetEndsIdle(n: System, sub: nat, step: Transport.Event)
    requires WellFormed(n) && sub < |n.subs| && (step.BeginGet? || step.ResumeGet? || step.CancelGet?)
    requires step.CancelGet? || !Handled(n, Consume(sub, step)).1.outcome.Waiting?
    ensures var n' := Handled(n, Consume(sub, step)).0;
            sub < |n'.subs| && n'.subs[sub].ledger.sub.consumer.Idle?
  {
  }

  lemma StartKeepsLeft(s: State, task: nat, sub: nat)
    requires WellFormed(s.net) && HasLeft(s.net, sub)
    ensures HasLeft(OnStart(s, task).net, sub)
  {
    if Runnable(s, task) && s.tasks[task].phase.Created? && !s.tasks[task].cancelled {
      LeftForGood(s.net, Subscribe(s.sessions[s.tasks[task].session].mountpoint), sub);
    }
  }

  lemma FrameKeepsLeft(c: Config, s: State, task: nat, own: nat, frame: Transport.Frame, timestamp: int, sub: nat)
    requires Runnable(s, task) && WellFormed(s.net) && HasLeft(s.net, sub)
    ensures HasLeft(OnFrame(c, s, task, own, frame, timestamp).net, sub)
  {
    LeftForGood(s.net, Leave(own), sub);
  }

  lemma PumpKeepsLeft(c: Config, s: State, task: nat, timestamp: int, sub: nat)
    requires WellFormed(s.net) && HasLeft(s.net, sub)
    ensures HasLeft(OnPump(c, s, task, timestamp).net, sub)
  {
    if Runnable(s, task) && s.tasks[task].phase.Streaming? {
      var own := s.tasks[task].phase.sub;
      var step := Consume(own, GetStep(s.net, own));
      var t := Asked(s, step);
      var reply := Handled(s.net, step).1;
      LeftForGood(s.net, step, sub);
      LeftForGood(t.net, Leave(own), sub);
      if reply.Answered? && reply.outcome.Got? {
        FrameKeepsLeft(c, t, task, own, reply.outcome.frame, timestamp, sub);
      }
    }
  }

  lemma CancelKeepsLeft(s: State, task: nat, sub: nat)
    requires WellFormed(s.net) && HasLeft(s.net, sub)
    ensures HasLeft(OnCancel(s, task).net, sub)
  {
    if Runnable(s, task) && s.tasks[task].cancelled && s.tasks[task].phase.Streaming? {
      var own := s.tasks[task].phase.sub;
      LeftForGood(s.net, Consume(own, Transport.CancelGet), sub);
      LeftForGood(Asked(s, Consume(own, Transport.CancelGet)).net, Leave(own), sub);
    }
  }

  lemma StepKeepsLeft(c: Config, s: State, e: ServerEvent, sub: nat)
    requires WellFormed(s.net) && HasLeft(s.net, sub)
    ensures HasLeft(Next(c, s, e).net, sub)
  {
    match e {
      case Ask(r, _) => LeftForGood(s.net, r, sub);
      case StartTask(task) => StartKeepsLeft(s, task, sub);
      case Pump(task, timestamp) => PumpKeepsLeft(c, s, task, timestamp, sub);
      case DeliverCancel(task) => CancelKeepsLeft(s, task, sub);
      case DatagramArrives(id, addr, now, body) => assert OnDatagram(c, s, id, addr, now, body).net == s.net;
      case RunJob(job, freshId, now) => assert OnJob(c, s, job, freshId, now).net == s.net;
      case ReapPass(now, picked) => assert OnReapPass(s, now, picked).net == s.net;
      case ReapNext(_) => assert OnReapNext(s).net == s.net;
      case _ =>
    }
  }

  // A round that ends its task takes its subscriber off.
  lemma PumpLeaves(c: Config, s: State, t: nat, sub: nat, timestamp: int)
    requires WellFormed(s.net) && Runnable(s, t) && StreamsFrom(s, t, sub) && sub < |s.net.subs|
    ensures StreamsFrom(OnPump(c, s, t, timestamp), t, sub) || HasLeft(OnPump(c, s, t, timestamp).net, sub)
  {
    var step := GetStep(s.net, sub);
    var reply := Handled(s.net, Consume(sub, step)).1;
    if reply.outcome.Got? || reply.outcome.EndOfStream? {
      GetEndsIdle(s.net, sub, step);
      LeavingLeaves(Asked(s, Consume(sub, step)).net, sub);
    }
  }

  lemma CancelLeaves(s: State, t: nat, sub: nat)
    requires WellFormed(s.net) && StreamsFrom(s, t, sub) && sub < |s.net.subs|
    ensures StreamsFrom(OnCancel(s, t), t, sub) || HasLeft(OnCancel(s, t).net, sub)
  {
    GetEndsIdle(s.net, sub, Transport.CancelGet);
    LeavingLeaves(Asked(s, Consume(sub, Transport.CancelGet)).net, sub);
  }

  lemma CancelOfAnother(s: State, task: nat, t: nat, sub: nat)
    requires WellFormed(s.net) && StreamsFrom(s, t, sub) && task != t
    ensures StreamsFrom(OnCancel(s, task), t, sub)
  {
  }

  lemma PumpOfAnotherStreams(c: Config, s: State, task: nat, timestamp: int, t: nat, sub: nat)
    requires WellFormed(s.net) && StreamsFrom(s, t, sub) && task != t
    ensures StreamsFrom(OnPump(c, s, task, timestamp), t, sub)
  {
  }

  ghost predicate StreamsOrLeft(s: State, t: nat, sub: nat) {
    StreamsFrom(s, t, sub) || HasLeft(s.net, sub)
  }

  lemma StepLeavesSub(c: Config, s: State, e: ServerEvent, s': State, t: nat, sub: nat)
    requires ServerInv(c, s) && s' == Next(c, s, e) && StreamsFrom(s, t, sub)
    ensures StreamsOrLeft(s', t, sub)
  {
    assert TaskInv(s, t) && SessionInv(c, s, s.tasks[t].session);
    if e.Pump? {
      if e.task == t {
        PumpLeaves(c, s, t, sub, e.timestamp);
      } else {
        PumpOfAnotherStreams(c, s, e.task, e.timestamp, t, sub);
      }
    } else if e.DeliverCancel? {
      if e.task == t {
        CancelLeaves(s, t, sub);
      } else {
        CancelOfAnother(s, e.task, t, sub);
      }
    } else if e.StartTask? {
      if e.task != t {
        StartLeavesOthers(s, e.task, t);
      }
    } else {
      OwnTasks(c, s);
      StepSpares(c, s, e, t);
    }
  }

  // ---- over a run ----------------------------------------------------------

  lemma SubscriptionStep(c: Config, events: seq<ServerEvent>, states: seq<State>, k: nat, t: nat, sub: nat)
    requires IsRun(c, events, states) && k < |events| && StreamsOrLeft(states[k], t, sub)
    ensures StreamsOrLeft(states[k + 1], t, sub)
  {
    StateIsSound(c, events, states, k);
    RunStep(c, events, states, k);
    if StreamsFrom(states[k], t, sub) {
      StepLeavesSub(c, states[k], events[k], states[k + 1], t, sub);
    } else {
      StepKeepsLeft(c, states[k], events[k], sub);
    }
  }

  // Nothing leaks: from the moment a task joined a transport it is streaming from it, or its subscriber is
  // off the list and shut down.
  lemma {:induction false} NoSubscriptionLeaks(
      c: Config, events: seq<ServerEvent>, states: seq<State>, n: nat, m: nat, t: nat, sub: nat)
    requires IsRun(c, events, states) && n <= m <= |events| && StreamsFrom(states[n], t, sub)
    ensures StreamsFrom(states[m], t, sub) || HasLeft(states[m].net, sub)
    decreases m
  {
    if n < m {
      NoSubscriptionLeaks(c, events, states, n, m - 1, t, sub);
      SubscriptionStep(c, events, states, m - 1, t, sub);
    }
  }

  lemma SupersededStaysOut(c: Config, s: State, e: ServerEvent, s': State, t: nat)
    requires ServerInv(c, s) && s' == Next(c, s, e) && Superseded(s, t) && !s.tasks[t].phase.Streaming?
    ensures t < |s'.tasks| && !s'.tasks[t].phase.Streaming?
  {
    assert TaskInv(s, t);
    StepMovesOn(c, s, e, 0, t);
    if s.tasks[t].phase.Created? {
      StartsAlone(c, s, e, t);
    }
  }

  lemma SupersededStep(c: Config, events: seq<ServerEvent>, states: seq<State>, k: nat, t: nat)
    requires IsRun(c, events, states) && k < |events|
    requires Superseded(states[k], t) && !states[k].tasks[t].phase.Streaming?
    ensures t < |states[k + 1].tasks| && !states[k + 1].tasks[t].phase.Streaming?
  {
    StateIsSound(c, events, states, k);
    RunStep(c, events, states, k);
    SupersededStaysOut(c, states[k], events[k], states[k + 1], t);
  }

  // A task superseded or torn down before it started never joins a transport.
  lemma {:induction false} SupersededNeverJoins(
      c: Config, events: seq<ServerEvent>, states: seq<State>, n: nat, m: nat, t: nat)
    requires IsRun(c, events, states) && n <= m <= |events| && Superseded(states[n], t)
    requires !states[n].tasks[t].phase.Streaming?
    ensures t < |states[m].tasks| && !states[m].tasks[t].phase.Streaming?
    decreases m
  {
    if n < m {
      SupersededNeverJoins(c, events, states, n, m - 1, t);
      RunIsTraced(c, events, states);
      SupersededIsSilentIn(c, states, events, n, m - 1, t, 0);
      SupersededStep(c, events, states, m - 1, t);
    }
  }
}

/** Sign once, fan out: how often the signing cache of the UDP server really signs. */
module SignOnce {
  import opened Transport
  import opened Caster
  import opened UdpRuns
  import opened UdpSessions
  import opened Wrappers

  datatype SignCall = SignCall(mountpoint: string, frame: Frame, timestamp: int)

  function CacheAfter(c: Config, calls: seq<SignCall>): map<string, (Frame, SignedCorrection)> {
    if calls == [] then map[]
    else
      var last := calls[|calls| - 1];
      SignFrame(c, CacheAfter(c, calls[..|calls| - 1]), last.mountpoint, last.frame, last.timestamp).0
  }

  // What the last of the calls returned.
  function Returned(c: Config, calls: seq<SignCall>): SignedCorrection
    requires calls != []
  {
    var last := calls[|calls| - 1];
    SignFrame(c, CacheAfter(c, calls[..|calls| - 1]), last.mountpoint, last.frame, last.timestamp).1
  }

  // How many calls on a mountpoint built a new correction instead of reusing the cached one.
  function Signings(c: Config, calls: seq<SignCall>, mountpoint: string): nat {
    if calls == [] then 0
    else
      var before, last := CacheAfter(c, calls[..|calls| - 1]), calls[|calls| - 1];
      var reused := last.mountpoint in before && before[last.mountpoint].0 == last.frame;
      Signings(c, calls[..|calls| - 1], mountpoint) + (if last.mountpoint == mountpoint && !reused then 1 else 0)
  }

  function FramesOn(calls: seq<SignCall>, mountpoint: string): seq<Frame> {
    if calls == [] then []
    else
      var last := calls[|calls| - 1];
      FramesOn(calls[..|calls| - 1], mountpoint) + (if last.mountpoint == mountpoint then [last.frame] else [])
  }

  // The number of stretches of equal frames.
  function Stretches(frames: seq<Frame>): nat {
    if frames == [] then 0
    else
      var n := |frames| - 1;
      Stretches(frames[..n]) + (if n == 0 || frames[n] != frames[n - 1] then 1 else 0)
  }

  lemma AppendingCounts(frames: seq<Frame>, frame: Frame)
    ensures Stretches(frames + [frame])
            == Stretches(frames) + if frames == [] || frames[|frames| - 1] != frame then 1 else 0
  {
    var all := frames + [frame];
    var n := |all| - 1;
    assert all[..n] == frames && all[n] == frame;
    assert n > 0 ==> all[n - 1] == frames[n - 1];
  }

  lemma {:induction false} CacheHoldsTheLast(c: Config, calls: seq<SignCall>, mountpoint: string)
    ensures var frames, cache := FramesOn(calls, mountpoint), CacheAfter(c, calls);
            && (mountpoint in cache <==> frames != [])
            && (frames != [] ==> cache[mountpoint].0 == frames[|frames| - 1])
  {
    if calls != [] {
      CacheHoldsTheLast(c, calls[..|calls| - 1], mountpoint);
    }
  }

  // Over every schedule of all mountpoints, the signatures made for a mountpoint are exactly the
  // stretches of equal frames among the calls for it; other mountpoints never interfere.
  lemma {:induction false} SigningsAreStretches(c: Config, calls: seq<SignCall>, mountpoint: string)
    ensures Signings(c, calls, mountpoint) == Stretches(FramesOn(calls, mountpoint))
  {
    if calls != [] {
      var init, last := calls[..|calls| - 1], calls[|calls| - 1];
      SigningsAreStretches(c, init, mountpoint);
      CacheHoldsTheLast(c, init, mountpoint);
      var frames := FramesOn(init, mountpoint);
      if last.mountpoint == mountpoint {
        AppendingCounts(frames, last.frame);
      } else {
        assert FramesOn(calls, mountpoint) == frames;
      }
    }
  }

  // Sessions pumping in lock-step: frame by frame, each pumped by some number of sessions.
  function LockStep(rounds: seq<(Frame, nat)>): seq<Frame> {
    if rounds == [] then []
    else LockStep(rounds[..|rounds| - 1]) + seq(rounds[|rounds| - 1].1, _ => rounds[|rounds| - 1].0)
  }

  lemma {:induction false} RepeatingAddsOneStretch(frames: seq<Frame>, frame: Frame, n: nat)
    requires n > 0 && (frames != [] ==> frames[|frames| - 1] != frame)
    ensures Stretches(frames + seq(n, _ => frame)) == Stretches(frames) + 1
    decreases n
  {
    var all := frames + seq(n, _ => frame);
    if n == 1 {
      assert all[..|all| - 1] == frames;
    } else {
      assert all[..|all| - 1] == frames + seq(n - 1, _ => frame);
      RepeatingAddsOneStretch(frames, frame, n - 1);
    }
  }

  lemma {:induction false} LockStepEndsWithItsFrame(rounds: seq<(Frame, nat)>)
    requires rounds != [] && rounds[|rounds| - 1].1 > 0
    ensures var all := LockStep(rounds); all != [] && all[|all| - 1] == rounds[|rounds| - 1].0
  {
  }

  // In lock-step the number of signatures is the number of frames, however many sessions pump each.
  lemma {:induction false} LockStepSignsEachFrameOnce(
      c: Config, calls: seq<SignCall>, mountpoint: string, rounds: seq<(Frame, nat)>)
    requires FramesOn(calls, mountpoint) == LockStep(rounds)
    requires forall i :: 0 <= i < |rounds| ==> rounds[i].1 > 0
    requires forall i :: 0 < i < |rounds| ==> rounds[i].0 != rounds[i - 1].0
    ensures Signings(c, calls, mountpoint) == |rounds|
  {
    SigningsAreStretches(c, calls, mountpoint);
    LockStepStretches(rounds);
  }

  lemma {:induction false} LockStepStretches(rounds: seq<(Frame, nat)>)
    requires forall i :: 0 <= i < |rounds| ==> rounds[i].1 > 0
    requires forall i :: 0 < i < |rounds| ==> rounds[i].0 != rounds[i - 1].0
    ensures Stretches(LockStep(rounds)) == |rounds|
    decreases |rounds|
  {
    if rounds != [] {
      var init, last := rounds[..|rounds| - 1], rounds[|rounds| - 1];
      LockStepStretches(init);
      if init != [] {
        LockStepEndsWithItsFrame(init);
      }
      RepeatingAddsOneStretch(LockStep(init), last.0, last.1);
    }
  }

  lemma {:induction false} CacheIsGenuine(c: Config, calls: seq<SignCall>)
    ensures CacheInv(c, CacheAfter(c, calls))
    decreases |calls|
  {
    if calls != [] {
      CacheIsGenuine(c, calls[..|calls| - 1]);
    }
  }

  // The latest call on this mountpoint was for the same frame.
  predicate AsksAgain(calls: seq<SignCall>, next: SignCall) {
    var frames := FramesOn(calls, next.mountpoint);
    frames != [] && frames[|frames| - 1] == next.frame
  }

  // Built for this call: its own time, mountpoint and bytes, signed if the server signs.
  predicate SignedNow(c: Config, s: SignedCorrection, call: SignCall) {
    var payload := CorrectionFrame(call.timestamp, call.mountpoint, call.frame.bytes);
    s == SignedCorrection(payload, if c.signing then c.sign(payload) else [])
  }

  // Reusing agrees with signing: what a call returns names its mountpoint, carries its frame and
  // is signed over its own bytes, and two calls for the same frame with no other frame of the
  // mountpoint in between return the very same correction.
  lemma ReturnedIsGenuine(c: Config, calls: seq<SignCall>, next: SignCall)
    ensures var all := calls + [next];
            && Genuine(c, Returned(c, all), next.mountpoint, next.frame)
            && (!AsksAgain(calls, next) ==> SignedNow(c, Returned(c, all), next))
            && (AsksAgain(calls, next) ==>
                  next.mountpoint in CacheAfter(c, calls) &&
                      Returned(c, all) == CacheAfter(c, calls)[next.mountpoint].1)
            && next.mountpoint in CacheAfter(c, all) && CacheAfter(c, all)[next.mountpoint].1 == Returned(c, all)
  {
    var all := calls + [next];
    assert all[..|all| - 1] == calls;
    CacheIsGenuine(c, calls);
    CacheHoldsTheLast(c, calls, next.mountpoint);
  }

  // ---- the calls of a run --------------------------------------------------

  // The signing a step asks for: only a pump round that gets past the check on its task does.
  function CallOf(s: State, e: ServerEvent): seq<SignCall>
    requires WellFormed(s.net)
  {
    if !e.Pump? || !Runnable(s, e.task) || !s.tasks[e.task].phase.Streaming? then []
    else
      var sub, session := s.tasks[e.task].phase.sub, s.sessions[s.tasks[e.task].session];
      var reply := Handled(s.net, Request.Consume(sub, GetStep(s.net, sub))).1;
      if reply.Answered? && reply.outcome.Got? && session.task == Some(e.task)
      then [SignCall(session.mountpoint, reply.outcome.frame, e.timestamp)] else []
  }

  // The signings each step of a run asks for: one or none.
  ghost function CallsAt(c: Config, events: seq<ServerEvent>, states: seq<State>): (steps: seq<seq<SignCall>>)
    requires IsRun(c, events, states)
    ensures |steps| == |events| && forall i :: 0 <= i < |steps| ==> |steps[i]| <= 1
  {
    seq(|events|, i requires 0 <= i < |events| => (RunStep(c, events, states, i); CallOf(states[i], events[i])))
  }

  function Flat(steps: seq<seq<SignCall>>): seq<SignCall> {
    if steps == [] then [] else Flat(steps[..|steps| - 1]) + steps[|steps| - 1]
  }

  ghost function CallsOf(c: Config, events: seq<ServerEvent>, states: seq<State>): seq<SignCall>
    requires IsRun(c, events, states)
  {
    Flat(CallsAt(c, events, states))
  }

  lemma FlatOneMore(steps: seq<seq<SignCall>>, step: seq<SignCall>)
    ensures Flat(steps + [step]) == Flat(steps) + step
  {
    assert (steps + [step])[..|steps|] == steps;
  }

  lemma CacheAfterOneMore(c: Config, calls: seq<SignCall>, next: SignCall)
    ensures CacheAfter(c, calls + [next]) ==
        SignFrame(c, CacheAfter(c, calls), next.mountpoint, next.frame, next.timestamp).0
  {
    assert (calls + [next])[..|calls|] == calls;
  }

  lemma PumpSigns(c: Config, s: State, task: nat, timestamp: int)
    requires WellFormed(s.net)
    ensures var calls := CallOf(s, Pump(task, timestamp));
            OnPump(c, s, task, timestamp).cache ==
            if calls == [] then s.cache
            else SignFrame(c, s.cache, calls[0].mountpoint, calls[0].frame, calls[0].timestamp).0
  {
    if Runnable(s, task) && s.tasks[task].phase.Streaming? {
      var sub := s.tasks[task].phase.sub;
      var step := Request.Consume(sub, GetStep(s.net, sub));
      var reply := Handled(s.net, step).1;
      if reply.Answered? && reply.outcome.Got? {
        FrameSigns(c, Asked(s, step), task, sub, reply.outcome.frame, timestamp);
      }
    }
  }

  lemma FrameSigns(c: Config, s: State, task: nat, sub: nat, frame: Frame, timestamp: int)
    requires Runnable(s, task) && WellFormed(s.net)
    ensures var session := s.sessions[s.tasks[task].session];
            OnFrame(c, s, task, sub, frame, timestamp).cache ==
            if session.task == Some(task) then SignFrame(c, s.cache, session.mountpoint, frame, timestamp).0
            else s.cache
  {
  }

  lemma OtherStepsSignNothing(c: Config, s: State, e: ServerEvent)
    requires WellFormed(s.net) && !e.Pump?
    ensures Next(c, s, e).cache == s.cache
  {
    match e {
      case DatagramArrives(id, addr, now, body) => assert OnDatagram(c, s, id, addr, now, body).cache == s.cache;
      case RunJob(job, freshId, now) => assert OnJob(c, s, job, freshId, now).cache == s.cache;
      case StartTask(task) => assert OnStart(s, task).cache == s.cache;
      case DeliverCancel(task) => assert OnCancel(s, task).cache == s.cache;
      case ReapPass(now, picked) => assert OnReapPass(s, now, picked).cache == s.cache;
      case ReapNext(_) => assert OnReapNext(s).cache == s.cache;
      case _ =>
    }
  }

  lemma StepFollowsCalls(c: Config, s: State, e: ServerEvent, calls: seq<SignCall>)
    requires WellFormed(s.net) && s.cache == CacheAfter(c, calls)
    ensures Next(c, s, e).cache == CacheAfter(c, calls + CallOf(s, e))
  {
    var more := CallOf(s, e);
    if e.Pump? {
      PumpSigns(c, s, e.task, e.timestamp);
    } else {
      OtherStepsSignNothing(c, s, e);
    }
    if more == [] {
      assert calls + more == calls;
    } else {
      assert more == [more[0]];
      CacheAfterOneMore(c, calls, more[0]);
    }
  }

  // From each step to the next the cache takes in the calls of that step.
  ghost predicate TakesInCalls(
      c: Config, caches: seq<map<string, (Frame, SignedCorrection)>>, steps: seq<seq<SignCall>>) {
    && |caches| == |steps| + 1 && caches[0] == map[]
    && forall i, calls :: 0 <= i < |steps| && caches[i] == CacheAfter(c, calls) ==>
          caches[i + 1] == CacheAfter(c, calls + steps[i])
  }

  lemma {:induction false} CacheFollowsCalls(
      c: Config, caches: seq<map<string, (Frame, SignedCorrection)>>, steps: seq<seq<SignCall>>, n: nat)
    requires TakesInCalls(c, caches, steps) && n <= |steps|
    ensures caches[n] == CacheAfter(c, Flat(steps[..n]))
    decreases n
  {
    if n > 0 {
      CacheFollowsCalls(c, caches, steps, n - 1);
      FlatOneMore(steps[..n - 1], steps[n - 1]);
      assert steps[..n] == steps[..n - 1] + [steps[n - 1]];
    }
  }

  lemma RunTakesInCalls(c: Config, events: seq<ServerEvent>, states: seq<State>)
    requires IsRun(c, events, states)
    ensures TakesInCalls(c, seq(|states|, i requires 0 <= i < |states| => states[i].cache), CallsAt(c, events, states))
  {
    forall i, calls | 0 <= i < |events| && states[i].cache == CacheAfter(c, calls)
      ensures states[i + 1].cache == CacheAfter(c, calls + CallsAt(c, events, states)[i])
    {
      CallsOneMore(c, events, states, i, calls);
    }
  }

  lemma CallsOneMore(c: Config, events: seq<ServerEvent>, states: seq<State>, i: nat, calls: seq<SignCall>)
    requires IsRun(c, events, states) && i < |events| && states[i].cache == CacheAfter(c, calls)
    ensures states[i + 1].cache == CacheAfter(c, calls + CallsAt(c, events, states)[i])
  {
    RunStep(c, events, states, i);
    StepFollowsCalls(c, states[i], events[i], calls);
  }

  // The server's cache is always the cache of the signing calls its pumps made, so over every
  // interleaving the signatures made for a mountpoint are the stretches of equal frames pumped for it.
  lemma ServerSignsStretches(c: Config, events: seq<ServerEvent>, states: seq<State>, mountpoint: string)
    requires IsRun(c, events, states)
    ensures var calls := CallsOf(c, events, states);
            && states[|events|].cache == CacheAfter(c, calls)
            && Signings(c, calls, mountpoint) == Stretches(FramesOn(calls, mountpoint))
  {
    SigningsAreStretches(c, CallsOf(c, events, states), mountpoint);
    RunTakesInCalls(c, events, states);
    var caches, steps := seq(|states|, i requires 0 <= i < |states| => states[i].cache), CallsAt(c, events, states);
    CacheFollowsCalls(c, caches, steps, |events|);
    assert steps[..|events|] == steps;
  }

  // ---- lock-step over a run ------------------------------------------------

  function Distinct(frames: seq<Frame>): set<Frame> {
    set f | f in frames
  }

  // Once another frame came up, an earlier one does not come up again.
  predicate Contiguous(frames: seq<Frame>) {
    forall i, j, k :: 0 <= i < j < k < |frames| && frames[i] == frames[k] ==> frames[j] == frames[k]
  }

  lemma ContiguousOneMore(init: seq<Frame>, x: Frame)
    ensures Contiguous(init + [x]) <==> Contiguous(init) && (x in init ==> init[|init| - 1] == x)
  {
    var all, n := init + [x], |init|;
    assert forall i :: 0 <= i < n ==> all[i] == init[i];
    if Contiguous(all) && x in init {
      var i :| 0 <= i < n && init[i] == x;
      if i < n - 1 {
        assert all[i] == all[n] && all[n - 1] == init[n - 1];
      }
    }
  }

  lemma DistinctOneMore(init: seq<Frame>, x: Frame)
    ensures |Distinct(init + [x])| == |Distinct(init)| + if x in init then 0 else 1
  {
    assert Distinct(init + [x]) == Distinct(init) + {x};
  }

  // There are at least as many stretches as frames, and just as many exactly for a contiguous list.
  lemma {:induction false} StretchesAreFramesIff(frames: seq<Frame>)
    ensures Stretches(frames) >= |Distinct(frames)|
    ensures Stretches(frames) == |Distinct(frames)| <==> Contiguous(frames)
    decreases |frames|
  {
    if frames == [] {
      assert Distinct(frames) == {};
    } else {
      var init, x := frames[..|frames| - 1], frames[|frames| - 1];
      assert frames == init + [x];
      StretchesAreFramesIff(init);
      OneMoreStretchesIff(init, x);
    }
  }

  lemma OneMoreStretchesIff(init: seq<Frame>, x: Frame)
    requires Stretches(init) >= |Distinct(init)|
    requires Stretches(init) == |Distinct(init)| <==> Contiguous(init)
    ensures Stretches(init + [x]) >= |Distinct(init + [x])|
    ensures Stretches(init + [x]) == |Distinct(init + [x])| <==> Contiguous(init + [x])
  {
    AppendingCounts(init, x);
    ContiguousOneMore(init, x);
    DistinctOneMore(init, x);
  }

  // Step i is a round in which a session on the mountpoint pumps this frame.
  predicate PumpsFor(steps: seq<seq<SignCall>>, i: nat, mountpoint: string, frame: Frame) {
    i < |steps| && steps[i] != [] && steps[i][0].mountpoint == mountpoint && steps[i][0].frame == frame
  }

  // Every session on the mountpoint pumps a frame before any of them pumps another: no frame is pumped
  // again once one of the sessions has gone on.
  ghost predicate InLockStep(steps: seq<seq<SignCall>>, mountpoint: string) {
    forall i: nat, j: nat, k: nat, f, g ::
      (i < j < k && PumpsFor(steps, i, mountpoint, f) && PumpsFor(steps, j, mountpoint, g) &&
          PumpsFor(steps, k, mountpoint, f)
       ==> f == g)
  }

  // The steps that pump frames for the mountpoint, in order.
  ghost predicate PumpSteps(steps: seq<seq<SignCall>>, mountpoint: string, frames: seq<Frame>, at: seq<nat>) {
    && |at| == |frames|
    && (forall k :: 0 <= k < |at| ==> PumpsFor(steps, at[k], mountpoint, frames[k]))
    && (forall j, k :: 0 <= j < k < |at| ==> at[j] < at[k])
    && (forall i: nat, f :: PumpsFor(steps, i, mountpoint, f) ==> i in at)
  }

  lemma FramesOnOneMore(calls: seq<SignCall>, call: SignCall, mountpoint: string)
    ensures FramesOn(calls + [call], mountpoint)
            == FramesOn(calls, mountpoint) + if call.mountpoint == mountpoint then [call.frame] else []
  {
    assert (calls + [call])[..|calls|] == calls;
  }

  lemma {:induction false} EveryCallHasItsStep(steps: seq<seq<SignCall>>, mountpoint: string) returns (at: seq<nat>)
    requires forall i :: 0 <= i < |steps| ==> |steps[i]| <= 1
    ensures PumpSteps(steps, mountpoint, FramesOn(Flat(steps), mountpoint), at)
    decreases |steps|
  {
    if steps == [] {
      at := [];
    } else {
      var init, last := steps[..|steps| - 1], steps[|steps| - 1];
      var before := EveryCallHasItsStep(init, mountpoint);
      assert steps == init + [last] && Flat(steps) == Flat(init) + last;
      if last == [] {
        assert Flat(steps) == Flat(init);
      } else {
        assert last == [last[0]];
        FramesOnOneMore(Flat(init), last[0], mountpoint);
      }
      at := OneMoreStep(init, last, mountpoint, FramesOn(Flat(init), mountpoint), before);
    }
  }

  lemma OneMoreStep(
      init: seq<seq<SignCall>>, last: seq<SignCall>, mountpoint: string, frames: seq<Frame>, before: seq<nat>)
    returns (at: seq<nat>)
    requires PumpSteps(init, mountpoint, frames, before)
    ensures PumpSteps(init + [last], mountpoint,
              frames + if last != [] && last[0].mountpoint == mountpoint then [last[0].frame] else [], at)
  {
    var n, steps := |init|, init + [last];
    forall i: nat, f: Frame | i < n
      ensures PumpsFor(steps, i, mountpoint, f) <==> PumpsFor(init, i, mountpoint, f)
    {
      assert steps[i] == init[i];
    }
    assert steps[n] == last;
    if last != [] && last[0].mountpoint == mountpoint {
      at := before + [n];
    } else {
      at := before;
      assert frames + [] == frames;
    }
  }

  lemma LockStepMeansContiguous(steps: seq<seq<SignCall>>, mountpoint: string, frames: seq<Frame>, at: seq<nat>)
    requires PumpSteps(steps, mountpoint, frames, at) && InLockStep(steps, mountpoint)
    ensures Contiguous(frames)
  {
    forall i, j, k | 0 <= i < j < k < |frames| && frames[i] == frames[k]
      ensures frames[j] == frames[k]
    {
      assert PumpsFor(steps, at[i], mountpoint, frames[k]) && PumpsFor(steps, at[j], mountpoint, frames[j]);
      assert PumpsFor(steps, at[k], mountpoint, frames[k]);
    }
  }

  lemma ContiguousMeansLockStep(steps: seq<seq<SignCall>>, mountpoint: string, frames: seq<Frame>, at: seq<nat>)
    requires PumpSteps(steps, mountpoint, frames, at) && Contiguous(frames)
    ensures InLockStep(steps, mountpoint)
  {
    forall i: nat, j: nat, k: nat, f, g |
        i < j < k && PumpsFor(steps, i, mountpoint, f) && PumpsFor(steps, j, mountpoint, g) &&
            PumpsFor(steps, k, mountpoint, f)
      ensures f == g
    {
      var x := PlaceOf(at, i);
      var y := PlaceOf(at, j);
      var z := PlaceOf(at, k);
      assert PumpsFor(steps, at[x], mountpoint, frames[x]) && PumpsFor(steps, at[y], mountpoint, frames[y]);
      assert PumpsFor(steps, at[z], mountpoint, frames[z]);
    }
  }

  lemma PlaceOf(at: seq<nat>, i: nat) returns (k: nat)
    requires i in at
    ensures k < |at| && at[k] == i
  {
    k :| k < |at| && at[k] == i;
  }

  // In every run the signatures made for a mountpoint are at least its frames, and just as many,
  // however many sessions pump each, exactly if its sessions pump in lock-step.
  lemma RunSignsEachFrameOnceIff(c: Config, events: seq<ServerEvent>, states: seq<State>, mountpoint: string)
    requires IsRun(c, events, states)
    ensures var calls := CallsOf(c, events, states);
            var frames := FramesOn(calls, mountpoint);
            && Signings(c, calls, mountpoint) >= |Distinct(frames)|
            && (Signings(c, calls, mountpoint) == |Distinct(frames)| <==>
                  InLockStep(CallsAt(c, events, states), mountpoint))
  {
    var calls := CallsOf(c, events, states);
    SigningsAreStretches(c, calls, mountpoint);
    StretchesAreFramesIff(FramesOn(calls, mountpoint));
    LockStepIffContiguous(CallsAt(c, events, states), mountpoint);
  }

  lemma LockStepIffContiguous(steps: seq<seq<SignCall>>, mountpoint: string)
    requires forall i :: 0 <= i < |steps| ==> |steps[i]| <= 1
    ensures InLockStep(steps, mountpoint) <==> Contiguous(FramesOn(Flat(steps), mountpoint))
  {
    var at := EveryCallHasItsStep(steps, mountpoint);
    var frames := FramesOn(Flat(steps), mountpoint);
    if Contiguous(frames) {
      ContiguousMeansLockStep(steps, mountpoint, frames, at);
    } else if InLockStep(steps, mountpoint) {
      LockStepMeansContiguous(steps, mountpoint, frames, at);
    }
  }
}

/** The caster's reaper over whole runs: a pass lists the silent mountpoints once and unregisters them one
    after the other, letting other steps in wherever it has to wait for subscribers to shut down.
 */
module CasterReaper {
  import opened Caster
  import opened Transport
  import opened Wrappers

  // A run: the states the caster goes through from the start, one step a request.
  ghost predicate IsRun(requests: seq<Request>, states: seq<System>) {
    && |states| == |requests| + 1 && states[0] == EMPTY_SYSTEM
    && forall i {:trigger requests[i]} :: 0 <= i < |requests| ==>
         WellFormed(states[i]) && states[i + 1] == Handled(states[i], requests[i]).0
  }

  lemma RunStep(requests: seq<Request>, states: seq<System>, i: nat)
    requires IsRun(requests, states) && i < |requests|
    ensures WellFormed(states[i]) && states[i + 1] == Handled(states[i], requests[i]).0
  {
    var r := requests[i];
  }

  lemma {:induction false} RunIsTheRun(requests: seq<Request>, states: seq<System>, n: nat)
    requires IsRun(requests, states) && n <= |requests|
    ensures states[n] == Run(requests[..n])
    decreases n
  {
    if n > 0 {
      RunIsTheRun(requests, states, n - 1);
      RunStep(requests, states, n - 1);
      assert requests[..n][..n - 1] == requests[..n - 1];
    }
  }

  ghost predicate AreRunStates(requests: seq<Request>, states: seq<System>) {
    |states| == |requests| + 1 && forall n {:trigger states[n]} :: 0 <= n <= |requests| ==>
        states[n] == Run(requests[..n])
  }

  lemma RunOneMore(requests: seq<Request>, i: nat)
    requires i < |requests|
    ensures Run(requests[..i + 1]) == Handled(Run(requests[..i]), requests[i]).0
  {
    assert requests[..i + 1][..i] == requests[..i];
  }

  lemma RunStatesAreARun(requests: seq<Request>, states: seq<System>)
    requires AreRunStates(requests, states)
    ensures IsRun(requests, states)
  {
    forall i | 0 <= i < |requests|
      ensures WellFormed(states[i]) && states[i + 1] == Handled(states[i], requests[i]).0
    {
      RunOneMore(requests, i);
    }
    assert requests[..0] == [];
  }

  // Every list of requests has its one run.
  lemma EveryRequestListHasItsRun(requests: seq<Request>, states: seq<System>)
    ensures IsRun(requests, states) <==> AreRunStates(requests, states)
  {
    if IsRun(requests, states) {
      forall n | 0 <= n <= |requests|
        ensures states[n] == Run(requests[..n])
      {
        RunIsTheRun(requests, states, n);
      }
    }
    if AreRunStates(requests, states) {
      RunStatesAreARun(requests, states);
    }
  }

  lemma StateIsSound(requests: seq<Request>, states: seq<System>, n: nat)
    requires IsRun(requests, states) && n <= |requests|
    ensures SystemInv(states[n])
  {
    RunIsTheRun(requests, states, n);
    RunKeepsSystem(requests[..n]);
  }

  // The clock reading a request carries.
  function ClockOf(r: Request): Option<real> {
    match r
    case Register(_, _, now) => Some(now)
    case Send(_, _, now) => Some(now)
    case _ => None
  }

  ghost predicate ClockNeverGoesBack(requests: seq<Request>) {
    forall i, j :: 0 <= i <= j < |requests| && ClockOf(requests[i]).Some? && ClockOf(requests[j]).Some? ==>
      ClockOf(requests[i]).value <= ClockOf(requests[j]).value
  }

  // ---- when a mountpoint was last seen -------------------------------------

  // The request makes the caster see the mountpoint: it publishes on its open transport, or registers
  // it when it was not.
  function Sight(s: System, r: Request, m: string): Option<real> {
    match r
    case Register(name, validName, now) => if name == m && validName && m !in s.mountpoints then Some(now) else None
    case Send(name, _, now) => if name == m && m in s.transports && m in s.mountpoints then Some(now) else None
    case _ => None
  }

  lemma StepSees(s: System, r: Request, m: string)
    requires WellFormed(s)
    ensures var s' := Handled(s, r).0;
            match Sight(s, r, m)
            case Some(now) => m in s'.mountpoints && s'.mountpoints[m] == now
            case None => m in s'.mountpoints ==> m in s.mountpoints && s'.mountpoints[m] == s.mountpoints[m]
  {
  }

  lemma SightHasTheClock(s: System, r: Request, m: string)
    requires Sight(s, r, m).Some?
    ensures ClockOf(r) == Sight(s, r, m)
  {
  }

  // Request i saw the mountpoint at this time, and no later request before step n did.
  ghost predicate SeenLast(requests: seq<Request>, states: seq<System>, n: nat, i: nat, m: string, at: real) {
    && i < n <= |requests| < |states|
    && Sight(states[i], requests[i], m) == Some(at)
    && forall j :: i < j < n ==> Sight(states[j], requests[j], m).None?
  }

  // A mountpoint's last-seen time is that of the last request that saw it.
  lemma {:induction false} LastSeenIsTheLastSight(requests: seq<Request>, states: seq<System>, n: nat, m: string)
    returns (i: nat)
    requires IsRun(requests, states) && n <= |requests| && m in states[n].mountpoints
    ensures SeenLast(requests, states, n, i, m, states[n].mountpoints[m])
    decreases n
  {
    assert n > 0;
    RunStep(requests, states, n - 1);
    StepSees(states[n - 1], requests[n - 1], m);
    if Sight(states[n - 1], requests[n - 1], m).Some? {
      i := n - 1;
    } else {
      i := LastSeenIsTheLastSight(requests, states, n - 1, m);
    }
  }

  // ---- seen again before its turn ------------------------------------------

  ghost predicate SeenBetween(requests: seq<Request>, states: seq<System>, p: nat, u: nat, m: string, cutoff: real)
    requires u <= |requests| < |states|
  {
    exists j :: p <= j < u && Sight(states[j], requests[j], m).Some? && Sight(states[j], requests[j], m).value >= cutoff
  }

  // A mountpoint stale when it was listed is gone once its turn comes. It is fresh by then, and goes all
  // the same, exactly if it was seen in between: it published on its open transport, or was registered
  // anew after somebody else had unregistered it.
  lemma FreshWhenUnregisteredIff(requests: seq<Request>, states: seq<System>, p: nat, u: nat, m: string, cutoff: real)
    requires IsRun(requests, states) && ClockNeverGoesBack(requests) && p <= u < |requests|
    requires requests[u] == Unregister(m) && Stale(states[p], m, cutoff) && m in states[u].mountpoints
    ensures m !in states[u + 1].mountpoints
    ensures !Stale(states[u], m, cutoff) <==> SeenBetween(requests, states, p, u, m, cutoff)
  {
    RunStep(requests, states, u);
    var i := LastSeenIsTheLastSight(requests, states, u, m);
    if i < p {
      SeenLastEarlier(requests, states, p, u, i, m);
    }
    forall j | p <= j < u && Sight(states[j], requests[j], m).Some?
      ensures Sight(states[j], requests[j], m).value <= states[u].mountpoints[m]
    {
      SightHasTheClock(states[j], requests[j], m);
      SightHasTheClock(states[i], requests[i], m);
    }
  }

  lemma FreshWasSeen(requests: seq<Request>, states: seq<System>, p: nat, u: nat, m: string, cutoff: real)
    returns (j: nat)
    requires IsRun(requests, states) && ClockNeverGoesBack(requests) && p <= u < |requests|
    requires requests[u] == Unregister(m) && Stale(states[p], m, cutoff) && m in states[u].mountpoints
    requires !Stale(states[u], m, cutoff)
    ensures m !in states[u + 1].mountpoints && p <= j < u
    ensures Sight(states[j], requests[j], m).Some? && Sight(states[j], requests[j], m).value >= cutoff
  {
    FreshWhenUnregisteredIff(requests, states, p, u, m, cutoff);
    j :| p <= j < u && Sight(states[j], requests[j], m).Some? && Sight(states[j], requests[j], m).value >= cutoff;
  }

  // Not seen since it was listed, it has the time it had then.
  lemma SeenLastEarlier(requests: seq<Request>, states: seq<System>, p: nat, u: nat, i: nat, m: string)
    requires IsRun(requests, states) && i < p <= u <= |requests| && m in states[p].mountpoints
    requires m in states[u].mountpoints
    requires SeenLast(requests, states, u, i, m, states[u].mountpoints[m])
    ensures states[u].mountpoints[m] == states[p].mountpoints[m]
  {
    var k := LastSeenIsTheLastSight(requests, states, p, m);
    assert k == i;
  }

  // ---- passes --------------------------------------------------------------

  // A pass of the reaper within a run: at step at[0] it lists the stale mountpoints, and it unregisters
  // the k-th of them at step at[k]. It goes on at once unless the last one had subscribers, and then
  // only when all of those are shut down.
  ghost predicate IsPass(requests: seq<Request>, states: seq<System>, cutoff: real, listed: seq<string>, at: seq<nat>) {
    && |states| == |requests| + 1 && |at| == |listed| > 0
    && (forall k :: 0 <= k < |at| ==> at[k] < |requests| && requests[at[k]] == Unregister(listed[k]))
    && (forall j, k :: 0 <= j < k < |at| ==> at[j] < at[k])
    && ListsStale(states[at[0]], cutoff, listed)
    && forall k :: 0 <= k < |at| - 1 ==>
         if Suspends(states[at[k]], listed[k]) then AllShutDown(states[at[k + 1]], states[at[k]].transports[listed[k]])
         else at[k + 1] == at[k] + 1
  }

  // No subscriber of the transport still has its shutdown ahead.
  predicate AllShutDown(s: System, h: nat) {
    forall i :: 0 <= i < |s.subs| && s.subs[i].hub == h ==> !s.subs[i].scheduled
  }

  predicate SomeToShutDown(s: System, h: nat) {
    exists i :: 0 <= i < |s.subs| && s.subs[i].hub == h && s.subs[i].scheduled
  }

  lemma SuspendingSchedules(s: System, m: string)
    requires WellFormed(s) && Suspends(s, m)
    ensures SomeToShutDown(Handled(s, Unregister(m)).0, s.transports[m])
  {
    var i :| 0 <= i < |s.subs| && s.subs[i].hub == s.transports[m] && s.subs[i].listed;
    var s' := Handled(s, Unregister(m)).0;
    assert s'.subs[i].hub == s.transports[m] && s'.subs[i].scheduled;
  }

  // Where step j lies among the unregistrations of a pass.
  lemma {:induction false} PlaceInPass(at: seq<nat>, j: nat, k: nat) returns (i: nat)
    requires k < |at| && at[0] <= j < at[k]
    ensures i < k && at[i] <= j < at[i + 1]
    decreases k
  {
    if at[k - 1] <= j {
      i := k - 1;
    } else {
      i := PlaceInPass(at, j, k - 1);
    }
  }

  // Somebody can be seen during a pass only while it waits for the subscribers of a mountpoint it has
  // just unregistered.
  lemma SeenOnlyWhileItWaits(
      requests: seq<Request>, states: seq<System>, cutoff: real, listed: seq<string>, at: seq<nat>, k: nat, j: nat,
      m: string)
    returns (i: nat)
    requires IsRun(requests, states) && IsPass(requests, states, cutoff, listed, at)
    requires k < |at| && at[0] <= j < at[k] && Sight(states[j], requests[j], m).Some?
    ensures i < k && at[i] < j < at[i + 1] && Suspends(states[at[i]], listed[i])
    ensures SomeToShutDown(states[at[i] + 1], states[at[i]].transports[listed[i]])
  {
    i := PlaceInPass(at, j, k);
    assert requests[at[i]] == Unregister(listed[i]);
    RunStep(requests, states, at[i]);
    assert Suspends(states[at[i]], listed[i]);
    SuspendingSchedules(states[at[i]], listed[i]);
  }

  // A mountpoint fresh when its turn comes goes all the same; it takes an earlier one of the same pass
  // with subscribers to wait for, and a sight of it while they are shut down.
  lemma ReapedThoughFresh(
      requests: seq<Request>, states: seq<System>, cutoff: real, listed: seq<string>, at: seq<nat>, k: nat)
    returns (i: nat, j: nat)
    requires IsRun(requests, states) && ClockNeverGoesBack(requests) && IsPass(requests, states, cutoff, listed, at)
    requires k < |at| && listed[k] in states[at[k]].mountpoints && !Stale(states[at[k]], listed[k], cutoff)
    ensures listed[k] !in states[at[k] + 1].mountpoints
    ensures i < k && at[i] < j < at[i + 1] <= at[k] && Suspends(states[at[i]], listed[i])
    ensures Sight(states[j], requests[j], listed[k]).Some? && Sight(states[j], requests[j], listed[k]).value >= cutoff
  {
    assert listed[k] in listed && Stale(states[at[0]], listed[k], cutoff);
    j := FreshWasSeen(requests, states, at[0], at[k], listed[k], cutoff);
    i := SeenOnlyWhileItWaits(requests, states, cutoff, listed, at, k, j, listed[k]);
  }

  // ---- such a run ----------------------------------------------------------

  // Both mountpoints have gone silent, and one has a rover. While the pass waits for that rover the
  // other mountpoint publishes again.
  function LatePublication(a: string, b: string, frame: Frame, cutoff: real): seq<Request> {
    [Register(a, true, 0.0), Subscribe(a), Register(b, true, 0.0),
     Unregister(a), Send(b, frame, cutoff), RunShutdown(0), Unregister(b)]
  }

  lemma LatePublicationOpens(a: string, b: string, frame: Frame, cutoff: real, states: seq<System>)
    requires a != b && IsRun(LatePublication(a, b, frame, cutoff), states)
    ensures var s := states[3];
            && s.mountpoints == map[a := 0.0, b := 0.0] && s.transports == map[a := 0, b := 1]
            && |s.hubs| == 2 && s.subs == [Tracked(EMPTY_LEDGER, 0, 0, 1, true, false)]
  {
    var requests := LatePublication(a, b, frame, cutoff);
    RunStep(requests, states, 0);
    assert states[1] == System(1, map[a := 0.0], map[a := 0], [Hub(a, [])], []);
    RunStep(requests, states, 1);
    assert states[2].subs == [Tracked(EMPTY_LEDGER, 0, 0, 1, true, false)];
    RunStep(requests, states, 2);
  }

  lemma LatePublicationIsSeen(a: string, b: string, frame: Frame, cutoff: real, states: seq<System>)
    requires a != b && IsRun(LatePublication(a, b, frame, cutoff), states)
    ensures states[6].mountpoints == map[b := cutoff] && states[6].transports == map[b := 1]
    ensures AllShutDown(states[6], 0)
  {
    LatePublicationOpens(a, b, frame, cutoff, states);
    var requests := LatePublication(a, b, frame, cutoff);
    RunStep(requests, states, 3);
    assert states[4].mountpoints == map[b := 0.0] && states[4].transports == map[b := 1] && |states[4].subs| == 1;
    RunStep(requests, states, 4);
    assert states[5].mountpoints == map[b := cutoff] && |states[5].subs| == 1 && states[5].subs[0].hub == 0;
    RunStep(requests, states, 5);
  }

  // The second mountpoint is unregistered although it has just published.
  lemma ReapedThoughSeen(a: string, b: string, frame: Frame, cutoff: real, states: seq<System>)
    requires a != b && cutoff > 0.0 && IsRun(LatePublication(a, b, frame, cutoff), states)
    ensures var requests := LatePublication(a, b, frame, cutoff);
            && ClockNeverGoesBack(requests) && IsPass(requests, states, cutoff, [a, b], [3, 6])
            && b in states[6].mountpoints && !Stale(states[6], b, cutoff) && b !in states[7].mountpoints
  {
    var requests, listed, at := LatePublication(a, b, frame, cutoff), [a, b], [3, 6];
    LatePublicationOpens(a, b, frame, cutoff, states);
    LatePublicationIsSeen(a, b, frame, cutoff, states);
    RunStep(requests, states, 6);
    assert ListsStale(states[3], cutoff, listed) by {
      assert listed[0] == a && listed[1] == b;
    }
    assert Suspends(states[3], a) by {
      assert states[3].subs[0].listed;
    }
  }
}

/** The caster's registry of mountpoints and open transports, composed with the subscriber queues.

    A transport is known by its number in the order of creation, a subscriber likewise. Each step
    of the system is one piece of code between two suspensions of the event loop. Shutting a
    transport down empties its list and schedules the shutdown of its subscribers; each of those
    runs as a later step.
 */
module Caster {
  import opened Transport

  // A frame published on a transport, stamped with the number of the step that published it.
  datatype Stamped = Stamped(at: nat, frame: Frame)

  // A transport: the mountpoint it was opened for and all frames ever published on it.
  datatype Hub = Hub(mountpoint: string, log: seq<Stamped>)

  // A subscriber: its transport, how many frames that had seen when it joined, the step it joined
  // at, whether the transport still lists it, and whether its shutdown is scheduled.
  datatype Tracked = Tracked(ledger: Ledger, hub: nat, start: nat, joined: nat, listed: bool, scheduled: bool)

  datatype System = System(
    clock: nat,                      // steps so far
    mountpoints: map<string, real>,  // registered mountpoints and when each was last seen
    transports: map<string, nat>,    // open transports
    hubs: seq<Hub>,
    subs: seq<Tracked>)

  datatype Request =
    | Register(mountpoint: string, validName: bool, now: real)
    | Close(mountpoint: string)
    | Unregister(mountpoint: string)
    | Subscribe(mountpoint: string)
    | Send(mountpoint: string, frame: Frame, now: real)
    | RunShutdown(sub: nat)
    | Consume(sub: nat, step: Event)
    | Leave(sub: nat)

  datatype Reply = Done | ValueError | KeyError | Delivered(count: nat) | Joined(sub: nat) | Answered(outcome: Outcome)

  const EMPTY_SYSTEM := System(0, map[], map[], [], [])

  // ---- the steps -----------------------------------------------------------

  function Opened(s: System, mountpoint: string): System {
    s.(transports := s.transports[mountpoint := |s.hubs|], hubs := s.hubs + [Hub(mountpoint, [])])
  }

  function Delisted(t: Tracked, h: nat): Tracked {
    if t.hub == h && t.listed then t.(listed := false, scheduled := true) else t
  }

  function Closed(s: System, mountpoint: string): System
    requires mountpoint in s.transports
  {
    s.(transports := s.transports - {mountpoint},
       subs := seq(|s.subs|, i requires 0 <= i < |s.subs| => Delisted(s.subs[i], s.transports[mountpoint])))
  }

  function Enrolled(s: System, h: nat, now: nat): System
    requires h < |s.hubs|
  {
    s.(subs := s.subs + [Tracked(EMPTY_LEDGER, h, |s.hubs[h].log|, now, true, false)])
  }

  function Updated(s: System, sub: nat, t: Tracked): System
    requires sub < |s.subs|
  {
    s.(subs := s.subs[sub := t])
  }

  function Live(t: Tracked): bool {
    !t.ledger.sub.cancelled
  }

  function Offered(t: Tracked, h: nat, frame: Frame): Tracked {
    if t.hub == h && t.listed then t.(ledger := Recorded(t.ledger, Publish(frame))) else t
  }

  function FannedOut(s: System, h: nat, frame: Frame, now: nat): System
    requires h < |s.hubs|
  {
    s.(hubs := s.hubs[h := s.hubs[h].(log := s.hubs[h].log + [Stamped(now, frame)])],
       subs := seq(|s.subs|, i requires 0 <= i < |s.subs| => Offered(s.subs[i], h, frame)))
  }

  // The subscribers a frame published on transport h reaches.
  function Reached(s: System, h: nat): set<nat> {
    set i: nat | i < |s.subs| && s.subs[i].hub == h && s.subs[i].listed && Live(s.subs[i])
  }

  predicate WellFormed(s: System) {
    forall m :: m in s.transports ==> s.transports[m] < |s.hubs|
  }

  function Handled(s: System, r: Request): (result: (System, Reply))
    requires WellFormed(s)
    ensures WellFormed(result.0) && result.0.clock == s.clock + 1
  {
    var t := s.(clock := s.clock + 1);
    match r
    case Register(m, validName, now) =>
      if m in s.mountpoints then (if m in s.transports then t else Opened(t, m), Done)
      else if !validName then (t, ValueError)
      else (Opened(t.(mountpoints := t.mountpoints[m := now]), m), Done)
    case Close(m) =>
      if m !in s.mountpoints then (t, Done)
      else if m !in s.transports then (t, KeyError)
      else (Closed(t, m), Done)
    case Unregister(m) =>
      if m !in s.mountpoints then (t, Done)
      else ((if m in s.transports then Closed(t, m) else t).(mountpoints := t.mountpoints - {m}), Done)
    case Subscribe(m) =>
      if m !in s.transports then (t, KeyError)
      else (Enrolled(t, s.transports[m], s.clock), Joined(|t.subs|))
    case Send(m, frame, now) =>
      if m !in s.transports then (t, Delivered(0))
      else if m !in s.mountpoints then (t, KeyError)
      else
        (FannedOut(t.(mountpoints := t.mountpoints[m := now]), s.transports[m], frame, s.clock),
         Delivered(|Reached(t, s.transports[m])|))
    case RunShutdown(sub) =>
      if sub < |s.subs| && s.subs[sub].scheduled
      then (Updated(t, sub, s.subs[sub].(ledger := Recorded(s.subs[sub].ledger, Shutdown), scheduled := false)), Done)
      else (t, Done)
    case Consume(sub, step) =>
      if sub < |s.subs| && (step.BeginGet? || step.ResumeGet? || step.CancelGet? || step.TimeoutGet?)
      then
        (Updated(t, sub, s.subs[sub].(ledger := Recorded(s.subs[sub].ledger, step))),
         Answered(Applied(s.subs[sub].ledger.sub, step).1))
      else (t, Done)
    case Leave(sub) =>
      // A consumer leaves its subscription from outside `get`.
      if sub < |s.subs| && s.subs[sub].ledger.sub.consumer.Idle?
      then (Updated(t, sub, s.subs[sub].(ledger := Recorded(s.subs[sub].ledger, Shutdown), listed := false)), Done)
      else (t, Done)
  }

  function Run(requests: seq<Request>): (s: System)
    ensures WellFormed(s) && s.clock == |requests|
  {
    if requests == [] then EMPTY_SYSTEM else Handled(Run(requests[..|requests| - 1]), requests[|requests| - 1]).0
  }

  // What fails: registering a new mountpoint under a bad name, and subscribing to one that is not open.
  // Neither changes anything; unregistering never fails.
  lemma RequestFailsIff(s: System, r: Request)
    requires WellFormed(s)
    ensures var (s', reply) := Handled(s, r);
            && (reply == ValueError <==> r.Register? && r.mountpoint !in s.mountpoints && !r.validName)
            && (r.Subscribe? ==> reply == if r.mountpoint in s.transports then Joined(|s.subs|) else KeyError)
            && (r.Register? && reply != ValueError ==> reply == Done && r.mountpoint in s'.transports)
            && (r.Unregister? ==> reply == Done)
            && (reply == ValueError || (r.Subscribe? && reply == KeyError) ==> s' == s.(clock := s.clock + 1))
  {
  }

  // ---- what every step keeps -----------------------------------------------

  predicate IsOpen(s: System, h: nat) {
    h < |s.hubs| && s.hubs[h].mountpoint in s.transports && s.transports[s.hubs[h].mountpoint] == h
  }

  // Open transports belong to registered mountpoints.
  ghost predicate RegistryInv(s: System) {
    && WellFormed(s)
    && s.transports.Keys <= s.mountpoints.Keys
    && (forall m :: m in s.transports ==> s.hubs[s.transports[m]].mountpoint == m)
  }

  // Stamps of a log increase and lie in the past.
  ghost predicate StampsInv(log: seq<Stamped>, clock: nat) {
    && (forall k :: 0 <= k < |log| ==> log[k].at < clock)
    && (forall j, k :: 0 <= j < k < |log| ==> log[j].at < log[k].at)
  }

  // What a subscriber accepted is a contiguous part of its transport's log, starting where it
  // joined, and reaching to the end of the log while it is subscribed and live.
  ghost predicate AcceptedInv(t: Tracked, log: seq<Stamped>) {
    && t.start + |t.ledger.accepted| <= |log|
    && (forall k :: 0 <= k < t.start ==> log[k].at < t.joined)
    && (forall k :: 0 <= k < |t.ledger.accepted| ==> t.ledger.accepted[k] == log[t.start + k].frame)
    && (t.listed && Live(t) ==> t.start + |t.ledger.accepted| == |log|)
    && (forall k :: t.start <= k < |log| ==> t.joined < log[k].at)
  }

  // A subscriber is listed only by an open transport; once delisted it is cancelled or about to be.
  ghost predicate SubInv(s: System, t: Tracked) {
    && t.hub < |s.hubs|
    && (t.listed ==> IsOpen(s, t.hub))
    && (!t.listed && !t.scheduled ==> !Live(t))
    && t.joined < s.clock
    && AcceptedInv(t, s.hubs[t.hub].log)
  }

  ghost predicate SystemInv(s: System) {
    && RegistryInv(s)
    && (forall h :: 0 <= h < |s.hubs| ==> StampsInv(s.hubs[h].log, s.clock))
    && (forall i :: 0 <= i < |s.subs| ==> SubInv(s, s.subs[i]))
    && (forall i :: 0 <= i < |s.subs| ==> LedgerInv(s.subs[i].ledger))
  }

  lemma RegistryKept(s: System, r: Request)
    requires RegistryInv(s)
    ensures RegistryInv(Handled(s, r).0)
  {
  }

  lemma StampsKept(s: System, r: Request, h: nat)
    requires RegistryInv(s) && forall j :: 0 <= j < |s.hubs| ==> StampsInv(s.hubs[j].log, s.clock)
    requires h < |Handled(s, r).0.hubs|
    ensures StampsInv(Handled(s, r).0.hubs[h].log, s.clock + 1)
  {
    if h < |s.hubs| {
      assert StampsInv(s.hubs[h].log, s.clock);
    }
  }

  lemma LedgerKept(s: System, r: Request, i: nat)
    requires WellFormed(s) && i < |Handled(s, r).0.subs|
    requires i < |s.subs| ==> LedgerInv(s.subs[i].ledger)
    ensures LedgerInv(Handled(s, r).0.subs[i].ledger)
  {
    if i < |s.subs| {
      match r {
        case Send(m, frame, _) => EveryEventKeepsLedger(s.subs[i].ledger, Publish(frame));
        case Consume(_, step) => EveryEventKeepsLedger(s.subs[i].ledger, step);
        case RunShutdown(_) => EveryEventKeepsLedger(s.subs[i].ledger, Shutdown);
        case Leave(_) => EveryEventKeepsLedger(s.subs[i].ledger, Shutdown);
        case _ =>
      }
    }
  }

  ghost predicate SubsInv(s: System) {
    && RegistryInv(s)
    && (forall h :: 0 <= h < |s.hubs| ==> StampsInv(s.hubs[h].log, s.clock))
    && (forall i :: 0 <= i < |s.subs| ==> SubInv(s, s.subs[i]))
  }

  lemma SendKeepsSub(s: System, m: string, frame: Frame, now: real, i: nat)
    requires SubsInv(s) && i < |s.subs|
    ensures SubInv(Handled(s, Send(m, frame, now)).0, Handled(s, Send(m, frame, now)).0.subs[i])
  {
    var t, s' := s.subs[i], Handled(s, Send(m, frame, now)).0;
    assert SubInv(s, t);
    AcceptedAfter(t.ledger, Publish(frame));
    if m in s.transports && t.hub == s.transports[m] {
      var log := s.hubs[t.hub].log;
      assert StampsInv(log, s.clock);
      LogGrows(t, log, Stamped(s.clock, frame));
    } else {
      QuietSub(s, s', t, s'.subs[i]);
    }
  }

  lemma LogGrows(t: Tracked, log: seq<Stamped>, entry: Stamped)
    requires AcceptedInv(t, log) && StampsInv(log, entry.at) && t.joined < entry.at
    ensures !(t.listed && Live(t)) ==> AcceptedInv(t, log + [entry])
    ensures t.listed ==> AcceptedInv(t.(ledger := Recorded(t.ledger, Publish(entry.frame))), log + [entry])
  {
    AcceptedAfter(t.ledger, Publish(entry.frame));
  }

  // A subscriber that accepts nothing and does not come back to life or to the list.
  lemma QuietSub(s: System, s': System, t: Tracked, t': Tracked)
    requires SubInv(s, t) && t.hub < |s'.hubs| && s'.hubs[t.hub] == s.hubs[t.hub] && s'.clock >= s.clock
    requires t'.hub == t.hub && t'.start == t.start && t'.joined == t.joined
    requires t'.ledger.accepted == t.ledger.accepted && (Live(t') ==> Live(t))
    requires t'.listed ==> t.listed && IsOpen(s', t.hub)
    requires !t'.listed && !t'.scheduled ==> !Live(t')
    ensures SubInv(s', t')
  {
  }

  // A step of one subscriber leaves the registry alone, accepts nothing and revives nobody.
  lemma LedgerStepIsQuiet(s: System, r: Request, i: nat)
    requires WellFormed(s) && i < |s.subs| && (r.Consume? || r.RunShutdown? || r.Leave?)
    ensures var t, s' := s.subs[i], Handled(s, r).0;
            && s'.hubs == s.hubs && s'.transports == s.transports && s'.clock >= s.clock && |s'.subs| == |s.subs|
            && var t' := s'.subs[i];
               && t'.hub == t.hub && t'.start == t.start && t'.joined == t.joined && (t'.listed ==> t.listed)
               && t'.ledger.accepted == t.ledger.accepted && (Live(t') ==> Live(t))
               && (t'.listed || t'.scheduled || !Live(t') || (!t.listed && !t.scheduled))
  {
    AcceptedAfter(s.subs[i].ledger, if r.Consume? then r.step else Shutdown);
  }

  lemma LedgerStepKeepsSub(s: System, r: Request, i: nat)
    requires SubsInv(s) && i < |s.subs| && (r.Consume? || r.RunShutdown? || r.Leave?)
    ensures SubInv(Handled(s, r).0, Handled(s, r).0.subs[i])
  {
    assert SubInv(s, s.subs[i]);
    LedgerStepIsQuiet(s, r, i);
    QuietSub(s, Handled(s, r).0, s.subs[i], Handled(s, r).0.subs[i]);
  }

  lemma RegistryStepKeepsSub(s: System, r: Request, i: nat)
    requires SubsInv(s) && (r.Register? || r.Close? || r.Unregister? || r.Subscribe?) && i < |s.subs|
    ensures SubInv(Handled(s, r).0, Handled(s, r).0.subs[i])
  {
    var s', t := Handled(s, r).0, s.subs[i];
    assert SubInv(s, t);
    assert s'.hubs[t.hub] == s.hubs[t.hub];
    assert s'.subs[i].listed ==> t.listed && IsOpen(s', t.hub);
    QuietSub(s, s', t, s'.subs[i]);
  }

  lemma NewSubIsSound(s: System, m: string)
    requires SubsInv(s) && m in s.transports
    ensures var s' := Handled(s, Subscribe(m)).0; |s'.subs| == |s.subs| + 1 && SubInv(s', s'.subs[|s.subs|])
  {
    assert StampsInv(s.hubs[s.transports[m]].log, s.clock);
  }

  lemma SubKept(s: System, r: Request, i: nat)
    requires SubsInv(s) && i < |Handled(s, r).0.subs|
    ensures SubInv(Handled(s, r).0, Handled(s, r).0.subs[i])
  {
    if r.Send? {
      SendKeepsSub(s, r.mountpoint, r.frame, r.now, i);
    } else if r.Subscribe? && i >= |s.subs| {
      NewSubIsSound(s, r.mountpoint);
    } else if r.Register? || r.Close? || r.Unregister? || r.Subscribe? {
      RegistryStepKeepsSub(s, r, i);
    } else {
      LedgerStepKeepsSub(s, r, i);
    }
  }

  lemma EveryRequestKeepsSystem(s: System, r: Request)
    requires SystemInv(s)
    ensures SystemInv(Handled(s, r).0)
  {
    RegistryKept(s, r);
    var s' := Handled(s, r).0;
    forall h | 0 <= h < |s'.hubs|
      ensures StampsInv(s'.hubs[h].log, s'.clock)
    {
      StampsKept(s, r, h);
    }
    forall i | 0 <= i < |s'.subs|
      ensures SubInv(s', s'.subs[i]) && LedgerInv(s'.subs[i].ledger)
    {
      SubKept(s, r, i);
      LedgerKept(s, r, i);
    }
  }

  lemma {:induction false} RunKeepsSystem(requests: seq<Request>)
    ensures SystemInv(Run(requests))
  {
    if requests != [] {
      RunKeepsSystem(requests[..|requests| - 1]);
      EveryRequestKeepsSystem(Run(requests[..|requests| - 1]), requests[|requests| - 1]);
    }
  }

  // ---- what a run delivers -------------------------------------------------

  // Request `at` published this frame on transport h, which was open at that moment.
  ghost predicate SentAt(requests: seq<Request>, at: nat, h: nat, mountpoint: string, frame: Frame) {
    && at < |requests| && requests[at].Send? && requests[at].mountpoint == mountpoint && requests[at].frame == frame
    && var before := Run(requests[..at]).transports; mountpoint in before && before[mountpoint] == h
  }

  ghost predicate JoinedAt(requests: seq<Request>, at: nat, h: nat, mountpoint: string) {
    && at < |requests| && requests[at] == Subscribe(mountpoint)
    && var before := Run(requests[..at]).transports; mountpoint in before && before[mountpoint] == h
  }

  lemma HubAfter(s: System, r: Request, h: nat)
    requires RegistryInv(s) && h < |Handled(s, r).0.hubs|
    ensures var hub' := Handled(s, r).0.hubs[h];
            if h < |s.hubs| then
              && hub'.mountpoint == s.hubs[h].mountpoint
              && (hub'.log == s.hubs[h].log
                  || (r.Send? && IsOpen(s, h) && r.mountpoint == hub'.mountpoint
                      && hub'.log == s.hubs[h].log + [Stamped(s.clock, r.frame)]))
            else hub'.log == []
  {
  }

  lemma SubAfter(s: System, r: Request, i: nat)
    requires RegistryInv(s) && i < |Handled(s, r).0.subs|
    requires i < |s.subs| ==> s.subs[i].hub < |s.hubs|
    ensures var t' := Handled(s, r).0.subs[i];
            if i < |s.subs| then t'.hub == s.subs[i].hub && t'.start == s.subs[i].start && t'.joined == s.subs[i].joined
            else (
              && t'.hub < |s.hubs| && IsOpen(s, t'.hub)
              && r == Subscribe(s.hubs[t'.hub].mountpoint) && t'.joined == s.clock)
  {
  }

  // Every logged frame was published by a request on the transport's own mountpoint while it was
  // open, and every subscriber joined by a request on its transport's mountpoint.
  lemma {:induction false} LogIsExplained(requests: seq<Request>, h: nat, k: nat)
    requires h < |Run(requests).hubs| && k < |Run(requests).hubs[h].log|
    ensures var hub := Run(requests).hubs[h];
            SentAt(requests, hub.log[k].at, h, hub.mountpoint, hub.log[k].frame)
    decreases |requests|
  {
    var n := |requests| - 1;
    var init := requests[..n];
    var s := Run(init);
    RunKeepsSystem(init);
    HubAfter(s, requests[n], h);
    if h < |s.hubs| && k < |s.hubs[h].log| {
      LogIsExplained(init, h, k);
      var at := s.hubs[h].log[k].at;
      assert init[..at] == requests[..at];
    }
  }

  lemma {:induction false} JoinIsExplained(requests: seq<Request>, i: nat)
    requires i < |Run(requests).subs|
    ensures var t := Run(requests).subs[i];
            t.hub < |Run(requests).hubs| && JoinedAt(requests, t.joined, t.hub, Run(requests).hubs[t.hub].mountpoint)
    decreases |requests|
  {
    var n := |requests| - 1;
    var init := requests[..n];
    var s := Run(init);
    RunKeepsSystem(init);
    RunKeepsSystem(requests);
    SubAfter(s, requests[n], i);
    var t := Run(requests).subs[i];
    HubAfter(s, requests[n], t.hub);
    if i < |s.subs| {
      assert SubInv(s, s.subs[i]);
      JoinIsExplained(init, i);
      assert init[..t.joined] == requests[..t.joined];
    }
  }

  // Request `at` closed or unregistered the mountpoint while transport h was its open one.
  ghost predicate ClosedAt(requests: seq<Request>, at: nat, h: nat, mountpoint: string) {
    && at < |requests| && (requests[at] == Close(mountpoint) || requests[at] == Unregister(mountpoint))
    && var before := Run(requests[..at]).transports; mountpoint in before && before[mountpoint] == h
  }

  lemma ScheduledAfter(s: System, r: Request, i: nat)
    requires RegistryInv(s) && i < |Handled(s, r).0.subs| && Handled(s, r).0.subs[i].scheduled
    ensures i < |s.subs| && Handled(s, r).0.subs[i].hub == s.subs[i].hub
    ensures s.subs[i].scheduled
         || ((r.Close? || r.Unregister?) && r.mountpoint in s.transports && s.transports[r.mountpoint] == s.subs[i].hub)
  {
  }

  // A subscriber's shutdown is scheduled only because the mountpoint of its transport was closed.
  lemma {:induction false} ShutdownIsExplained(requests: seq<Request>, i: nat) returns (at: nat)
    requires i < |Run(requests).subs| && Run(requests).subs[i].scheduled
    ensures var t := Run(requests).subs[i];
            && t.hub < |Run(requests).hubs| && t.joined < at
            && ClosedAt(requests, at, t.hub, Run(requests).hubs[t.hub].mountpoint)
    decreases |requests|
  {
    var n := |requests| - 1;
    var init := requests[..n];
    var s := Run(init);
    RunKeepsSystem(init);
    RunKeepsSystem(requests);
    ScheduledAfter(s, requests[n], i);
    assert SubInv(s, s.subs[i]);
    HubAfter(s, requests[n], s.subs[i].hub);
    SubAfter(s, requests[n], i);
    if s.subs[i].scheduled {
      at := ShutdownIsExplained(init, i);
      assert init[..at] == requests[..at];
    } else {
      at := n;
    }
  }

  // Where in its transport's log the k-th frame a rover got stands.
  function LogPosition(t: Tracked, k: nat): nat
    requires k < |ConsumedAt(t.ledger.fates)|
  {
    t.start + ConsumedAt(t.ledger.fates)[k]
  }

  lemma ReceivedIsLogged(s: System, i: nat)
    requires SystemInv(s) && i < |s.subs|
    ensures var t := s.subs[i];
            var log := s.hubs[t.hub].log;
            && |ConsumedAt(t.ledger.fates)| == |t.ledger.received|
            && (forall k :: 0 <= k < |t.ledger.received| ==>
                  LogPosition(t, k) < |log| && log[LogPosition(t, k)].frame == t.ledger.received[k] &&
                      t.joined < log[LogPosition(t, k)].at)
            && (forall j, k :: 0 <= j < k < |t.ledger.received| ==> LogPosition(t, j) < LogPosition(t, k))
  {
    assert SubInv(s, s.subs[i]) && LedgerInv(s.subs[i].ledger);
  }

  // Over every run, each frame a rover got was published on its own mountpoint, on the very
  // transport it subscribed to and while that was open, after it subscribed; frames come in the
  // order of publication and no publication is delivered twice.
  lemma RoverGetsItsOwnFrames(requests: seq<Request>, i: nat) returns (gotAt: seq<nat>)
    requires i < |Run(requests).subs|
    ensures var s := Run(requests);
            var t := s.subs[i];
            && t.hub < |s.hubs|
            && JoinedAt(requests, t.joined, t.hub, s.hubs[t.hub].mountpoint)
            && |gotAt| == |t.ledger.received|
            && (forall k :: 0 <= k < |gotAt| ==>
                  t.joined < gotAt[k]
                  && SentAt(requests, gotAt[k], t.hub, s.hubs[t.hub].mountpoint, t.ledger.received[k]))
            && forall j, k :: 0 <= j < k < |gotAt| ==> gotAt[j] < gotAt[k]
  {
    RunKeepsSystem(requests);
    var s := Run(requests);
    var t := s.subs[i];
    ReceivedIsLogged(s, i);
    JoinIsExplained(requests, i);
    var log := s.hubs[t.hub].log;
    assert StampsInv(log, s.clock);
    gotAt := seq(|t.ledger.received|, k requires 0 <= k < |t.ledger.received| => log[LogPosition(t, k)].at);
    forall k | 0 <= k < |gotAt|
      ensures SentAt(requests, gotAt[k], t.hub, s.hubs[t.hub].mountpoint, t.ledger.received[k])
    {
      LogIsExplained(requests, t.hub, LogPosition(t, k));
    }
    forall j, k | 0 <= j < k < |gotAt|
      ensures gotAt[j] < gotAt[k]
    {
      assert LogPosition(t, j) < LogPosition(t, k);
    }
  }

  ghost predicate Logged(s: System, h: nat, entry: Stamped) {
    h < |s.hubs| && exists k :: 0 <= k < |s.hubs[h].log| && s.hubs[h].log[k] == entry
  }

  lemma LoggedStaysLogged(s: System, r: Request, h: nat, entry: Stamped)
    requires RegistryInv(s) && Logged(s, h, entry)
    ensures Logged(Handled(s, r).0, h, entry)
  {
    HubAfter(s, r, h);
    var k :| 0 <= k < |s.hubs[h].log| && s.hubs[h].log[k] == entry;
    assert Handled(s, r).0.hubs[h].log[k] == entry;
  }

  lemma SendIsLogged(s: System, m: string, frame: Frame, now: real)
    requires RegistryInv(s) && m in s.transports
    ensures Logged(Handled(s, Send(m, frame, now)).0, s.transports[m], Stamped(s.clock, frame))
  {
    var log := Handled(s, Send(m, frame, now)).0.hubs[s.transports[m]].log;
    assert log[|log| - 1] == Stamped(s.clock, frame);
  }

  lemma {:induction false} EverySendIsLogged(requests: seq<Request>, at: nat, h: nat, m: string, frame: Frame)
    requires SentAt(requests, at, h, m, frame)
    ensures Logged(Run(requests), h, Stamped(at, frame))
    decreases |requests|
  {
    var n := |requests| - 1;
    var init := requests[..n];
    RunKeepsSystem(init);
    assert init[..at] == requests[..at];
    var next := Handled(Run(init), requests[n]).0;
    assert Run(requests) == next;
    if at < n {
      EverySendIsLogged(init, at, h, m, frame);
      LoggedStaysLogged(Run(init), requests[n], h, Stamped(at, frame));
    } else {
      SendIsLogged(Run(init), m, frame, requests[n].now);
    }
  }

  // The subscriber accepted the frame logged by step `at`.
  ghost predicate Accepted(t: Tracked, log: seq<Stamped>, at: nat, frame: Frame) {
    exists k :: 0 <= k < |t.ledger.accepted| && t.start + k < |log|
                && log[t.start + k].at == at && t.ledger.accepted[k] == frame
  }

  lemma LiveAcceptsTheLog(t: Tracked, log: seq<Stamped>, position: nat, at: nat, frame: Frame)
    requires AcceptedInv(t, log) && t.listed && Live(t)
    requires position < |log| && log[position] == Stamped(at, frame) && t.joined < at
    ensures Accepted(t, log, at, frame)
  {
    var k := position - t.start;
    assert t.ledger.accepted[k] == log[t.start + k].frame;
  }

  // A rover that is subscribed and live has accepted every frame published on its transport since
  // it joined; what then becomes of each is the subscriber's ledger.
  lemma LiveRoverAcceptsEverything(requests: seq<Request>, i: nat, at: nat, m: string, frame: Frame)
    requires i < |Run(requests).subs|
    requires var t := Run(requests).subs[i];
             t.listed && Live(t) && SentAt(requests, at, t.hub, m, frame) && t.joined < at
    ensures var s := Run(requests);
            var t := s.subs[i];
            t.hub < |s.hubs| && Accepted(t, s.hubs[t.hub].log, at, frame)
  {
    RunKeepsSystem(requests);
    EverySendIsLogged(requests, at, Run(requests).subs[i].hub, m, frame);
    LiveAcceptsEverythingIn(Run(requests), i, at, frame);
  }

  lemma LiveAcceptsEverythingIn(s: System, i: nat, at: nat, frame: Frame)
    requires SystemInv(s) && i < |s.subs| && s.subs[i].listed && Live(s.subs[i]) && s.subs[i].joined < at
    requires Logged(s, s.subs[i].hub, Stamped(at, frame))
    ensures Accepted(s.subs[i], s.hubs[s.subs[i].hub].log, at, frame)
  {
    var t := s.subs[i];
    assert SubInv(s, t);
    var log := s.hubs[t.hub].log;
    var position :| 0 <= position < |log| && log[position] == Stamped(at, frame);
    LiveAcceptsTheLog(t, log, position, at, frame);
  }

  // Publishing never fails its lookup, and its answer is the number of subscribers that accept.
  lemma PublishReachesTheLive(requests: seq<Request>, m: string, frame: Frame, now: real)
    ensures var s := Run(requests);
            var (s', reply) := Handled(s, Send(m, frame, now));
            && |s'.subs| == |s.subs|
            && reply == Delivered(|set i: nat | i < |s.subs| &&
                  s'.subs[i].ledger.accepted != s.subs[i].ledger.accepted|)
            && forall i :: 0 <= i < |s.subs| ==>
                 s'.subs[i].ledger.accepted == s.subs[i].ledger.accepted
                 || s'.subs[i].ledger.accepted == s.subs[i].ledger.accepted + [frame]
  {
    RunKeepsSystem(requests);
    var s := Run(requests);
    var (s', reply) := Handled(s, Send(m, frame, now));
    forall i | 0 <= i < |s.subs|
      ensures s'.subs[i].ledger.accepted ==
              s.subs[i].ledger.accepted + if m in s.transports && i in Reached(s, s.transports[m]) then [frame] else []
    {
      AcceptedAfter(s.subs[i].ledger, Publish(frame));
    }
    var grown := set i: nat | i < |s.subs| && s'.subs[i].ledger.accepted != s.subs[i].ledger.accepted;
    if m in s.transports {
      assert grown == Reached(s.(clock := s.clock + 1), s.transports[m]);
    } else {
      assert grown == {};
    }
  }

  // Registered, but without an open transport.
  predicate HalfClosed(s: System, m: string) {
    m in s.mountpoints && m !in s.transports
  }

  // A run leaves a mountpoint so exactly if it was closed while registered, and since then neither
  // registered nor unregistered again.
  ghost predicate ClosedLast(requests: seq<Request>, m: string) {
    exists i :: ClosesForGood(requests, m, i)
  }

  ghost predicate ClosesForGood(requests: seq<Request>, m: string, i: nat) {
    && i < |requests| && requests[i] == Close(m) && m in Run(requests[..i]).mountpoints
    && forall j :: i < j < |requests| ==> !Reopens(requests[j], m)
  }

  predicate Reopens(r: Request, m: string) {
    (r.Register? || r.Unregister?) && r.mountpoint == m
  }

  lemma HalfClosedAfter(s: System, r: Request, m: string)
    requires RegistryInv(s)
    ensures HalfClosed(Handled(s, r).0, m) <==>
            (r == Close(m) && m in s.mountpoints) || (HalfClosed(s, m) && !Reopens(r, m))
  {
  }

  lemma ClosedLastAfter(requests: seq<Request>, init: seq<Request>, m: string)
    requires requests != [] && init == requests[..|requests| - 1]
    ensures ClosedLast(requests, m) <==>
            || (requests[|requests| - 1] == Close(m) && m in Run(init).mountpoints)
            || (ClosedLast(init, m) && !Reopens(requests[|requests| - 1], m))
  {
    var n := |requests| - 1;
    forall i: nat | i < n
      ensures ClosesForGood(requests, m, i) <==> ClosesForGood(init, m, i) && !Reopens(requests[n], m)
    {
      assert init[..i] == requests[..i];
      if ClosesForGood(requests, m, i) {
        assert !Reopens(requests[n], m);
        assert forall j :: i < j < n ==> init[j] == requests[j];
      }
    }
    assert ClosesForGood(requests, m, n) <==> requests[n] == Close(m) && m in Run(init).mountpoints;
    if ClosedLast(init, m) && !Reopens(requests[n], m) {
      var i: nat :| ClosesForGood(init, m, i);
      assert ClosesForGood(requests, m, i);
    }
  }

  lemma {:induction false} HalfClosedIff(requests: seq<Request>, m: string)
    ensures HalfClosed(Run(requests), m) <==> ClosedLast(requests, m)
    decreases |requests|
  {
    if requests != [] {
      var init := requests[..|requests| - 1];
      RunKeepsSystem(init);
      HalfClosedIff(init, m);
      HalfClosedAfter(Run(init), requests[|requests| - 1], m);
      ClosedLastAfter(requests, init, m);
    }
  }

  // Closing fails its lookup exactly on a mountpoint that is registered but already closed, that is,
  // closed before and not registered or unregistered since.
  lemma CloseFailsIff(requests: seq<Request>, m: string)
    ensures var s := Run(requests);
            && (Handled(s, Close(m)).1 == KeyError <==> HalfClosed(s, m))
            && (HalfClosed(s, m) <==> m in s.mountpoints && forall h: nat :: IsOpen(s, h) ==> s.hubs[h].mountpoint != m)
            && (HalfClosed(s, m) <==> ClosedLast(requests, m))
  {
    RunKeepsSystem(requests);
    HalfClosedIff(requests, m);
    var s := Run(requests);
    if m in s.transports {
      assert IsOpen(s, s.transports[m]);
    }
  }

  lemma RunOneMore(requests: seq<Request>, r: Request)
    ensures Run(requests + [r]) == Handled(Run(requests), r).0
  {
    assert (requests + [r])[..|requests|] == requests;
  }

  // Closing a mountpoint twice is enough for that.
  lemma ClosingTwiceFails(m: string, now: real)
    ensures var once := [Register(m, true, now), Close(m)];
            Handled(Run(once), Close(m)).1 == KeyError
  {
    RunOneMore([], Register(m, true, now));
    RunOneMore([Register(m, true, now)], Close(m));
    assert [] + [Register(m, true, now)] == [Register(m, true, now)];
    assert [Register(m, true, now)] + [Close(m)] == [Register(m, true, now), Close(m)];
  }

  // A rover blocked in `get` is never stranded: an open transport still feeds it, or its shutdown
  // is scheduled and will wake it to the end of its stream.
  lemma BlockedRoverIsFedOrWoken(requests: seq<Request>, i: nat)
    requires i < |Run(requests).subs| && Run(requests).subs[i].ledger.sub.consumer.Blocked?
    ensures var s := Run(requests);
            var t := s.subs[i];
            || (t.listed && IsOpen(s, t.hub) && Live(t))
            || (t.scheduled && var woken := Handled(s, RunShutdown(i)).0.subs[i].ledger.sub;
                               woken.consumer == Woken && Take(woken).1 == EndOfStream)
  {
    RunKeepsSystem(requests);
    var s := Run(requests);
    assert SubInv(s, s.subs[i]) && LedgerInv(s.subs[i].ledger);
    DrainNeverUnderflows(s.subs[i].ledger.sub.(cancelled := true));
  }

  // ---- the caster as an object ---------------------------------------------

  // The subscribers below n that a frame on transport h reaches.
  function ReachedBelow(s: System, h: nat, n: nat): set<nat>
    requires n <= |s.subs|
  {
    set i: nat | i < n && s.subs[i].hub == h && s.subs[i].listed && Live(s.subs[i])
  }

  lemma ReachedNext(s: System, h: nat, n: nat)
    requires n < |s.subs|
    ensures |ReachedBelow(s, h, n + 1)| == |ReachedBelow(s, h, n)| +
              if s.subs[n].hub == h && s.subs[n].listed && Live(s.subs[n]) then 1 else 0
  {
    assert ReachedBelow(s, h, n + 1) == ReachedBelow(s, h, n)
           + if s.subs[n].hub == h && s.subs[n].listed && Live(s.subs[n]) then {n} else {};
  }

  ghost predicate Stale(s: System, m: string, cutoff: real) {
    m in s.mountpoints && s.mountpoints[m] < cutoff
  }

  // Unregistering the mountpoint makes its caller wait: there are subscribers to shut down. Gathering
  // no shutdowns at all is over at once.
  predicate Suspends(s: System, m: string) {
    && m in s.mountpoints && m in s.transports
    && exists i :: 0 <= i < |s.subs| && s.subs[i].hub == s.transports[m] && s.subs[i].listed
  }

  // The states of the system while the mountpoints are unregistered one after the other.
  ghost predicate AreUnregistrations(s: System, listed: seq<string>, states: seq<System>) {
    && |states| == |listed| + 1 && states[0] == s
    && forall k :: 0 <= k < |listed| ==>
          WellFormed(states[k]) && states[k + 1] == Handled(states[k], Unregister(listed[k])).0
  }

  lemma {:induction false} UnregistrationsExist(s: System, listed: seq<string>) returns (states: seq<System>)
    requires WellFormed(s)
    ensures AreUnregistrations(s, listed, states) && WellFormed(states[|listed|])
  {
    if listed == [] {
      states := [s];
    } else {
      var init := listed[..|listed| - 1];
      states := UnregistrationsExist(s, init);
      var last := Handled(states[|init|], Unregister(listed[|init|])).0;
      assert forall k :: 0 <= k < |init| ==> init[k] == listed[k];
      states := states + [last];
    }
  }

  // They and their transports are gone, and nothing else is.
  ghost predicate OnlyGone(s: System, r: System, gone: seq<string>) {
    && r.hubs == s.hubs
    && (forall m :: m in r.mountpoints <==> m in s.mountpoints && m !in gone)
    && (forall m :: m in r.transports <==> m in s.transports && m !in gone)
    && (forall m :: m in r.mountpoints ==> r.mountpoints[m] == s.mountpoints[m])
    && (forall m :: m in r.transports ==> r.transports[m] == s.transports[m])
  }

  lemma UnregisteringTakesOne(s: System, m: string)
    requires RegistryInv(s)
    ensures OnlyGone(s, Handled(s, Unregister(m)).0, [m])
  {
  }

  lemma OnlyGoneOneMore(s: System, t: System, r: System, gone: seq<string>, m: string)
    requires OnlyGone(s, t, gone) && OnlyGone(t, r, [m])
    ensures OnlyGone(s, r, gone + [m])
  {
  }

  lemma {:induction false} UnregisteredAreGone(s: System, listed: seq<string>, states: seq<System>, n: nat)
    requires SystemInv(s) && AreUnregistrations(s, listed, states) && n <= |listed|
    ensures SystemInv(states[n]) && OnlyGone(s, states[n], listed[..n])
    decreases n
  {
    if n > 0 {
      UnregisteredAreGone(s, listed, states, n - 1);
      EveryRequestKeepsSystem(states[n - 1], Unregister(listed[n - 1]));
      UnregisteringTakesOne(states[n - 1], listed[n - 1]);
      OnlyGoneOneMore(s, states[n - 1], states[n], listed[..n - 1], listed[n - 1]);
      assert listed[..n - 1] + [listed[n - 1]] == listed[..n];
    }
  }

  // The first `done` unregistrations go on from one to the next and stop at the end or where they suspend.
  ghost predicate RunsUntilItSuspends(listed: seq<string>, states: seq<System>, done: nat)
    requires done <= |listed| < |states|
  {
    && (forall k :: 0 <= k < done - 1 ==> !Suspends(states[k], listed[k]))
    && (done < |listed| ==> done > 0 && Suspends(states[done - 1], listed[done - 1]))
  }

  ghost predicate ListsStale(s: System, cutoff: real, listed: seq<string>) {
    && (forall m :: m in listed <==> Stale(s, m, cutoff))
    && (forall i, j :: 0 <= i < j < |listed| ==> listed[i] != listed[j])
  }

  class NTRIPCaster {
    var mountpoints: map<string, real>
    var transports: map<string, nat>
    var hubs: seq<Hub>
    var subs: seq<Tracked>
    var clock: nat

    ghost function View(): System
      reads this
    {
      System(clock, mountpoints, transports, hubs, subs)
    }

    constructor ()
      ensures View() == EMPTY_SYSTEM
    {
      mountpoints, transports, hubs, subs, clock := map[], map[], [], [], 0;
    }

    // A fresh transport for the mountpoint.
    method OpenTransport(mountpoint: string)
      modifies this
      ensures View() == Opened(old(View()), mountpoint)
    {
      transports := transports[mountpoint := |hubs|];
      hubs := hubs + [Hub(mountpoint, [])];
    }

    method Register(mountpoint: string, validName: bool, now: real) returns (reply: Reply)
      requires WellFormed(View())
      modifies this
      ensures (View(), reply) == Handled(old(View()), Request.Register(mountpoint, validName, now))
    {
      clock := clock + 1;
      if mountpoint in mountpoints {
        if mountpoint !in transports {
          OpenTransport(mountpoint);
        }
        return Done;
      }
      if !validName {
        return ValueError;
      }
      mountpoints := mountpoints[mountpoint := now];
      OpenTransport(mountpoint);
      reply := Done;
    }

    // Dropping a transport from the table and running its shutdown up to the suspension.
    method DropTransport(mountpoint: string)
      requires mountpoint in transports
      modifies this
      ensures View() == Closed(old(View()), mountpoint)
    {
      var h := transports[mountpoint];
      transports := transports - {mountpoint};
      var n := |subs|;
      for i := 0 to n
        invariant |subs| == n && View() == old(View()).(transports := old(transports) - {mountpoint}, subs := subs)
        invariant forall j :: 0 <= j < i ==> subs[j] == Delisted(old(subs)[j], h)
        invariant forall j :: i <= j < n ==> subs[j] == old(subs)[j]
      {
        if subs[i].hub == h && subs[i].listed {
          subs := subs[i := subs[i].(listed := false, scheduled := true)];
        }
      }
      assert subs == Closed(old(View()), mountpoint).subs;
    }

    method Close(mountpoint: string) returns (reply: Reply)
      requires WellFormed(View())
      modifies this
      ensures (View(), reply) == Handled(old(View()), Request.Close(mountpoint))
    {
      clock := clock + 1;
      if mountpoint !in mountpoints {
        return Done;
      }
      if mountpoint !in transports {
        return KeyError;
      }
      DropTransport(mountpoint);
      reply := Done;
    }

    method Unregister(mountpoint: string)
      requires WellFormed(View())
      modifies this
      ensures View() == Handled(old(View()), Request.Unregister(mountpoint)).0
    {
      clock := clock + 1;
      if mountpoint !in mountpoints {
        return;
      }
      if mountpoint in transports {
        DropTransport(mountpoint);
      }
      mountpoints := mountpoints - {mountpoint};
    }

    method Subscribe(mountpoint: string) returns (reply: Reply)
      requires WellFormed(View())
      modifies this
      ensures (View(), reply) == Handled(old(View()), Request.Subscribe(mountpoint))
    {
      clock := clock + 1;
      if mountpoint !in transports {
        return KeyError;
      }
      var h := transports[mountpoint];
      reply := Joined(|subs|);
      subs := subs + [Tracked(EMPTY_LEDGER, h, |hubs[h].log|, clock - 1, true, false)];
    }

    // The fan-out loop of a transport: offer the frame to every listed subscriber, count those that accept.
    method FanOut(h: nat, frame: Frame, at: nat) returns (delivered: nat)
      requires h < |hubs|
      modifies this
      ensures View() == FannedOut(old(View()), h, frame, at)
      ensures delivered == |Reached(old(View()), h)|
    {
      ghost var was := View();
      hubs := hubs[h := hubs[h].(log := hubs[h].log + [Stamped(at, frame)])];
      delivered := 0;
      var n := |subs|;
      assert ReachedBelow(was, h, 0) == {};
      for i := 0 to n
        invariant |subs| == n && delivered == |ReachedBelow(was, h, i)|
        invariant View() == FannedOut(was, h, frame, at).(subs := subs)
        invariant forall j :: 0 <= j < i ==> subs[j] == Offered(was.subs[j], h, frame)
        invariant forall j :: i <= j < n ==> subs[j] == was.subs[j]
      {
        var reached := subs[i].hub == h && subs[i].listed && Live(subs[i]);
        ReachedNext(was, h, i);
        if reached {
          delivered := delivered + 1;
        }
        subs := subs[i := Offered(subs[i], h, frame)];
      }
      assert subs == FannedOut(was, h, frame, at).subs;
      assert ReachedBelow(was, h, n) == Reached(was, h);
    }

    method Publish(mountpoint: string, frame: Frame, now: real) returns (reply: Reply)
      requires WellFormed(View())
      modifies this
      ensures (View(), reply) == Handled(old(View()), Send(mountpoint, frame, now))
    {
      clock := clock + 1;
      if mountpoint !in transports {
        return Delivered(0);
      }
      var h := transports[mountpoint];
      if mountpoint !in mountpoints {
        return KeyError;
      }
      ghost var reached := Reached(View(), h);
      mountpoints := mountpoints[mountpoint := now];
      assert Reached(View(), h) == reached;
      var delivered := FanOut(h, frame, clock - 1);
      reply := Delivered(delivered);
    }

    // One step of a subscriber's consumer, inside or around `get`.
    method Consume(sub: nat, step: Event) returns (reply: Reply)
      requires WellFormed(View())
      modifies this
      ensures (View(), reply) == Handled(old(View()), Request.Consume(sub, step))
    {
      clock := clock + 1;
      if sub >= |subs| || !(step.BeginGet? || step.ResumeGet? || step.CancelGet? || step.TimeoutGet?) {
        return Done;
      }
      var ledger := subs[sub].ledger;
      subs := subs[sub := subs[sub].(ledger := Recorded(ledger, step))];
      reply := Answered(Applied(ledger.sub, step).1);
    }

    // The end of a subscription: off the transport's list and shut down.
    method Leave(sub: nat)
      requires WellFormed(View())
      modifies this
      ensures View() == Handled(old(View()), Request.Leave(sub)).0
    {
      clock := clock + 1;
      if sub < |subs| && subs[sub].ledger.sub.consumer.Idle? {
        subs := subs[sub := subs[sub].(ledger := Recorded(subs[sub].ledger, Shutdown), listed := false)];
      }
    }

    // The list comprehension of the reaper: exactly the mountpoints last seen before the cutoff.
    method ListStale(cutoff: real) returns (listed: seq<string>)
      ensures ListsStale(View(), cutoff, listed)
    {
      var stale := set m | m in mountpoints && mountpoints[m] < cutoff;
      var left := stale;
      listed := [];
      while left != {}
        invariant left <= stale
        invariant forall m :: m in stale <==> m in left || m in listed
        invariant forall i :: 0 <= i < |listed| ==> listed[i] !in left
        invariant forall i, j :: 0 <= i < j < |listed| ==> listed[i] != listed[j]
        decreases |left|
      {
        var m :| m in left;
        left := left - {m};
        listed := listed + [m];
      }
    }

    method IsWatched(mountpoint: string) returns (watched: bool)
      requires WellFormed(View())
      ensures watched == Suspends(View(), mountpoint)
    {
      if mountpoint !in mountpoints || mountpoint !in transports {
        return false;
      }
      var h := transports[mountpoint];
      watched := exists i :: 0 <= i < |subs| && subs[i].hub == h && subs[i].listed;
    }

    // The reaper's loop over the mountpoints it listed, up to where it suspends: it has unregistered the
    // first `done` of them, and goes on with the others once the subscribers of the last are shut down.
    method ReapOn(listed: seq<string>) returns (done: nat, ghost states: seq<System>)
      requires SystemInv(View())
      modifies this
      ensures SystemInv(View()) && done <= |listed| && OnlyGone(old(View()), View(), listed[..done])
      ensures AreUnregistrations(old(View()), listed, states) && View() == states[done]
      ensures RunsUntilItSuspends(listed, states, done)
    {
      done := 0;
      var suspended := false;
      ghost var was := View();
      states := UnregistrationsExist(was, listed);
      while done < |listed| && !suspended
        invariant done <= |listed| && View() == states[done]
        invariant forall k :: 0 <= k < done - 1 ==> !Suspends(states[k], listed[k])
        invariant done > 0 ==> suspended == Suspends(states[done - 1], listed[done - 1])
        invariant suspended ==> done > 0
      {
        suspended := IsWatched(listed[done]);
        Unregister(listed[done]);
        done := done + 1;
      }
      UnregisteredAreGone(was, listed, states, done);
    }

    // A pass of the reaper up to its first suspension. Should there be none, exactly the mountpoints
    // last seen before the cutoff are gone.
    method Reap(cutoff: real) returns (listed: seq<string>, done: nat, ghost states: seq<System>)
      requires SystemInv(View())
      modifies this
      ensures SystemInv(View()) && done <= |listed| && OnlyGone(old(View()), View(), listed[..done])
      ensures ListsStale(old(View()), cutoff, listed)
      ensures AreUnregistrations(old(View()), listed, states) && View() == states[done]
      ensures RunsUntilItSuspends(listed, states, done)
      ensures done == |listed| ==>
                && (forall m :: m in mountpoints <==> m in old(mountpoints) && !Stale(old(View()), m, cutoff))
                && (forall m :: m in transports <==> m in old(transports) && !Stale(old(View()), m, cutoff))
    {
      listed := ListStale(cutoff);
      done, states := ReapOn(listed);
      assert done == |listed| ==> listed[..done] == listed;
    }
  }

  // ---- a transport object and the caster's view of it ----------------------

  // The subscribers transport h lists, in the order they joined.
  function ListedOn(subs: seq<Tracked>, h: nat): seq<Subscriber> {
    if subs == [] then []
    else
      var last := subs[|subs| - 1];
      ListedOn(subs[..|subs| - 1], h) + (if last.hub == h && last.listed then [last.ledger.sub] else [])
  }

  lemma {:induction false} OfferingIsPublishing(subs: seq<Tracked>, offered: seq<Tracked>, h: nat, frame: Frame)
    requires |offered| == |subs| && forall i :: 0 <= i < |subs| ==> offered[i] == Offered(subs[i], h, frame)
    ensures ListedOn(offered, h) == AllPublished(ListedOn(subs, h), frame)
    decreases |subs|
  {
    if subs != [] {
      OfferingIsPublishing(subs[..|subs| - 1], offered[..|subs| - 1], h, frame);
    }
  }

  lemma {:induction false} ReachedAreTheLive(s: System, h: nat, n: nat)
    requires n <= |s.subs|
    ensures |ReachedBelow(s, h, n)| == LiveCount(ListedOn(s.subs[..n], h))
    decreases n
  {
    if n == 0 {
      assert ReachedBelow(s, h, 0) == {};
    } else {
      ReachedAreTheLive(s, h, n - 1);
      ReachedNext(s, h, n - 1);
      ListedOnNext(s.subs, h, n - 1);
    }
  }

  lemma ListedOnNext(subs: seq<Tracked>, h: nat, n: nat)
    requires n < |subs|
    ensures LiveCount(ListedOn(subs[..n + 1], h)) == LiveCount(ListedOn(subs[..n], h)) +
              if subs[n].hub == h && subs[n].listed && Live(subs[n]) then 1 else 0
  {
    assert subs[..n + 1][..n] == subs[..n];
    var listed := ListedOn(subs[..n], h);
    if subs[n].hub == h && subs[n].listed {
      assert (listed + [subs[n].ledger.sub])[..|listed|] == listed;
    } else {
      assert ListedOn(subs[..n + 1], h) == listed;
    }
  }

  lemma {:induction false} DelistingEmpties(subs: seq<Tracked>, delisted: seq<Tracked>, h: nat)
    requires |delisted| == |subs| && forall i :: 0 <= i < |subs| ==> delisted[i] == Delisted(subs[i], h)
    ensures ListedOn(delisted, h) == []
    decreases |subs|
  {
    if subs != [] {
      DelistingEmpties(subs[..|subs| - 1], delisted[..|subs| - 1], h);
    }
  }

  lemma FannedOutLists(s: System, h: nat, frame: Frame, now: nat)
    requires h < |s.hubs|
    ensures ListedOn(FannedOut(s, h, frame, now).subs, h) == AllPublished(ListedOn(s.subs, h), frame)
  {
    var offered := FannedOut(s, h, frame, now).subs;
    assert forall i :: 0 <= i < |s.subs| ==> offered[i] == Offered(s.subs[i], h, frame);
    OfferingIsPublishing(s.subs, offered, h, frame);
  }

  lemma ReachedIsTheLiveCount(s: System, h: nat)
    ensures |Reached(s, h)| == LiveCount(ListedOn(s.subs, h))
  {
    var n := |s.subs|;
    ReachedAreTheLive(s, h, n);
    assert ReachedBelow(s, h, n) == Reached(s, h);
    assert s.subs[..n] == s.subs;
  }

  // How many subscribers listed by the same transport joined before subscriber i.
  function PlaceInList(subs: seq<Tracked>, i: nat): nat
    requires i < |subs|
  {
    |ListedOn(subs[..i], subs[i].hub)|
  }

  function WithoutAt<T>(list: seq<T>, p: nat): seq<T>
    requires p < |list|
  {
    list[..p] + list[p + 1..]
  }

  lemma {:induction false} LeavingDropsOne(subs: seq<Tracked>, i: nat, t: Tracked)
    requires i < |subs| && subs[i].listed && t.hub == subs[i].hub && !t.listed
    ensures PlaceInList(subs, i) < |ListedOn(subs, t.hub)|
    ensures ListedOn(subs[i := t], t.hub) == WithoutAt(ListedOn(subs, t.hub), PlaceInList(subs, i))
    decreases |subs|
  {
    var n, left := |subs| - 1, subs[i := t];
    if i == n {
      assert left[..n] == subs[..n];
    } else {
      LeavingDropsOne(subs[..n], i, t);
      assert left[..n] == subs[..n][i := t] && subs[..n][..i] == subs[..i];
    }
  }

  // Publishing through the object does to its subscribers what the caster's step does to the listed
  // ones, and counts the same.
  method PublishThrough(transport: QueueTransport, frame: Frame, ghost s: System, h: nat, now: nat) returns (acks: nat)
    requires transport.Valid() && h < |s.hubs| && Views(transport.queues) == ListedOn(s.subs, h)
    modifies transport.queues
    ensures transport.Valid() && Views(transport.queues) == ListedOn(FannedOut(s, h, frame, now).subs, h)
    ensures acks == |Reached(s, h)|
  {
    FannedOutLists(s, h, frame, now);
    ReachedIsTheLiveCount(s, h);
    acks := transport.Publish(frame);
  }

  method SubscribeThrough(transport: QueueTransport, ghost s: System, h: nat, now: nat)
    returns (subscriber: QueueTransportSubscriber)
    requires transport.Valid() && h < |s.hubs| && Views(transport.queues) == ListedOn(s.subs, h)
    modifies transport
    ensures transport.Valid() && fresh(subscriber) && Views(transport.queues) == ListedOn(Enrolled(s, h, now).subs, h)
  {
    subscriber := transport.Subscribe();
    ghost var enrolled := Enrolled(s, h, now).subs;
    assert enrolled[..|s.subs|] == s.subs;
    assert Views(transport.queues) == ListedOn(s.subs, h) + [FRESH];
  }

  method CloseThrough(transport: QueueTransport, ghost s: System, mountpoint: string)
    returns (leaving: seq<QueueTransportSubscriber>)
    requires transport.Valid() && mountpoint in s.transports
    requires Views(transport.queues) == ListedOn(s.subs, s.transports[mountpoint])
    modifies transport
    ensures transport.Valid() && Views(transport.queues) ==
        ListedOn(Closed(s, mountpoint).subs, s.transports[mountpoint])
    ensures Views(leaving) == ListedOn(s.subs, s.transports[mountpoint])
  {
    leaving := transport.Detach();
    DelistingEmpties(s.subs, Closed(s, mountpoint).subs, s.transports[mountpoint]);
  }

  method LeaveThrough(transport: QueueTransport, subscriber: QueueTransportSubscriber, ghost s: System, sub: nat)
    requires transport.Valid() && WellFormed(s) && sub < |s.subs| && s.subs[sub].listed
    requires s.subs[sub].ledger.sub.consumer.Idle? && Views(transport.queues) == ListedOn(s.subs, s.subs[sub].hub)
    requires PlaceInList(s.subs, sub) < |transport.queues| && transport.queues[PlaceInList(s.subs, sub)] == subscriber
    modifies transport, subscriber
    ensures transport.Valid()
    ensures Views(transport.queues) == ListedOn(Handled(s, Request.Leave(sub)).0.subs, s.subs[sub].hub)
  {
    ghost var p, was := PlaceInList(s.subs, sub), transport.queues;
    RemovedAt(was, subscriber, p);
    LeavingDropsOne(s.subs, sub, Handled(s, Request.Leave(sub)).0.subs[sub]);
    transport.Leave(subscriber);
    assert Views(transport.queues) == WithoutAt(ListedOn(s.subs, s.subs[sub].hub), p);
  }
}

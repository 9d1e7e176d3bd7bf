/** The UDP session protocol: sessions, their egress tasks, mountpoint handoff and frame signing.

    The server runs on the caster's event loop, so the state holds the caster's system as well.
    Handlers that the server spawns are jobs, run later in any order. A cancelled egress task may
    still process frames before its cancellation reaches it: the protocol must not rely on when
    that is.
 */
module UdpSessions {
  import RtcmSplitter
  import opened Transport
  import opened Caster
  import opened Nearest
  import opened Wrappers

  type Addr = (string, int)

  const SEQ_MODULUS := 0x1_0000_0000

  datatype ErrorCode =
    INVALID_TOKEN | UNAUTHORIZED_MOUNTPOINT | MOUNTPOINT_UNAVAILABLE | MISSING_POSITION | OUT_OF_RANGE

  // The signed bytes of a correction; encoding is one-to-one, so the contents stand for the bytes.
  datatype CorrectionFrame = CorrectionFrame(timestamp: int, mountpoint: string, rtcm: seq<RtcmSplitter.byte>)

  datatype SignedCorrection = SignedCorrection(payload: CorrectionFrame, signature: seq<RtcmSplitter.byte>)

  datatype Packet =
    | HelloAck(session: nat, mountpoint: string, signingKid: string, keepaliveInterval: int, sessionTtl: int)
    | Correction(session: nat, seqNo: nat, correction: SignedCorrection)
    | Error(code: ErrorCode)

  datatype Config = Config(
    ttl: real,
    maxDatagram: nat,
    signing: bool,                                   // signing enabled and a key present
    kid: string,                                     // the name of that key
    keepaliveInterval: int,
    sign: CorrectionFrame -> seq<RtcmSplitter.byte>,
    size: Packet -> nat,                             // encoded length
    distance: Metric)

  datatype Session = Session(
    mountpoint: string, addr: Addr, expiry: real, scope: string, dynamic: bool, seqNo: nat, task: Option<nat>)

  datatype Phase = Created | Streaming(sub: nat) | Ended

  datatype Task = Task(session: nat, phase: Phase, cancelled: bool)

  datatype Job =
    | HelloJob(claims: Option<string>, requested: string, position: Option<Place>, addr: Addr)
    | SwitchJob(session: nat, requested: string, position: Option<Place>)
    | ByeJob(session: nat)
    | EvictJob(session: nat)

  // A datagram a session's pump built, and what became of it.
  datatype Pumped = Pumped(task: nat, mountpoint: string, frame: Frame, packet: Packet, sent: bool)

  datatype State = State(
    net: System,                               // the caster
    requests: seq<Request>,                    // everything the caster was asked so far
    table: seq<Listing>,                       // its mountpoint table, in order
    sessions: map<nat, Session>,               // every session ever opened
    registered: set<nat>,                      // those in the server's session table
    gauge: int,
    tasks: seq<Task>,
    jobs: multiset<Job>,
    reaping: seq<(nat, real)>,                 // sessions the reaper still has to tear down, with the time of its pass
    cache: map<string, (Frame, SignedCorrection)>,
    positions: map<(string, nat), Place>,      // tracked rover positions by mountpoint and session
    pumped: map<nat, seq<Pumped>>,             // per session, in order
    outbox: seq<(Packet, Addr)>)

  const START := State(EMPTY_SYSTEM, [], [], map[], {}, 0, [], multiset{}, [], map[], map[], map[], [])

  // ---- signing -------------------------------------------------------------

  // A cached correction is reused only for the very same bytes object.
  function SignFrame(
      c: Config, cache: map<string, (Frame, SignedCorrection)>, mountpoint: string, frame: Frame, timestamp: int)
    : (map<string, (Frame, SignedCorrection)>, SignedCorrection)
  {
    if mountpoint in cache && cache[mountpoint].0 == frame then (cache, cache[mountpoint].1)
    else
      var payload := CorrectionFrame(timestamp, mountpoint, frame.bytes);
      var signed := SignedCorrection(payload, if c.signing then c.sign(payload) else []);
      (cache[mountpoint := (frame, signed)], signed)
  }

  predicate Genuine(c: Config, s: SignedCorrection, mountpoint: string, frame: Frame) {
    && s.payload.mountpoint == mountpoint && s.payload.rtcm == frame.bytes
    && s.signature == if c.signing then c.sign(s.payload) else []
  }

  predicate CacheInv(c: Config, cache: map<string, (Frame, SignedCorrection)>) {
    forall m :: m in cache ==> Genuine(c, cache[m].1, m, cache[m].0)
  }

  // ---- authorization -------------------------------------------------------

  predicate Wildcard(scope: string) {
    scope == "*" || scope == "NEAREST"
  }

  predicate ScopeAllows(scope: string, mountpoint: string) {
    Wildcard(scope) || scope == mountpoint
  }

  datatype Resolved = Allowed(mountpoint: string) | Refused(code: ErrorCode)

  function Resolve(
      c: Config, table: seq<Listing>, scope: string, requested: string, position: Option<Place>): (r: Resolved)
    ensures r.Allowed? ==> ScopeAllows(scope, r.mountpoint)
  {
    if requested == "NEAREST" then
      if position.None? then Refused(MISSING_POSITION)
      else match NearestOf(table, c.distance, position.value)
        case None => Refused(MOUNTPOINT_UNAVAILABLE)
        case Some(m) => if !Wildcard(scope) && m != scope then Refused(UNAUTHORIZED_MOUNTPOINT) else Allowed(m)
    else if !Wildcard(scope) && requested != scope then Refused(UNAUTHORIZED_MOUNTPOINT)
    else if Lookup(table, requested).None? then Refused(MOUNTPOINT_UNAVAILABLE)
    else Allowed(requested)
  }

  ghost predicate NamesTheNearest(c: Config, table: seq<Listing>, p: Place, name: string) {
    exists i: nat :: IsNearest(table, c.distance, p, i) && table[i].name == name
  }

  lemma NearestByName(c: Config, table: seq<Listing>, p: Place, name: string)
    ensures NearestOf(table, c.distance, p) == Some(name) <==> NamesTheNearest(c, table, p, name)
  {
    NearestIff(table, c.distance, p);
    var best := Scan(table, c.distance, p, |table|);
    if best.Some? {
      assert IsNearest(table, c.distance, p, best.value);
    }
  }

  // A request is granted exactly if it names a mountpoint the token allows: a listed one, or for
  // NEAREST the first of those nearest to the position, which must be given.
  lemma ResolveIff(c: Config, table: seq<Listing>, scope: string, requested: string, position: Option<Place>, m: string)
    ensures Resolve(c, table, scope, requested, position) == Allowed(m) <==>
            && (scope == "*" || scope == "NEAREST" || scope == m)
            && (if requested == "NEAREST" then position.Some? && NamesTheNearest(c, table, position.value, m)
                else m == requested && exists i :: 0 <= i < |table| && table[i].name == m)
  {
    if requested == "NEAREST" && position.Some? {
      NearestByName(c, table, position.value, m);
    }
  }

  // And exactly why one is refused: NEAREST without a position; nothing in range, or a name that is not
  // listed; a mountpoint that is not the token's.
  lemma RefusalIff(c: Config, table: seq<Listing>, scope: string, requested: string, position: Option<Place>)
    ensures var r, concrete := Resolve(c, table, scope, requested, position), scope != "*" && scope != "NEAREST";
            && (r == Refused(MISSING_POSITION) <==> requested == "NEAREST" && position == None)
            && (r == Refused(MOUNTPOINT_UNAVAILABLE) <==>
                  if requested == "NEAREST"
                  then
                    && position.Some?
                    && forall i :: 0 <= i < |table| ==> !InMask(table[i].site, c.distance, position.value)
                  else !(concrete && requested != scope) && forall i :: 0 <= i < |table| ==> table[i].name != requested)
            && (r == Refused(UNAUTHORIZED_MOUNTPOINT) <==>
                  && concrete
                  && if requested == "NEAREST"
                     then position.Some? && exists m :: NamesTheNearest(c, table, position.value, m) && m != scope
                     else requested != scope)
            && (r.Refused? ==> r.code in {MISSING_POSITION, MOUNTPOINT_UNAVAILABLE, UNAUTHORIZED_MOUNTPOINT})
  {
    if requested == "NEAREST" && position.Some? {
      NearestIff(table, c.distance, position.value);
      var nearest := NearestOf(table, c.distance, position.value);
      forall m
        ensures nearest == Some(m) <==> NamesTheNearest(c, table, position.value, m)
      {
        NearestByName(c, table, position.value, m);
      }
    }
  }

  // ---- pieces of the steps -------------------------------------------------

  function Sent(s: State, packet: Packet, addr: Addr): State {
    s.(outbox := s.outbox + [(packet, addr)])
  }

  function Asked(s: State, r: Request): State
    requires WellFormed(s.net)
  {
    s.(net := Handled(s.net, r).0, requests := s.requests + [r])
  }

  // None of the handlers of the server itself asks the caster anything.
  function Cancelled(s: State, task: Option<nat>): (r: State)
    ensures r.net == s.net && r.requests == s.requests && r.table == s.table && r.cache == s.cache
    ensures r.jobs == s.jobs && r.reaping == s.reaping && r.pumped == s.pumped && r.outbox == s.outbox
  {
    if task.None? || task.value >= |s.tasks| then s
    else s.(tasks := s.tasks[task.value := s.tasks[task.value].(cancelled := true)])
  }

  // Moving a session to another mountpoint starts a new egress task and cancels the old one.
  function Repointed(s: State, id: nat, mountpoint: string): (r: State)
    requires id in s.sessions
    ensures r.net == s.net && r.requests == s.requests && r.table == s.table && r.cache == s.cache
    ensures r.jobs == s.jobs && r.reaping == s.reaping && r.pumped == s.pumped && r.outbox == s.outbox
  {
    var session := s.sessions[id];
    if mountpoint == session.mountpoint then s
    else
      Cancelled(s, session.task).(
        sessions := s.sessions[id := session.(mountpoint := mountpoint, task := Some(|s.tasks|))],
        tasks := Cancelled(s, session.task).tasks + [Task(id, Created, false)])
  }

  // A new session with its egress task.
  function Admitted(s: State, id: nat, session: Session): State {
    s.(sessions := s.sessions[id := session], registered := s.registered + {id}, gauge := s.gauge + 1,
       tasks := s.tasks + [Task(id, Created, false)], pumped := s.pumped[id := []])
  }

  // A datagram built for a session, under its next sequence number.
  function Numbered(s: State, id: nat, p: Pumped, cache: map<string, (Frame, SignedCorrection)>): State
    requires id in s.sessions && id in s.pumped
  {
    s.(cache := cache, pumped := s.pumped[id := s.pumped[id] + [p]],
       sessions := s.sessions[id := s.sessions[id].(seqNo := (s.sessions[id].seqNo + 1) % SEQ_MODULUS)])
  }

  // Tearing a session down, run by egress task `current` or by none. Doing it twice changes nothing.
  function TornDown(s: State, id: nat, current: Option<nat>): (r: State)
    requires id in s.sessions
    ensures r.net == s.net && r.requests == s.requests && r.table == s.table && r.cache == s.cache
    ensures r.jobs == s.jobs && r.reaping == s.reaping && r.pumped == s.pumped && r.outbox == s.outbox
  {
    if id !in s.registered then s
    else
      var session := s.sessions[id];
      var t := if session.task == current then s else Cancelled(s, session.task);
      t.(registered := s.registered - {id}, gauge := s.gauge - 1,
         positions := s.positions - {(session.mountpoint, id)},
         sessions := s.sessions[id := session.(task := None)])
  }

  // ---- the steps -----------------------------------------------------------

  datatype Body =
    Keepalive(position: Option<Place>) | SwitchTo(requested: string, position: Option<Place>) | Bye | NoBody

  datatype ServerEvent =
    | Ask(request: Request, site: Site)        // the caster serves a base station, its reaper or another rover
    | HelloArrives(claims: Option<string>, requested: string, position: Option<Place>, addr: Addr)
    | DatagramArrives(session: nat, addr: Addr, now: real, body: Body)
    | RunJob(job: Job, freshId: nat, now: real)
    | StartTask(task: nat)
    | Pump(task: nat, timestamp: int)
    | DeliverCancel(task: nat)
    | ReapPass(now: real, picked: seq<nat>)    // the reaper wakes up, and tears the first stale session down
    | ReapNext(now: real)                      // it goes on to the next

  function Replaced(table: seq<Listing>, name: string, site: Site): seq<Listing> {
    seq(|table|, i requires 0 <= i < |table| => if table[i].name == name then Listing(name, site) else table[i])
  }

  function Without(table: seq<Listing>, name: string): seq<Listing> {
    if table == [] then [] else (if table[0].name == name then [] else [table[0]]) + Without(table[1..], name)
  }

  // The table follows the registry: a new mountpoint goes to the end, a known one keeps its place.
  function TableAfter(s: State, r: Request, site: Site): seq<Listing> {
    match r
    case Register(m, validName, _) =>
      if m in s.net.mountpoints then Replaced(s.table, m, site)
      else if validName then s.table + [Listing(m, site)] else s.table
    case Unregister(m) => Without(s.table, m)
    case _ => s.table
  }

  function PositionsWithout(positions: map<(string, nat), Place>, m: string): map<(string, nat), Place> {
    map k | k in positions && k.0 != m :: positions[k]
  }

  // Closing or unregistering a mountpoint forgets the positions tracked under it.
  function PositionsAfter(s: State, r: Request): map<(string, nat), Place> {
    match r
    case Close(m) =>
      if m in s.net.mountpoints && m in s.net.transports then PositionsWithout(s.positions, m)
      else s.positions
    case Unregister(m) =>
      if m in s.net.mountpoints then PositionsWithout(s.positions, m) else s.positions
    case _ => s.positions
  }

  function OnKeepalive(c: Config, s: State, id: nat, position: Option<Place>): (r: State)
    requires id in s.sessions
    ensures r.net == s.net && r.requests == s.requests && r.table == s.table && r.cache == s.cache
    ensures r.reaping == s.reaping && r.pumped == s.pumped && r.outbox == s.outbox
  {
    if position.None? then s
    else
      var p, session := position.value, s.sessions[id];
      var t := s.(positions := s.positions[(session.mountpoint, id) := p]);
      if session.dynamic then
        match NearestOf(s.table, c.distance, p)
        case None => t.(jobs := t.jobs + multiset{EvictJob(id)})
        case Some(m) => if ScopeAllows(session.scope, m) then Repointed(t, id, m) else t
      else if OutOfRange(s.table, session.mountpoint, c.distance, p) then t.(jobs := t.jobs + multiset{EvictJob(id)})
      else t
  }

  // Any datagram of a session renews its deadline and return address.
  function Refreshed(c: Config, s: State, id: nat, addr: Addr, now: real): State
    requires id in s.sessions
  {
    s.(sessions := s.sessions[id := s.sessions[id].(addr := addr, expiry := now + c.ttl)])
  }

  function OnDatagram(c: Config, s: State, id: nat, addr: Addr, now: real, body: Body): (r: State)
    ensures r.net == s.net && r.requests == s.requests && r.table == s.table && r.cache == s.cache
    ensures r.reaping == s.reaping && r.pumped == s.pumped && r.outbox == s.outbox
  {
    if id !in s.registered || id !in s.sessions then s
    else
      var t := Refreshed(c, s, id, addr, now);
      match body
      case Keepalive(position) => OnKeepalive(c, t, id, position)
      case SwitchTo(requested, position) => t.(jobs := t.jobs + multiset{SwitchJob(id, requested, position)})
      case Bye => t.(jobs := t.jobs + multiset{ByeJob(id)})
      case NoBody => t
  }

  function NewSession(c: Config, s: State, job: Job, mountpoint: string, now: real): Session
    requires job.HelloJob? && job.claims.Some?
  {
    Session(mountpoint, job.addr, now + c.ttl, job.claims.value, job.requested == "NEAREST", 0, Some(|s.tasks|))
  }

  // int() of a number truncates towards zero.
  function Truncated(x: real): int {
    if x < 0.0 then -((-x).Floor) else x.Floor
  }

  function Ack(c: Config, id: nat, mountpoint: string): Packet {
    HelloAck(id, mountpoint, if c.signing then c.kid else "", c.keepaliveInterval, Truncated(c.ttl))
  }

  function OnHello(c: Config, s: State, job: Job, freshId: nat, now: real): (r: State)
    requires job.HelloJob?
    ensures r.net == s.net && r.requests == s.requests && r.table == s.table && r.cache == s.cache
    ensures r.jobs == s.jobs && r.reaping == s.reaping
  {
    if job.claims.None? then Sent(s, Error(INVALID_TOKEN), job.addr)
    else match Resolve(c, s.table, job.claims.value, job.requested, job.position)
      case Refused(code) => Sent(s, Error(code), job.addr)
      case Allowed(m) =>
        Sent(Admitted(s, freshId, NewSession(c, s, job, m, now)), Ack(c, freshId, m), job.addr)
  }

  function OnSwitch(c: Config, s: State, id: nat, requested: string, position: Option<Place>): (r: State)
    requires id in s.sessions
    ensures r.net == s.net && r.requests == s.requests && r.table == s.table && r.cache == s.cache
    ensures r.jobs == s.jobs && r.reaping == s.reaping
  {
    match Resolve(c, s.table, s.sessions[id].scope, requested, position)
    case Refused(code) => Sent(s, Error(code), s.sessions[id].addr)
    case Allowed(m) =>
      Repointed(s.(sessions := s.sessions[id := s.sessions[id].(dynamic := requested == "NEAREST")]), id, m)
  }

  // A spawned handler that touches an existing session.
  function OnSessionJob(c: Config, s: State, id: nat, job: Job): (r: State)
    requires id in s.sessions
    ensures r.net == s.net && r.requests == s.requests && r.table == s.table && r.cache == s.cache
    ensures r.jobs == s.jobs && r.reaping == s.reaping
  {
    match job
    case SwitchJob(_, requested, position) => OnSwitch(c, s, id, requested, position)
    case EvictJob(_) => TornDown(Sent(s, Error(OUT_OF_RANGE), s.sessions[id].addr), id, None)
    case _ => TornDown(s, id, None)
  }

  function OnJob(c: Config, s: State, job: Job, freshId: nat, now: real): (r: State)
    ensures r.net == s.net && r.requests == s.requests && r.table == s.table && r.cache == s.cache
    ensures r.jobs <= s.jobs && r.reaping == s.reaping
  {
    var t := s.(jobs := s.jobs - multiset{job});
    if job !in s.jobs then s
    else if job.HelloJob? then (if freshId in s.sessions then s else OnHello(c, t, job, freshId, now))
    else if job.session in s.sessions then OnSessionJob(c, t, job.session, job) else s
  }

  function EndedTask(s: State, task: nat): State
    requires task < |s.tasks|
  {
    s.(tasks := s.tasks[task := s.tasks[task].(phase := Ended)])
  }

  // A task that can take a step: its session's object exists (it always does).
  predicate Runnable(s: State, task: nat) {
    task < |s.tasks| && s.tasks[task].session in s.sessions && s.tasks[task].session in s.pumped
  }

  // The first run of an egress task: it subscribes to the mountpoint its session is on by now.
  function OnStart(s: State, task: nat): (r: State)
    requires WellFormed(s.net)
    ensures r.jobs == s.jobs && r.reaping == s.reaping && r.table == s.table && r.cache == s.cache
    ensures r.net.mountpoints == s.net.mountpoints
  {
    if !Runnable(s, task) || !s.tasks[task].phase.Created? then s
    else if s.tasks[task].cancelled then EndedTask(s, task)
    else
      var id := s.tasks[task].session;
      var session := s.sessions[id];
      var t := Asked(s, Subscribe(session.mountpoint));
      var reply := Handled(s.net, Subscribe(session.mountpoint)).1;
      if reply.Joined? then t.(tasks := s.tasks[task := s.tasks[task].(phase := Streaming(reply.sub))])
      else TornDown(EndedTask(Sent(t, Error(MOUNTPOINT_UNAVAILABLE), session.addr), task), id, Some(task))
  }

  // One round of the pump, once it has a frame. A task that is no longer its session's bails out.
  function OnFrame(c: Config, s: State, task: nat, sub: nat, frame: Frame, timestamp: int): (r: State)
    requires Runnable(s, task) && WellFormed(s.net)
    ensures r.jobs == s.jobs && r.reaping == s.reaping && r.table == s.table && r.net.mountpoints == s.net.mountpoints
  {
    var id := s.tasks[task].session;
    var session := s.sessions[id];
    if session.task != Some(task) then EndedTask(Asked(s, Leave(sub)), task)
    else
      var (cache, signed) := SignFrame(c, s.cache, session.mountpoint, frame, timestamp);
      var packet := Correction(id, session.seqNo, signed);
      var fits := c.size(packet) <= c.maxDatagram;
      var t := Numbered(s, id, Pumped(task, session.mountpoint, frame, packet, fits), cache);
      if fits then Sent(t, packet, session.addr) else t
  }

  // What the pump asks its subscriber for, depending on whether it is inside `get`.
  function GetStep(net: System, sub: nat): (e: Transport.Event)
    ensures e.BeginGet? || e.ResumeGet?
  {
    if sub < |net.subs| && !net.subs[sub].ledger.sub.consumer.Idle? then ResumeGet else BeginGet
  }

  function OnPump(c: Config, s: State, task: nat, timestamp: int): (r: State)
    requires WellFormed(s.net)
    ensures r.jobs == s.jobs && r.reaping == s.reaping && r.table == s.table && r.net.mountpoints == s.net.mountpoints
  {
    if !Runnable(s, task) || !s.tasks[task].phase.Streaming? then s
    else
      var sub := s.tasks[task].phase.sub;
      var t := Asked(s, Consume(sub, GetStep(s.net, sub)));
      match Handled(s.net, Consume(sub, GetStep(s.net, sub))).1
      case Answered(Got(frame)) => OnFrame(c, t, task, sub, frame, timestamp)
      case Answered(EndOfStream) => EndedTask(Asked(t, Leave(sub)), task)
      case _ => t
  }

  function OnCancel(s: State, task: nat): (r: State)
    requires WellFormed(s.net)
    ensures r.jobs == s.jobs && r.reaping == s.reaping && r.table == s.table && r.cache == s.cache
    ensures r.net.mountpoints == s.net.mountpoints
  {
    if !Runnable(s, task) || !s.tasks[task].cancelled then s
    else
      match s.tasks[task].phase
      case Created => EndedTask(s, task)
      case Streaming(sub) => EndedTask(Asked(Asked(s, Consume(sub, CancelGet)), Leave(sub)), task)
      case Ended => s
  }

  // A reaper pass picks the registered sessions whose deadline has passed.
  function StaleSessions(s: State, now: real): set<nat> {
    set id | id in s.registered && id in s.sessions && s.sessions[id].expiry < now
  }

  predicate Lists(picked: seq<nat>, ids: set<nat>) {
    && (forall i :: 0 <= i < |picked| ==> picked[i] in ids)
    && (forall id :: id in ids ==> id in picked)
    && (forall i, j :: 0 <= i < j < |picked| ==> picked[i] != picked[j])
  }

  // The reaper starts a pass only after its last one; it lists the stale sessions once each.
  predicate Picks(s: State, now: real, picked: seq<nat>) {
    s.reaping == [] && Lists(picked, StaleSessions(s, now))
  }

  function OnReapNext(s: State): (r: State)
    ensures r.net == s.net && r.requests == s.requests && r.table == s.table && r.cache == s.cache
    ensures r.jobs == s.jobs && r.pumped == s.pumped && r.outbox == s.outbox
  {
    if s.reaping == [] then s
    else
      var id, t := s.reaping[0].0, s.(reaping := s.reaping[1..]);
      if id in s.sessions then TornDown(t, id, None) else t
  }

  function Queued(s: State, now: real, picked: seq<nat>): State {
    s.(reaping := seq(|picked|, i requires 0 <= i < |picked| => (picked[i], now)))
  }

  function OnReapPass(s: State, now: real, picked: seq<nat>): (r: State)
    ensures r.net == s.net && r.requests == s.requests && r.table == s.table && r.cache == s.cache
    ensures r.jobs == s.jobs && r.pumped == s.pumped && r.outbox == s.outbox
  {
    if Picks(s, now, picked) then OnReapNext(Queued(s, now, picked)) else s
  }

  // Nobody else takes from or leaves the subscription of an egress task.
  predicate Foreign(s: State, r: Request) {
    r.Consume? || r.Leave? ==> forall t :: 0 <= t < |s.tasks| ==> s.tasks[t].phase != Streaming(r.sub)
  }

  function OnAsk(s: State, r: Request, site: Site): State
    requires WellFormed(s.net)
  {
    if Foreign(s, r) then Asked(s, r).(table := TableAfter(s, r, site), positions := PositionsAfter(s, r)) else s
  }

  // Events that cannot happen in a state change nothing.
  function Next(c: Config, s: State, e: ServerEvent): State
    requires WellFormed(s.net)
  {
    match e
    case Ask(r, site) => OnAsk(s, r, site)
    case HelloArrives(claims, requested, position, addr) =>
      s.(jobs := s.jobs + multiset{HelloJob(claims, requested, position, addr)})
    case DatagramArrives(id, addr, now, body) => OnDatagram(c, s, id, addr, now, body)
    case RunJob(job, freshId, now) => OnJob(c, s, job, freshId, now)
    case StartTask(task) => OnStart(s, task)
    case Pump(task, timestamp) => OnPump(c, s, task, timestamp)
    case DeliverCancel(task) => OnCancel(s, task)
    case ReapPass(now, picked) => OnReapPass(s, now, picked)
    case ReapNext(_) => OnReapNext(s)
  }

  function Played(c: Config, events: seq<ServerEvent>): (s: State)
    ensures s.net == Run(s.requests)
  {
    if events == [] then START
    else
      var before := Played(c, events[..|events| - 1]);
      RequestsAreTheRun(c, before, events[|events| - 1]);
      Next(c, before, events[|events| - 1])
  }

  lemma AskedFollowsRun(s: State, r: Request)
    requires s.net == Run(s.requests)
    ensures Asked(s, r).net == Run(Asked(s, r).requests)
  {
    assert (s.requests + [r])[..|s.requests|] == s.requests;
  }

  ghost predicate Follows(s: State) {
    s.net == Run(s.requests)
  }

  lemma StartFollows(s: State, task: nat)
    requires Follows(s)
    ensures Follows(OnStart(s, task))
  {
    if Runnable(s, task) && s.tasks[task].phase.Created? && !s.tasks[task].cancelled {
      var session := s.sessions[s.tasks[task].session];
      AskedFollowsRun(s, Subscribe(session.mountpoint));
      var t := Asked(s, Subscribe(session.mountpoint));
      SameFollows(t, OnStart(s, task));
    }
  }

  lemma SameFollows(s: State, s': State)
    requires Follows(s) && s'.net == s.net && s'.requests == s.requests
    ensures Follows(s')
  {
  }

  lemma FrameFollows(c: Config, s: State, task: nat, sub: nat, frame: Frame, timestamp: int)
    requires Runnable(s, task) && Follows(s)
    ensures Follows(OnFrame(c, s, task, sub, frame, timestamp))
  {
    AskedFollowsRun(s, Leave(sub));
  }

  lemma PumpFollows(c: Config, s: State, task: nat, timestamp: int)
    requires Follows(s)
    ensures Follows(OnPump(c, s, task, timestamp))
  {
    if Runnable(s, task) && s.tasks[task].phase.Streaming? {
      var sub := s.tasks[task].phase.sub;
      var step := Consume(sub, GetStep(s.net, sub));
      AskedFollowsRun(s, step);
      AskedFollowsRun(Asked(s, step), Leave(sub));
      var reply := Handled(s.net, step).1;
      if reply.Answered? && reply.outcome.Got? {
        FrameFollows(c, Asked(s, step), task, sub, reply.outcome.frame, timestamp);
      }
    }
  }

  lemma CancelFollows(s: State, task: nat)
    requires Follows(s)
    ensures Follows(OnCancel(s, task))
  {
    if Runnable(s, task) && s.tasks[task].cancelled && s.tasks[task].phase.Streaming? {
      var sub := s.tasks[task].phase.sub;
      var t := Asked(s, Consume(sub, CancelGet));
      AskedFollowsRun(s, Consume(sub, CancelGet));
      AskedFollowsRun(t, Leave(sub));
      SameFollows(Asked(t, Leave(sub)), OnCancel(s, task));
    }
  }

  // The caster inside the server is the caster after the requests made so far.
  lemma RequestsAreTheRun(c: Config, s: State, e: ServerEvent)
    requires Follows(s)
    ensures Follows(Next(c, s, e))
  {
    match e {
      case Ask(r, _) => AskedFollowsRun(s, r);
      case StartTask(task) => StartFollows(s, task);
      case Pump(task, timestamp) => PumpFollows(c, s, task, timestamp);
      case DeliverCancel(task) => CancelFollows(s, task);
      case _ =>
    }
  }
}

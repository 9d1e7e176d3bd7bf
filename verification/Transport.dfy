/** The bounded drop-oldest queue of one subscriber, and the transport that fans frames out.

    The event loop runs one step at a time. A consumer that finds the queue empty blocks in `get`;
    putting an item wakes it, but other steps may run before it resumes.
 */
module Transport {
  import opened RtcmSplitter

  const QUEUE_MAXSIZE := 15

  // A bytes object: which object it is, and what it holds.
  datatype Frame = Frame(ident: nat, bytes: seq<byte>)

  datatype Item = Sentinel | Data(frame: Frame)

  // Where the one consumer task stands: outside `get`, blocked in it, or woken and not yet resumed.
  datatype Consumer = Idle | Blocked | Woken

  datatype Subscriber = Subscriber(queue: seq<Item>, cancelled: bool, unfinished: nat, consumer: Consumer)

  // What a call of `get` leads to. Fault stands for the ValueError of a task_done too many.
  datatype Outcome = Got(frame: Frame) | EndOfStream | Waiting | Fault

  const FRESH := Subscriber([], false, 0, Idle)

  function Put(s: Subscriber, item: Item): Subscriber {
    s.(queue := s.queue + [item], unfinished := s.unfinished + 1,
       consumer := if s.consumer.Blocked? then Woken else s.consumer)
  }

  function Published(s: Subscriber, frame: Frame): Subscriber {
    if s.cancelled then s
    else if |s.queue| >= QUEUE_MAXSIZE then Put(s.(queue := s.queue[1..]), Data(frame))
    else Put(s, Data(frame))
  }

  // Draining stops early if task_done were called once too often.
  function Drained(s: Subscriber): Subscriber
    decreases |s.queue|
  {
    if s.queue == [] then s
    else if s.unfinished == 0 then s.(queue := s.queue[1..])
    else Drained(s.(queue := s.queue[1..], unfinished := s.unfinished - 1))
  }

  function SignalledDone(s: Subscriber): Subscriber {
    if |s.queue| >= QUEUE_MAXSIZE then s.(cancelled := true) else Put(s.(cancelled := true), Sentinel)
  }

  function CleanedUp(s: Subscriber): Subscriber {
    SignalledDone(Drained(s.(cancelled := true)))
  }

  function ShutDown(s: Subscriber): Subscriber {
    if s.cancelled then s else CleanedUp(s)
  }

  // Taking the head of the queue, or blocking on an empty one.
  function Take(s: Subscriber): (Subscriber, Outcome) {
    if s.queue == [] then (s.(consumer := Blocked), Waiting)
    else
      var rest := s.(queue := s.queue[1..], consumer := Idle);
      match s.queue[0]
      case Data(frame) => (rest, Got(frame))
      case Sentinel =>
        if rest.unfinished == 0 then (rest, Fault)
        else (rest.(unfinished := rest.unfinished - 1), EndOfStream)
  }

  function Get(s: Subscriber): (Subscriber, Outcome) {
    if s.cancelled then (s, EndOfStream) else Take(s)
  }

  // ---- the subscriber as an object -----------------------------------------

  class QueueTransportSubscriber {
    var queue: seq<Item>
    var cancelled: bool
    var unfinished: nat
    var consumer: Consumer

    ghost function View(): Subscriber
      reads this
    {
      Subscriber(queue, cancelled, unfinished, consumer)
    }

    constructor ()
      ensures View() == FRESH
    {
      queue, cancelled, unfinished, consumer := [], false, 0, Idle;
    }

    method PutNowait(item: Item) returns (full: bool)
      modifies this
      ensures full == (|old(queue)| >= QUEUE_MAXSIZE)
      ensures View() == if full then old(View()) else Put(old(View()), item)
    {
      full := |queue| >= QUEUE_MAXSIZE;
      if !full {
        queue := queue + [item];
        unfinished := unfinished + 1;
        if consumer.Blocked? {
          consumer := Woken;
        }
      }
    }

    method Drain()
      modifies this
      ensures View() == Drained(old(View()))
    {
      while queue != []
        invariant Drained(View()) == Drained(old(View()))
        decreases |queue|
      {
        queue := queue[1..];
        if unfinished == 0 {
          return;
        }
        unfinished := unfinished - 1;
      }
    }

    method Cleanup()
      modifies this
      ensures View() == CleanedUp(old(View()))
    {
      cancelled := true;
      Drain();
      cancelled := true;
      var full := PutNowait(Sentinel);
    }

    method Shutdown()
      modifies this
      ensures View() == ShutDown(old(View()))
    {
      if cancelled {
        return;
      }
      Cleanup();
    }

    method Publish(frame: Frame) returns (accepted: bool)
      requires |queue| <= QUEUE_MAXSIZE
      modifies this
      ensures accepted == !old(cancelled)
      ensures View() == Published(old(View()), frame) && |queue| <= QUEUE_MAXSIZE
    {
      if cancelled {
        return false;
      }
      if |queue| >= QUEUE_MAXSIZE {
        queue := queue[1..];
      }
      var full := PutNowait(Data(frame));
      accepted := !full;
    }

    // `get` up to its first suspension, and its resumption once woken.
    method BeginGet() returns (outcome: Outcome)
      modifies this
      ensures (View(), outcome) == Get(old(View()))
    {
      if cancelled {
        return EndOfStream;
      }
      outcome := ResumeGet();
    }

    method ResumeGet() returns (outcome: Outcome)
      modifies this
      ensures (View(), outcome) == Take(old(View()))
    {
      if queue == [] {
        consumer := Blocked;
        return Waiting;
      }
      var item := queue[0];
      queue, consumer := queue[1..], Idle;
      match item {
        case Data(frame) =>
          outcome := Got(frame);
        case Sentinel =>
          if unfinished == 0 {
            return Fault;
          }
          unfinished := unfinished - 1;
          outcome := EndOfStream;
      }
    }
  }

  // ---- the transport of one mountpoint --------------------------------------

  function LiveCount(subs: seq<Subscriber>): nat {
    if subs == [] then 0 else LiveCount(subs[..|subs| - 1]) + (if subs[|subs| - 1].cancelled then 0 else 1)
  }

  // Offering a frame to each subscriber.
  function AllPublished(subs: seq<Subscriber>, frame: Frame): (r: seq<Subscriber>)
    ensures |r| == |subs| && forall i :: 0 <= i < |subs| ==> r[i] == Published(subs[i], frame)
  {
    seq(|subs|, i requires 0 <= i < |subs| => Published(subs[i], frame))
  }

  lemma LiveCountNext(subs: seq<Subscriber>, i: nat)
    requires i < |subs|
    ensures LiveCount(subs[..i + 1]) == LiveCount(subs[..i]) + if subs[i].cancelled then 0 else 1
  {
    assert subs[..i + 1][..i] == subs[..i];
  }

  ghost function Views(subs: seq<QueueTransportSubscriber>): (v: seq<Subscriber>)
    reads subs
    ensures |v| == |subs| && forall i :: 0 <= i < |subs| ==> v[i] == subs[i].View()
  {
    seq(|subs|, i requires 0 <= i < |subs| reads subs => subs[i].View())
  }

  // list.remove: without the first occurrence.
  function Removed<T(==)>(list: seq<T>, x: T): (r: seq<T>)
    ensures forall y :: y in r ==> y in list
  {
    if list == [] then [] else if list[0] == x then list[1..] else [list[0]] + Removed(list[1..], x)
  }

  lemma {:induction false} RemovedAbsent<T>(list: seq<T>, x: T)
    requires x !in list
    ensures Removed(list, x) == list
  {
    if list != [] {
      RemovedAbsent(list[1..], x);
    }
  }

  lemma {:induction false} RemovedIsDistinct<T>(list: seq<T>, x: T)
    requires forall i, j :: 0 <= i < j < |list| ==> list[i] != list[j]
    ensures x !in Removed(list, x)
    ensures forall i, j :: 0 <= i < j < |Removed(list, x)| ==> Removed(list, x)[i] != Removed(list, x)[j]
  {
    if list != [] && list[0] != x {
      RemovedIsDistinct(list[1..], x);
      assert list[0] !in list[1..];
      assert list[0] !in Removed(list[1..], x);
    }
  }

  lemma {:induction false} RemovedAt<T>(list: seq<T>, x: T, p: nat)
    requires p < |list| && list[p] == x && x !in list[..p]
    ensures Removed(list, x) == list[..p] + list[p + 1..]
    decreases p
  {
    if p > 0 {
      RemovedAt(list[1..], x, p - 1);
      assert list[1..][..p - 1] == list[1..p] && list[1..][p..] == list[p + 1..];
      assert list[..p] == [list[0]] + list[1..p];
    }
  }

  method RemoveFirst<T(==)>(list: seq<T>, x: T) returns (rest: seq<T>)
    requires x in list
    ensures rest == Removed(list, x)
  {
    var at := 0;
    while list[at] != x
      invariant 0 <= at < |list| && x !in list[..at]
      invariant Removed(list, x) == list[..at] + Removed(list[at..], x)
      decreases |list| - at
    {
      assert list[at..][1..] == list[at + 1..];
      at := at + 1;
    }
    assert list[at..][1..] == list[at + 1..];
    rest := list[..at] + list[at + 1..];
  }

  class QueueTransport {
    var queues: seq<QueueTransportSubscriber>

    ghost predicate Valid()
      reads this, queues
    {
      && (forall i, j :: 0 <= i < j < |queues| ==> queues[i] != queues[j])
      && (forall i :: 0 <= i < |queues| ==> |queues[i].queue| <= QUEUE_MAXSIZE)
    }

    constructor ()
      ensures Valid() && queues == []
    {
      queues := [];
    }

    method Subscribe() returns (subscriber: QueueTransportSubscriber)
      requires Valid()
      modifies this
      ensures Valid() && fresh(subscriber) && subscriber.View() == FRESH
      ensures queues == old(queues) + [subscriber]
    {
      subscriber := new QueueTransportSubscriber();
      queues := queues + [subscriber];
    }

    // Leaving the subscription context.
    method Leave(subscriber: QueueTransportSubscriber)
      requires Valid()
      modifies this, subscriber
      ensures Valid()
      ensures queues == Removed(old(queues), subscriber)
      ensures subscriber.View() == ShutDown(old(subscriber.View()))
    {
      RemovedIsDistinct(queues, subscriber);
      if subscriber in queues {
        queues := RemoveFirst(queues, subscriber);
      } else {
        RemovedAbsent(queues, subscriber);
      }
      assert forall i :: 0 <= i < |queues| ==> queues[i] in old(queues) && queues[i] != subscriber;
      subscriber.Shutdown();
    }

    // Shutting down up to the suspension: nobody is listed any more, and the subscribers that were
    // have yet to be shut down, each by a task of its own.
    method Detach() returns (leaving: seq<QueueTransportSubscriber>)
      requires Valid()
      modifies this
      ensures Valid() && queues == [] && leaving == old(queues)
    {
      leaving := queues;
      queues := [];
    }

    // The whole of it, with nothing running in between.
    method Shutdown()
      requires Valid()
      modifies this, queues
      ensures Valid() && queues == []
      ensures forall s :: s in old(queues) ==> s.View() == ShutDown(old(s.View()))
    {
      var subscribers := Detach();
      for i := 0 to |subscribers|
        modifies subscribers
        invariant forall j :: 0 <= j < i ==> subscribers[j].View() == ShutDown(old(subscribers[j].View()))
        invariant forall j :: i <= j < |subscribers| ==> subscribers[j].View() == old(subscribers[j].View())
      {
        subscribers[i].Shutdown();
      }
    }

    // Every live subscriber accepts the frame, and the answer counts exactly those.
    method Publish(frame: Frame) returns (acks: nat)
      requires Valid()
      modifies queues
      ensures Valid()
      ensures acks == LiveCount(old(Views(queues)))
      ensures Views(queues) == AllPublished(old(Views(queues)), frame)
    {
      acks := 0;
      ghost var was := Views(queues);
      ghost var offered := AllPublished(was, frame);
      for i := 0 to |queues|
        invariant Valid() && acks == LiveCount(was[..i])
        invariant forall j :: 0 <= j < i ==> queues[j].View() == offered[j]
        invariant forall j :: i <= j < |queues| ==> queues[j].View() == was[j]
      {
        LiveCountNext(was, i);
        assert queues[i].View() == was[i] && offered[i] == Published(was[i], frame);
        var accepted := queues[i].Publish(frame);
        if accepted {
          acks := acks + 1;
        }
      }
      assert was[..|queues|] == was && Views(queues) == offered;
    }
  }

  // ---- runs of one subscriber ----------------------------------------------

  // CancelGet and TimeoutGet interrupt a consumer inside `get`; only the former marks the
  // subscriber cancelled.
  datatype Event = Publish(frame: Frame) | Shutdown | Cleanup | BeginGet | ResumeGet | CancelGet | TimeoutGet

  datatype Fate = Consumed | Evicted | Discarded

  // A subscriber with the frames it ever accepted, what became of each frame that has left the
  // queue (in order), and the frames its consumer got.
  datatype Ledger = Ledger(sub: Subscriber, accepted: seq<Frame>, fates: seq<Fate>, received: seq<Frame>)

  const EMPTY_LEDGER := Ledger(FRESH, [], [], [])

  // Events that cannot happen in a state (resuming a consumer that was not woken, say) change nothing.
  function Applied(s: Subscriber, e: Event): (Subscriber, Outcome) {
    match e
    case Publish(frame) => (Published(s, frame), Waiting)
    case Shutdown => (ShutDown(s), Waiting)
    case Cleanup => (CleanedUp(s), Waiting)
    case BeginGet => if s.consumer.Idle? then Get(s) else (s, Waiting)
    case ResumeGet => if s.consumer.Woken? then Take(s) else (s, Waiting)
    case CancelGet => if s.consumer.Idle? then (s, Waiting) else (s.(cancelled := true, consumer := Idle), Waiting)
    case TimeoutGet => if s.consumer.Idle? then (s, Waiting) else (s.(consumer := Idle), Waiting)
  }

  // A `get` interrupted by the cancellation of its task ends the subscription for good: nothing is
  // accepted or handed out any more. One that timed out changes nothing but that its consumer is out of it.
  lemma InterruptedGet(s: Subscriber, frame: Frame)
    requires !s.consumer.Idle?
    ensures var cancelled := Applied(s, CancelGet).0;
            && cancelled.consumer.Idle? && Published(cancelled, frame) == cancelled
            && Applied(cancelled, BeginGet) == (cancelled, EndOfStream)
    ensures Applied(s, TimeoutGet).0 == s.(consumer := Idle)
  {
  }

  function DataIn(queue: seq<Item>): nat {
    if queue == [] then 0 else (if queue[0].Data? then 1 else 0) + DataIn(queue[1..])
  }

  function Recorded(l: Ledger, e: Event): Ledger {
    var (sub, outcome) := Applied(l.sub, e);
    var l' := l.(sub := sub);
    if e.Publish? && !l.sub.cancelled then
      l'.(accepted := l.accepted + [e.frame],
          fates := l.fates + (if |l.sub.queue| >= QUEUE_MAXSIZE then [Evicted] else []))
    else if e.Cleanup? || (e.Shutdown? && !l.sub.cancelled) then
      l'.(fates := l.fates + seq(DataIn(l.sub.queue), _ => Discarded))
    else if outcome.Got? then
      l'.(fates := l.fates + [Consumed], received := l.received + [outcome.frame])
    else l'
  }

  function After(events: seq<Event>): Ledger {
    if events == [] then EMPTY_LEDGER else Recorded(After(events[..|events| - 1]), events[|events| - 1])
  }

  function Wrapped(frames: seq<Frame>): seq<Item> {
    seq(|frames|, i requires 0 <= i < |frames| => Data(frames[i]))
  }

  // Frames the consumer or an eviction took without a task_done.
  function NeverMarkedDone(fates: seq<Fate>): nat {
    if fates == [] then 0
    else NeverMarkedDone(fates[..|fates| - 1]) + (if fates[|fates| - 1].Discarded? then 0 else 1)
  }

  // The positions, in acceptance order, of the frames with fate Consumed.
  function ConsumedAt(fates: seq<Fate>): seq<nat> {
    if fates == [] then []
    else ConsumedAt(fates[..|fates| - 1]) + (if fates[|fates| - 1].Consumed? then [|fates| - 1] else [])
  }

  ghost predicate LedgerInv(l: Ledger) {
    && |l.fates| <= |l.accepted|
    && |l.sub.queue| <= QUEUE_MAXSIZE
    // The queue is the sentinel alone, or exactly the accepted frames whose fate is open.
    && (l.sub.queue == [Sentinel] || l.sub.queue == Wrapped(l.accepted[|l.fates|..]))
    && (l.sub.queue == [Sentinel] ==> l.sub.cancelled && |l.fates| == |l.accepted|)
    && (l.sub.consumer.Blocked? ==> !l.sub.cancelled && l.sub.queue == [])
    && (l.sub.consumer.Woken? ==> l.sub.queue != [])
    && (l.sub.consumer.Woken? && l.sub.cancelled ==> l.sub.queue == [Sentinel])
    && l.sub.unfinished == |l.sub.queue| + NeverMarkedDone(l.fates)
    && (!l.sub.cancelled ==> forall k :: 0 <= k < |l.fates| ==> !l.fates[k].Discarded?)
    && |l.received| == |ConsumedAt(l.fates)|
    && (forall i :: 0 <= i < |l.received| ==>
          ConsumedAt(l.fates)[i] < |l.fates| && l.received[i] == l.accepted[ConsumedAt(l.fates)[i]])
    && (forall i, j :: 0 <= i < j < |l.received| ==> ConsumedAt(l.fates)[i] < ConsumedAt(l.fates)[j])
  }

  lemma {:induction false} DrainNeverUnderflows(s: Subscriber)
    requires s.unfinished >= |s.queue|
    ensures Drained(s) == s.(queue := [], unfinished := s.unfinished - |s.queue|)
    decreases |s.queue|
  {
    if s.queue != [] {
      DrainNeverUnderflows(s.(queue := s.queue[1..], unfinished := s.unfinished - 1));
    }
  }

  lemma {:induction false} DataInWrapped(frames: seq<Frame>)
    ensures DataIn(Wrapped(frames)) == |frames|
  {
    if frames != [] {
      assert Wrapped(frames)[1..] == Wrapped(frames[1..]);
      DataInWrapped(frames[1..]);
    }
  }

  lemma {:induction false} DiscardingMarksDone(fates: seq<Fate>, n: nat)
    ensures NeverMarkedDone(fates + seq(n, _ => Discarded)) == NeverMarkedDone(fates)
    ensures ConsumedAt(fates + seq(n, _ => Discarded)) == ConsumedAt(fates)
  {
    var more := fates + seq(n, _ => Discarded);
    if n == 0 {
      assert more == fates;
    } else {
      assert more[..|more| - 1] == fates + seq(n - 1, _ => Discarded);
      DiscardingMarksDone(fates, n - 1);
    }
  }

  lemma CleanupKeepsLedger(l: Ledger)
    requires LedgerInv(l)
    ensures LedgerInv(Recorded(l, Cleanup))
    ensures Recorded(l, Cleanup).sub.queue == [Sentinel]
  {
    DrainNeverUnderflows(l.sub.(cancelled := true));
    DataInWrapped(l.accepted[|l.fates|..]);
    DiscardingMarksDone(l.fates, DataIn(l.sub.queue));
  }

  lemma PublishKeepsLedger(l: Ledger, frame: Frame)
    requires LedgerInv(l)
    ensures LedgerInv(Recorded(l, Publish(frame)))
  {
    if !l.sub.cancelled {
      assert l.fates + [] == l.fates;
      EvictingIsNotConsuming(l.fates);
      PublishQueues(l, frame);
    }
  }

  lemma EvictingIsNotConsuming(fates: seq<Fate>)
    ensures NeverMarkedDone(fates + [Evicted]) == NeverMarkedDone(fates) + 1
    ensures ConsumedAt(fates + [Evicted]) == ConsumedAt(fates)
  {
    assert (fates + [Evicted])[..|fates|] == fates;
  }

  // The queue after a publication: the frames whose fate is open, the new one last.
  lemma PublishQueues(l: Ledger, frame: Frame)
    requires LedgerInv(l) && !l.sub.cancelled
    ensures var l' := Recorded(l, Publish(frame));
            && |l'.fates| <= |l'.accepted| && l'.sub.queue == Wrapped(l'.accepted[|l'.fates|..])
            && l'.sub.queue != [] && l'.sub.queue[|l'.sub.queue| - 1] == Data(frame)
  {
    var l' := Recorded(l, Publish(frame));
    var evicted := if |l.sub.queue| >= QUEUE_MAXSIZE then 1 else 0;
    assert l'.sub.queue == l.sub.queue[evicted..] + [Data(frame)];
    assert l'.accepted[|l'.fates|..] == l.accepted[|l.fates|..][evicted..] + [frame];
  }

  lemma TakeKeepsLedger(l: Ledger, e: Event)
    requires LedgerInv(l) && (e.BeginGet? || e.ResumeGet?)
    ensures LedgerInv(Recorded(l, e))
  {
    var l' := Recorded(l, e);
    if Applied(l.sub, e).1.Got? {
      assert l'.fates[..|l.fates|] == l.fates;
      assert l.sub.queue[0] == Data(l.accepted[|l.fates|]);
      assert l'.sub.queue == Wrapped(l'.accepted[|l'.fates|..]);
      assert l'.sub.queue != [] ==> l'.sub.queue[0].Data?;
    }
  }

  lemma EveryEventKeepsLedger(l: Ledger, e: Event)
    requires LedgerInv(l)
    ensures LedgerInv(Recorded(l, e))
  {
    match e {
      case Publish(frame) => PublishKeepsLedger(l, frame);
      case Shutdown =>
        if !l.sub.cancelled {
          CleanupKeepsLedger(l);
        }
      case Cleanup => CleanupKeepsLedger(l);
      case BeginGet => TakeKeepsLedger(l, e);
      case ResumeGet => TakeKeepsLedger(l, e);
      case CancelGet =>
      case TimeoutGet =>
    }
  }

  // What a subscriber's events do to what it accepted and to whether it is cancelled.
  lemma AcceptedAfter(l: Ledger, e: Event)
    ensures Recorded(l, e).accepted == l.accepted + if e.Publish? && !l.sub.cancelled then [e.frame] else []
    ensures l.sub.cancelled || e.Shutdown? || e.Cleanup? ==> Recorded(l, e).sub.cancelled
    ensures e.Publish? ==> Recorded(l, e).sub.cancelled == l.sub.cancelled
  {
    CancellingIsForGood(l.sub.(cancelled := true));
  }

  lemma {:induction false} CancellingIsForGood(s: Subscriber)
    requires s.cancelled
    ensures Drained(s).cancelled
    decreases |s.queue|
  {
    if s.queue != [] && s.unfinished != 0 {
      CancellingIsForGood(s.(queue := s.queue[1..], unfinished := s.unfinished - 1));
    }
  }

  // Every reachable state: the ledger balances, frames come out in the order they went in and
  // at most once, and a live queue is a run of at most 15 of the newest accepted frames.
  lemma {:induction false} LedgerBalances(events: seq<Event>)
    ensures LedgerInv(After(events))
  {
    if events != [] {
      LedgerBalances(events[..|events| - 1]);
      EveryEventKeepsLedger(After(events[..|events| - 1]), events[|events| - 1]);
    }
  }

  // A consumer is never left blocked on a cancelled subscriber: if it was inside `get`, it has
  // been woken and finds the sentinel. Shutting down wakes a blocked consumer, and from then on
  // nothing is accepted and every `get` ends the stream without a fault.
  lemma ShutdownNeverHangs(events: seq<Event>)
    ensures var s := After(events).sub;
            && (s.consumer.Blocked? ==>
                  !s.cancelled && ShutDown(s) == Subscriber([Sentinel], true, s.unfinished + 1, Woken))
            && (s.cancelled && s.consumer.Woken? ==> Take(s).1 == EndOfStream)
            && (s.cancelled && s.consumer.Idle? ==> Get(s) == (s, EndOfStream))
            && (s.cancelled ==> forall frame :: Published(s, frame) == s)
            && Get(s).1 != Fault && Take(s).1 != Fault
  {
    LedgerBalances(events);
    DrainNeverUnderflows(After(events).sub.(cancelled := true));
  }

  // Event i is the acceptance of frame k+15 while the fate of frame k is still open.
  ghost predicate PushesOut(events: seq<Event>, i: int, k: nat) {
    && 0 <= i < |events| && events[i].Publish?
    && var l := After(events[..i]);
       !l.sub.cancelled && |l.accepted| == k + QUEUE_MAXSIZE && |l.fates| == k
  }

  lemma NewFates(l: Ledger, e: Event, k: nat)
    requires LedgerInv(l) && |l.fates| <= k < |Recorded(l, e).fates|
    ensures Recorded(l, e).fates[k] == Evicted
            <==> e.Publish? && !l.sub.cancelled && |l.accepted| == k + QUEUE_MAXSIZE && |l.fates| == k
  {
  }

  lemma AfterNext(events: seq<Event>, n: nat)
    requires n < |events|
    ensures After(events[..n + 1]) == Recorded(After(events[..n]), events[n])
  {
    assert events[..n + 1][..n] == events[..n];
  }

  lemma PushingOutDecides(l: Ledger, e: Event)
    requires LedgerInv(l) && e.Publish? && !l.sub.cancelled && |l.accepted| == |l.fates| + QUEUE_MAXSIZE
    ensures |Recorded(l, e).fates| == |l.fates| + 1
  {
  }

  // The ledgers a run goes through.
  ghost predicate AreLedgersOf(events: seq<Event>, ledgers: seq<Ledger>) {
    && |ledgers| == |events| + 1
    && forall n :: 0 <= n < |events| ==> LedgerInv(ledgers[n]) && ledgers[n + 1] == Recorded(ledgers[n], events[n])
  }

  function Ledgers(events: seq<Event>): (ledgers: seq<Ledger>)
    ensures |ledgers| == |events| + 1 && forall n :: 0 <= n <= |events| ==> ledgers[n] == After(events[..n])
  {
    seq(|events| + 1, n requires 0 <= n <= |events| => After(events[..n]))
  }

  lemma LedgersAreTheRun(events: seq<Event>)
    ensures AreLedgersOf(events, Ledgers(events))
  {
    forall n | 0 <= n < |events|
      ensures LedgerInv(Ledgers(events)[n]) && Ledgers(events)[n + 1] == Recorded(Ledgers(events)[n], events[n])
    {
      LedgerBalances(events[..n]);
      AfterNext(events, n);
    }
  }

  lemma {:induction false} FatesOnlyGrow(events: seq<Event>, ledgers: seq<Ledger>, i: nat, n: nat)
    requires AreLedgersOf(events, ledgers) && i <= n <= |events|
    ensures |ledgers[i].fates| <= |ledgers[n].fates|
    decreases n
  {
    if i < n {
      FatesOnlyGrow(events, ledgers, i, n - 1);
    }
  }

  lemma PushedOutIsDecided(events: seq<Event>, i: nat, k: nat, n: nat)
    requires PushesOut(events, i, k) && i < n <= |events|
    ensures k < |After(events[..n]).fates|
  {
    var ledgers := Ledgers(events);
    LedgersAreTheRun(events);
    PushingOutDecides(ledgers[i], events[i]);
    FatesOnlyGrow(events, ledgers, i + 1, n);
  }

  lemma PushesOutEarlier(events: seq<Event>, i: int, k: nat)
    requires events != [] && i < |events| - 1
    ensures PushesOut(events, i, k) <==> PushesOut(events[..|events| - 1], i, k)
  {
    if 0 <= i {
      assert events[..|events| - 1][..i] == events[..i];
    }
  }

  lemma DecidedFateStays(l: Ledger, e: Event, k: nat)
    requires k < |l.fates|
    ensures k < |Recorded(l, e).fates| && Recorded(l, e).fates[k] == l.fates[k]
  {
  }

  // The last event decides frame k.
  lemma DecidedNow(events: seq<Event>, k: nat)
    requires events != [] && |After(events[..|events| - 1]).fates| <= k < |After(events).fates|
    ensures After(events).fates[k] == Evicted <==> PushesOut(events, |events| - 1, k)
    ensures forall i: int :: i < |events| - 1 ==> !PushesOut(events, i, k)
  {
    var n := |events| - 1;
    LedgerBalances(events[..n]);
    NewFates(After(events[..n]), events[n], k);
    forall i: int | i < n
      ensures !PushesOut(events, i, k)
    {
      if PushesOut(events, i, k) {
        PushedOutIsDecided(events, i, k, n);
      }
    }
  }

  // A frame already decided is not pushed out by the last event.
  lemma PushedOutBefore(events: seq<Event>, i: int, k: nat)
    requires events != [] && k < |After(events[..|events| - 1]).fates|
    ensures PushesOut(events, i, k) <==> PushesOut(events[..|events| - 1], i, k)
  {
    if i < |events| - 1 {
      PushesOutEarlier(events, i, k);
    }
  }

  ghost predicate IsPushedOut(events: seq<Event>, k: nat) {
    exists i :: PushesOut(events, i, k)
  }

  lemma IsPushedOutBefore(events: seq<Event>, init: seq<Event>, k: nat)
    requires events != [] && init == events[..|events| - 1] && k < |After(init).fates|
    ensures IsPushedOut(events, k) <==> IsPushedOut(init, k)
  {
    forall i: int
      ensures PushesOut(events, i, k) <==> PushesOut(init, i, k)
    {
      PushedOutBefore(events, i, k);
    }
  }

  lemma IsPushedOutNow(events: seq<Event>, k: nat)
    requires events != [] && |After(events[..|events| - 1]).fates| <= k < |After(events).fates|
    ensures After(events).fates[k] == Evicted <==> IsPushedOut(events, k)
  {
    DecidedNow(events, k);
    assert forall i: int :: PushesOut(events, i, k) ==> i == |events| - 1;
  }

  // Frame k is evicted exactly when frame k+15 is accepted while k is still in the queue.
  lemma {:induction false} EvictedIffFifteenBehind(events: seq<Event>, k: nat)
    requires k < |After(events).fates|
    ensures After(events).fates[k] == Evicted <==> IsPushedOut(events, k)
    decreases |events|
  {
    var init := events[..|events| - 1];
    if k < |After(init).fates| {
      EvictedIffFifteenBehind(init, k);
      DecidedFateStays(After(init), events[|events| - 1], k);
      IsPushedOutBefore(events, init, k);
    } else {
      IsPushedOutNow(events, k);
    }
  }

  // The queue counts as fully processed only if nothing was ever consumed or evicted: neither
  // calls task_done, so joining the queue of a subscriber that delivered a frame never ends.
  lemma JoinEndsIff(events: seq<Event>)
    ensures var l := After(events);
            l.sub.unfinished == 0 <==> l.sub.queue == [] && forall k :: 0 <= k < |l.fates| ==> l.fates[k] == Discarded
  {
    LedgerBalances(events);
    AllMarkedDoneIff(After(events).fates);
  }

  // One frame, published and consumed, is enough for that.
  lemma JoinOfOneFrameNeverEnds(frame: Frame)
    ensures var s := After([Publish(frame), BeginGet]).sub;
            s.queue == [] && s.consumer.Idle? && !s.cancelled && s.unfinished == 1
  {
    var events := [Publish(frame), BeginGet];
    AfterNext(events, 0);
    AfterNext(events, 1);
    assert events[..0] == [] && events[..2] == events;
  }

  lemma {:induction false} AllMarkedDoneIff(fates: seq<Fate>)
    ensures NeverMarkedDone(fates) == 0 <==> forall k :: 0 <= k < |fates| ==> fates[k] == Discarded
  {
    if fates != [] {
      AllMarkedDoneIff(fates[..|fates| - 1]);
    }
  }
}

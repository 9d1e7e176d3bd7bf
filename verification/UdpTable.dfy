/** The mountpoint table the UDP sessions are resolved against, over whole runs: its order is that of
    registration, which decides between equally near mountpoints, and its sites are those last given.
 */
module UdpTable {
  import opened Caster
  import opened Nearest
  import opened UdpRuns
  import opened UdpSafety
  import opened UdpSessions
  import opened Wrappers

  // The step registers a mountpoint that was not.
  predicate Enters(s: State, e: ServerEvent, m: string) {
    e.Ask? && e.request.Register? && e.request.mountpoint == m && e.request.validName && m !in s.net.mountpoints
  }

  predicate Unlists(e: ServerEvent, m: string) {
    e.Ask? && e.request == Unregister(m)
  }

  // The site the step gives to a mountpoint by registering it, for the first time or again.
  function SiteGiven(s: State, e: ServerEvent, m: string): Option<Site> {
    if e.Ask? && e.request.Register? && e.request.mountpoint == m && (m in s.net.mountpoints || e.request.validName)
    then Some(e.site) else None
  }

  // Step r registered the listing's mountpoint, and it was not unregistered since; step g gave it its
  // site, and no later step another.
  ghost predicate ListedBy(events: seq<ServerEvent>, states: seq<State>, n: nat, l: Listing, r: nat, g: nat) {
    && r <= g < n <= |events| < |states|
    && Enters(states[r], events[r], l.name) && SiteGiven(states[g], events[g], l.name) == Some(l.site)
    && (forall k :: r < k < n ==> !Unlists(events[k], l.name))
    && (forall k :: g < k < n ==> SiteGiven(states[k], events[k], l.name) == None)
  }

  ghost predicate IsByRegistration(
      events: seq<ServerEvent>, states: seq<State>, n: nat, table: seq<Listing>, entered: seq<nat>, given: seq<nat>) {
    && |entered| == |given| == |table|
    && (forall i :: 0 <= i < |table| ==> ListedBy(events, states, n, table[i], entered[i], given[i]))
    && (forall i, j :: 0 <= i < j < |table| ==> entered[i] < entered[j])
  }

  // ---- one step ------------------------------------------------------------

  predicate Lists(s: State, s': State, e: ServerEvent) {
    s'.table == if e.Ask? then TableAfter(s, e.request, e.site) else s.table
  }

  lemma StepLists(c: Config, s: State, e: ServerEvent)
    requires WellFormed(s.net)
    ensures Lists(s, Next(c, s, e), e)
  {
    if !e.Ask? {
      ServerStepKeepsTable(c, s, e);
    }
  }

  lemma StaysListed(events: seq<ServerEvent>, states: seq<State>, n: nat, l: Listing, r: nat, g: nat)
    requires n < |events| < |states| && ListedBy(events, states, n, l, r, g)
    requires !Unlists(events[n], l.name) && SiteGiven(states[n], events[n], l.name) == None
    ensures ListedBy(events, states, n + 1, l, r, g)
  {
  }

  lemma SiteIsReplaced(events: seq<ServerEvent>, states: seq<State>, n: nat, l: Listing, r: nat, g: nat, site: Site)
    requires n < |events| < |states| && ListedBy(events, states, n, l, r, g)
    requires SiteGiven(states[n], events[n], l.name) == Some(site)
    ensures ListedBy(events, states, n + 1, Listing(l.name, site), r, n)
  {
  }

  lemma NothingChanges(
      events: seq<ServerEvent>, states: seq<State>, n: nat, table: seq<Listing>, entered: seq<nat>, given: seq<nat>)
    requires n < |events| < |states| && IsByRegistration(events, states, n, table, entered, given)
    requires forall i :: 0 <= i < |table| ==>
               !Unlists(events[n], table[i].name) && SiteGiven(states[n], events[n], table[i].name) == None
    ensures IsByRegistration(events, states, n + 1, table, entered, given)
  {
    forall i | 0 <= i < |table|
      ensures ListedBy(events, states, n + 1, table[i], entered[i], given[i])
    {
      StaysListed(events, states, n, table[i], entered[i], given[i]);
    }
  }

  lemma OneIsAppended(
      events: seq<ServerEvent>, states: seq<State>, n: nat, table: seq<Listing>, entered: seq<nat>, given: seq<nat>,
      l: Listing)
    requires n < |events| < |states| && IsByRegistration(events, states, n + 1, table, entered, given)
    requires forall i :: 0 <= i < |table| ==> entered[i] < n
    requires Enters(states[n], events[n], l.name) && SiteGiven(states[n], events[n], l.name) == Some(l.site)
    ensures IsByRegistration(events, states, n + 1, table + [l], entered + [n], given + [n])
  {
  }

  lemma OneIsReplaced(
      events: seq<ServerEvent>, states: seq<State>, n: nat, table: seq<Listing>, entered: seq<nat>, given: seq<nat>,
      m: string, site: Site)
    returns (given': seq<nat>)
    requires n < |events| < |states| && IsByRegistration(events, states, n, table, entered, given)
    requires SiteGiven(states[n], events[n], m) == Some(site)
    ensures IsByRegistration(events, states, n + 1, Replaced(table, m, site), entered, given')
  {
    given' := seq(|table|, i requires 0 <= i < |table| => if table[i].name == m then n else given[i]);
    forall i | 0 <= i < |table|
      ensures ListedBy(events, states, n + 1, Replaced(table, m, site)[i], entered[i], given'[i])
    {
      if table[i].name == m {
        SiteIsReplaced(events, states, n, table[i], entered[i], given[i], site);
      } else {
        StaysListed(events, states, n, table[i], entered[i], given[i]);
      }
    }
  }

  lemma {:induction false} WithoutNone(table: seq<Listing>, m: string)
    requires forall j :: 0 <= j < |table| ==> table[j].name != m
    ensures Without(table, m) == table
  {
    if table != [] {
      WithoutNone(table[1..], m);
      assert table == [table[0]] + table[1..];
    }
  }

  lemma {:induction false} WithoutOne(table: seq<Listing>, m: string, i: nat)
    requires i < |table| && table[i].name == m && Distinct(table)
    ensures Without(table, m) == table[..i] + table[i + 1..]
  {
    if i == 0 {
      WithoutNone(table[1..], m);
    } else {
      WithoutOne(table[1..], m, i - 1);
      assert table[..i] == [table[0]] + table[1..][..i - 1];
      assert table[i + 1..] == table[1..][i..];
    }
  }

  lemma OneIsCut(
      events: seq<ServerEvent>, states: seq<State>, n: nat, table: seq<Listing>, entered: seq<nat>, given: seq<nat>,
      m: string, i: nat)
    requires n < |events| < |states| && IsByRegistration(events, states, n, table, entered, given)
    requires events[n].Ask? && events[n].request == Unregister(m) && i < |table|
    requires Distinct(table) && table[i].name == m
    ensures IsByRegistration(
              events, states, n + 1, table[..i] + table[i + 1..], entered[..i] + entered[i + 1..],
              given[..i] + given[i + 1..])
  {
    forall j | 0 <= j < |table| && j != i
      ensures ListedBy(events, states, n + 1, table[j], entered[j], given[j])
    {
      StaysListed(events, states, n, table[j], entered[j], given[j]);
    }
  }

  // ---- over a run ----------------------------------------------------------

  ghost predicate ListsAll(events: seq<ServerEvent>, states: seq<State>) {
    && |states| == |events| + 1 && states[0] == START
    && (forall k :: 0 <= k < |states| ==> TableInv(states[k]))
    && forall k :: 0 <= k < |events| ==> Lists(states[k], states[k + 1], events[k])
  }

  lemma RunListsAll(c: Config, events: seq<ServerEvent>, states: seq<State>)
    requires IsRun(c, events, states)
    ensures ListsAll(events, states)
  {
    forall k | 0 <= k < |states|
      ensures TableInv(states[k])
    {
      TableFollowsRegistry(c, events, states, k);
    }
    forall k | 0 <= k < |events|
      ensures Lists(states[k], states[k + 1], events[k])
    {
      StepLists(c, states[k], events[k]);
    }
  }

  lemma UnregisteringCuts(
      events: seq<ServerEvent>, states: seq<State>, n: nat, table: seq<Listing>, entered: seq<nat>, given: seq<nat>,
      m: string)
    returns (entered': seq<nat>, given': seq<nat>)
    requires n < |events| < |states| && IsByRegistration(events, states, n, table, entered, given) && Distinct(table)
    requires events[n].Ask? && events[n].request == Unregister(m)
    ensures IsByRegistration(events, states, n + 1, Without(table, m), entered', given')
  {
    if i: nat :| i < |table| && table[i].name == m {
      WithoutOne(table, m, i);
      OneIsCut(events, states, n, table, entered, given, m, i);
      entered', given' := entered[..i] + entered[i + 1..], given[..i] + given[i + 1..];
    } else {
      WithoutNone(table, m);
      entered', given' := entered, given;
      NothingChanges(events, states, n, table, entered, given);
    }
  }

  lemma RegisteringAppends(
      events: seq<ServerEvent>, states: seq<State>, n: nat, table: seq<Listing>, entered: seq<nat>, given: seq<nat>,
      l: Listing)
    requires n < |events| < |states| && IsByRegistration(events, states, n, table, entered, given)
    requires forall i :: 0 <= i < |table| ==> table[i].name != l.name
    requires Enters(states[n], events[n], l.name) && events[n].site == l.site
    ensures IsByRegistration(events, states, n + 1, table + [l], entered + [n], given + [n])
  {
    NothingChanges(events, states, n, table, entered, given);
    OneIsAppended(events, states, n, table, entered, given, l);
  }

  lemma StepByRegistration(
      events: seq<ServerEvent>, states: seq<State>, n: nat, s: State, entered: seq<nat>, given: seq<nat>)
    returns (entered': seq<nat>, given': seq<nat>)
    requires n < |events| < |states| && s == states[n] && TableInv(s) && Lists(s, states[n + 1], events[n])
    requires IsByRegistration(events, states, n, s.table, entered, given)
    ensures IsByRegistration(events, states, n + 1, states[n + 1].table, entered', given')
  {
    var e := events[n];
    entered', given' := entered, given;
    if e.Ask? && e.request.Register? && e.request.mountpoint in s.net.mountpoints {
      given' := OneIsReplaced(events, states, n, s.table, entered, given, e.request.mountpoint, e.site);
    } else if e.Ask? && e.request.Register? && e.request.validName {
      assert forall i :: 0 <= i < |s.table| ==> s.table[i].name in Names(s.table);
      RegisteringAppends(events, states, n, s.table, entered, given, Listing(e.request.mountpoint, e.site));
      entered', given' := entered + [n], given + [n];
    } else if e.Ask? && e.request.Unregister? {
      entered', given' := UnregisteringCuts(events, states, n, s.table, entered, given, e.request.mountpoint);
    } else {
      NothingChanges(events, states, n, s.table, entered, given);
    }
  }

  lemma {:induction false} TableIn(events: seq<ServerEvent>, states: seq<State>, n: nat)
    returns (entered: seq<nat>, given: seq<nat>)
    requires ListsAll(events, states) && n <= |events|
    ensures IsByRegistration(events, states, n, states[n].table, entered, given)
    decreases n
  {
    entered, given := [], [];
    if n > 0 {
      entered, given := TableIn(events, states, n - 1);
      entered, given := StepByRegistration(events, states, n - 1, states[n - 1], entered, given);
    }
  }

  // In every reachable state the table lists the mountpoints in the order they were registered in, each
  // with the site its latest registration gave.
  lemma TableIsByRegistration(c: Config, events: seq<ServerEvent>, states: seq<State>, n: nat)
    returns (entered: seq<nat>, given: seq<nat>)
    requires IsRun(c, events, states) && n <= |events|
    ensures IsByRegistration(events, states, n, states[n].table, entered, given)
  {
    RunListsAll(c, events, states);
    entered, given := TableIn(events, states, n);
  }
}

/** Tracking the antenna reference point a base station reports, with real-valued coordinates. */
module ArpTracker {

  datatype Ecef = Ecef(x: real, y: real, z: real)

  datatype Report = Report(mountpoint: string, position: Ecef)

  // The position each mountpoint is compared against, and the changes counted for it.
  datatype Arp = Arp(reference: map<string, Ecef>, changes: map<string, nat>)

  const UNTRACKED := Arp(map[], map[])

  function Abs(a: real): real {
    if a < 0.0 then -a else a
  }

  function Max(a: real, b: real): real {
    if a < b then b else a
  }

  function Deviation(a: Ecef, b: Ecef): real {
    Max(Abs(a.x - b.x), Max(Abs(a.y - b.y), Abs(a.z - b.z)))
  }

  function Changes(s: Arp, mountpoint: string): nat {
    if mountpoint in s.changes then s.changes[mountpoint] else 0
  }

  predicate Deviates(s: Arp, r: Report, threshold: real) {
    r.mountpoint in s.reference && Deviation(r.position, s.reference[r.mountpoint]) > threshold
  }

  function Step(s: Arp, r: Report, threshold: real): Arp {
    if r.mountpoint !in s.reference then s.(reference := s.reference[r.mountpoint := r.position])
    else if Deviates(s, r, threshold) then
      Arp(s.reference[r.mountpoint := r.position], s.changes[r.mountpoint := Changes(s, r.mountpoint) + 1])
    else s
  }

  class Tracker {
    const threshold: real
    var reference: map<string, Ecef>
    var changes: map<string, nat>

    ghost function View(): Arp
      reads this
    {
      Arp(reference, changes)
    }

    constructor (threshold: real)
      ensures View() == UNTRACKED && this.threshold == threshold
    {
      this.threshold := threshold;
      reference, changes := map[], map[];
    }

    // The position part of a 1005 or 1006 message.
    method Observe(mountpoint: string, x: real, y: real, z: real)
      modifies this
      ensures View() == Step(old(View()), Report(mountpoint, Ecef(x, y, z)), threshold)
    {
      if mountpoint !in reference {
        reference := reference[mountpoint := Ecef(x, y, z)];
        return;
      }
      var ref := reference[mountpoint];
      if Max(Abs(x - ref.x), Max(Abs(y - ref.y), Abs(z - ref.z))) > threshold {
        changes := changes[mountpoint := (if mountpoint in changes then changes[mountpoint] else 0) + 1];
        reference := reference[mountpoint := Ecef(x, y, z)];
      }
    }
  }

  // ---- runs ----------------------------------------------------------------

  function After(reports: seq<Report>, threshold: real): Arp {
    if reports == [] then UNTRACKED
    else Step(After(reports[..|reports| - 1], threshold), reports[|reports| - 1], threshold)
  }

  // Report k is counted as a change of its mountpoint's position.
  predicate ChangedAt(reports: seq<Report>, threshold: real, k: nat) {
    k < |reports| && Deviates(After(reports[..k], threshold), reports[k], threshold)
  }

  // No change of this mountpoint is counted by the reports numbered from..until-1.
  ghost predicate Steady(reports: seq<Report>, threshold: real, mountpoint: string, from: nat, until: nat) {
    forall k: nat :: from <= k < until && k < |reports| && reports[k].mountpoint == mountpoint ==>
        !ChangedAt(reports, threshold, k)
  }

  lemma AfterNext(reports: seq<Report>, threshold: real, n: nat)
    requires n < |reports|
    ensures After(reports[..n + 1], threshold) == Step(After(reports[..n], threshold), reports[n], threshold)
  {
    assert reports[..n + 1][..n] == reports[..n];
  }

  // Since a report, as long as no change is counted, the reference stays within the threshold of it
  // on every axis.
  lemma {:induction false} SteadyReportsStayNear(reports: seq<Report>, threshold: real, i: nat, n: nat)
    requires threshold >= 0.0 && i < n <= |reports|
    requires Steady(reports, threshold, reports[i].mountpoint, i + 1, n)
    ensures var s := After(reports[..n], threshold);
            && reports[i].mountpoint in s.reference
            && var a, b := reports[i].position, s.reference[reports[i].mountpoint];
               && -threshold <= a.x - b.x <= threshold
               && -threshold <= a.y - b.y <= threshold
               && -threshold <= a.z - b.z <= threshold
    decreases n
  {
    AfterNext(reports, threshold, n - 1);
    if i < n - 1 {
      SteadyReportsStayNear(reports, threshold, i, n - 1);
    }
  }

  // Slow drift cannot go unnoticed: between any two reports of a mountpoint more than twice the
  // threshold apart on some axis, a change is counted.
  lemma DriftIsNoticed(reports: seq<Report>, threshold: real, i: nat, j: nat)
    requires threshold >= 0.0 && i < j < |reports| && reports[i].mountpoint == reports[j].mountpoint
    requires var a, b := reports[i].position, reports[j].position;
             || a.x - b.x > 2.0 * threshold || b.x - a.x > 2.0 * threshold
             || a.y - b.y > 2.0 * threshold || b.y - a.y > 2.0 * threshold
             || a.z - b.z > 2.0 * threshold || b.z - a.z > 2.0 * threshold
    ensures exists k: nat ::
              i < k <= j && reports[k].mountpoint == reports[i].mountpoint && ChangedAt(reports, threshold, k)
  {
    if Steady(reports, threshold, reports[i].mountpoint, i + 1, j + 1) {
      SteadyReportsStayNear(reports, threshold, i, j + 1);
      SteadyReportsStayNear(reports, threshold, j, j + 1);
    }
  }

  function Midpoint(a: Ecef, b: Ecef): Ecef {
    Ecef((a.x + b.x) / 2.0, (a.y + b.y) / 2.0, (a.z + b.z) / 2.0)
  }

  lemma MidpointIsNear(a: Ecef, b: Ecef, threshold: real)
    requires Deviation(a, b) <= 2.0 * threshold
    ensures Deviation(a, Midpoint(a, b)) <= threshold && Deviation(b, Midpoint(a, b)) <= threshold
  {
  }

  // Twice the threshold is the exact bound: up to there on every axis, a run exists that counts no change.
  lemma DriftUpToTwiceCanHide(threshold: real, a: Ecef, b: Ecef, mountpoint: string) returns (reports: seq<Report>)
    requires -2.0 * threshold <= a.x - b.x <= 2.0 * threshold
    requires -2.0 * threshold <= a.y - b.y <= 2.0 * threshold
    requires -2.0 * threshold <= a.z - b.z <= 2.0 * threshold
    ensures |reports| == 3 && reports[1] == Report(mountpoint, a) && reports[2] == Report(mountpoint, b)
    ensures Steady(reports, threshold, mountpoint, 0, 3)
  {
    var middle := Midpoint(a, b);
    MidpointIsNear(a, b, threshold);
    reports := [Report(mountpoint, middle), Report(mountpoint, a), Report(mountpoint, b)];
    assert reports[..0] == [];
    AfterNext(reports, threshold, 0);
    AfterNext(reports, threshold, 1);
  }

  lemma SteadyNext(reports: seq<Report>, threshold: real, mountpoint: string, from: nat, n: nat)
    requires n < |reports| && Steady(reports, threshold, mountpoint, from, n)
    requires reports[n].mountpoint == mountpoint ==> !ChangedAt(reports, threshold, n)
    ensures Steady(reports, threshold, mountpoint, from, n + 1)
  {
  }

  // The reference is a position the mountpoint reported, and no change was counted since.
  lemma {:induction false} ReferenceWasReported(reports: seq<Report>, threshold: real, n: nat, mountpoint: string)
    returns (i: nat)
    requires n <= |reports| && mountpoint in After(reports[..n], threshold).reference
    ensures i < n && reports[i] == Report(mountpoint, After(reports[..n], threshold).reference[mountpoint])
    ensures Steady(reports, threshold, mountpoint, i + 1, n)
    decreases n
  {
    AfterNext(reports, threshold, n - 1);
    var before, r := After(reports[..n - 1], threshold), reports[n - 1];
    if r.mountpoint == mountpoint && (mountpoint !in before.reference || Deviates(before, r, threshold)) {
      i := n - 1;
    } else {
      i := ReferenceWasReported(reports, threshold, n - 1, mountpoint);
      assert r.mountpoint == mountpoint ==> !ChangedAt(reports, threshold, n - 1);
      SteadyNext(reports, threshold, mountpoint, i + 1, n - 1);
    }
  }

  // No change is counted for nothing: the mountpoint reported earlier, and since then uncounted, a
  // position more than the threshold away.
  lemma ChangeIsReal(reports: seq<Report>, threshold: real, k: nat) returns (i: nat)
    requires ChangedAt(reports, threshold, k)
    ensures i < k && reports[i].mountpoint == reports[k].mountpoint
    ensures var a, b := reports[k].position, reports[i].position;
            || a.x - b.x > threshold || b.x - a.x > threshold
            || a.y - b.y > threshold || b.y - a.y > threshold
            || a.z - b.z > threshold || b.z - a.z > threshold
    ensures Steady(reports, threshold, reports[k].mountpoint, i + 1, k)
  {
    i := ReferenceWasReported(reports, threshold, k, reports[k].mountpoint);
  }

  function ChangesBelow(reports: seq<Report>, threshold: real, n: nat, mountpoint: string): set<nat>
    requires n <= |reports|
  {
    set k: nat | k < n && reports[k].mountpoint == mountpoint && ChangedAt(reports, threshold, k)
  }

  lemma ChangesBelowNext(reports: seq<Report>, threshold: real, n: nat, mountpoint: string)
    requires n < |reports|
    ensures |ChangesBelow(reports, threshold, n + 1, mountpoint)| == |ChangesBelow(reports, threshold, n, mountpoint)|
              + if reports[n].mountpoint == mountpoint && ChangedAt(reports, threshold, n) then 1 else 0
  {
    var before := ChangesBelow(reports, threshold, n, mountpoint);
    var changed := reports[n].mountpoint == mountpoint && ChangedAt(reports, threshold, n);
    assert ChangesBelow(reports, threshold, n + 1, mountpoint) == before + if changed then {n} else {};
  }

  // The counter of a mountpoint counts exactly its changes.
  lemma {:induction false} CounterCountsTheChanges(reports: seq<Report>, threshold: real, n: nat, mountpoint: string)
    requires n <= |reports|
    ensures Changes(After(reports[..n], threshold), mountpoint) == |ChangesBelow(reports, threshold, n, mountpoint)|
    decreases n
  {
    if n == 0 {
      assert ChangesBelow(reports, threshold, 0, mountpoint) == {};
    } else {
      CounterCountsTheChanges(reports, threshold, n - 1, mountpoint);
      AfterNext(reports, threshold, n - 1);
      ChangesBelowNext(reports, threshold, n - 1, mountpoint);
    }
  }
}

/** Choosing the nearest mountpoint, and the distance masks. The distance is any function. */
module Nearest {
  import opened Wrappers

  type Place = (real, real)

  type Metric = (Place, Place) -> real

  // A mountpoint's configured place (absent unless both coordinates are known) and mask in km.
  datatype Site = Site(place: Option<Place>, mask: real)

  // The mountpoint table in its iteration order.
  datatype Listing = Listing(name: string, site: Site)

  predicate InMask(site: Site, d: Metric, p: Place) {
    site.place.Some? && (site.mask > 0.0 ==> d(site.place.value, p) <= site.mask)
  }

  // The first of the listings nearest to p among those that are located and within their mask.
  ghost predicate IsNearest(table: seq<Listing>, d: Metric, p: Place, i: nat) {
    && i < |table| && InMask(table[i].site, d, p)
    && (forall j :: 0 <= j < |table| && InMask(table[j].site, d, p) ==>
          d(table[i].site.place.value, p) <= d(table[j].site.place.value, p))
    && (forall j :: 0 <= j < i && InMask(table[j].site, d, p) ==>
          d(table[i].site.place.value, p) < d(table[j].site.place.value, p))
  }

  // The scan of the first n listings: the index kept so far.
  function Scan(table: seq<Listing>, d: Metric, p: Place, n: nat): (best: Option<nat>)
    requires n <= |table|
    ensures best.Some? ==> best.value < n && table[best.value].site.place.Some?
  {
    if n == 0 then None
    else
      var best := Scan(table, d, p, n - 1);
      var site := table[n - 1].site;
      if site.place.None? then best
      else if site.mask > 0.0 && d(site.place.value, p) > site.mask then best
      else if best.None? || d(site.place.value, p) < d(table[best.value].site.place.value, p) then Some(n - 1)
      else best
  }

  function NearestOf(table: seq<Listing>, d: Metric, p: Place): Option<string> {
    var best := Scan(table, d, p, |table|);
    if best.None? then None else Some(table[best.value].name)
  }

  lemma {:induction false} ScanFindsTheNearest(table: seq<Listing>, d: Metric, p: Place, n: nat)
    requires n <= |table|
    ensures match Scan(table, d, p, n)
            case Some(i) => IsNearest(table[..n], d, p, i)
            case None => forall j :: 0 <= j < n ==> !InMask(table[j].site, d, p)
  {
    if n > 0 {
      ScanFindsTheNearest(table, d, p, n - 1);
    }
  }

  // A listing is chosen exactly if it is the first of minimum distance among those in range; there
  // is none exactly if no listing is in range.
  lemma NearestIff(table: seq<Listing>, d: Metric, p: Place)
    ensures forall i: nat :: Scan(table, d, p, |table|) == Some(i) <==> IsNearest(table, d, p, i)
    ensures NearestOf(table, d, p) == None <==> forall j :: 0 <= j < |table| ==> !InMask(table[j].site, d, p)
  {
    ScanFindsTheNearest(table, d, p, |table|);
    assert table[..|table|] == table;
    forall i: nat | IsNearest(table, d, p, i)
      ensures Scan(table, d, p, |table|) == Some(i)
    {
      var k := Scan(table, d, p, |table|).value;
      assert IsNearest(table, d, p, k);
      assert InMask(table[i].site, d, p) && InMask(table[k].site, d, p);
    }
  }

  // The selection loop, the same in the UDP server and behind the NEAREST route. No distance is
  // known at first, which every distance beats.
  method FindNearest(table: seq<Listing>, d: Metric, p: Place) returns (bestId: Option<string>)
    ensures bestId == NearestOf(table, d, p)
  {
    bestId := None;
    var bestDist: Option<real> := None;
    for i := 0 to |table|
      invariant var best := Scan(table, d, p, i);
                if best.None? then bestId == None && bestDist == None
                else (
                  && bestId == Some(table[best.value].name)
                  && bestDist == Some(d(table[best.value].site.place.value, p)))
    {
      var site := table[i].site;
      if site.place.None? {
        continue;
      }
      var dist := d(site.place.value, p);
      if site.mask > 0.0 && dist > site.mask {
        continue;
      }
      if bestDist.None? || dist < bestDist.value {
        bestDist, bestId := Some(dist), Some(table[i].name);
      }
    }
  }

  // ---- the mask checks -----------------------------------------------------

  predicate Distinct(table: seq<Listing>) {
    forall i, j :: 0 <= i < j < |table| ==> table[i].name != table[j].name
  }

  function Lookup(table: seq<Listing>, name: string): (site: Option<Site>)
    ensures site == None <==> forall i :: 0 <= i < |table| ==> table[i].name != name
    ensures site.Some? ==> exists i :: 0 <= i < |table| && table[i] == Listing(name, site.value)
  {
    if table == [] then None
    else if table[0].name == name then
      assert table[0] == Listing(name, table[0].site);
      Some(table[0].site)
    else
      var rest := Lookup(table[1..], name);
      assert rest.Some? ==> exists i :: 0 <= i < |table[1..]| && table[1..][i] == Listing(name, rest.value);
      assert forall i :: 0 <= i < |table[1..]| ==> table[1..][i] == table[i + 1];
      rest
  }

  // The UDP server's check on a keepalive position.
  function OutOfRange(table: seq<Listing>, name: string, d: Metric, p: Place): bool {
    match Lookup(table, name)
    case None => false
    case Some(site) =>
      if site.mask <= 0.0 || site.place.None? then false else d(site.place.value, p) > site.mask
  }

  // The check of the rover route: Crash stands for computing a distance to a missing coordinate.
  datatype Gate = Pass | NoPosition | Beyond | Crash

  function MaskGate(site: Site, wantsNmea: bool, position: Option<Place>, d: Metric): Gate {
    if !wantsNmea then Pass
    else if position.None? then NoPosition
    else if site.mask > 0.0 then
      if site.place.None? then Crash
      else if d(site.place.value, position.value) > site.mask then Beyond else Pass
    else Pass
  }

  // The mountpoint found nearest to a position is in range of it for every later check.
  lemma NearestIsAdmitted(table: seq<Listing>, d: Metric, p: Place, name: string, wantsNmea: bool)
    requires Distinct(table) && NearestOf(table, d, p) == Some(name)
    ensures !OutOfRange(table, name, d, p)
    ensures Lookup(table, name).Some? && MaskGate(Lookup(table, name).value, wantsNmea, Some(p), d) == Pass
  {
    ScanFindsTheNearest(table, d, p, |table|);
    var i := Scan(table, d, p, |table|).value;
    assert table[..|table|] == table;
    assert InMask(table[i].site, d, p) && table[i].name == name;
  }

  // When the rover route's check stops a rover: it wants positions and got none, or there is a mask and
  // the place is farther away or cannot be told.
  lemma MaskGateIff(site: Site, wantsNmea: bool, position: Option<Place>, d: Metric)
    ensures var gate := MaskGate(site, wantsNmea, position, d);
            && (gate == NoPosition <==> wantsNmea && position == None)
            && (gate == Crash <==> wantsNmea && position.Some? && site.mask > 0.0 && site.place == None)
            && (gate == Beyond <==>
                  && wantsNmea && position.Some? && site.mask > 0.0 && site.place.Some?
                  && site.mask < d(site.place.value, position.value))
  {
  }

  // The two mask checks agree for a located mountpoint; the rover route's fails outright exactly
  // for one that has a mask but no place, where the UDP check admits.
  lemma ChecksAgreeUnlessUnlocated(table: seq<Listing>, name: string, d: Metric, p: Place)
    requires Lookup(table, name).Some?
    ensures var site := Lookup(table, name).value;
            var gate := MaskGate(site, true, Some(p), d);
            && (gate == Crash <==> site.mask > 0.0 && site.place.None?)
            && (gate == Beyond <==> OutOfRange(table, name, d, p))
            && (gate == Pass <==> !OutOfRange(table, name, d, p) && !(site.mask > 0.0 && site.place.None?))
  {
  }
}

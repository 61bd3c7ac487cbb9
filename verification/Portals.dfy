/** ResolvePortalDestinations: portals rewritten in place while the same list is being searched. */
module Portals {
  import opened Bytes
  import opened ZoneRecords

  /** The zone the portal leads to: as given, or else its second value when that is positive. */
  function DestZone(p: Portal): u32 {
    if p.destZoneId == 0 && p.base.value02 > 0 then p.base.value02 else p.destZoneId
  }

  function DestMap(p: Portal): u32 {
    if p.destMapId == 0 then if DestZone(p) != 0 then DestZone(p) else p.base.mapId else p.destMapId
  }

  /** `c` stands in the zone that `p` leads to and names `p`'s own zone, read as a signed number. */
  predicate IsReciprocal(p: Portal, c: Portal) {
    c.base.zoneId == DestZone(p) && c.base.value02 == ToI32(p.base.zoneId)
  }

  function PlaceAt(p: Portal, at: Region): Portal {
    p.(destZoneId := DestZone(p), destMapId := DestMap(p), destX := at.centerX, destY := at.centerZ, destZ := at.centerY)
  }

  /** The first reciprocal portal in list order, from position `k` on. */
  function FirstReciprocal(ps: seq<Portal>, p: Portal, k: nat): Option<nat>
    requires k <= |ps|
    decreases |ps| - k
  {
    if k == |ps| then None else if IsReciprocal(p, ps[k]) then Some(k) else FirstReciprocal(ps, p, k + 1)
  }

  lemma {:induction false} FirstReciprocalIsFirst(ps: seq<Portal>, p: Portal, k: nat)
    requires k <= |ps|
    ensures match FirstReciprocal(ps, p, k)
            case None => forall j | k <= j < |ps| :: !IsReciprocal(p, ps[j])
            case Some(i) => k <= i < |ps| && IsReciprocal(p, ps[i]) && forall j | k <= j < i :: !IsReciprocal(p, ps[j])
    decreases |ps| - k
  {
    if k < |ps| && !IsReciprocal(p, ps[k]) {
      FirstReciprocalIsFirst(ps, p, k + 1);
    }
  }

  /** What becomes of one portal of the list, in terms of the original list only. */
  function Resolve(ps: seq<Portal>, p: Portal): Portal {
    match FirstReciprocal(ps, p, 0)
    case None => PlaceAt(p, p.base)
    case Some(i) => if i < |ps| then PlaceAt(p, ps[i].base) else p
  }

  function ResolveAll(ps: seq<Portal>): (r: seq<Portal>)
    ensures |r| == |ps|
  {
    seq(|ps|, i requires 0 <= i < |ps| => Resolve(ps, ps[i]))
  }

  /** The fields that the search looks at, and that no rewrite changes. */
  predicate SameBases(ps: seq<Portal>, qs: seq<Portal>) {
    |ps| == |qs| && forall j | 0 <= j < |ps| :: ps[j].base == qs[j].base
  }

  lemma {:induction false} SearchSeesBases(ps: seq<Portal>, qs: seq<Portal>, p: Portal, q: Portal, k: nat)
    requires SameBases(ps, qs) && k <= |ps| && p.base == q.base && DestZone(p) == DestZone(q)
    ensures FirstReciprocal(ps, p, k) == FirstReciprocal(qs, q, k)
    decreases |ps| - k
  {
    if k < |ps| && !IsReciprocal(p, ps[k]) {
      SearchSeesBases(ps, qs, p, q, k + 1);
    }
  }

  /** A resolved portal keeps its region; its destination is the centre, axes y and z exchanged, of the first reciprocal or of itself. */
  lemma DestinationOf(ps: seq<Portal>, i: nat)
    requires i < |ps|
    ensures var p, q := ps[i], ResolveAll(ps)[i];
            && q.base == p.base && q.destZoneId == DestZone(p) && q.destMapId == DestMap(p)
            && ((forall j | 0 <= j < |ps| :: !IsReciprocal(p, ps[j])) ==> q == PlaceAt(p, p.base))
            && (forall j | 0 <= j < |ps| && IsReciprocal(p, ps[j]) && (forall h | 0 <= h < j :: !IsReciprocal(p, ps[h])) ::
                  (q.destX, q.destY, q.destZ) == (ps[j].base.centerX, ps[j].base.centerZ, ps[j].base.centerY))
  {
    FirstReciprocalIsFirst(ps, ps[i], 0);
  }

  /** `c` stands in the zone `zone` and its second value is the number of `p`'s zone, as a signed 32-bit number. */
  predicate LeadsBack(p: Portal, zone: u32, c: Portal) {
    && c.base.zoneId == zone
    && c.base.value02 == if p.base.zoneId < TWO_TO_31 then p.base.zoneId else p.base.zoneId - TWO_TO_32
  }

  /** `j` is the first in list order that leads back. */
  predicate FirstBack(ps: seq<Portal>, p: Portal, zone: u32, j: nat) {
    j < |ps| && LeadsBack(p, zone, ps[j]) && forall h | 0 <= h < j :: !LeadsBack(p, zone, ps[h])
  }

  lemma ReciprocalLeadsBack(p: Portal, c: Portal)
    ensures IsReciprocal(p, c) <==> LeadsBack(p, DestZone(p), c)
  {}

  /** The zone is the given one, or else a positive second value; the map is the given one, or else the zone, or else the portal's own. */
  lemma TargetFromFields(ps: seq<Portal>, i: nat)
    requires i < |ps|
    ensures var p, q := ps[i], ResolveAll(ps)[i];
            && q.base == p.base
            && (p.destZoneId != 0 ==> q.destZoneId == p.destZoneId)
            && (p.destZoneId == 0 ==> q.destZoneId == if p.base.value02 > 0 then p.base.value02 else 0)
            && (p.destMapId != 0 ==> q.destMapId == p.destMapId)
            && (p.destMapId == 0 ==> q.destMapId == if q.destZoneId != 0 then q.destZoneId else p.base.mapId)
  {
    FirstReciprocalIsFirst(ps, ps[i], 0);
    hide FirstReciprocal, IsReciprocal;
  }

  /** The place is the centre, height last, of the first portal that leads back from the zone, or else of the portal itself. */
  lemma PlaceFromFields(ps: seq<Portal>, i: nat, j: nat)
    requires i < |ps|
    ensures var p, q := ps[i], ResolveAll(ps)[i];
            && (FirstBack(ps, p, q.destZoneId, j) ==>
                  q.destX == ps[j].base.centerX && q.destY == ps[j].base.centerZ && q.destZ == ps[j].base.centerY)
            && ((forall h | 0 <= h < |ps| :: !LeadsBack(p, q.destZoneId, ps[h])) ==>
                  q.destX == p.base.centerX && q.destY == p.base.centerZ && q.destZ == p.base.centerY)
  {
    var p := ps[i];
    DestinationOf(ps, i);
    forall h | 0 <= h < |ps|
      ensures IsReciprocal(p, ps[h]) <==> LeadsBack(p, DestZone(p), ps[h])
    {
      ReciprocalLeadsBack(p, ps[h]);
    }
    hide LeadsBack, IsReciprocal, ResolveAll, DestZone, DestMap;
  }

  /** Resolving twice is resolving once. */
  lemma ResolveIsIdempotent(ps: seq<Portal>)
    ensures ResolveAll(ResolveAll(ps)) == ResolveAll(ps)
  {
    var qs := ResolveAll(ps);
    forall i | 0 <= i < |ps|
      ensures qs[i].base == ps[i].base && DestZone(qs[i]) == DestZone(ps[i])
    {
      ResolvedKeepsTargets(ps, ps[i]);
    }
    forall i | 0 <= i < |ps|
      ensures ResolveAll(qs)[i] == qs[i]
    {
      SearchSeesBases(ps, qs, ps[i], qs[i], 0);
      ResolveAgain(ps, qs, ps[i]);
    }
  }

  lemma ResolvedKeepsTargets(ps: seq<Portal>, p: Portal)
    ensures var q := Resolve(ps, p); q.base == p.base && DestZone(q) == DestZone(p) && DestMap(q) == DestMap(p)
  {
    FirstReciprocalIsFirst(ps, p, 0);
  }

  lemma ResolveAgain(ps: seq<Portal>, qs: seq<Portal>, p: Portal)
    requires SameBases(ps, qs) && FirstReciprocal(qs, Resolve(ps, p), 0) == FirstReciprocal(ps, p, 0)
    ensures Resolve(qs, Resolve(ps, p)) == Resolve(ps, p)
  {
    hide FirstReciprocal;
  }

  /** The loop of loops, on the array itself. */
  method ResolvePortalDestinations(portals: array<Portal>)
    modifies portals
    ensures portals[..] == ResolveAll(old(portals[..]))
  {
    ghost var ps := portals[..];
    for i := 0 to portals.Length
      invariant forall j | 0 <= j < i :: portals[j] == Resolve(ps, ps[j])
      invariant forall j | i <= j < portals.Length :: portals[j] == ps[j]
      invariant SameBases(ps, portals[..])
    {
      hide Resolve, DestZone, DestMap;
      ResolveOne(portals, i, ps);
    }
  }

  method ResolveOne(portals: array<Portal>, i: nat, ghost ps: seq<Portal>)
    requires i < portals.Length && SameBases(ps, portals[..]) && portals[i] == ps[i]
    modifies portals
    ensures portals[i] == Resolve(ps, ps[i])
    ensures forall j | 0 <= j < portals.Length && j != i :: portals[j] == old(portals[j])
    ensures SameBases(ps, portals[..])
  {
    if portals[i].destZoneId == 0 && portals[i].base.value02 > 0 {
      portals[i] := portals[i].(destZoneId := portals[i].base.value02);
    }
    if portals[i].destMapId == 0 {
      portals[i] := portals[i].(destMapId := if portals[i].destZoneId != 0 then portals[i].destZoneId else portals[i].base.mapId);
    }
    var p := portals[i];
    assert DestZone(p) == DestZone(ps[i]);
    var k := 0;
    while k < portals.Length && !(portals[k].base.zoneId == p.destZoneId && portals[k].base.value02 == ToI32(p.base.zoneId))
      invariant k <= portals.Length
      invariant FirstReciprocal(ps, ps[i], 0) == FirstReciprocal(ps, ps[i], k)
    {
      k := k + 1;
    }
    var at := if k < portals.Length then portals[k].base else p.base;
    portals[i] := p.(destX := at.centerX, destY := at.centerZ, destZ := at.centerY);
  }
}

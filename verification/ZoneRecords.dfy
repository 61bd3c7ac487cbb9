/** The records of a zone pack as fixed-width rows of 32-bit words. */
module ZoneRecords {
  import opened Bytes

  datatype MapRecord = MapRecord(zoneId: u32, mapId: u32)

  /** Npc, monster, safe and special regions all have these eleven fields. */
  datatype Region = Region(
    zoneId: u32, mapId: u32, regionId: u32, value01: i32, value02: i32, value03: i32, value04: i32,
    centerX: i32, centerY: i32, centerZ: i32, radius: i32)

  datatype Portal = Portal(base: Region, destZoneId: u32, destMapId: u32, destX: i32, destY: i32, destZ: i32)

  datatype Pack = Pack(
    maps: seq<MapRecord>, portals: seq<Portal>, npcs: seq<Region>, monsters: seq<Region>,
    safeRegions: seq<Region>, specialRegions: seq<Region>)

  const EMPTY_PACK := Pack([], [], [], [], [], [])

  /** How a record lies in memory: its words in order, and the record they make. */
  datatype Layout<!T> = Layout(width: nat, words: T -> seq<u32>, make: seq<u32> -> T)

  ghost predicate Lawful<T(!new)>(l: Layout<T>) {
    l.width > 0 && forall t :: |l.words(t)| == l.width && l.make(l.words(t)) == t
  }

  function At(ws: seq<u32>, i: nat): u32 {
    if i < |ws| then ws[i] else 0
  }

  function SignedAt(ws: seq<u32>, i: nat): i32 {
    ToI32(At(ws, i))
  }

  function MapWords(m: MapRecord): seq<u32> {
    [m.zoneId, m.mapId]
  }

  function MakeMap(ws: seq<u32>): MapRecord {
    MapRecord(At(ws, 0), At(ws, 1))
  }

  function RegionWords(r: Region): seq<u32> {
    [r.zoneId, r.mapId, r.regionId,
     ToU32(r.value01), ToU32(r.value02), ToU32(r.value03), ToU32(r.value04),
     ToU32(r.centerX), ToU32(r.centerY), ToU32(r.centerZ), ToU32(r.radius)]
  }

  function MakeRegion(ws: seq<u32>): Region {
    Region(At(ws, 0), At(ws, 1), At(ws, 2), SignedAt(ws, 3), SignedAt(ws, 4), SignedAt(ws, 5), SignedAt(ws, 6),
           SignedAt(ws, 7), SignedAt(ws, 8), SignedAt(ws, 9), SignedAt(ws, 10))
  }

  function PortalWords(p: Portal): seq<u32> {
    RegionWords(p.base) + [p.destZoneId, p.destMapId, ToU32(p.destX), ToU32(p.destY), ToU32(p.destZ)]
  }

  function MakePortal(ws: seq<u32>): Portal {
    Portal(MakeRegion(ws), At(ws, 11), At(ws, 12), SignedAt(ws, 13), SignedAt(ws, 14), SignedAt(ws, 15))
  }

  function MapLayout(): Layout<MapRecord> {
    Layout(2, MapWords, MakeMap)
  }

  function RegionLayout(): Layout<Region> {
    Layout(11, RegionWords, MakeRegion)
  }

  function PortalLayout(): Layout<Portal> {
    Layout(16, PortalWords, MakePortal)
  }

  lemma RegionMakes(r: Region)
    ensures MakeRegion(RegionWords(r)) == r
  {}

  lemma PortalMakes(p: Portal)
    ensures |PortalWords(p)| == 16 && MakePortal(PortalWords(p)) == p
  {
    RegionMakes(p.base);
    var ws := PortalWords(p);
    assert forall i | 0 <= i < 11 :: At(ws, i) == At(RegionWords(p.base), i);
    assert ws[11..] == [p.destZoneId, p.destMapId, ToU32(p.destX), ToU32(p.destY), ToU32(p.destZ)];
    assert forall i | 0 <= i < 5 :: ws[11 + i] == ws[11..][i];
    assert MakeRegion(ws) == MakeRegion(RegionWords(p.base));
  }

  lemma LayoutsAreLawful()
    ensures Lawful(MapLayout()) && Lawful(RegionLayout()) && Lawful(PortalLayout())
  {
    forall r: Region
      ensures |RegionWords(r)| == 11 && MakeRegion(RegionWords(r)) == r
    {
      RegionMakes(r);
    }
    forall p: Portal
      ensures |PortalWords(p)| == 16 && MakePortal(PortalWords(p)) == p
    {
      PortalMakes(p);
    }
  }
}

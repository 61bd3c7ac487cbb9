/** The zone file byte by byte: where each field lies, and what makes either reader refuse. */
module ZoneLayout {
  import opened Bytes
  import opened ZoneRecords
  import opened ZoneData

  /** "ZND1" and version 1, as every file begins. */
  const START: seq<byte> := [0x5A, 0x4E, 0x44, 0x31, 1, 0, 0, 0]

  /** The little-endian number in the four bytes at `offset`. */
  function U32At(s: seq<byte>, offset: nat): u32
    requires offset + 4 <= |s|
  {
    s[offset] as int + 0x100 * s[offset + 1] as int + 0x1_0000 * s[offset + 2] as int + 0x100_0000 * s[offset + 3] as int
  }

  function I32At(s: seq<byte>, offset: nat): i32
    requires offset + 4 <= |s|
  {
    ToI32(U32At(s, offset))
  }

  // ---- words ----

  lemma LEBytes(v: u32)
    ensures U32At(LE32(v), 0) == v
  {}

  lemma U32IsFromLE(s: seq<byte>)
    requires |s| >= 4
    ensures U32At(s, 0) == FromLE32(s[..4])
  {
    var a, b := s[..4][..2], s[..4][2..];
    assert a == [s[0], s[1]] && b == [s[2], s[3]];
  }

  lemma U32Shifts(s: seq<byte>, k: nat, offset: nat)
    requires k + offset + 4 <= |s|
    ensures U32At(s[k..], offset) == U32At(s, k + offset)
  {}

  lemma {:induction false} WordIsAt(ws: seq<u32>, rest: seq<byte>, i: nat)
    requires i < |ws|
    ensures U32At(WordsToBytes(ws) + rest, 4 * i) == ws[i]
    decreases ws
  {
    hide LE32;
    var s := WordsToBytes(ws) + rest;
    if i == 0 {
      LEBytes(ws[0]);
      assert s[0] == LE32(ws[0])[0] && s[1] == LE32(ws[0])[1] && s[2] == LE32(ws[0])[2] && s[3] == LE32(ws[0])[3];
    } else {
      WordIsAt(ws[1..], rest, i - 1);
      assert s[4..] == WordsToBytes(ws[1..]) + rest;
      U32Shifts(s, 4, 4 * (i - 1));
    }
  }

  lemma {:induction false} WordsAreRead(s: seq<byte>, n: nat, i: nat)
    requires 4 * n <= |s| && i < n
    ensures BytesToWords(s, n)[i] == U32At(s, 4 * i)
    decreases n
  {
    hide FromLE32;
    if i == 0 {
      U32IsFromLE(s);
    } else {
      WordsAreRead(s[4..], n - 1, i - 1);
      U32Shifts(s, 4, 4 * (i - 1));
    }
  }

  // ---- records ----

  ghost predicate MapIsAt(s: seq<byte>, o: nat, m: MapRecord) {
    o + 8 <= |s| && U32At(s, o) == m.zoneId && U32At(s, o + 4) == m.mapId
  }

  ghost predicate RegionIsAt(s: seq<byte>, o: nat, r: Region) {
    && o + 44 <= |s|
    && U32At(s, o) == r.zoneId && U32At(s, o + 4) == r.mapId && U32At(s, o + 8) == r.regionId
    && I32At(s, o + 12) == r.value01 && I32At(s, o + 16) == r.value02 && I32At(s, o + 20) == r.value03 && I32At(s, o + 24) == r.value04
    && I32At(s, o + 28) == r.centerX && I32At(s, o + 32) == r.centerY && I32At(s, o + 36) == r.centerZ && I32At(s, o + 40) == r.radius
  }

  ghost predicate PortalIsAt(s: seq<byte>, o: nat, p: Portal) {
    && o + 64 <= |s|
    && RegionIsAt(s, o, p.base)
    && U32At(s, o + 44) == p.destZoneId && U32At(s, o + 48) == p.destMapId
    && I32At(s, o + 52) == p.destX && I32At(s, o + 56) == p.destY && I32At(s, o + 60) == p.destZ
  }

  /** The words of a record lie at `o`. */
  ghost predicate WordsAreAt(s: seq<byte>, o: nat, ws: seq<u32>) {
    o + 4 * |ws| <= |s| && forall i | 0 <= i < |ws| :: U32At(s, o + 4 * i) == ws[i]
  }

  lemma MapOffsets(s: seq<byte>, o: nat, m: MapRecord)
    requires WordsAreAt(s, o, MapWords(m))
    ensures MapIsAt(s, o, m)
  {
    assert MapWords(m)[0] == m.zoneId && MapWords(m)[1] == m.mapId;
    hide U32At;
    assert U32At(s, o + 4 * 0) == m.zoneId && U32At(s, o + 4 * 1) == m.mapId;
  }

  lemma RegionOffsets(s: seq<byte>, o: nat, r: Region)
    requires WordsAreAt(s, o, RegionWords(r))
    ensures RegionIsAt(s, o, r)
  {
    var ws := RegionWords(r);
    hide U32At;
    assert U32At(s, o + 4 * 0) == ws[0] && U32At(s, o + 4 * 1) == ws[1] && U32At(s, o + 4 * 2) == ws[2];
    assert U32At(s, o + 4 * 3) == ws[3] && U32At(s, o + 4 * 4) == ws[4] && U32At(s, o + 4 * 5) == ws[5];
    assert U32At(s, o + 4 * 6) == ws[6] && U32At(s, o + 4 * 7) == ws[7] && U32At(s, o + 4 * 8) == ws[8];
    assert U32At(s, o + 4 * 9) == ws[9] && U32At(s, o + 4 * 10) == ws[10];
  }

  lemma PortalOffsets(s: seq<byte>, o: nat, p: Portal)
    requires WordsAreAt(s, o, PortalWords(p))
    ensures PortalIsAt(s, o, p)
  {
    var ws, base := PortalWords(p), RegionWords(p.base);
    assert |base| == 11;
    assert ws[11..] == [p.destZoneId, p.destMapId, ToU32(p.destX), ToU32(p.destY), ToU32(p.destZ)];
    hide U32At, RegionWords;
    assert ws[..11] == base;
    assert WordsAreAt(s, o, base) by {
      assert forall i | 0 <= i < 11 :: U32At(s, o + 4 * i) == ws[i] == base[i];
    }
    RegionOffsets(s, o, p.base);
    assert U32At(s, o + 4 * 11) == ws[11..][0] && U32At(s, o + 4 * 12) == ws[11..][1];
    assert U32At(s, o + 4 * 13) == ws[11..][2] && U32At(s, o + 4 * 14) == ws[11..][3] && U32At(s, o + 4 * 15) == ws[11..][4];
  }

  lemma FirstRecordIsAt(ws: seq<u32>, before: seq<byte>, tail: seq<byte>)
    ensures WordsAreAt(before + (WordsToBytes(ws) + tail), |before|, ws)
  {
    var s := before + (WordsToBytes(ws) + tail);
    assert s[|before|..] == WordsToBytes(ws) + tail;
    hide U32At, WordsToBytes;
    forall k | 0 <= k < |ws|
      ensures U32At(s, |before| + 4 * k) == ws[k]
    {
      WordIsAt(ws, tail, k);
      U32Shifts(s, |before|, 4 * k);
    }
  }

  lemma LaterRecord(size: nat, at: nat, i: nat)
    requires i > 0
    ensures at + size + (i - 1) * size == at + i * size
  {}

  lemma VectorTakesFirst<T>(l: Layout<T>, ts: seq<T>, before: seq<byte>, rest: seq<byte>)
    requires ts != []
    ensures before + (VectorBytes(l, ts) + rest) == before + (WordsToBytes(l.words(ts[0])) + (VectorBytes(l, ts[1..]) + rest))
  {
    hide WordsToBytes;
  }

  /** Record `i` of a vector that starts after `before`. */
  lemma {:induction false} RecordIsAt<T(!new)>(l: Layout<T>, ts: seq<T>, before: seq<byte>, rest: seq<byte>, i: nat)
    requires Lawful(l) && i < |ts|
    ensures WordsAreAt(before + (VectorBytes(l, ts) + rest), |before| + i * RecordSize(l), l.words(ts[i]))
    decreases ts
  {
    var ws := l.words(ts[0]);
    assert |WordsToBytes(ws)| == RecordSize(l);
    VectorTakesFirst(l, ts, before, rest);
    hide WordsAreAt, WordsToBytes, VectorBytes, Lawful, RecordSize;
    var tail := VectorBytes(l, ts[1..]) + rest;
    if i == 0 {
      FirstRecordIsAt(ws, before, tail);
      assert 0 * RecordSize(l) == 0;
    } else {
      var before' := before + WordsToBytes(ws);
      RecordIsAt(l, ts[1..], before', rest, i - 1);
      assert before' + tail == before + (WordsToBytes(ws) + tail);
      LaterRecord(RecordSize(l), |before|, i);
    }
  }

  /** The same, for a width and words already known. */
  lemma RecordInVector<T(!new)>(
    l: Layout<T>, ts: seq<T>, before: seq<byte>, rest: seq<byte>, i: nat, s: seq<byte>, o: nat, size: nat, ws: seq<u32>)
    requires Lawful(l) && i < |ts| && s == before + (VectorBytes(l, ts) + rest)
    requires RecordSize(l) == size && l.words(ts[i]) == ws && o == |before| + size * i
    ensures WordsAreAt(s, o, ws)
  {
    hide Lawful, WordsAreAt, VectorBytes, RecordSize;
    RecordIsAt(l, ts, before, rest, i);
  }

  // ---- the file ----

  /** Where the sections start; the last number is the length of the file. */
  function Offsets(p: Pack): (nat, nat, nat, nat, nat, nat, nat) {
    var o1 := 32;
    var o2 := o1 + 8 * |p.maps|;
    var o3 := o2 + 64 * |p.portals|;
    var o4 := o3 + 44 * |p.npcs|;
    var o5 := o4 + 44 * |p.monsters|;
    var o6 := o5 + 44 * |p.safeRegions|;
    (o1, o2, o3, o4, o5, o6, o6 + 44 * |p.specialRegions|)
  }

  ghost predicate MapsAreAt(s: seq<byte>, o: nat, ms: seq<MapRecord>) {
    forall i | 0 <= i < |ms| :: MapIsAt(s, o + 8 * i, ms[i])
  }

  ghost predicate PortalsAreAt(s: seq<byte>, o: nat, ps: seq<Portal>) {
    forall i | 0 <= i < |ps| :: PortalIsAt(s, o + 64 * i, ps[i])
  }

  ghost predicate RegionsAreAt(s: seq<byte>, o: nat, rs: seq<Region>) {
    forall i | 0 <= i < |rs| :: RegionIsAt(s, o + 44 * i, rs[i])
  }

  lemma MapLayoutIs(m: MapRecord)
    ensures Lawful(MapLayout()) && RecordSize(MapLayout()) == 8 && MapLayout().words(m) == MapWords(m)
  {
    hide MapWords, Lawful;
    LayoutsAreLawful();
  }

  lemma MapFollows(before: seq<byte>, ms: seq<MapRecord>, rest: seq<byte>, i: nat, s: seq<byte>, o: nat)
    requires i < |ms| && s == before + (VectorBytes(MapLayout(), ms) + rest) && o == |before| + 8 * i
    ensures MapIsAt(s, o, ms[i])
  {
    hide Lawful, WordsAreAt, VectorBytes, RecordSize, MapIsAt, MapWords, MapLayout;
    MapLayoutIs(ms[i]);
    RecordInVector(MapLayout(), ms, before, rest, i, s, o, 8, MapWords(ms[i]));
    MapOffsets(s, o, ms[i]);
  }

  lemma MapsFollow(before: seq<byte>, ms: seq<MapRecord>, rest: seq<byte>)
    ensures MapsAreAt(before + (VectorBytes(MapLayout(), ms) + rest), |before|, ms)
  {
    hide VectorBytes, MapIsAt, MapLayout;
    var s := before + (VectorBytes(MapLayout(), ms) + rest);
    forall i | 0 <= i < |ms|
      ensures MapIsAt(s, |before| + 8 * i, ms[i])
    {
      MapFollows(before, ms, rest, i, s, |before| + 8 * i);
    }
  }

  lemma PortalLayoutIs(p: Portal)
    ensures Lawful(PortalLayout()) && RecordSize(PortalLayout()) == 64 && PortalLayout().words(p) == PortalWords(p)
  {
    hide PortalWords, Lawful;
    LayoutsAreLawful();
  }

  lemma PortalFollows(before: seq<byte>, ps: seq<Portal>, rest: seq<byte>, i: nat, s: seq<byte>, o: nat)
    requires i < |ps| && s == before + (VectorBytes(PortalLayout(), ps) + rest) && o == |before| + 64 * i
    ensures PortalIsAt(s, o, ps[i])
  {
    hide Lawful, WordsAreAt, VectorBytes, RecordSize, PortalIsAt, PortalWords, PortalLayout;
    PortalLayoutIs(ps[i]);
    RecordInVector(PortalLayout(), ps, before, rest, i, s, o, 64, PortalWords(ps[i]));
    PortalOffsets(s, o, ps[i]);
  }

  lemma PortalsFollow(before: seq<byte>, ps: seq<Portal>, rest: seq<byte>)
    ensures PortalsAreAt(before + (VectorBytes(PortalLayout(), ps) + rest), |before|, ps)
  {
    hide VectorBytes, PortalIsAt, PortalLayout;
    var s := before + (VectorBytes(PortalLayout(), ps) + rest);
    forall i | 0 <= i < |ps|
      ensures PortalIsAt(s, |before| + 64 * i, ps[i])
    {
      PortalFollows(before, ps, rest, i, s, |before| + 64 * i);
    }
  }

  lemma RegionLayoutIs(r: Region)
    ensures Lawful(RegionLayout()) && RecordSize(RegionLayout()) == 44 && RegionLayout().words(r) == RegionWords(r)
  {
    hide RegionWords, Lawful;
    LayoutsAreLawful();
  }

  lemma RegionFollows(before: seq<byte>, rs: seq<Region>, rest: seq<byte>, i: nat, s: seq<byte>, o: nat)
    requires i < |rs| && s == before + (VectorBytes(RegionLayout(), rs) + rest) && o == |before| + 44 * i
    ensures RegionIsAt(s, o, rs[i])
  {
    hide Lawful, WordsAreAt, VectorBytes, RecordSize, RegionIsAt, RegionWords, RegionLayout;
    RegionLayoutIs(rs[i]);
    RecordInVector(RegionLayout(), rs, before, rest, i, s, o, 44, RegionWords(rs[i]));
    RegionOffsets(s, o, rs[i]);
  }

  lemma RegionsFollow(before: seq<byte>, rs: seq<Region>, rest: seq<byte>)
    ensures RegionsAreAt(before + (VectorBytes(RegionLayout(), rs) + rest), |before|, rs)
  {
    hide VectorBytes, RegionIsAt, RegionLayout;
    var s := before + (VectorBytes(RegionLayout(), rs) + rest);
    forall i | 0 <= i < |rs|
      ensures RegionIsAt(s, |before| + 44 * i, rs[i])
    {
      RegionFollows(before, rs, rest, i, s, |before| + 44 * i);
    }
  }

  lemma RegionSectionsAt(before: seq<byte>, a: seq<Region>, b: seq<Region>, c: seq<Region>, d: seq<Region>)
    ensures var l := RegionLayout();
            var s := before + (VectorBytes(l, a) + (VectorBytes(l, b) + (VectorBytes(l, c) + VectorBytes(l, d))));
            var o := |before|;
            && RegionsAreAt(s, o, a) && RegionsAreAt(s, o + 44 * |a|, b) && RegionsAreAt(s, o + 44 * |a| + 44 * |b|, c)
            && RegionsAreAt(s, o + 44 * |a| + 44 * |b| + 44 * |c|, d)
            && |s| == o + 44 * |a| + 44 * |b| + 44 * |c| + 44 * |d|
  {
    hide RegionsAreAt, VectorBytes, RegionLayout;
    SectionLengths([], [], a);
    SectionLengths([], [], b);
    SectionLengths([], [], c);
    SectionLengths([], [], d);
    var l := RegionLayout();
    var va, vb, vc, vd := VectorBytes(l, a), VectorBytes(l, b), VectorBytes(l, c), VectorBytes(l, d);
    var s := before + (va + (vb + (vc + vd)));
    RegionsFollow(before, a, vb + (vc + vd));
    RegionsFollow(before + va, b, vc + vd);
    assert before + va + (vb + (vc + vd)) == s;
    RegionsFollow(before + va + vb, c, vd);
    assert before + va + vb + (vc + vd) == s;
    RegionsFollow(before + va + vb + vc, d, []);
    assert before + va + vb + vc + (vd + []) == s;
  }

  /** Every file, whatever its lists: the sections one after another, the records of each at their fixed width. */
  lemma RecordsAreAt(p: Pack)
    ensures var s, (o1, o2, o3, o4, o5, o6, end) := FileOf(p), Offsets(p);
            && |s| == end
            && MapsAreAt(s, o1, p.maps) && PortalsAreAt(s, o2, p.portals) && RegionsAreAt(s, o3, p.npcs)
            && RegionsAreAt(s, o4, p.monsters) && RegionsAreAt(s, o5, p.safeRegions) && RegionsAreAt(s, o6, p.specialRegions)
  {
    hide MapsAreAt, PortalsAreAt, RegionsAreAt, VectorBytes, RegionLayout, MapLayout, PortalLayout, HeaderOf;
    SectionLengths(p.maps, p.portals, []);
    var s := FileOf(p);
    var head := HeaderBytes(HeaderOf(p));
    hide HeaderBytes;
    var vm, vp := VectorBytes(MapLayout(), p.maps), VectorBytes(PortalLayout(), p.portals);
    var l := RegionLayout();
    var regions := VectorBytes(l, p.npcs) + (VectorBytes(l, p.monsters) + (VectorBytes(l, p.safeRegions) + VectorBytes(l, p.specialRegions)));
    assert s == head + (vm + (vp + regions));
    MapsFollow(head, p.maps, vp + regions);
    PortalsFollow(head + vm, p.portals, regions);
    assert head + vm + (vp + regions) == s;
    RegionSectionsAt(head + vm + vp, p.npcs, p.monsters, p.safeRegions, p.specialRegions);
    assert head + vm + vp + regions == s;
  }

  lemma StartIs(s: seq<byte>)
    requires |s| >= 8
    ensures s[..8] == START <==> U32At(s, 0) == MAGIC && U32At(s, 4) == VERSION
    ensures s[..4] == START[..4] <==> U32At(s, 0) == MAGIC
  {
    DigitsDecide(s, 0, 0x5A, 0x4E, 0x44, 0x31);
    DigitsDecide(s, 4, 1, 0, 0, 0);
    hide U32At;
    assert s[..8] == START <==> s[..4] == START[..4] && s[4..8] == START[4..];
    assert s[4..8] == START[4..] <==> s[4] == 1 && s[5] == 0 && s[6] == 0 && s[7] == 0;
    assert s[..4] == START[..4] <==> s[0] == 0x5A && s[1] == 0x4E && s[2] == 0x44 && s[3] == 0x31;
  }

  lemma DigitsDecide(s: seq<byte>, o: nat, a: byte, b: byte, c: byte, d: byte)
    requires o + 4 <= |s|
    ensures U32At(s, o) == a + 0x100 * b as int + 0x1_0000 * c as int + 0x100_0000 * d as int
            <==> s[o] == a && s[o + 1] == b && s[o + 2] == c && s[o + 3] == d
  {
    DigitPair(s[o], s[o + 1], a, b);
    DigitPair(s[o + 2], s[o + 3], c, d);
    WordPair(s[o] as int + 0x100 * s[o + 1] as int, s[o + 2] as int + 0x100 * s[o + 3] as int, a + 0x100 * b as int, c + 0x100 * d as int);
  }

  lemma DigitPair(x: byte, y: byte, a: byte, b: byte)
    ensures x + 0x100 * y as int == a + 0x100 * b as int <==> x == a && y == b
  {}

  lemma WordPair(x: u16, y: u16, a: u16, b: u16)
    ensures x + 0x1_0000 * y as int == a + 0x1_0000 * b as int <==> x == a && y == b
  {}

  lemma HeaderAt(s: seq<byte>)
    requires |s| >= HEADER_BYTES
    ensures ReadHeader(s) == Header(U32At(s, 0), U32At(s, 4), U32At(s, 8), U32At(s, 12), U32At(s, 16), U32At(s, 20), U32At(s, 24), U32At(s, 28))
  {
    hide U32At, BytesToWords;
    var ws := BytesToWords(s, 8);
    forall i | 0 <= i < 8
      ensures ws[i] == U32At(s, 4 * i)
    {
      WordsAreRead(s, 8, i);
    }
    assert ws[0] == U32At(s, 4 * 0) && ws[1] == U32At(s, 4 * 1) && ws[2] == U32At(s, 4 * 2) && ws[3] == U32At(s, 4 * 3);
    assert ws[4] == U32At(s, 4 * 4) && ws[5] == U32At(s, 4 * 5) && ws[6] == U32At(s, 4 * 6) && ws[7] == U32At(s, 4 * 7);
  }

  /** Every file begins with the same eight bytes, then the low 32 bits of the six lengths in the order of the sections. */
  lemma FileStarts(p: Pack)
    ensures var s := FileOf(p);
            && |s| >= HEADER_BYTES && s[..8] == START
            && U32At(s, 8) == |p.maps| % TWO_TO_32 && U32At(s, 12) == |p.portals| % TWO_TO_32
            && U32At(s, 16) == |p.npcs| % TWO_TO_32 && U32At(s, 20) == |p.monsters| % TWO_TO_32
            && U32At(s, 24) == |p.safeRegions| % TWO_TO_32 && U32At(s, 28) == |p.specialRegions| % TWO_TO_32
  {
    WrittenHeader(p);
    hide BodyBytes, U32At, ReadHeader, HeaderBytes;
    HeaderAt(FileOf(p));
    StartIs(FileOf(p));
  }

  // ---- refusals ----

  /** What the header's counts, at their offsets, announce. */
  function Announced(s: seq<byte>): nat
    requires |s| >= HEADER_BYTES
  {
    8 * U32At(s, 8) + 64 * U32At(s, 12) + 44 * (U32At(s, 16) + U32At(s, 20) + U32At(s, 24) + U32At(s, 28))
  }

  /** The server's reader: each error in terms of the bytes, and no error otherwise. */
  lemma ServerRefusals(s: seq<byte>)
    ensures ReadBinary(s).HeaderReadFailed? <==> |s| < HEADER_BYTES
    ensures ReadBinary(s).BadMagic? <==> |s| >= HEADER_BYTES && s[..4] != START[..4]
    ensures ReadBinary(s).UnsupportedVersion? <==> |s| >= HEADER_BYTES && s[..4] == START[..4] && s[..8] != START
    ensures ReadBinary(s).BodyReadFailed? <==> |s| >= HEADER_BYTES && s[..8] == START && |s| < HEADER_BYTES + Announced(s)
  {
    if |s| >= HEADER_BYTES {
      hide ReadBody, ReadHeader, U32At;
      HeaderAt(s);
      StartIs(s);
      BodySucceeds(ReadHeader(s), s[HEADER_BYTES..]);
    }
  }

  /** The client's reader: what it ignores and what makes it throw. */
  lemma ClientRefusals(s: seq<byte>)
    ensures TryLoad(s).Ignored? <==> |s| >= 8 && s[..8] != START
    ensures TryLoad(s).Threw? <==>
            |s| < 8 || (s[..8] == START &&
            (|s| < HEADER_BYTES || |s| < HEADER_BYTES + Announced(s) || !CountersHold(ReadHeader(s))))
  {
    if |s| >= 8 {
      hide ReadBody, LoadBody, ReadHeader, U32At, BytesToWords, CountersHold, Announced;
      StartIs(s);
      WordsAreRead(s, 2, 0);
      WordsAreRead(s, 2, 1);
      if |s| >= HEADER_BYTES {
        BodiesAgree(ReadHeader(s), s[HEADER_BYTES..]);
        BodyHasBytes(s);
      }
    }
  }

  lemma BodyHasBytes(s: seq<byte>)
    requires |s| >= HEADER_BYTES
    ensures ReadBody(ReadHeader(s), s[HEADER_BYTES..]).Some? <==> |s| >= HEADER_BYTES + Announced(s)
  {
    hide ReadBody, ReadHeader, U32At;
    HeaderAt(s);
    BodySucceeds(ReadHeader(s), s[HEADER_BYTES..]);
  }
}

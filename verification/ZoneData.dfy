/** The binary zone file: written in C++, read back in bulk by C++ and field by field by C#. */
module ZoneData {
  import opened Bytes
  import opened ZoneRecords

  const MAGIC := 0x31444E5A
  const VERSION := 1
  const HEADER_BYTES := 32

  // ---- words and rows of words ----

  function WordsToBytes(ws: seq<u32>): (r: seq<byte>)
    ensures |r| == 4 * |ws|
  {
    if ws == [] then [] else LE32(ws[0]) + WordsToBytes(ws[1..])
  }

  function BytesToWords(s: seq<byte>, n: nat): (r: seq<u32>)
    requires 4 * n <= |s|
    ensures |r| == n
    decreases n
  {
    if n == 0 then [] else [FromLE32(s[..4])] + BytesToWords(s[4..], n - 1)
  }

  lemma {:induction false} WordsRoundTrip(ws: seq<u32>, rest: seq<byte>)
    ensures BytesToWords(WordsToBytes(ws) + rest, |ws|) == ws
    decreases |ws|
  {
    hide LE32, FromLE32;
    if ws == [] {
    } else {
      var s := WordsToBytes(ws) + rest;
      assert s[..4] == LE32(ws[0]);
      assert s[4..] == WordsToBytes(ws[1..]) + rest;
      WordsRoundTrip(ws[1..], rest);
    }
  }

  lemma {:induction false} WordsReadOnly(s: seq<byte>, more: seq<byte>, n: nat)
    requires 4 * n <= |s|
    ensures BytesToWords(s + more, n) == BytesToWords(s, n)
    decreases n
  {
    if n > 0 {
      assert (s + more)[..4] == s[..4];
      assert (s + more)[4..] == s[4..] + more;
      WordsReadOnly(s[4..], more, n - 1);
    }
  }

  // ---- a vector of records ----

  function RecordSize<T>(l: Layout<T>): nat {
    4 * l.width
  }

  /** The memory of a vector: its records end to end. */
  function VectorBytes<T>(l: Layout<T>, ts: seq<T>): seq<byte>
  {
    if ts == [] then [] else WordsToBytes(l.words(ts[0])) + VectorBytes(l, ts[1..])
  }

  function RecordAt<T>(l: Layout<T>, s: seq<byte>, offset: nat): T {
    if offset + RecordSize(l) <= |s| then l.make(BytesToWords(s[offset..], l.width)) else l.make([])
  }

  /** ReadVector: one read of `count` records' bytes, all or nothing. */
  function ReadVector<T>(l: Layout<T>, s: seq<byte>, count: nat): Option<(seq<T>, seq<byte>)> {
    var n := count * RecordSize(l);
    if |s| < n then None else Some((seq(count, i requires 0 <= i => RecordAt(l, s, i * RecordSize(l))), s[n..]))
  }

  /** The C# reader takes one record after another. */
  function LoadRecords<T>(l: Layout<T>, s: seq<byte>, count: nat): Option<(seq<T>, seq<byte>)>
    decreases count
  {
    if count == 0 then Some(([], s))
    else if |s| < RecordSize(l) then None
    else
      match LoadRecords(l, s[RecordSize(l)..], count - 1)
      case None => None
      case Some((ts, rest)) => Some(([RecordAt(l, s, 0)] + ts, rest))
  }

  lemma RowOffset<T>(l: Layout<T>, s: seq<byte>, i: nat)
    requires RecordSize(l) <= |s|
    ensures RecordAt(l, s, (i + 1) * RecordSize(l)) == RecordAt(l, s[RecordSize(l)..], i * RecordSize(l))
  {
    var size := RecordSize(l);
    var k := i * size;
    assert (i + 1) * size == k + size;
    if k + size + size <= |s| {
      assert s[k + size..] == s[size..][k..];
    }
  }

  lemma OneMoreTimes(n: nat, size: nat)
    requires n > 0
    ensures n * size == (n - 1) * size + size && (n - 1) * size >= 0
  {}

  /** A bulk read takes the first record and then the others. */
  lemma BulkTakesFirst<T>(l: Layout<T>, s: seq<byte>, count: nat)
    requires count > 0 && count * RecordSize(l) <= |s| && RecordSize(l) <= |s|
    ensures var tail := ReadVector(l, s[RecordSize(l)..], count - 1);
            && tail.Some?
            && ReadVector(l, s, count) == Some(([RecordAt(l, s, 0)] + tail.value.0, tail.value.1))
  {
    hide RecordAt;
    var size := RecordSize(l);
    OneMoreTimes(count, size);
    var k := (count - 1) * size;
    var tail := s[size..];
    assert tail[k..] == s[k + size..];
    var ts := ReadVector(l, s, count).value.0;
    var us := ReadVector(l, tail, count - 1).value.0;
    forall i | 0 <= i < count - 1
      ensures ts[i + 1] == us[i]
    {
      RowOffset(l, s, i);
    }
    assert ts[0] == RecordAt(l, s, 0);
    assert ts == [ts[0]] + us;
  }

  lemma BulkOfNone<T>(l: Layout<T>, s: seq<byte>)
    ensures ReadVector(l, s, 0) == Some(([], s))
  {
    assert 0 * RecordSize(l) == 0 && s[0..] == s;
    assert ReadVector(l, s, 0).value.0 == [];
  }

  lemma BulkFails<T>(l: Layout<T>, s: seq<byte>, count: nat)
    requires |s| < count * RecordSize(l)
    ensures ReadVector(l, s, count) == None
  {}

  /** Reading in bulk and reading record by record see the same records and stop at the same byte, or both fail. */
  lemma {:induction false} BulkIsOneByOne<T>(l: Layout<T>, s: seq<byte>, count: nat)
    requires l.width > 0
    ensures ReadVector(l, s, count) == LoadRecords(l, s, count)
    decreases count
  {
    hide ReadVector, RecordAt;
    if count == 0 {
      BulkOfNone(l, s);
    } else {
      OneMoreTimes(count, RecordSize(l));
      if |s| >= RecordSize(l) {
        BulkIsOneByOne(l, s[RecordSize(l)..], count - 1);
        if |s| >= count * RecordSize(l) {
          BulkTakesFirst(l, s, count);
        } else {
          BulkFails(l, s, count);
          BulkFails(l, s[RecordSize(l)..], count - 1);
        }
      } else {
        BulkFails(l, s, count);
      }
    }
  }

  lemma RecordRoundTrip<T(!new)>(l: Layout<T>, t: T, rest: seq<byte>)
    requires Lawful(l)
    ensures RecordAt(l, WordsToBytes(l.words(t)) + rest, 0) == t
  {
    var s := WordsToBytes(l.words(t)) + rest;
    assert |l.words(t)| == l.width;
    assert s[0..] == s;
    WordsRoundTrip(l.words(t), rest);
  }

  lemma {:induction false} VectorRoundTrip<T(!new)>(l: Layout<T>, ts: seq<T>, rest: seq<byte>)
    requires Lawful(l)
    ensures LoadRecords(l, VectorBytes(l, ts) + rest, |ts|) == Some((ts, rest))
    ensures ReadVector(l, VectorBytes(l, ts) + rest, |ts|) == Some((ts, rest))
    decreases |ts|
  {
    hide RecordAt, BytesToWords;
    BulkIsOneByOne(l, VectorBytes(l, ts) + rest, |ts|);
    hide ReadVector;
    if ts == [] {
      assert VectorBytes(l, ts) + rest == rest;
    } else {
      var head, tail := WordsToBytes(l.words(ts[0])), VectorBytes(l, ts[1..]) + rest;
      var s := VectorBytes(l, ts) + rest;
      assert s == head + tail;
      assert |head| == RecordSize(l);
      RecordRoundTrip(l, ts[0], tail);
      assert s[RecordSize(l)..] == tail;
      VectorRoundTrip(l, ts[1..], rest);
      assert ts == [ts[0]] + ts[1..];
    }
  }

  lemma {:induction false} VectorLength<T(!new)>(l: Layout<T>, ts: seq<T>)
    requires Lawful(l)
    ensures |VectorBytes(l, ts)| == |ts| * RecordSize(l)
    decreases |ts|
  {
    if ts == [] {
    } else {
      VectorLength(l, ts[1..]);
      assert |l.words(ts[0])| == l.width;
      assert |ts| * RecordSize(l) == |ts[1..]| * RecordSize(l) + RecordSize(l);
    }
  }

  // ---- the file ----

  datatype Header = Header(
    magic: u32, version: u32, maps: u32, portals: u32, npcs: u32, monsters: u32, safeRegions: u32, specialRegions: u32)

  function HeaderWords(h: Header): seq<u32> {
    [h.magic, h.version, h.maps, h.portals, h.npcs, h.monsters, h.safeRegions, h.specialRegions]
  }

  function MakeHeader(ws: seq<u32>): Header {
    Header(At(ws, 0), At(ws, 1), At(ws, 2), At(ws, 3), At(ws, 4), At(ws, 5), At(ws, 6), At(ws, 7))
  }

  /** Each count keeps only the low 32 bits of its list's length. */
  function HeaderOf(p: Pack): Header {
    Header(MAGIC, VERSION, |p.maps| % TWO_TO_32, |p.portals| % TWO_TO_32, |p.npcs| % TWO_TO_32,
           |p.monsters| % TWO_TO_32, |p.safeRegions| % TWO_TO_32, |p.specialRegions| % TWO_TO_32)
  }

  function HeaderBytes(h: Header): (r: seq<byte>)
    ensures |r| == HEADER_BYTES
  {
    WordsToBytes(HeaderWords(h))
  }

  function ReadHeader(s: seq<byte>): Header
    requires |s| >= HEADER_BYTES
  {
    MakeHeader(BytesToWords(s, 8))
  }

  lemma HeaderRoundTrip(h: Header, rest: seq<byte>)
    ensures ReadHeader(HeaderBytes(h) + rest) == h
  {
    WordsRoundTrip(HeaderWords(h), rest);
  }

  function BodyBytes(p: Pack): seq<byte> {
    VectorBytes(MapLayout(), p.maps) + (VectorBytes(PortalLayout(), p.portals) + (VectorBytes(RegionLayout(), p.npcs) +
    (VectorBytes(RegionLayout(), p.monsters) + (VectorBytes(RegionLayout(), p.safeRegions) +
    VectorBytes(RegionLayout(), p.specialRegions)))))
  }

  /** WriteBinary. */
  function FileOf(p: Pack): seq<byte> {
    HeaderBytes(HeaderOf(p)) + BodyBytes(p)
  }

  /** The last three sections, all of regions; a fourth is read before them. */
  function ReadRegions(s: seq<byte>, n1: nat, n2: nat, n3: nat, n4: nat): Option<(seq<Region>, seq<Region>, seq<Region>, seq<Region>)> {
    match ReadVector(RegionLayout(), s, n1)
    case None => None
    case Some((a, s1)) =>
      match ReadVector(RegionLayout(), s1, n2)
      case None => None
      case Some((b, s2)) =>
        match ReadVector(RegionLayout(), s2, n3)
        case None => None
        case Some((c, s3)) =>
          match ReadVector(RegionLayout(), s3, n4)
          case None => None
          case Some((d, _)) => Some((a, b, c, d))
  }

  function ReadBody(h: Header, s: seq<byte>): Option<Pack> {
    match ReadVector(MapLayout(), s, h.maps)
    case None => None
    case Some((maps, s1)) =>
      match ReadVector(PortalLayout(), s1, h.portals)
      case None => None
      case Some((portals, s2)) =>
        match ReadRegions(s2, h.npcs, h.monsters, h.safeRegions, h.specialRegions)
        case None => None
        case Some((npcs, monsters, safe, special)) => Some(Pack(maps, portals, npcs, monsters, safe, special))
  }

  datatype ReadResult = Ok(pack: Pack) | HeaderReadFailed | BadMagic | UnsupportedVersion | BodyReadFailed

  function ReadBinary(s: seq<byte>): ReadResult {
    if |s| < HEADER_BYTES then HeaderReadFailed
    else
      var h := ReadHeader(s);
      if h.magic != MAGIC then BadMagic
      else if h.version != VERSION then UnsupportedVersion
      else
        match ReadBody(h, s[HEADER_BYTES..])
        case None => BodyReadFailed
        case Some(p) => Ok(p)
  }

  /** The bytes that the header's counts announce. */
  function BodyLength(h: Header): nat {
    8 * h.maps + 64 * h.portals + 44 * (h.npcs + h.monsters + h.safeRegions + h.specialRegions)
  }

  predicate CountsFit(p: Pack) {
    && |p.maps| < TWO_TO_32 && |p.portals| < TWO_TO_32 && |p.npcs| < TWO_TO_32
    && |p.monsters| < TWO_TO_32 && |p.safeRegions| < TWO_TO_32 && |p.specialRegions| < TWO_TO_32
  }

  lemma RegionsSucceed(s: seq<byte>, n1: nat, n2: nat, n3: nat, n4: nat)
    ensures ReadRegions(s, n1, n2, n3, n4).Some? <==> |s| >= 44 * (n1 + n2 + n3 + n4)
    ensures match ReadRegions(s, n1, n2, n3, n4)
            case None => true
            case Some((a, b, c, d)) => |a| == n1 && |b| == n2 && |c| == n3 && |d| == n4
  {}

  /** A body is read exactly when the announced bytes are there, and the lists have the announced lengths. */
  lemma BodySucceeds(h: Header, s: seq<byte>)
    ensures ReadBody(h, s).Some? <==> |s| >= BodyLength(h)
    ensures match ReadBody(h, s)
            case None => true
            case Some(p) =>
              && |p.maps| == h.maps && |p.portals| == h.portals && |p.npcs| == h.npcs
              && |p.monsters| == h.monsters && |p.safeRegions| == h.safeRegions && |p.specialRegions| == h.specialRegions
  {
    var r1 := ReadVector(MapLayout(), s, h.maps);
    if r1.Some? {
      var r2 := ReadVector(PortalLayout(), r1.value.1, h.portals);
      if r2.Some? {
        RegionsSucceed(r2.value.1, h.npcs, h.monsters, h.safeRegions, h.specialRegions);
      }
    }
    hide ReadRegions;
  }

  lemma ReadSucceeds(s: seq<byte>)
    ensures ReadBinary(s).Ok? <==>
            |s| >= HEADER_BYTES && ReadHeader(s).magic == MAGIC && ReadHeader(s).version == VERSION
            && |s| >= HEADER_BYTES + BodyLength(ReadHeader(s))
  {
    hide ReadBody, BodyLength;
    if |s| >= HEADER_BYTES {
      BodySucceeds(ReadHeader(s), s[HEADER_BYTES..]);
    }
  }

  lemma RegionsRoundTrip(a: seq<Region>, b: seq<Region>, c: seq<Region>, d: seq<Region>)
    ensures ReadRegions(VectorBytes(RegionLayout(), a) + (VectorBytes(RegionLayout(), b) +
                        (VectorBytes(RegionLayout(), c) + VectorBytes(RegionLayout(), d))), |a|, |b|, |c|, |d|) == Some((a, b, c, d))
  {
    LayoutsAreLawful();
    hide Lawful, ReadVector, VectorBytes;
    var l := RegionLayout();
    var sd := VectorBytes(l, d);
    var sc := VectorBytes(l, c) + sd;
    var sb := VectorBytes(l, b) + sc;
    VectorRoundTrip(l, a, sb);
    VectorRoundTrip(l, b, sc);
    VectorRoundTrip(l, c, sd);
    VectorRoundTrip(l, d, []);
    assert sd + [] == sd;
  }

  lemma CountsAreLengths(p: Pack)
    requires CountsFit(p)
    ensures HeaderOf(p) == Header(MAGIC, VERSION, |p.maps|, |p.portals|, |p.npcs|, |p.monsters|, |p.safeRegions|, |p.specialRegions|)
  {}

  lemma BodyRoundTrip(p: Pack)
    requires CountsFit(p)
    ensures ReadBody(HeaderOf(p), BodyBytes(p)) == Some(p)
  {
    CountsAreLengths(p);
    LayoutsAreLawful();
    hide Lawful, ReadVector, VectorBytes, ReadRegions, HeaderOf, CountsFit, MapLayout, PortalLayout, RegionLayout;
    var regions := VectorBytes(RegionLayout(), p.npcs) + (VectorBytes(RegionLayout(), p.monsters) +
                   (VectorBytes(RegionLayout(), p.safeRegions) + VectorBytes(RegionLayout(), p.specialRegions)));
    VectorRoundTrip(MapLayout(), p.maps, VectorBytes(PortalLayout(), p.portals) + regions);
    VectorRoundTrip(PortalLayout(), p.portals, regions);
    RegionsRoundTrip(p.npcs, p.monsters, p.safeRegions, p.specialRegions);
  }

  lemma WrittenHeader(p: Pack)
    ensures ReadHeader(FileOf(p)) == HeaderOf(p) && FileOf(p)[HEADER_BYTES..] == BodyBytes(p)
  {
    HeaderRoundTrip(HeaderOf(p), BodyBytes(p));
  }

  /** Writing and reading back returns the six lists exactly when each has fewer than 2^32 records. */
  lemma BinaryRoundTrip(p: Pack)
    ensures ReadBinary(FileOf(p)) == Ok(p) <==> CountsFit(p)
  {
    WrittenHeader(p);
    BodySucceeds(HeaderOf(p), BodyBytes(p));
    hide ReadBody, BodyBytes, BytesToWords, BodyLength;
    if CountsFit(p) {
      BodyRoundTrip(p);
    }
  }

  lemma SectionLengths(ms: seq<MapRecord>, ps: seq<Portal>, rs: seq<Region>)
    ensures |VectorBytes(MapLayout(), ms)| == 8 * |ms|
    ensures |VectorBytes(PortalLayout(), ps)| == 64 * |ps|
    ensures |VectorBytes(RegionLayout(), rs)| == 44 * |rs|
  {
    LayoutsAreLawful();
    hide Lawful, VectorBytes;
    VectorLength(MapLayout(), ms);
    VectorLength(PortalLayout(), ps);
    VectorLength(RegionLayout(), rs);
  }

  lemma FileLength(p: Pack)
    requires CountsFit(p)
    ensures |FileOf(p)| == HEADER_BYTES + BodyLength(HeaderOf(p))
  {
    CountsAreLengths(p);
    hide HeaderOf, VectorBytes, MapLayout, PortalLayout, RegionLayout;
    SectionLengths(p.maps, p.portals, p.npcs);
    SectionLengths(p.maps, p.portals, p.monsters);
    SectionLengths(p.maps, p.portals, p.safeRegions);
    SectionLengths(p.maps, p.portals, p.specialRegions);
  }

  /** A file cut short anywhere is refused, and in the header or in the body according to where the cut is. */
  lemma PrefixFails(p: Pack, n: nat)
    requires CountsFit(p) && n < |FileOf(p)|
    ensures ReadBinary(FileOf(p)[..n]) == if n < HEADER_BYTES then HeaderReadFailed else BodyReadFailed
  {
    var s := FileOf(p)[..n];
    if n >= HEADER_BYTES {
      assert FileOf(p) == s + FileOf(p)[n..];
      WordsReadOnly(s, FileOf(p)[n..], 8);
      WrittenHeader(p);
      FileLength(p);
      hide ReadBody, BodyLength, BytesToWords;
      BodySucceeds(HeaderOf(p), s[HEADER_BYTES..]);
    }
  }

  // ---- the C# reader ----

  datatype Load = Loaded(pack: Pack) | Ignored | Threw

  /** A loop over an int counter against a uint count: from 2^31 on the counter wraps and the loop only ends at the end of the file. */
  function LoadSection<T>(l: Layout<T>, s: seq<byte>, count: u32): Option<(seq<T>, seq<byte>)> {
    if count < TWO_TO_31 then LoadRecords(l, s, count) else None
  }

  function LoadRegions(s: seq<byte>, n1: u32, n2: u32, n3: u32, n4: u32): Option<(seq<Region>, seq<Region>, seq<Region>, seq<Region>)> {
    match LoadSection(RegionLayout(), s, n1)
    case None => None
    case Some((a, s1)) =>
      match LoadSection(RegionLayout(), s1, n2)
      case None => None
      case Some((b, s2)) =>
        match LoadSection(RegionLayout(), s2, n3)
        case None => None
        case Some((c, s3)) =>
          match LoadSection(RegionLayout(), s3, n4)
          case None => None
          case Some((d, _)) => Some((a, b, c, d))
  }

  function LoadBody(h: Header, s: seq<byte>): Option<Pack> {
    match LoadSection(MapLayout(), s, h.maps)
    case None => None
    case Some((maps, s1)) =>
      match LoadSection(PortalLayout(), s1, h.portals)
      case None => None
      case Some((portals, s2)) =>
        match LoadRegions(s2, h.npcs, h.monsters, h.safeRegions, h.specialRegions)
        case None => None
        case Some((npcs, monsters, safe, special)) => Some(Pack(maps, portals, npcs, monsters, safe, special))
  }

  /** Magic and version are looked at before the rest of the header is read. */
  function TryLoad(s: seq<byte>): Load {
    if |s| < 8 then Threw
    else
      var ws := BytesToWords(s, 2);
      if ws[0] != MAGIC || ws[1] != VERSION then Ignored
      else if |s| < HEADER_BYTES then Threw
      else
        match LoadBody(ReadHeader(s), s[HEADER_BYTES..])
        case None => Threw
        case Some(p) => Loaded(p)
  }

  predicate CountersHold(h: Header) {
    && h.maps < TWO_TO_31 && h.portals < TWO_TO_31 && h.npcs < TWO_TO_31
    && h.monsters < TWO_TO_31 && h.safeRegions < TWO_TO_31 && h.specialRegions < TWO_TO_31
  }

  lemma SectionsAgree<T>(l: Layout<T>, s: seq<byte>, count: u32)
    requires l.width > 0
    ensures LoadSection(l, s, count) == if count < TWO_TO_31 then ReadVector(l, s, count) else None
  {
    BulkIsOneByOne(l, s, count);
  }

  lemma RegionsAgree(s: seq<byte>, n1: u32, n2: u32, n3: u32, n4: u32)
    ensures LoadRegions(s, n1, n2, n3, n4) ==
            if n1 < TWO_TO_31 && n2 < TWO_TO_31 && n3 < TWO_TO_31 && n4 < TWO_TO_31 then ReadRegions(s, n1, n2, n3, n4) else None
  {
    var l := RegionLayout();
    hide ReadVector, LoadSection, RegionLayout;
    assert l.width > 0 by { RegionWidth(); }
    SectionsAgree(l, s, n1);
    var r1 := ReadVector(l, s, n1);
    if r1.Some? {
      SectionsAgree(l, r1.value.1, n2);
      var r2 := ReadVector(l, r1.value.1, n2);
      if r2.Some? {
        SectionsAgree(l, r2.value.1, n3);
        var r3 := ReadVector(l, r2.value.1, n3);
        if r3.Some? {
          SectionsAgree(l, r3.value.1, n4);
        }
      }
    }
  }

  lemma RegionWidth()
    ensures RegionLayout().width > 0
  {}

  lemma BodiesAgree(h: Header, s: seq<byte>)
    ensures LoadBody(h, s) == if CountersHold(h) then ReadBody(h, s) else None
  {
    hide ReadVector, LoadSection, ReadRegions, LoadRegions;
    SectionsAgree(MapLayout(), s, h.maps);
    var r1 := ReadVector(MapLayout(), s, h.maps);
    if r1.Some? {
      SectionsAgree(PortalLayout(), r1.value.1, h.portals);
      var r2 := ReadVector(PortalLayout(), r1.value.1, h.portals);
      if r2.Some? {
        RegionsAgree(r2.value.1, h.npcs, h.monsters, h.safeRegions, h.specialRegions);
      }
    }
  }

  lemma FirstWords(s: seq<byte>)
    requires |s| >= HEADER_BYTES
    ensures BytesToWords(s, 2) == [ReadHeader(s).magic, ReadHeader(s).version]
  {
    assert BytesToWords(s, 8)[0] == BytesToWords(s, 2)[0];
    assert BytesToWords(s, 8)[1] == BytesToWords(s[4..], 7)[0];
    assert BytesToWords(s, 2)[1] == BytesToWords(s[4..], 1)[0];
  }

  /** On every file: the client loads a pack exactly when the server reads that pack and all six counts are below 2^31. */
  lemma ReadersAgree(s: seq<byte>, p: Pack)
    ensures TryLoad(s) == Loaded(p) <==> ReadBinary(s) == Ok(p) && CountersHold(ReadHeader(s))
  {
    hide LoadBody, ReadBody, CountersHold, BytesToWords;
    if |s| >= HEADER_BYTES {
      FirstWords(s);
      BodiesAgree(ReadHeader(s), s[HEADER_BYTES..]);
    }
  }

  /** The whole way from server to client. */
  lemma WrittenFileLoads(p: Pack)
    ensures TryLoad(FileOf(p)) == Loaded(p) <==> CountsFit(p) && CountersHold(HeaderOf(p))
  {
    hide TryLoad, ReadBinary, FileOf, CountersHold;
    ReadersAgree(FileOf(p), p);
    BinaryRoundTrip(p);
    WrittenHeader(p);
  }
}

/** The two programs that read a zone file, and the one that writes it, as they run. */
module ZoneReaders {
  import opened Bytes
  import opened ZoneRecords
  import opened ZoneData

  // ---- C++ ----

  class FileStream {
    var rest: seq<byte>

    constructor (file: seq<byte>)
      ensures rest == file
    {
      rest := file;
    }

    /** One bulk read: false, with nothing to rely on, when the file is too short. */
    method ReadVectorOf<T>(l: Layout<T>, count: nat) returns (r: Option<seq<T>>)
      modifies this
      ensures match ReadVector(l, old(rest), count)
              case None => r == None
              case Some((ts, after)) => r == Some(ts) && rest == after
    {
      var n := count * RecordSize(l);
      if |rest| < n {
        return None;
      }
      var all := rest;
      r := Some(seq(count, i requires 0 <= i => RecordAt(l, all, i * RecordSize(l))));
      rest := rest[n..];
    }
  }

  method ReadZoneFile(file: seq<byte>) returns (r: ReadResult)
    ensures r == ReadBinary(file)
  {
    hide ReadVector, BytesToWords;
    if |file| < HEADER_BYTES {
      return HeaderReadFailed;
    }
    var header := ReadHeader(file);
    if header.magic != MAGIC {
      return BadMagic;
    }
    if header.version != VERSION {
      return UnsupportedVersion;
    }
    var input := new FileStream(file[HEADER_BYTES..]);
    var maps := input.ReadVectorOf(MapLayout(), header.maps);
    if maps.None? {
      return BodyReadFailed;
    }
    var portals := input.ReadVectorOf(PortalLayout(), header.portals);
    if portals.None? {
      return BodyReadFailed;
    }
    var npcs := input.ReadVectorOf(RegionLayout(), header.npcs);
    if npcs.None? {
      return BodyReadFailed;
    }
    var monsters := input.ReadVectorOf(RegionLayout(), header.monsters);
    if monsters.None? {
      return BodyReadFailed;
    }
    var safe := input.ReadVectorOf(RegionLayout(), header.safeRegions);
    if safe.None? {
      return BodyReadFailed;
    }
    var special := input.ReadVectorOf(RegionLayout(), header.specialRegions);
    if special.None? {
      return BodyReadFailed;
    }
    r := Ok(Pack(maps.value, portals.value, npcs.value, monsters.value, safe.value, special.value));
  }

  class FileOutput {
    var bytes: seq<byte>

    constructor ()
      ensures bytes == []
    {
      bytes := [];
    }

    method Write(more: seq<byte>)
      modifies this
      ensures bytes == old(bytes) + more
    {
      bytes := bytes + more;
    }

    /** The records of a vector, one after the other. */
    method WriteVectorOf<T>(l: Layout<T>, values: seq<T>)
      modifies this
      ensures bytes == old(bytes) + VectorBytes(l, values)
    {
      hide WordsToBytes;
      assert values[0..] == values;
      for i := 0 to |values|
        invariant bytes + VectorBytes(l, values[i..]) == old(bytes) + VectorBytes(l, values)
      {
        ghost var before, rest := bytes, VectorBytes(l, values[i + 1..]);
        assert values[i..][1..] == values[i + 1..];
        var record := WordsToBytes(l.words(values[i]));
        assert before + (record + rest) == before + record + rest;
        Write(record);
      }
      assert values[|values|..] == [];
    }
  }

  /** Header, then the six vectors in file order. */
  method WriteZoneFile(p: Pack) returns (file: seq<byte>)
    ensures file == FileOf(p)
  {
    hide VectorBytes, MapLayout, PortalLayout, RegionLayout;
    var os := new FileOutput();
    os.Write(HeaderBytes(HeaderOf(p)));
    os.WriteVectorOf(MapLayout(), p.maps);
    os.WriteVectorOf(PortalLayout(), p.portals);
    os.WriteVectorOf(RegionLayout(), p.npcs);
    os.WriteVectorOf(RegionLayout(), p.monsters);
    os.WriteVectorOf(RegionLayout(), p.safeRegions);
    os.WriteVectorOf(RegionLayout(), p.specialRegions);
    file := os.bytes;
    SixSections(HeaderBytes(HeaderOf(p)), VectorBytes(MapLayout(), p.maps), VectorBytes(PortalLayout(), p.portals),
                VectorBytes(RegionLayout(), p.npcs), VectorBytes(RegionLayout(), p.monsters),
                VectorBytes(RegionLayout(), p.safeRegions), VectorBytes(RegionLayout(), p.specialRegions));
  }

  lemma SixSections(h: seq<byte>, a: seq<byte>, b: seq<byte>, c: seq<byte>, d: seq<byte>, e: seq<byte>, f: seq<byte>)
    ensures [] + h + a + b + c + d + e + f == h + (a + (b + (c + (d + (e + f)))))
  {
    assert [] + h == h;
    assert d + e + f == d + (e + f);
    assert c + d + e + f == c + (d + (e + f));
    assert b + c + d + e + f == b + (c + (d + (e + f)));
    assert a + b + c + d + e + f == a + (b + (c + (d + (e + f))));
    assert h + a + b + c + d + e + f == h + (a + b + c + d + e + f);
  }

  /** The server's shared state: the pack of the last load, or nothing when that load failed. */
  class ZoneRuntimeDataStore {
    var pack: Pack
    var ready: bool
    var lastError: ReadResult

    constructor ()
      ensures pack == EMPTY_PACK && !ready
    {
      pack, ready, lastError := EMPTY_PACK, false, HeaderReadFailed;
    }

    method LoadFromBinary(file: seq<byte>) returns (ok: bool)
      modifies this
      ensures ok == ReadBinary(file).Ok? == ready
      ensures if ok then ReadBinary(file) == Ok(pack) else pack == EMPTY_PACK && lastError == ReadBinary(file)
    {
      var r := ReadZoneFile(file);
      match r {
        case Ok(p) =>
          pack, ready, ok := p, true, true;
        case _ =>
          pack, ready, ok, lastError := EMPTY_PACK, false, false, r;
      }
    }
  }

  // ---- C# ----

  lemma {:induction false} WordsSplit(s: seq<byte>, a: nat, b: nat)
    requires 4 * (a + b) <= |s|
    ensures BytesToWords(s, a + b) == BytesToWords(s, a) + BytesToWords(s[4 * a..], b)
    decreases a
  {
    hide FromLE32;
    if a == 0 {
      assert s[0..] == s;
      assert [] + BytesToWords(s, b) == BytesToWords(s, b);
    } else {
      WordsSplit(s[4..], a - 1, b);
      assert s[4..][4 * (a - 1)..] == s[4 * a..];
      var w, front, back := FromLE32(s[..4]), BytesToWords(s[4..], a - 1), BytesToWords(s[4 * a..], b);
      assert [w] + (front + back) == [w] + front + back;
    }
  }

  lemma OneMoreWord(s: seq<byte>, k: nat)
    requires 4 * (k + 1) <= |s|
    ensures BytesToWords(s, k + 1) == BytesToWords(s, k) + [FromLE32(s[4 * k..4 * k + 4])]
  {
    hide FromLE32;
    WordsSplit(s, k, 1);
    assert s[4 * k..][..4] == s[4 * k..4 * k + 4];
  }

  class BinaryReader {
    var rest: seq<byte>

    constructor (file: seq<byte>)
      ensures rest == file
    {
      rest := file;
    }

    /** None is the end-of-stream exception. */
    method ReadWord() returns (r: Option<u32>)
      modifies this
      ensures if |old(rest)| < 4 then r == None else r == Some(FromLE32(old(rest)[..4])) && rest == old(rest)[4..]
    {
      if |rest| < 4 {
        return None;
      }
      r := Some(FromLE32(rest[..4]));
      rest := rest[4..];
    }

    method ReadWords(n: nat) returns (r: Option<seq<u32>>)
      modifies this
      ensures if |old(rest)| < 4 * n then r == None else r == Some(BytesToWords(old(rest), n)) && rest == old(rest)[4 * n..]
    {
      hide FromLE32;
      ghost var s := rest;
      var ws: seq<u32> := [];
      for k := 0 to n
        invariant 4 * k <= |s| && rest == s[4 * k..] && ws == BytesToWords(s, k)
      {
        var w := ReadWord();
        if w.None? {
          return None;
        }
        OneMoreWord(s, k);
        assert s[4 * k..][..4] == s[4 * k..4 * k + 4];
        ws := ws + [w.value];
      }
      r := Some(ws);
    }

    /** One record, field by field. */
    method ReadRecord<T>(l: Layout<T>) returns (r: Option<T>)
      modifies this
      ensures if |old(rest)| < RecordSize(l) then r == None
              else r == Some(RecordAt(l, old(rest), 0)) && rest == old(rest)[RecordSize(l)..]
    {
      hide BytesToWords;
      ghost var s := rest;
      assert s[0..] == s;
      var ws := ReadWords(l.width);
      r := if ws.None? then None else Some(l.make(ws.value));
    }

    /** for (var i = 0; i < count; i++): `i` is a signed 32-bit counter, `count` an unsigned one. */
    method LoadList<T>(l: Layout<T>, count: u32) returns (r: Option<seq<T>>)
      requires l.width > 0
      modifies this
      ensures match LoadSection(l, old(rest), count)
              case None => r == None
              case Some((ts, after)) => r == Some(ts) && rest == after
    {
      hide RecordAt;
      var i: i32 := 0;
      var ts: seq<T> := [];
      PrependToNothing(LoadRecords(l, rest, count));
      while i < count
        invariant count < TWO_TO_31 ==> 0 <= i <= count
        invariant count < TWO_TO_31 ==> LoadRecords(l, old(rest), count) == Prepend(ts, LoadRecords(l, rest, count - i))
        decreases |rest|
      {
        ghost var before := rest;
        var t := ReadRecord(l);
        if t.None? {
          return None;
        }
        if count < TWO_TO_31 {
          PrependStep(l, ts, before, count - i);
        }
        ts := ts + [t.value];
        i := if i == TWO_TO_31 - 1 then -TWO_TO_31 else i + 1;
      }
      assert ts + [] == ts;
      r := Some(ts);
    }
  }

  function Prepend<T>(ts: seq<T>, r: Option<(seq<T>, seq<byte>)>): Option<(seq<T>, seq<byte>)> {
    match r
    case None => None
    case Some((us, rest)) => Some((ts + us, rest))
  }

  lemma PrependToNothing<T>(r: Option<(seq<T>, seq<byte>)>)
    ensures Prepend([], r) == r
  {
    if r.Some? {
      assert [] + r.value.0 == r.value.0;
    }
  }

  lemma PrependStep<T>(l: Layout<T>, ts: seq<T>, s: seq<byte>, n: nat)
    requires n > 0 && |s| >= RecordSize(l)
    ensures Prepend(ts, LoadRecords(l, s, n)) ==
            Prepend(ts + [RecordAt(l, s, 0)], LoadRecords(l, s[RecordSize(l)..], n - 1))
  {
    hide RecordAt;
    var r := LoadRecords(l, s[RecordSize(l)..], n - 1);
    if r.Some? {
      assert ts + ([RecordAt(l, s, 0)] + r.value.0) == ts + [RecordAt(l, s, 0)] + r.value.0;
    }
  }

  class GameDataService {
    var maps: seq<MapRecord>
    var portals: seq<Portal>
    var npcs: seq<Region>
    var monsters: seq<Region>
    var safe: seq<Region>
    var special: seq<Region>

    constructor ()
      ensures Contents() == EMPTY_PACK
    {
      maps, portals, npcs, monsters, safe, special := [], [], [], [], [], [];
    }

    function Contents(): Pack
      reads this
    {
      Pack(maps, portals, npcs, monsters, safe, special)
    }

    /** Called once, on empty lists. After an exception the lists may hold part of the file. */
    method LoadFile(file: seq<byte>) returns (r: Load)
      requires Contents() == EMPTY_PACK
      modifies this
      ensures r == TryLoad(file)
      ensures r.Loaded? ==> Contents() == r.pack
      ensures r.Ignored? ==> Contents() == EMPTY_PACK
    {
      hide BytesToWords, LoadBody;
      var br := new BinaryReader(file);
      var first := br.ReadWords(2);
      if first.None? {
        return Threw;
      }
      if first.value[0] != MAGIC || first.value[1] != VERSION {
        return Ignored;
      }
      var counts := br.ReadWords(6);
      if counts.None? {
        return Threw;
      }
      assert file[8..][24..] == file[HEADER_BYTES..];
      HeaderInTwoReads(file);
      var ok := LoadLists(br, MakeHeader(first.value + counts.value));
      r := if ok then Loaded(Contents()) else Threw;
    }

    method LoadLists(br: BinaryReader, h: Header) returns (ok: bool)
      requires Contents() == EMPTY_PACK
      modifies this, br
      ensures match LoadBody(h, old(br.rest))
              case None => !ok
              case Some(p) => ok && Contents() == p
    {
      hide LoadSection;
      var ms := br.LoadList(MapLayout(), h.maps);
      if ms.None? {
        return false;
      }
      maps := ms.value;
      var ps := br.LoadList(PortalLayout(), h.portals);
      if ps.None? {
        return false;
      }
      portals := ps.value;
      ok := LoadRegionLists(br, h);
    }

    method LoadRegionLists(br: BinaryReader, h: Header) returns (ok: bool)
      modifies `npcs, `monsters, `safe, `special, br
      ensures match LoadRegions(old(br.rest), h.npcs, h.monsters, h.safeRegions, h.specialRegions)
              case None => !ok
              case Some((a, b, c, d)) => ok && npcs == a && monsters == b && safe == c && special == d
    {
      hide LoadSection;
      var a := br.LoadList(RegionLayout(), h.npcs);
      if a.None? {
        return false;
      }
      npcs := a.value;
      var b := br.LoadList(RegionLayout(), h.monsters);
      if b.None? {
        return false;
      }
      monsters := b.value;
      var c := br.LoadList(RegionLayout(), h.safeRegions);
      if c.None? {
        return false;
      }
      safe := c.value;
      var d := br.LoadList(RegionLayout(), h.specialRegions);
      if d.None? {
        return false;
      }
      special := d.value;
      ok := true;
    }
  }

  lemma HeaderInTwoReads(s: seq<byte>)
    requires |s| >= HEADER_BYTES
    ensures BytesToWords(s, 8) == BytesToWords(s, 2) + BytesToWords(s[8..], 6)
  {
    WordsSplit(s, 2, 6);
  }
}

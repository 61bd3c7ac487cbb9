/** The CSV side of the zone pack: six text files written from a pack and loaded back into one. */
module ZoneCsv {
  import opened Bytes
  import opened ZoneRecords
  import opened ZoneData
  import opened Decimals

  // ---- getline ----

  function Find(s: string, sep: char): (i: nat)
    ensures i <= |s| && (i < |s| ==> s[i] == sep) && sep !in s[..i]
  {
    if s == [] || s[0] == sep then 0 else Find(s[1..], sep) + 1
  }

  /** What repeated getline calls see: nothing after a final separator. */
  function Split(s: string, sep: char): seq<string>
    decreases |s|
  {
    if s == [] then []
    else
      var i := Find(s, sep);
      if i == |s| then [s] else [s[..i]] + Split(s[i + 1..], sep)
  }

  lemma {:induction false} FindAfter(a: string, sep: char, rest: string)
    requires sep !in a
    ensures Find(a + [sep] + rest, sep) == |a|
  {
    if a == [] {
    } else {
      assert (a + [sep] + rest)[1..] == a[1..] + [sep] + rest;
      FindAfter(a[1..], sep, rest);
    }
  }

  lemma SplitLine(a: string, sep: char, rest: string)
    requires sep !in a
    ensures Split(a + [sep] + rest, sep) == [a] + Split(rest, sep)
  {
    FindAfter(a, sep, rest);
    var s := a + [sep] + rest;
    assert s[..|a|] == a && s[|a| + 1..] == rest;
  }

  lemma SplitLast(a: string, sep: char)
    requires sep !in a && a != []
    ensures Split(a, sep) == [a]
  {
    assert forall i | 0 <= i < |a| :: a[i] != sep;
  }

  // ---- one row ----

  /** A CSV table: the record's words in column order, and which columns are signed. */
  datatype Table<!T> = Table(layout: Layout<T>, signed: seq<bool>)

  ghost predicate WellFormed<T(!new)>(t: Table<T>) {
    Lawful(t.layout) && |t.signed| == t.layout.width
  }

  function PrintWord(signed: bool, w: u32): string {
    if signed then PrintInt(ToI32(w)) else PrintNat(w)
  }

  function ParseWord(signed: bool, s: string): Option<u32> {
    if signed then
      match ParseSigned(s)
      case None => None
      case Some(x) => Some(ToU32(x))
    else ParseUnsigned(s)
  }

  lemma WordRoundTrip(signed: bool, w: u32)
    ensures ParseWord(signed, PrintWord(signed, w)) == Some(w)
  {
    if signed {
      SignedReadsBack(ToI32(w));
      I32Bits(w);
    } else {
      UnsignedReadsBack(w);
    }
  }

  function Cells(signed: seq<bool>, ws: seq<u32>): (cells: seq<string>)
    requires |signed| == |ws|
    ensures |cells| == |ws|
  {
    if ws == [] then [] else [PrintWord(signed[0], ws[0])] + Cells(signed[1..], ws[1..])
  }

  /** The chain of parses: the first cell that fails refuses the row. */
  function ParseWords(signed: seq<bool>, cells: seq<string>): Option<seq<u32>>
    requires |cells| >= |signed|
    decreases |signed|
  {
    if signed == [] then Some([])
    else
      match ParseWord(signed[0], cells[0])
      case None => None
      case Some(w) =>
        match ParseWords(signed[1..], cells[1..])
        case None => None
        case Some(ws) => Some([w] + ws)
  }

  lemma {:induction false} CellsRoundTrip(signed: seq<bool>, ws: seq<u32>)
    requires |signed| == |ws|
    ensures ParseWords(signed, Cells(signed, ws)) == Some(ws)
    decreases |ws|
  {
    hide PrintWord, ParseWord;
    if ws == [] {
    } else {
      var cells := Cells(signed, ws);
      assert cells[0] == PrintWord(signed[0], ws[0]) && cells[1..] == Cells(signed[1..], ws[1..]);
      hide Cells;
      WordRoundTrip(signed[0], ws[0]);
      CellsRoundTrip(signed[1..], ws[1..]);
      assert ws == [ws[0]] + ws[1..];
    }
  }

  function Join(cells: seq<string>): string {
    if cells == [] then [] else if |cells| == 1 then cells[0] else cells[0] + [','] + Join(cells[1..])
  }

  predicate IsPlain(s: string) {
    s != [] && ',' !in s && '\n' !in s
  }

  lemma PrintedIsPlain(signed: bool, w: u32)
    ensures IsPlain(PrintWord(signed, w))
  {
    hide PrintNat;
  }

  lemma {:induction false} CellsArePlain(signed: seq<bool>, ws: seq<u32>)
    requires |signed| == |ws|
    ensures forall c <- Cells(signed, ws) :: IsPlain(c)
    decreases |ws|
  {
    hide PrintWord, IsPlain;
    if ws == [] {
    } else {
      PrintedIsPlain(signed[0], ws[0]);
      CellsArePlain(signed[1..], ws[1..]);
    }
  }

  lemma {:induction false} JoinIsOneLine(cells: seq<string>)
    requires cells != [] && forall c <- cells :: IsPlain(c)
    ensures '\n' !in Join(cells) && Join(cells) != []
    decreases |cells|
  {
    assert IsPlain(cells[0]);
    if |cells| > 1 {
      JoinIsOneLine(cells[1..]);
    }
  }

  lemma {:induction false} SplitJoins(cells: seq<string>)
    requires cells != [] && forall c <- cells :: IsPlain(c)
    ensures Split(Join(cells), ',') == cells
    decreases |cells|
  {
    hide Split, IsPlain;
    assert ',' !in cells[0] && cells[0] != [] by { PlainHasNoComma(cells[0]); }
    if |cells| == 1 {
      SplitLast(cells[0], ',');
      assert cells == [cells[0]];
    } else {
      SplitJoins(cells[1..]);
      SplitLine(cells[0], ',', Join(cells[1..]));
      assert cells == [cells[0]] + cells[1..];
    }
  }

  lemma PlainHasNoComma(s: string)
    requires IsPlain(s)
    ensures s != [] && ',' !in s
  {}

  function RowText<T>(t: Table<T>, row: T): string {
    var ws := t.layout.words(row);
    if |t.signed| == |ws| then Join(Cells(t.signed, ws)) else []
  }

  function ParseRow<T>(t: Table<T>, cells: seq<string>): Option<T> {
    if |cells| < |t.signed| then None
    else
      match ParseWords(t.signed, cells)
      case None => None
      case Some(ws) => Some(t.layout.make(ws))
  }

  lemma RowRoundTrip<T(!new)>(t: Table<T>, row: T)
    requires WellFormed(t)
    ensures '\n' !in RowText(t, row) && RowText(t, row) != []
    ensures ParseRow(t, Split(RowText(t, row), ',')) == Some(row)
  {
    hide Split, Join, ParseWords;
    var ws := t.layout.words(row);
    assert |ws| == t.layout.width && t.layout.make(ws) == row;
    CellsRoundTrip(t.signed, ws);
    CellsArePlain(t.signed, ws);
    SplitJoins(Cells(t.signed, ws));
    JoinIsOneLine(Cells(t.signed, ws));
  }

  // ---- one file ----

  function RowLines<T>(t: Table<T>, rows: seq<T>): string {
    if rows == [] then [] else RowText(t, rows[0]) + ['\n'] + RowLines(t, rows[1..])
  }

  /** WriteRegionCsv. */
  function CsvText<T>(t: Table<T>, header: string, rows: seq<T>): string {
    header + ['\n'] + RowLines(t, rows)
  }

  /** Blank lines and rows that do not parse are skipped. */
  function ParseLines<T>(t: Table<T>, lines: seq<string>): seq<T> {
    if lines == [] then []
    else if lines[0] == [] then ParseLines(t, lines[1..])
    else
      match ParseRow(t, Split(lines[0], ','))
      case None => ParseLines(t, lines[1..])
      case Some(row) => [row] + ParseLines(t, lines[1..])
  }

  lemma {:induction false} ParseLinesAppend<T>(t: Table<T>, a: seq<string>, b: seq<string>)
    ensures ParseLines(t, a + b) == ParseLines(t, a) + ParseLines(t, b)
    decreases |a|
  {
    hide ParseRow, Split;
    if a == [] {
      assert a + b == b;
    } else {
      assert (a + b)[1..] == a[1..] + b;
      ParseLinesAppend(t, a[1..], b);
    }
  }

  /** A line counts on its own: a blank or unparsable one leaves the others alone, any other adds its row in its place. */
  lemma LinesCountAlone<T>(t: Table<T>, a: seq<string>, line: string, b: seq<string>)
    ensures ParseLines(t, a + ([line] + b)) ==
            if line != [] && ParseRow(t, Split(line, ',')).Some?
            then ParseLines(t, a) + [ParseRow(t, Split(line, ',')).value] + ParseLines(t, b)
            else ParseLines(t, a + b)
  {
    ParseLinesAppend(t, a, [line] + b);
    ParseLinesAppend(t, a, b);
    hide ParseRow, Split;
    assert ([line] + b)[1..] == b;
  }

  lemma {:induction false} ExtraCellsIgnored(signed: seq<bool>, cells: seq<string>, more: seq<string>)
    requires |cells| >= |signed|
    ensures ParseWords(signed, cells + more) == ParseWords(signed, cells)
    decreases |signed|
  {
    hide ParseWord;
    if signed == [] {
    } else {
      assert (cells + more)[1..] == cells[1..] + more;
      ExtraCellsIgnored(signed[1..], cells[1..], more);
    }
  }

  /** A row needs as many cells as the table has columns; further cells are ignored. */
  lemma RowWidth<T>(t: Table<T>, cells: seq<string>, more: seq<string>)
    ensures |cells| < |t.signed| ==> ParseRow(t, cells) == None
    ensures |cells| >= |t.signed| ==> ParseRow(t, cells + more) == ParseRow(t, cells)
  {
    hide ParseWords;
    if |cells| >= |t.signed| {
      ExtraCellsIgnored(t.signed, cells, more);
    }
  }

  /** LoadRegionCsv: the first line is not looked at. */
  function LoadText<T>(t: Table<T>, text: string): seq<T> {
    var lines := Split(text, '\n');
    if lines == [] then [] else ParseLines(t, lines[1..])
  }

  lemma {:induction false} RowLinesRoundTrip<T(!new)>(t: Table<T>, rows: seq<T>)
    requires WellFormed(t)
    ensures ParseLines(t, Split(RowLines(t, rows), '\n')) == rows
    decreases |rows|
  {
    hide ParseRow, RowText, WellFormed, Split;
    if rows == [] {
      SplitNothing('\n');
    } else {
      RowRoundTrip(t, rows[0]);
      SplitLine(RowText(t, rows[0]), '\n', RowLines(t, rows[1..]));
      RowLinesRoundTrip(t, rows[1..]);
      var lines := [RowText(t, rows[0])] + Split(RowLines(t, rows[1..]), '\n');
      assert lines[1..] == Split(RowLines(t, rows[1..]), '\n');
      assert rows == [rows[0]] + rows[1..];
    }
  }

  lemma CsvFileRoundTrip<T(!new)>(t: Table<T>, header: string, rows: seq<T>)
    requires WellFormed(t) && '\n' !in header
    ensures LoadText(t, CsvText(t, header, rows)) == rows
  {
    hide Split, ParseLines, RowLines, WellFormed;
    SplitLine(header, '\n', RowLines(t, rows));
    assert ([header] + Split(RowLines(t, rows), '\n'))[1..] == Split(RowLines(t, rows), '\n');
    RowLinesRoundTrip(t, rows);
  }

  // ---- the six files ----

  const MAP_COLUMNS := ["zone_id", "map_id"]
  const REGION_COLUMNS :=
    ["zone_id", "map_id", "region_id", "value01", "value02", "value03", "value04", "center_x", "center_y", "center_z", "radius"]
  const DEST_COLUMNS := ["dest_zone_id", "dest_map_id", "dest_x", "dest_y", "dest_z"]
  const PORTAL_COLUMNS := REGION_COLUMNS + DEST_COLUMNS

  function MapTable(): Table<MapRecord> {
    Table(MapLayout(), [false, false])
  }

  function RegionTable(): Table<Region> {
    Table(RegionLayout(), [false, false, false, true, true, true, true, true, true, true, true])
  }

  function PortalTable(): Table<Portal> {
    Table(PortalLayout(),
          [false, false, false, true, true, true, true, true, true, true, true, false, false, true, true, true])
  }

  function RegionCells(r: Region): seq<string> {
    [PrintNat(r.zoneId), PrintNat(r.mapId), PrintNat(r.regionId),
     PrintInt(r.value01), PrintInt(r.value02), PrintInt(r.value03), PrintInt(r.value04),
     PrintInt(r.centerX), PrintInt(r.centerY), PrintInt(r.centerZ), PrintInt(r.radius)]
  }

  lemma {:induction false} CellsAreAll(signed: seq<bool>, ws: seq<u32>, cells: seq<string>)
    requires |signed| == |ws| == |cells| && forall i | 0 <= i < |ws| :: cells[i] == PrintWord(signed[i], ws[i])
    ensures Cells(signed, ws) == cells
    decreases |ws|
  {
    hide PrintWord;
    if ws != [] {
      CellsAreAll(signed[1..], ws[1..], cells[1..]);
      assert cells == [cells[0]] + cells[1..];
    }
  }

  /** The cells of a region's row: three ids without sign, then eight signed numbers. */
  lemma RegionRowText(r: Region)
    ensures RowText(RegionTable(), r) == Join(RegionCells(r))
  {
    hide Join, PrintNat, PrintInt, Cells;
    CellsAreAll(RegionTable().signed, RegionWords(r), RegionCells(r));
  }

  lemma MapRowText(m: MapRecord)
    ensures RowText(MapTable(), m) == Join([PrintNat(m.zoneId), PrintNat(m.mapId)])
  {
    hide PrintNat, Join, Cells;
    CellsAreAll([false, false], MapWords(m), [PrintNat(m.zoneId), PrintNat(m.mapId)]);
  }

  function PortalCells(p: Portal): seq<string> {
    RegionCells(p.base) +
    [PrintNat(p.destZoneId), PrintNat(p.destMapId), PrintInt(p.destX), PrintInt(p.destY), PrintInt(p.destZ)]
  }

  /** A portal's row: the region's cells, then the destination's. */
  lemma PortalRowText(p: Portal)
    ensures RowText(PortalTable(), p) == Join(PortalCells(p))
  {
    hide Join, PrintNat, PrintInt, Cells;
    CellsAreAll(PortalTable().signed, PortalWords(p), PortalCells(p));
  }

  datatype CsvPack = CsvPack(maps: string, portals: string, npcs: string, monsters: string, safe: string, special: string)

  function WriteCsvPack(p: Pack): CsvPack {
    CsvPack(
      CsvText(MapTable(), Join(MAP_COLUMNS), p.maps),
      CsvText(PortalTable(), Join(PORTAL_COLUMNS), p.portals),
      CsvText(RegionTable(), Join(REGION_COLUMNS), p.npcs),
      CsvText(RegionTable(), Join(REGION_COLUMNS), p.monsters),
      CsvText(RegionTable(), Join(REGION_COLUMNS), p.safeRegions),
      CsvText(RegionTable(), Join(REGION_COLUMNS), p.specialRegions))
  }

  function LoadCsvPack(c: CsvPack): Pack {
    Pack(
      LoadText(MapTable(), c.maps),
      LoadText(PortalTable(), c.portals),
      LoadText(RegionTable(), c.npcs),
      LoadText(RegionTable(), c.monsters),
      LoadText(RegionTable(), c.safe),
      LoadText(RegionTable(), c.special))
  }

  lemma TablesAreWellFormed()
    ensures WellFormed(MapTable()) && WellFormed(RegionTable()) && WellFormed(PortalTable())
  {
    LayoutsAreLawful();
    hide Lawful;
  }

  lemma RegionColumnsArePlain()
    ensures forall c <- REGION_COLUMNS :: IsPlain(c)
  {}

  lemma DestColumnsArePlain()
    ensures forall c <- DEST_COLUMNS :: IsPlain(c)
  {}

  lemma HeadersAreOneLine()
    ensures '\n' !in Join(MAP_COLUMNS) && '\n' !in Join(REGION_COLUMNS) && '\n' !in Join(PORTAL_COLUMNS)
  {
    hide Join, Split;
    assert forall c <- MAP_COLUMNS :: IsPlain(c);
    RegionColumnsArePlain();
    DestColumnsArePlain();
    hide IsPlain;
    JoinIsOneLine(MAP_COLUMNS);
    JoinIsOneLine(REGION_COLUMNS);
    JoinIsOneLine(PORTAL_COLUMNS);
  }

  /** Every pack comes back from its six CSV files record for record. */
  lemma CsvPackRoundTrip(p: Pack)
    ensures LoadCsvPack(WriteCsvPack(p)) == p
  {
    TablesAreWellFormed();
    HeadersAreOneLine();
    hide WellFormed, LoadText, CsvText, MapTable, RegionTable, PortalTable;
    CsvFileRoundTrip(MapTable(), Join(MAP_COLUMNS), p.maps);
    CsvFileRoundTrip(PortalTable(), Join(PORTAL_COLUMNS), p.portals);
    CsvFileRoundTrip(RegionTable(), Join(REGION_COLUMNS), p.npcs);
    CsvFileRoundTrip(RegionTable(), Join(REGION_COLUMNS), p.monsters);
    CsvFileRoundTrip(RegionTable(), Join(REGION_COLUMNS), p.safeRegions);
    CsvFileRoundTrip(RegionTable(), Join(REGION_COLUMNS), p.specialRegions);
  }

  /** The whole pipeline: pack to CSV, CSV to pack, pack to binary, and back in the server and in the client. */
  lemma PipelineRoundTrip(p: Pack)
    ensures var file := FileOf(LoadCsvPack(WriteCsvPack(p)));
            && (ReadBinary(file) == Ok(p) <==> CountsFit(p))
            && (TryLoad(file) == Loaded(p) <==> CountsFit(p) && CountersHold(HeaderOf(p)))
  {
    hide ReadBinary, TryLoad, FileOf, LoadCsvPack, WriteCsvPack;
    CsvPackRoundTrip(p);
    BinaryRoundTrip(p);
    WrittenFileLoads(p);
  }

  // ---- the loops ----

  /** One getline: the text up to the separator, and the rest after it. */
  method GetLine(s: string, sep: char) returns (line: string, rest: string)
    requires s != []
    ensures Split(s, sep) == [line] + Split(rest, sep) && |rest| < |s|
  {
    var i := 0;
    while i < |s| && s[i] != sep
      invariant i <= |s| && sep !in s[..i]
    {
      i := i + 1;
    }
    if i == |s| {
      assert s[..i] == s;
      SplitLast(s, sep);
      line, rest := s, [];
    } else {
      assert s == s[..i] + [sep] + s[i + 1..];
      SplitLine(s[..i], sep, s[i + 1..]);
      line, rest := s[..i], s[i + 1..];
    }
  }

  method SplitCsv(line: string) returns (out: seq<string>)
    ensures out == Split(line, ',')
  {
    hide Split;
    out := [];
    var ss := line;
    assert [] + Split(line, ',') == Split(line, ',');
    while ss != []
      invariant out + Split(ss, ',') == Split(line, ',')
      decreases |ss|
    {
      var cell, rest := GetLine(ss, ',');
      assert out + ([cell] + Split(rest, ',')) == out + [cell] + Split(rest, ',');
      out, ss := out + [cell], rest;
    }
    SplitNothing(',');
    assert out + [] == out;
  }

  lemma SplitNothing(sep: char)
    ensures Split([], sep) == []
  {}

  method LoadRegionCsv<T>(t: Table<T>, text: string) returns (out: seq<T>)
    ensures out == LoadText(t, text)
  {
    hide Split, ParseRow;
    out := [];
    SplitNothing('\n');
    if text == [] {
      return;
    }
    var line, input := GetLine(text, '\n');
    assert ([line] + Split(input, '\n'))[1..] == Split(input, '\n');
    ghost var all := ParseLines(t, Split(input, '\n'));
    assert [] + all == all;
    while input != []
      invariant out + ParseLines(t, Split(input, '\n')) == all
      decreases |input|
    {
      var rest;
      line, rest := GetLine(input, '\n');
      assert ([line] + Split(rest, '\n'))[1..] == Split(rest, '\n');
      input := rest;
      if line != [] {
        var cells := SplitCsv(line);
        var row := ParseRow(t, cells);
        if row.Some? {
          assert out + ([row.value] + ParseLines(t, Split(rest, '\n'))) == out + [row.value] + ParseLines(t, Split(rest, '\n'));
          out := out + [row.value];
        }
      }
    }
    assert out + [] == out;
  }

  method WriteRegionCsv<T>(t: Table<T>, header: string, rows: seq<T>) returns (text: string)
    ensures text == CsvText(t, header, rows)
  {
    hide RowText;
    text := header + ['\n'];
    assert rows[0..] == rows;
    for i := 0 to |rows|
      invariant text + RowLines(t, rows[i..]) == CsvText(t, header, rows)
    {
      assert rows[i..][1..] == rows[i + 1..];
      var line := RowText(t, rows[i]);
      assert text + (line + ['\n'] + RowLines(t, rows[i + 1..])) == text + line + ['\n'] + RowLines(t, rows[i + 1..]);
      text := text + line + ['\n'];
    }
    assert rows[|rows|..] == [];
  }
}

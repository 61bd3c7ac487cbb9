/** WorldSelectResponse: a message with one optional nested entry, which later bytes merge into. */
module WorldSelectMessages {
  import opened Bytes
  import opened Wire
  import opened CommonMessages

  datatype WorldSelectResponse = WorldSelectResponse(
    ok: bool, worldId: u32, serverCode: seq<byte>, selectedEntry: Option<WorldEntryNode>, failReason: seq<byte>)

  const NO_SELECTION := WorldSelectResponse(false, 0, [], None, [])

  function EntryOrNew(o: Option<WorldEntryNode>): WorldEntryNode {
    if o.Some? then o.value else NO_WORLD
  }

  function SelectFields(m: WorldSelectResponse): seq<Field> {
    When(m.ok, Number(8, BoolWord(m.ok)), When(m.worldId != 0, Number(16, m.worldId),
    When(m.serverCode != [], Blob(26, m.serverCode),
    When(m.selectedEntry.Some?, Blob(34, EncodeWorld(EntryOrNew(m.selectedEntry))),
    When(m.failReason != [], Blob(42, m.failReason), [])))))
  }

  /** With every field set: the fields in the order of their numbers. */
  lemma SelectLayout(m: WorldSelectResponse)
    requires m.ok && m.worldId != 0 && m.serverCode != [] && m.selectedEntry.Some? && m.failReason != []
    ensures SelectFields(m) == [
              NumberField(1, 1), NumberField(2, m.worldId), BytesField(3, m.serverCode),
              BytesField(4, EncodeWorld(m.selectedEntry.value)), BytesField(5, m.failReason)
            ]
  {
    hide EncodeWorld;
  }

  function EncodeSelect(m: WorldSelectResponse): seq<byte> {
    EncodeFields(SelectFields(m))
  }

  /** A second entry on the wire is read into the first one. */
  function ApplySelect(m: WorldSelectResponse, f: Field): Outcome<WorldSelectResponse> {
    match f
    case Number(8, v) => Done(m.(ok := v % TWO_TO_64 != 0))
    case Number(16, v) => Done(m.(worldId := v % TWO_TO_32))
    case Blob(26, b) => Done(m.(serverCode := b))
    case Blob(34, b) =>
      (match Nested(StreamMerge(WorldCodec(), EntryOrNew(m.selectedEntry), b))
       case Done(e) => Done(m.(selectedEntry := Some(e)))
       case Unknown => Unknown
       case _ => Malformed)
    case Blob(42, b) => Done(m.(failReason := b))
    case _ => Unknown
  }

  function SelectCodec(): Codec<WorldSelectResponse> {
    Codec({8, 16, 26, 34, 42}, ApplySelect)
  }

  function MergeSelect(a: WorldSelectResponse, b: WorldSelectResponse): WorldSelectResponse {
    WorldSelectResponse(
      if b.ok then true else a.ok,
      if b.worldId != 0 then b.worldId else a.worldId,
      if b.serverCode != [] then b.serverCode else a.serverCode,
      if b.selectedEntry.Some? then Some(MergeWorld(EntryOrNew(a.selectedEntry), b.selectedEntry.value)) else a.selectedEntry,
      if b.failReason != [] then b.failReason else a.failReason)
  }

  predicate SelectFits(m: WorldSelectResponse) {
    && |m.serverCode| < TWO_TO_31 && |m.failReason| < TWO_TO_31
    && (m.selectedEntry.Some? ==> WorldFits(m.selectedEntry.value) && |EncodeWorld(m.selectedEntry.value)| < TWO_TO_31)
  }

  lemma EntryApplies(a: WorldSelectResponse, e: WorldEntryNode)
    requires WorldFits(e)
    ensures ApplySelect(a, Blob(34, EncodeWorld(e))) ==
            Done(a.(selectedEntry := Some(MergeWorld(EntryOrNew(a.selectedEntry), e))))
  {
    hide StreamMerge, WorldFields1, WorldFits, MergeWorld;
    WorldEncodable(e);
    EncodedDecodes(WorldCodec(), EntryOrNew(a.selectedEntry), WorldFields1(e));
    WorldFieldsMerge(EntryOrNew(a.selectedEntry), e);
  }

  lemma SelectFieldsMerge(a: WorldSelectResponse, b: WorldSelectResponse)
    requires SelectFits(b)
    ensures FoldFields(SelectCodec(), a, SelectFields(b)) == Done(MergeSelect(a, b))
  {
    hide StreamMerge, WorldFits, EncodeWorld, MergeWorld;
    var c := SelectCodec();
    var m := MergeSelect(a, b);
    var a2 := a.(ok := m.ok);
    var a3 := a2.(worldId := m.worldId);
    var a4 := a3.(serverCode := m.serverCode);
    var a5 := a4.(selectedEntry := m.selectedEntry);
    var entry := Blob(34, EncodeWorld(EntryOrNew(b.selectedEntry)));
    var f5 := When(b.failReason != [], Blob(42, b.failReason), []);
    var f4 := When(b.selectedEntry.Some?, entry, f5);
    var f3 := When(b.serverCode != [], Blob(26, b.serverCode), f4);
    var f2 := When(b.worldId != 0, Number(16, b.worldId), f3);
    assert FoldFields(c, m, []) == Done(m);
    if b.selectedEntry.Some? {
      EntryApplies(a4, b.selectedEntry.value);
    }
    hide When, FoldFields;
    FoldWhen(c, a, b.ok, Number(8, BoolWord(b.ok)), a2, f2);
    FoldWhen(c, a2, b.worldId != 0, Number(16, b.worldId), a3, f3);
    FoldWhen(c, a3, b.serverCode != [], Blob(26, b.serverCode), a4, f4);
    FoldWhen(c, a4, b.selectedEntry.Some?, entry, a5, f5);
    FoldWhen(c, a5, b.failReason != [], Blob(42, b.failReason), m, []);
  }

  lemma SelectEncodable(m: WorldSelectResponse)
    requires SelectFits(m)
    ensures Encodable(SelectCodec(), SelectFields(m))
  {
    hide WorldFits, EncodeWorld;
    var c := SelectCodec();
    var entry := Blob(34, EncodeWorld(EntryOrNew(m.selectedEntry)));
    var f5 := When(m.failReason != [], Blob(42, m.failReason), []);
    var f4 := When(m.selectedEntry.Some?, entry, f5);
    var f3 := When(m.serverCode != [], Blob(26, m.serverCode), f4);
    var f2 := When(m.worldId != 0, Number(16, m.worldId), f3);
    EncodableWhen(c, m.failReason != [], Blob(42, m.failReason), []);
    hide When;
    EncodableWhen(c, m.selectedEntry.Some?, entry, f5);
    EncodableWhen(c, m.serverCode != [], Blob(26, m.serverCode), f4);
    EncodableWhen(c, m.worldId != 0, Number(16, m.worldId), f3);
    EncodableWhen(c, m.ok, Number(8, BoolWord(m.ok)), f2);
  }

  lemma SelectConcatenationIsMerge(start: WorldSelectResponse, s: seq<byte>, a: WorldSelectResponse, b: WorldSelectResponse)
    requires StreamMerge(SelectCodec(), start, s) == Done(a) && SelectFits(b)
    ensures StreamMerge(SelectCodec(), start, s + EncodeSelect(b)) == Done(MergeSelect(a, b))
  {
    hide StreamMerge, SelectFields, SelectFits, MergeSelect;
    ConcatenationMerges(SelectCodec(), start, s, EncodeSelect(b));
    SelectEncodable(b);
    EncodedDecodes(SelectCodec(), a, SelectFields(b));
    SelectFieldsMerge(a, b);
  }

  lemma MergeIntoNewWorld(e: WorldEntryNode)
    ensures MergeWorld(NO_WORLD, e) == e
  {
    assert NO_WORLD.endpoints + e.endpoints == e.endpoints;
  }

  lemma SelectRoundTrip(m: WorldSelectResponse)
    requires SelectFits(m)
    ensures StreamMerge(SelectCodec(), NO_SELECTION, EncodeSelect(m)) == Done(m)
  {
    hide StreamMerge, SelectFields, WorldFits, MergeWorld, EncodeWorld;
    SelectEncodable(m);
    EncodedDecodes(SelectCodec(), NO_SELECTION, SelectFields(m));
    SelectFieldsMerge(NO_SELECTION, m);
    if m.selectedEntry.Some? {
      MergeIntoNewWorld(m.selectedEntry.value);
    }
  }

  lemma SelectSize(m: WorldSelectResponse)
    requires SelectFits(m)
    ensures |EncodeSelect(m)| == SizeIf(m.ok, Number(8, BoolWord(m.ok))) + SizeIf(m.worldId != 0, Number(16, m.worldId))
                               + SizeIf(m.serverCode != [], Blob(26, m.serverCode))
                               + SizeIf(m.selectedEntry.Some?, Blob(34, EncodeWorld(EntryOrNew(m.selectedEntry))))
                               + SizeIf(m.failReason != [], Blob(42, m.failReason))
  {
    hide EncodeFields, When, FieldSize, WorldFits, EncodeWorld;
    var entry := Blob(34, EncodeWorld(EntryOrNew(m.selectedEntry)));
    var f5 := When(m.failReason != [], Blob(42, m.failReason), []);
    var f4 := When(m.selectedEntry.Some?, entry, f5);
    var f3 := When(m.serverCode != [], Blob(26, m.serverCode), f4);
    var f2 := When(m.worldId != 0, Number(16, m.worldId), f3);
    SizeWhen(m.ok, Number(8, BoolWord(m.ok)), f2);
    SizeWhen(m.worldId != 0, Number(16, m.worldId), f3);
    SizeWhen(m.serverCode != [], Blob(26, m.serverCode), f4);
    SizeWhen(m.selectedEntry.Some?, entry, f5);
    SizeWhen(m.failReason != [], Blob(42, m.failReason), []);
    EncodeNothing();
  }

  class WorldSelectMessage {
    var ok: bool
    var worldId: u32
    var serverCode: seq<byte>
    var selectedEntry: Option<WorldEntryNode>
    var failReason: seq<byte>

    constructor (m: WorldSelectResponse)
      ensures Value() == m
    {
      ok, worldId, serverCode, selectedEntry, failReason := m.ok, m.worldId, m.serverCode, m.selectedEntry, m.failReason;
    }

    function Value(): WorldSelectResponse
      reads this
    {
      WorldSelectResponse(ok, worldId, serverCode, selectedEntry, failReason)
    }

    method WriteTo(output: CodedOutput)
      requires SelectFits(Value())
      modifies output
      ensures output.bytes == old(output.bytes) + EncodeSelect(Value())
    {
      hide EncodeFields, When, WorldFits, EncodeWorld, EncodeField;
      EncodeNothing();
      ghost var entryField := Blob(34, EncodeWorld(EntryOrNew(selectedEntry)));
      ghost var f5 := When(failReason != [], Blob(42, failReason), []);
      ghost var f4 := When(selectedEntry.Some?, entryField, f5);
      ghost var f3 := When(serverCode != [], Blob(26, serverCode), f4);
      ghost var f2 := When(worldId != 0, Number(16, worldId), f3);
      output.WriteNumberIf(ok, 8, BoolWord(ok), f2);
      output.WriteNumberIf(worldId != 0, 16, worldId, f3);
      output.WriteBlobIf(serverCode != [], 26, serverCode, f4);
      EncodeWhen(selectedEntry.Some?, entryField, f5);
      ghost var before, entry, last := output.bytes, EncodeField(entryField), EncodeFields(f5);
      assert before + entry + last == before + (entry + last);
      assert before + ([] + last) == before + last;
      if selectedEntry.Some? {
        WriteSelected(selectedEntry.value, output);
      }
      output.WriteBlobIf(failReason != [], 42, failReason, []);
    }

    method WriteSelected(e: WorldEntryNode, output: CodedOutput)
      requires WorldFits(e) && |EncodeWorld(e)| < TWO_TO_31
      modifies output
      ensures output.bytes == old(output.bytes) + EncodeField(Blob(34, EncodeWorld(e)))
    {
      hide EncodeWorld, WorldFits, EncodeField;
      var entry := new WorldEntryMessage(e);
      var size := entry.CalculateSize();
      output.WriteMessagePrefix(34, size);
      entry.WriteTo(output);
      BlobBytes(34, EncodeWorld(e), old(output.bytes));
    }

    method CalculateSize() returns (size: nat)
      requires SelectFits(Value())
      ensures size == |EncodeSelect(Value())|
    {
      hide EncodeSelect, EncodeFields, WorldFits, EncodeWorld;
      SelectSize(Value());
      size := SizeIf(ok, Number(8, BoolWord(ok)));
      size := size + SizeIf(worldId != 0, Number(16, worldId));
      size := size + SizeIf(serverCode != [], Blob(26, serverCode));
      if selectedEntry.Some? {
        var entry := new WorldEntryMessage(selectedEntry.value);
        var n := entry.CalculateSize();
        size := size + 1 + (VarintSize(n) + n);
      }
      size := size + SizeIf(failReason != [], Blob(42, failReason));
    }

    method MergeFrom(other: WorldSelectMessage)
      modifies this
      ensures Value() == MergeSelect(old(Value()), old(other.Value()))
    {
      hide MergeWorld;
      if other.ok != false {
        ok := other.ok;
      }
      if other.worldId != 0 {
        worldId := other.worldId;
      }
      if other.serverCode != [] {
        serverCode := other.serverCode;
      }
      if other.selectedEntry.Some? {
        var entry := new WorldEntryMessage(EntryOrNew(selectedEntry));
        var from := new WorldEntryMessage(other.selectedEntry.value);
        entry.MergeFrom(from);
        selectedEntry := Some(entry.Value());
      }
      if other.failReason != [] {
        failReason := other.failReason;
      }
    }

    method MergeFromStream(input: CodedInput) returns (r: Outcome<WorldSelectResponse>)
      modifies this, input
      ensures r == StreamMerge(SelectCodec(), old(Value()), old(input.rest))
      ensures r.Done? || r.EndGroup? ==> Value() == r.message
    {
      hide ReadTag, ReadPayload, ApplySelect;
      while true
        invariant StreamMerge(SelectCodec(), Value(), input.rest) == StreamMerge(SelectCodec(), old(Value()), old(input.rest))
        decreases |input.rest|
      {
        var tag := input.ReadTagValue();
        if tag.None? {
          return Malformed;
        }
        if tag.value == 0 {
          return Done(Value());
        }
        if tag.value % 8 == 4 {
          return EndGroup(Value());
        }
        r := MergeCase(tag.value, input);
        if !r.Done? {
          return;
        }
      }
    }

    method MergeCase(tag: nat, input: CodedInput) returns (r: Outcome<WorldSelectResponse>)
      modifies this, input
      ensures r == MergeField(SelectCodec(), old(Value()), tag, old(input.rest)).0
      ensures !r.EndGroup?
      ensures r.Done? ==> Value() == r.message && input.rest == MergeField(SelectCodec(), old(Value()), tag, old(input.rest)).1
    {
      hide ReadNumber, ReadBlob, WorldCodec;
      match tag {
        case 8 =>
          var v := input.ReadNumberValue();
          if v.None? {
            return Malformed;
          }
          ok := v.value != 0;
        case 16 =>
          var v := input.ReadNumberValue();
          if v.None? {
            return Malformed;
          }
          worldId := v.value % TWO_TO_32;
        case 26 =>
          var s := input.ReadBlobValue();
          if s.None? {
            return Malformed;
          }
          serverCode := s.value;
        case 34 =>
          var s := input.ReadBlobValue();
          if s.None? {
            return Malformed;
          }
          var entry := new WorldEntryMessage(EntryOrNew(selectedEntry));
          var nested := new CodedInput(s.value);
          var o := entry.MergeFromStream(nested);
          if !o.Done? {
            return if o.Unknown? then Unknown else Malformed;
          }
          selectedEntry := Some(entry.Value());
        case 42 =>
          var s := input.ReadBlobValue();
          if s.None? {
            return Malformed;
          }
          failReason := s.value;
        case _ =>
          return Unknown;
      }
      r := Done(Value());
    }
  }
}

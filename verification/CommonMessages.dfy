/** Endpoint and WorldEntryNode: the generated message classes and the value each one holds. */
module CommonMessages {
  import opened Bytes
  import opened Wire

  // ---- Endpoint ----

  datatype Endpoint = Endpoint(host: seq<byte>, port: u32, region: seq<byte>)

  const NO_ENDPOINT := Endpoint([], 0, [])

  function EndpointFields(m: Endpoint): seq<Field> {
    When(m.host != [], Blob(10, m.host), When(m.port != 0, Number(16, m.port), When(m.region != [], Blob(26, m.region), [])))
  }

  /** With every field set: the fields in the order of their numbers, each with the tag of its number. */
  lemma EndpointLayout(m: Endpoint)
    requires m.host != [] && m.port != 0 && m.region != []
    ensures EndpointFields(m) == [BytesField(1, m.host), NumberField(2, m.port), BytesField(3, m.region)]
  {}

  function EncodeEndpoint(m: Endpoint): seq<byte> {
    EncodeFields(EndpointFields(m))
  }

  function ApplyEndpoint(m: Endpoint, f: Field): Outcome<Endpoint> {
    match f
    case Number(16, v) => Done(m.(port := v % TWO_TO_32))
    case Blob(10, b) => Done(m.(host := b))
    case Blob(26, b) => Done(m.(region := b))
    case _ => Unknown
  }

  function EndpointCodec(): Codec<Endpoint> {
    Codec({10, 16, 26}, ApplyEndpoint)
  }

  function MergeEndpoint(a: Endpoint, b: Endpoint): Endpoint {
    Endpoint(if b.host != [] then b.host else a.host, if b.port != 0 then b.port else a.port,
             if b.region != [] then b.region else a.region)
  }

  /** Every string has a length that the format can write. */
  predicate EndpointFits(m: Endpoint) {
    |m.host| < TWO_TO_31 && |m.region| < TWO_TO_31
  }

  lemma EndpointFieldsMerge(a: Endpoint, b: Endpoint)
    ensures FoldFields(EndpointCodec(), a, EndpointFields(b)) == Done(MergeEndpoint(a, b))
  {
    var c := EndpointCodec();
    var a1 := a.(host := if b.host != [] then b.host else a.host);
    var a2 := a1.(port := if b.port != 0 then b.port else a.port);
    var f3 := When(b.region != [], Blob(26, b.region), []);
    var f2 := When(b.port != 0, Number(16, b.port), f3);
    FoldWhen(c, a, b.host != [], Blob(10, b.host), a1, f2);
    FoldWhen(c, a1, b.port != 0, Number(16, b.port), a2, f3);
    FoldWhen(c, a2, b.region != [], Blob(26, b.region), MergeEndpoint(a, b), []);
  }

  lemma EndpointEncodable(m: Endpoint)
    requires EndpointFits(m)
    ensures Encodable(EndpointCodec(), EndpointFields(m))
  {}

  /** Bytes that decode to `a`, followed by an encoding of `b`, decode to `b` merged into `a`. */
  lemma EndpointConcatenationIsMerge(start: Endpoint, s: seq<byte>, a: Endpoint, b: Endpoint)
    requires StreamMerge(EndpointCodec(), start, s) == Done(a) && EndpointFits(b)
    ensures StreamMerge(EndpointCodec(), start, s + EncodeEndpoint(b)) == Done(MergeEndpoint(a, b))
  {
    hide StreamMerge;
    ConcatenationMerges(EndpointCodec(), start, s, EncodeEndpoint(b));
    EndpointEncodable(b);
    EncodedDecodes(EndpointCodec(), a, EndpointFields(b));
    EndpointFieldsMerge(a, b);
  }

  lemma EndpointRoundTrip(m: Endpoint)
    requires EndpointFits(m)
    ensures StreamMerge(EndpointCodec(), NO_ENDPOINT, EncodeEndpoint(m)) == Done(m)
  {
    EndpointEncodable(m);
    EncodedDecodes(EndpointCodec(), NO_ENDPOINT, EndpointFields(m));
    EndpointFieldsMerge(NO_ENDPOINT, m);
  }

  function Tags(fs: seq<Field>): set<nat> {
    set f <- fs :: f.tag
  }

  /** What a series of fields that takes some message to `r` makes of `a`: its tags' fields are r's, the others stay. */
  function Overlay(a: Endpoint, r: Endpoint, tags: set<nat>): Endpoint {
    Endpoint(if 10 in tags then r.host else a.host, if 16 in tags then r.port else a.port,
             if 26 in tags then r.region else a.region)
  }

  lemma {:induction false} FoldOverlays(m: Endpoint, a: Endpoint, fs: seq<Field>)
    requires FoldFields(EndpointCodec(), m, fs).Done?
    ensures FoldFields(EndpointCodec(), a, fs) == Done(Overlay(a, FoldFields(EndpointCodec(), m, fs).message, Tags(fs)))
    decreases |fs|
  {
    if fs == [] {
    } else {
      var f, rest := fs[0], fs[1..];
      var m', a' := ApplyEndpoint(m, f).message, ApplyEndpoint(a, f).message;
      FoldOverlays(m', a', rest);
      FoldOverlays(m', m', rest);
      assert Tags(fs) == {f.tag} + Tags(rest) by {
        assert fs == [f] + rest;
      }
      hide Tags;
    }
  }

  lemma EndpointNeverRefuses()
    ensures NeverRefuses(EndpointCodec())
  {}

  /** The fields that these tags set all have values other than the default. */
  predicate ValuesFor(b: Endpoint, tags: set<nat>) {
    (10 in tags ==> b.host != []) && (16 in tags ==> b.port != 0) && (26 in tags ==> b.region != [])
  }

  lemma OverlayIsMerge(b: Endpoint, tags: set<nat>)
    requires Overlay(NO_ENDPOINT, b, tags) == b
    ensures (forall a :: Overlay(a, b, tags) == MergeEndpoint(a, b)) <==> ValuesFor(b, tags)
  {
    var full := Endpoint([1], 1, [1]);
    if forall a :: Overlay(a, b, tags) == MergeEndpoint(a, b) {
      assert Overlay(full, b, tags) == MergeEndpoint(full, b);
    }
  }

  /**
   * Bytes that decode to `b` on their own act on every message as a merge of `b` exactly when none of their tags leaves
   * its field of `b` at the default: a default spelled out on the wire overwrites, where a merge keeps.
   */
  lemma StreamIsMergeExactly(s: seq<byte>, b: Endpoint)
    requires StreamMerge(EndpointCodec(), NO_ENDPOINT, s) == Done(b)
    ensures (forall a :: StreamMerge(EndpointCodec(), a, s) == Done(MergeEndpoint(a, b)))
            <==> ValuesFor(b, Tags(FieldsOf(EndpointCodec(), s)))
  {
    hide StreamMerge, FoldFields, FieldsOf, Tags, Overlay, ValuesFor, MergeEndpoint;
    var c := EndpointCodec();
    var fs := FieldsOf(c, s);
    EndpointNeverRefuses();
    StreamIsFold(c, NO_ENDPOINT, s);
    forall a
      ensures StreamMerge(c, a, s) == Done(Overlay(a, b, Tags(fs)))
    {
      DecodesAnywhere(c, NO_ENDPOINT, a, s);
      StreamIsFold(c, a, s);
      FoldOverlays(NO_ENDPOINT, a, fs);
    }
    OverlayIsMerge(b, Tags(fs));
    if forall a :: StreamMerge(c, a, s) == Done(MergeEndpoint(a, b)) {
      forall a
        ensures Overlay(a, b, Tags(fs)) == MergeEndpoint(a, b)
      {
        assert StreamMerge(c, a, s) == Done(MergeEndpoint(a, b));
      }
    }
  }

  lemma EndpointSize(m: Endpoint)
    requires EndpointFits(m)
    ensures |EncodeEndpoint(m)| == SizeIf(m.host != [], Blob(10, m.host)) + SizeIf(m.port != 0, Number(16, m.port))
                                 + SizeIf(m.region != [], Blob(26, m.region))
  {
    hide EncodeFields;
    var f3 := When(m.region != [], Blob(26, m.region), []);
    var f2 := When(m.port != 0, Number(16, m.port), f3);
    SizeWhen(m.host != [], Blob(10, m.host), f2);
    SizeWhen(m.port != 0, Number(16, m.port), f3);
    SizeWhen(m.region != [], Blob(26, m.region), []);
    assert EncodeFields([]) == [] by { EncodeNothing(); }
  }

  class EndpointMessage {
    var host: seq<byte>
    var port: u32
    var region: seq<byte>

    constructor (m: Endpoint)
      ensures Value() == m
    {
      host, port, region := m.host, m.port, m.region;
    }

    function Value(): Endpoint
      reads this
    {
      Endpoint(host, port, region)
    }

    method WriteTo(output: CodedOutput)
      requires EndpointFits(Value())
      modifies output
      ensures output.bytes == old(output.bytes) + EncodeEndpoint(Value())
    {
      hide EncodeFields;
      EncodeNothing();
      ghost var f3 := When(region != [], Blob(26, region), []);
      ghost var f2 := When(port != 0, Number(16, port), f3);
      output.WriteBlobIf(host != [], 10, host, f2);
      output.WriteNumberIf(port != 0, 16, port, f3);
      output.WriteBlobIf(region != [], 26, region, []);
    }

    method CalculateSize() returns (size: nat)
      requires EndpointFits(Value())
      ensures size == |EncodeEndpoint(Value())|
    {
      hide EncodeEndpoint;
      size := 0;
      if host != [] {
        size := size + 1 + (VarintSize(|host|) + |host|);
      }
      if port != 0 {
        size := size + 1 + VarintSize(port);
      }
      if region != [] {
        size := size + 1 + (VarintSize(|region|) + |region|);
      }
      EndpointSize(Value());
    }

    method MergeFrom(other: EndpointMessage)
      modifies this
      ensures Value() == MergeEndpoint(old(Value()), old(other.Value()))
    {
      if other.host != [] {
        host := other.host;
      }
      if other.port != 0 {
        port := other.port;
      }
      if other.region != [] {
        region := other.region;
      }
    }

    method MergeFromStream(input: CodedInput) returns (r: Outcome<Endpoint>)
      modifies this, input
      ensures r == StreamMerge(EndpointCodec(), old(Value()), old(input.rest))
      ensures r.Done? || r.EndGroup? ==> Value() == r.message
    {
      hide ReadTag, ReadNumber, ReadBlob;
      while true
        invariant StreamMerge(EndpointCodec(), Value(), input.rest) == StreamMerge(EndpointCodec(), old(Value()), old(input.rest))
        decreases |input.rest|
      {
        var tag := input.ReadTagValue();
        if tag.None? {
          return Malformed;
        }
        if tag.value == 0 {
          return Done(Value());
        }
        if tag.value % 8 == 4 {
          return EndGroup(Value());
        }
        match tag.value {
          case 10 =>
            var s := input.ReadBlobValue();
            if s.None? {
              return Malformed;
            }
            host := s.value;
          case 16 =>
            var v := input.ReadNumberValue();
            if v.None? {
              return Malformed;
            }
            port := v.value % TWO_TO_32;
          case 26 =>
            var s := input.ReadBlobValue();
            if s.None? {
              return Malformed;
            }
            region := s.value;
          case _ =>
            return Unknown;
        }
      }
    }
  }

  // ---- WorldEntryNode ----

  datatype WorldEntryNode = WorldEntryNode(
    worldId: u32, serverCode: seq<byte>, displayName: seq<byte>, region: seq<byte>, status: i32,
    recommended: bool, population: u32, capacity: u32, transferPolicy: i32, endpoints: seq<Endpoint>)

  const NO_WORLD := WorldEntryNode(0, [], [], [], 0, false, 0, 0, 0, [])

  /** The repeated field: one tagged message after another. */
  function EndpointBlobs(es: seq<Endpoint>): seq<Field> {
    if es == [] then [] else [Blob(82, EncodeEndpoint(es[0]))] + EndpointBlobs(es[1..])
  }

  function WorldFields1(m: WorldEntryNode): seq<Field> {
    When(m.worldId != 0, Number(8, m.worldId), When(m.serverCode != [], Blob(18, m.serverCode),
    When(m.displayName != [], Blob(26, m.displayName), When(m.region != [], Blob(34, m.region), WorldFields5(m)))))
  }

  /** From field 5 on. */
  function WorldFields5(m: WorldEntryNode): seq<Field> {
    When(m.status != 0, Number(40, EnumWord(m.status)), When(m.recommended, Number(48, BoolWord(m.recommended)),
    When(m.population != 0, Number(56, m.population), WorldFields8(m))))
  }

  function WorldFields8(m: WorldEntryNode): seq<Field> {
    When(m.capacity != 0, Number(64, m.capacity),
    When(m.transferPolicy != 0, Number(72, EnumWord(m.transferPolicy)), EndpointBlobs(m.endpoints)))
  }

  predicate WorldIsFull(m: WorldEntryNode) {
    && m.worldId != 0 && m.serverCode != [] && m.displayName != [] && m.region != [] && m.status != 0
    && m.recommended && m.population != 0 && m.capacity != 0 && m.transferPolicy != 0
  }

  /** With every field set: the fields in the order of their numbers, then one field 10 for each endpoint. */
  lemma WorldLayout(m: WorldEntryNode)
    requires WorldIsFull(m)
    ensures WorldFields1(m) == [
              NumberField(1, m.worldId), BytesField(2, m.serverCode), BytesField(3, m.displayName), BytesField(4, m.region),
              NumberField(5, EnumWord(m.status)), NumberField(6, 1), NumberField(7, m.population),
              NumberField(8, m.capacity), NumberField(9, EnumWord(m.transferPolicy))
            ] + EndpointBlobs(m.endpoints)
  {
    hide EnumWord, EndpointBlobs;
  }

  lemma {:induction false} EndpointBlobsLayout(es: seq<Endpoint>)
    ensures |EndpointBlobs(es)| == |es|
    ensures forall k | 0 <= k < |es| :: EndpointBlobs(es)[k] == BytesField(10, EncodeEndpoint(es[k]))
    decreases |es|
  {
    if es == [] {
    } else {
      EndpointBlobsLayout(es[1..]);
      hide EncodeEndpoint;
    }
  }

  function EncodeWorld(m: WorldEntryNode): seq<byte> {
    EncodeFields(WorldFields1(m))
  }

  function ApplyWorld(m: WorldEntryNode, f: Field): Outcome<WorldEntryNode> {
    match f
    case Number(8, v) => Done(m.(worldId := v % TWO_TO_32))
    case Blob(18, b) => Done(m.(serverCode := b))
    case Blob(26, b) => Done(m.(displayName := b))
    case Blob(34, b) => Done(m.(region := b))
    case Number(40, v) => Done(m.(status := EnumOfWord(v)))
    case Number(48, v) => Done(m.(recommended := v % TWO_TO_64 != 0))
    case Number(56, v) => Done(m.(population := v % TWO_TO_32))
    case Number(64, v) => Done(m.(capacity := v % TWO_TO_32))
    case Number(72, v) => Done(m.(transferPolicy := EnumOfWord(v)))
    case Blob(82, b) =>
      (match Nested(StreamMerge(EndpointCodec(), NO_ENDPOINT, b))
       case Done(e) => Done(m.(endpoints := m.endpoints + [e]))
       case Unknown => Unknown
       case _ => Malformed)
    case _ => Unknown
  }

  function WorldCodec(): Codec<WorldEntryNode> {
    Codec({8, 18, 26, 34, 40, 48, 56, 64, 72, 82}, ApplyWorld)
  }

  function MergeWorld(a: WorldEntryNode, b: WorldEntryNode): WorldEntryNode {
    WorldEntryNode(
      if b.worldId != 0 then b.worldId else a.worldId,
      if b.serverCode != [] then b.serverCode else a.serverCode,
      if b.displayName != [] then b.displayName else a.displayName,
      if b.region != [] then b.region else a.region,
      if b.status != 0 then b.status else a.status,
      if b.recommended then true else a.recommended,
      if b.population != 0 then b.population else a.population,
      if b.capacity != 0 then b.capacity else a.capacity,
      if b.transferPolicy != 0 then b.transferPolicy else a.transferPolicy,
      a.endpoints + b.endpoints)
  }

  predicate EndpointsFit(es: seq<Endpoint>) {
    forall e <- es :: EndpointFits(e) && |EncodeEndpoint(e)| < TWO_TO_31
  }

  predicate WorldFits(m: WorldEntryNode) {
    |m.serverCode| < TWO_TO_31 && |m.displayName| < TWO_TO_31 && |m.region| < TWO_TO_31 && EndpointsFit(m.endpoints)
  }

  lemma EndpointBlobApplies(a: WorldEntryNode, e: Endpoint)
    requires EndpointFits(e)
    ensures ApplyWorld(a, Blob(82, EncodeEndpoint(e))) == Done(a.(endpoints := a.endpoints + [e]))
  {
    hide StreamMerge, EncodeEndpoint, EndpointFits;
    EndpointRoundTrip(e);
  }

  lemma {:induction false} EndpointBlobsMerge(a: WorldEntryNode, es: seq<Endpoint>)
    requires EndpointsFit(es)
    ensures FoldFields(WorldCodec(), a, EndpointBlobs(es)) == Done(a.(endpoints := a.endpoints + es))
    decreases |es|
  {
    hide ApplyWorld, EncodeEndpoint, EndpointFits;
    if es == [] {
      assert a.endpoints + es == a.endpoints;
    } else {
      hide FoldFields;
      var a' := a.(endpoints := a.endpoints + [es[0]]);
      assert es[0] in es;
      EndpointBlobApplies(a, es[0]);
      FoldWhen(WorldCodec(), a, true, Blob(82, EncodeEndpoint(es[0])), a', EndpointBlobs(es[1..]));
      EndpointBlobsMerge(a', es[1..]);
      assert a'.endpoints + es[1..] == a.endpoints + es;
    }
  }

  lemma WorldEndMerges(a: WorldEntryNode, b: WorldEntryNode)
    requires WorldFits(b)
    ensures var m := MergeWorld(a, b);
            FoldFields(WorldCodec(), a, WorldFields8(b)) ==
            Done(a.(capacity := m.capacity, transferPolicy := m.transferPolicy, endpoints := m.endpoints))
  {
    hide FoldFields, EndpointFits, EncodeEndpoint, StreamMerge, EndpointBlobs;
    var c := WorldCodec();
    var m := MergeWorld(a, b);
    var a9 := a.(capacity := m.capacity);
    var a10 := a9.(transferPolicy := m.transferPolicy);
    var f10 := EndpointBlobs(b.endpoints);
    var f9 := When(b.transferPolicy != 0, Number(72, EnumWord(b.transferPolicy)), f10);
    EnumRoundTrip(b.transferPolicy);
    hide EnumWord, EnumOfWord, When;
    FoldWhen(c, a, b.capacity != 0, Number(64, b.capacity), a9, f9);
    FoldWhen(c, a9, b.transferPolicy != 0, Number(72, EnumWord(b.transferPolicy)), a10, f10);
    EndpointBlobsMerge(a10, b.endpoints);
  }

  lemma WorldTailMerges(a: WorldEntryNode, b: WorldEntryNode)
    requires WorldFits(b)
    ensures FoldFields(WorldCodec(), a, WorldFields5(b)) ==
            Done(MergeWorld(a, b).(worldId := a.worldId, serverCode := a.serverCode, displayName := a.displayName, region := a.region))
  {
    hide FoldFields, WorldFits, StreamMerge, WorldFields8;
    var c := WorldCodec();
    var m := MergeWorld(a, b);
    var a6 := a.(status := m.status);
    var a7 := a6.(recommended := m.recommended);
    var a8 := a7.(population := m.population);
    var f8 := WorldFields8(b);
    var f7 := When(b.population != 0, Number(56, b.population), f8);
    var f6 := When(b.recommended, Number(48, BoolWord(b.recommended)), f7);
    EnumRoundTrip(b.status);
    hide EnumWord, EnumOfWord, When;
    FoldWhen(c, a, b.status != 0, Number(40, EnumWord(b.status)), a6, f6);
    FoldWhen(c, a6, b.recommended, Number(48, BoolWord(b.recommended)), a7, f7);
    FoldWhen(c, a7, b.population != 0, Number(56, b.population), a8, f8);
    WorldEndMerges(a8, b);
  }

  lemma WorldFieldsMerge(a: WorldEntryNode, b: WorldEntryNode)
    requires WorldFits(b)
    ensures FoldFields(WorldCodec(), a, WorldFields1(b)) == Done(MergeWorld(a, b))
  {
    hide FoldFields, EndpointFits, EncodeEndpoint, StreamMerge, WorldFields5;
    var c := WorldCodec();
    var m := MergeWorld(a, b);
    var a2 := a.(worldId := m.worldId);
    var a3 := a2.(serverCode := m.serverCode);
    var a4 := a3.(displayName := m.displayName);
    var a5 := a4.(region := m.region);
    var f5 := WorldFields5(b);
    var f4 := When(b.region != [], Blob(34, b.region), f5);
    var f3 := When(b.displayName != [], Blob(26, b.displayName), f4);
    var f2 := When(b.serverCode != [], Blob(18, b.serverCode), f3);
    hide When;
    FoldWhen(c, a, b.worldId != 0, Number(8, b.worldId), a2, f2);
    FoldWhen(c, a2, b.serverCode != [], Blob(18, b.serverCode), a3, f3);
    FoldWhen(c, a3, b.displayName != [], Blob(26, b.displayName), a4, f4);
    FoldWhen(c, a4, b.region != [], Blob(34, b.region), a5, f5);
    WorldTailMerges(a5, b);
  }

  lemma {:induction false} EndpointBlobsEncodable(es: seq<Endpoint>)
    requires EndpointsFit(es)
    ensures Encodable(WorldCodec(), EndpointBlobs(es))
  {
    hide EndpointFits, EncodeEndpoint;
    if es == [] {
    } else {
      assert es[0] in es;
      EndpointBlobsEncodable(es[1..]);
    }
  }

  lemma WorldEncodable(m: WorldEntryNode)
    requires WorldFits(m)
    ensures Encodable(WorldCodec(), WorldFields1(m))
  {
    hide EndpointFits, EncodeEndpoint, Encodable, When, EnumWord;
    var c := WorldCodec();
    var f10 := EndpointBlobs(m.endpoints);
    var f9 := When(m.transferPolicy != 0, Number(72, EnumWord(m.transferPolicy)), f10);
    var f8 := When(m.capacity != 0, Number(64, m.capacity), f9);
    var f7 := When(m.population != 0, Number(56, m.population), f8);
    var f6 := When(m.recommended, Number(48, BoolWord(m.recommended)), f7);
    var f4 := When(m.region != [], Blob(34, m.region), WorldFields5(m));
    var f3 := When(m.displayName != [], Blob(26, m.displayName), f4);
    var f2 := When(m.serverCode != [], Blob(18, m.serverCode), f3);
    EndpointBlobsEncodable(m.endpoints);
    EncodableWhen(c, m.transferPolicy != 0, Number(72, EnumWord(m.transferPolicy)), f10);
    EncodableWhen(c, m.capacity != 0, Number(64, m.capacity), f9);
    EncodableWhen(c, m.population != 0, Number(56, m.population), f8);
    EncodableWhen(c, m.recommended, Number(48, BoolWord(m.recommended)), f7);
    EncodableWhen(c, m.status != 0, Number(40, EnumWord(m.status)), f6);
    EncodableWhen(c, m.region != [], Blob(34, m.region), WorldFields5(m));
    EncodableWhen(c, m.displayName != [], Blob(26, m.displayName), f4);
    EncodableWhen(c, m.serverCode != [], Blob(18, m.serverCode), f3);
    EncodableWhen(c, m.worldId != 0, Number(8, m.worldId), f2);
  }

  lemma WorldConcatenationIsMerge(start: WorldEntryNode, s: seq<byte>, a: WorldEntryNode, b: WorldEntryNode)
    requires StreamMerge(WorldCodec(), start, s) == Done(a) && WorldFits(b)
    ensures StreamMerge(WorldCodec(), start, s + EncodeWorld(b)) == Done(MergeWorld(a, b))
  {
    hide StreamMerge, WorldFields1, WorldFits, MergeWorld;
    ConcatenationMerges(WorldCodec(), start, s, EncodeWorld(b));
    WorldEncodable(b);
    EncodedDecodes(WorldCodec(), a, WorldFields1(b));
    WorldFieldsMerge(a, b);
  }

  lemma WorldRoundTrip(m: WorldEntryNode)
    requires WorldFits(m)
    ensures StreamMerge(WorldCodec(), NO_WORLD, EncodeWorld(m)) == Done(m)
  {
    hide StreamMerge, WorldFields1, WorldFits;
    WorldEncodable(m);
    EncodedDecodes(WorldCodec(), NO_WORLD, WorldFields1(m));
    WorldFieldsMerge(NO_WORLD, m);
    assert NO_WORLD.endpoints + m.endpoints == m.endpoints;
  }

  lemma WorldTailSize(m: WorldEntryNode)
    requires WorldFits(m)
    ensures |EncodeFields(WorldFields5(m))| ==
            SizeIf(m.status != 0, Number(40, EnumWord(m.status))) + SizeIf(m.recommended, Number(48, BoolWord(m.recommended)))
          + SizeIf(m.population != 0, Number(56, m.population)) + SizeIf(m.capacity != 0, Number(64, m.capacity))
          + SizeIf(m.transferPolicy != 0, Number(72, EnumWord(m.transferPolicy))) + |EncodeFields(EndpointBlobs(m.endpoints))|
  {
    hide EncodeFields, When, EnumWord, FieldSize, EndpointFits, EncodeEndpoint, EndpointBlobs;
    var f10 := EndpointBlobs(m.endpoints);
    var f9 := When(m.transferPolicy != 0, Number(72, EnumWord(m.transferPolicy)), f10);
    var f8 := When(m.capacity != 0, Number(64, m.capacity), f9);
    var f7 := When(m.population != 0, Number(56, m.population), f8);
    var f6 := When(m.recommended, Number(48, BoolWord(m.recommended)), f7);
    SizeWhen(m.status != 0, Number(40, EnumWord(m.status)), f6);
    SizeWhen(m.recommended, Number(48, BoolWord(m.recommended)), f7);
    SizeWhen(m.population != 0, Number(56, m.population), f8);
    SizeWhen(m.capacity != 0, Number(64, m.capacity), f9);
    SizeWhen(m.transferPolicy != 0, Number(72, EnumWord(m.transferPolicy)), f10);
  }

  lemma WorldSize(m: WorldEntryNode)
    requires WorldFits(m)
    ensures |EncodeWorld(m)| ==
            SizeIf(m.worldId != 0, Number(8, m.worldId)) + SizeIf(m.serverCode != [], Blob(18, m.serverCode))
          + SizeIf(m.displayName != [], Blob(26, m.displayName)) + SizeIf(m.region != [], Blob(34, m.region))
          + |EncodeFields(WorldFields5(m))|
  {
    hide EncodeFields, When, FieldSize, EndpointFits, EncodeEndpoint, WorldFields5;
    var f4 := When(m.region != [], Blob(34, m.region), WorldFields5(m));
    var f3 := When(m.displayName != [], Blob(26, m.displayName), f4);
    var f2 := When(m.serverCode != [], Blob(18, m.serverCode), f3);
    SizeWhen(m.worldId != 0, Number(8, m.worldId), f2);
    SizeWhen(m.serverCode != [], Blob(18, m.serverCode), f3);
    SizeWhen(m.displayName != [], Blob(26, m.displayName), f4);
    SizeWhen(m.region != [], Blob(34, m.region), WorldFields5(m));
  }

  /** Tag, size, message. */
  method WriteEndpoint(e: Endpoint, output: CodedOutput)
    requires EndpointFits(e) && |EncodeEndpoint(e)| < TWO_TO_31
    modifies output
    ensures output.bytes == old(output.bytes) + EncodeField(Blob(82, EncodeEndpoint(e)))
  {
    hide EncodeEndpoint, EndpointFits, EncodeField;
    var entry := new EndpointMessage(e);
    var size := entry.CalculateSize();
    output.WriteMessagePrefix(82, size);
    entry.WriteTo(output);
    BlobBytes(82, EncodeEndpoint(e), old(output.bytes));
  }

  method WriteEndpoints(es: seq<Endpoint>, output: CodedOutput)
    requires EndpointsFit(es)
    modifies output
    ensures output.bytes == old(output.bytes) + EncodeFields(EndpointBlobs(es))
  {
    hide EncodeFields, EncodeEndpoint, EncodeField, EndpointFits;
    EncodeNothing();
    for i := 0 to |es|
      invariant output.bytes + EncodeFields(EndpointBlobs(es[i..])) == old(output.bytes) + EncodeFields(EndpointBlobs(es))
    {
      assert es[i] in es;
      assert es[i..][0] == es[i] && es[i..][1..] == es[i + 1..];
      EncodeWhen(true, Blob(82, EncodeEndpoint(es[i])), EndpointBlobs(es[i + 1..]));
      WriteEndpoint(es[i], output);
    }
    assert es[|es|..] == [];
  }

  method SizeOfEndpoints(es: seq<Endpoint>) returns (size: nat)
    requires EndpointsFit(es)
    ensures size == |EncodeFields(EndpointBlobs(es))|
  {
    hide EncodeFields, EncodeEndpoint, EndpointFits;
    EncodeNothing();
    size := 0;
    for i := 0 to |es|
      invariant size + |EncodeFields(EndpointBlobs(es[i..]))| == |EncodeFields(EndpointBlobs(es))|
    {
      assert es[i] in es;
      assert es[i..][0] == es[i] && es[i..][1..] == es[i + 1..];
      SizeWhen(true, Blob(82, EncodeEndpoint(es[i])), EndpointBlobs(es[i + 1..]));
      var entry := new EndpointMessage(es[i]);
      var n := entry.CalculateSize();
      size := size + 1 + (VarintSize(n) + n);
    }
    assert es[|es|..] == [];
  }

  class WorldEntryMessage {
    var worldId: u32
    var serverCode: seq<byte>
    var displayName: seq<byte>
    var region: seq<byte>
    var status: i32
    var recommended: bool
    var population: u32
    var capacity: u32
    var transferPolicy: i32
    var endpoints: seq<Endpoint>

    constructor (m: WorldEntryNode)
      ensures Value() == m
    {
      worldId, serverCode, displayName, region, status := m.worldId, m.serverCode, m.displayName, m.region, m.status;
      recommended, population, capacity := m.recommended, m.population, m.capacity;
      transferPolicy, endpoints := m.transferPolicy, m.endpoints;
    }

    function Value(): WorldEntryNode
      reads this
    {
      WorldEntryNode(worldId, serverCode, displayName, region, status, recommended, population, capacity, transferPolicy, endpoints)
    }

    method WriteTo(output: CodedOutput)
      requires WorldFits(Value())
      modifies output
      ensures output.bytes == old(output.bytes) + EncodeWorld(Value())
    {
      hide EncodeFields, When, EndpointFits, EncodeEndpoint, EnumWord;
      ghost var f10 := EndpointBlobs(endpoints);
      ghost var f9 := When(transferPolicy != 0, Number(72, EnumWord(transferPolicy)), f10);
      ghost var f8 := When(capacity != 0, Number(64, capacity), f9);
      ghost var f7 := When(population != 0, Number(56, population), f8);
      ghost var f6 := When(recommended, Number(48, BoolWord(recommended)), f7);
      ghost var f5 := When(status != 0, Number(40, EnumWord(status)), f6);
      ghost var f4 := When(region != [], Blob(34, region), f5);
      ghost var f3 := When(displayName != [], Blob(26, displayName), f4);
      ghost var f2 := When(serverCode != [], Blob(18, serverCode), f3);
      output.WriteNumberIf(worldId != 0, 8, worldId, f2);
      output.WriteBlobIf(serverCode != [], 18, serverCode, f3);
      output.WriteBlobIf(displayName != [], 26, displayName, f4);
      output.WriteBlobIf(region != [], 34, region, f5);
      output.WriteNumberIf(status != 0, 40, EnumWord(status), f6);
      output.WriteNumberIf(recommended, 48, BoolWord(recommended), f7);
      output.WriteNumberIf(population != 0, 56, population, f8);
      output.WriteNumberIf(capacity != 0, 64, capacity, f9);
      output.WriteNumberIf(transferPolicy != 0, 72, EnumWord(transferPolicy), f10);
      WriteEndpoints(endpoints, output);
    }

    method CalculateSize() returns (size: nat)
      requires WorldFits(Value())
      ensures size == |EncodeWorld(Value())|
    {
      hide EncodeWorld, EncodeFields, EndpointFits, EncodeEndpoint, WorldFields5, SizeIf;
      WorldSize(Value());
      size := SizeIf(worldId != 0, Number(8, worldId));
      size := size + SizeIf(serverCode != [], Blob(18, serverCode));
      size := size + SizeIf(displayName != [], Blob(26, displayName));
      size := size + SizeIf(region != [], Blob(34, region));
      var n := CalculateTailSize();
      size := size + n;
    }

    /** Fields 5 to 10 of the sum. */
    method CalculateTailSize() returns (size: nat)
      requires WorldFits(Value())
      ensures size == |EncodeFields(WorldFields5(Value()))|
    {
      hide EncodeFields, EndpointFits, EncodeEndpoint, WorldFields5, EnumWord, SizeIf;
      WorldTailSize(Value());
      size := SizeIf(status != 0, Number(40, EnumWord(status)));
      size := size + SizeIf(recommended, Number(48, BoolWord(recommended)));
      size := size + SizeIf(population != 0, Number(56, population));
      size := size + SizeIf(capacity != 0, Number(64, capacity));
      size := size + SizeIf(transferPolicy != 0, Number(72, EnumWord(transferPolicy)));
      var n := SizeOfEndpoints(endpoints);
      size := size + n;
    }

    method MergeFrom(other: WorldEntryMessage)
      modifies this
      ensures Value() == MergeWorld(old(Value()), old(other.Value()))
    {
      var o := other.Value();
      MergeIdentity(o);
      MergeCounts(o);
      endpoints := endpoints + o.endpoints;
    }

    /** Fields 5 to 9. */
    method MergeCounts(o: WorldEntryNode)
      modifies `status, `recommended, `population, `capacity, `transferPolicy
      ensures status == (if o.status != 0 then o.status else old(status))
      ensures recommended == (o.recommended || old(recommended))
      ensures population == (if o.population != 0 then o.population else old(population))
      ensures capacity == (if o.capacity != 0 then o.capacity else old(capacity))
      ensures transferPolicy == (if o.transferPolicy != 0 then o.transferPolicy else old(transferPolicy))
    {
      if o.status != 0 {
        status := o.status;
      }
      if o.recommended != false {
        recommended := o.recommended;
      }
      if o.population != 0 {
        population := o.population;
      }
      if o.capacity != 0 {
        capacity := o.capacity;
      }
      if o.transferPolicy != 0 {
        transferPolicy := o.transferPolicy;
      }
    }

    /** The first four fields of MergeFrom. */
    method MergeIdentity(o: WorldEntryNode)
      modifies `worldId, `serverCode, `displayName, `region
      ensures worldId == (if o.worldId != 0 then o.worldId else old(worldId))
      ensures serverCode == (if o.serverCode != [] then o.serverCode else old(serverCode))
      ensures displayName == (if o.displayName != [] then o.displayName else old(displayName))
      ensures region == (if o.region != [] then o.region else old(region))
    {
      if o.worldId != 0 {
        worldId := o.worldId;
      }
      if o.serverCode != [] {
        serverCode := o.serverCode;
      }
      if o.displayName != [] {
        displayName := o.displayName;
      }
      if o.region != [] {
        region := o.region;
      }
    }

    method MergeFromStream(input: CodedInput) returns (r: Outcome<WorldEntryNode>)
      modifies this, input
      ensures r == StreamMerge(WorldCodec(), old(Value()), old(input.rest))
      ensures r.Done? || r.EndGroup? ==> Value() == r.message
    {
      hide ReadTag, ReadPayload, ApplyWorld;
      while true
        invariant StreamMerge(WorldCodec(), Value(), input.rest) == StreamMerge(WorldCodec(), old(Value()), old(input.rest))
        decreases |input.rest|
      {
        var tag := input.ReadTagValue();
        if tag.None? {
          return Malformed;
        }
        if tag.value == 0 {
          return Done(Value());
        }
        if tag.value % 8 == 4 {
          return EndGroup(Value());
        }
        r := MergeCase(tag.value, input);
        if !r.Done? {
          return;
        }
      }
    }

    /** The switch on the tag. */
    method MergeCase(tag: nat, input: CodedInput) returns (r: Outcome<WorldEntryNode>)
      modifies this, input
      ensures r == MergeField(WorldCodec(), old(Value()), tag, old(input.rest)).0
      ensures !r.EndGroup?
      ensures r.Done? ==> Value() == r.message && input.rest == MergeField(WorldCodec(), old(Value()), tag, old(input.rest)).1
    {
      hide ReadNumber, ReadBlob, EnumOfWord, EndpointCodec;
      match tag {
        case 8 =>
          var v := input.ReadNumberValue();
          if v.None? {
            return Malformed;
          }
          worldId := v.value % TWO_TO_32;
        case 18 =>
          var s := input.ReadBlobValue();
          if s.None? {
            return Malformed;
          }
          serverCode := s.value;
        case 26 =>
          var s := input.ReadBlobValue();
          if s.None? {
            return Malformed;
          }
          displayName := s.value;
        case 34 =>
          var s := input.ReadBlobValue();
          if s.None? {
            return Malformed;
          }
          region := s.value;
        case 40 =>
          var v := input.ReadNumberValue();
          if v.None? {
            return Malformed;
          }
          status := EnumOfWord(v.value);
        case 48 =>
          var v := input.ReadNumberValue();
          if v.None? {
            return Malformed;
          }
          recommended := v.value != 0;
        case 56 =>
          var v := input.ReadNumberValue();
          if v.None? {
            return Malformed;
          }
          population := v.value % TWO_TO_32;
        case 64 =>
          var v := input.ReadNumberValue();
          if v.None? {
            return Malformed;
          }
          capacity := v.value % TWO_TO_32;
        case 72 =>
          var v := input.ReadNumberValue();
          if v.None? {
            return Malformed;
          }
          transferPolicy := EnumOfWord(v.value);
        case 82 =>
          var s := input.ReadBlobValue();
          if s.None? {
            return Malformed;
          }
          var entry := new EndpointMessage(NO_ENDPOINT);
          var nested := new CodedInput(s.value);
          var o := entry.MergeFromStream(nested);
          if !o.Done? {
            return if o.Unknown? then Unknown else Malformed;
          }
          endpoints := endpoints + [entry.Value()];
        case _ =>
          return Unknown;
      }
      r := Done(Value());
    }
  }
}

/** The protobuf wire format: varints, tagged fields, and the merge loop that every generated message shares. */
module Wire {
  import opened Bytes

  // ---- Base 128 varints (Protocol Buffers Encoding, "Base 128 Varints") ----

  const MAX_VARINT := 10

  function WriteVarint(v: nat): (s: seq<byte>)
    ensures s != []
  {
    if v < 128 then [v] else [v % 128 + 128] + WriteVarint(v / 128)
  }

  /** The number spelled by at most `n` bytes, and what follows it. */
  function ReadVarint(s: seq<byte>, n: nat): (r: Option<(nat, seq<byte>)>)
    ensures r.Some? ==> |r.value.1| < |s|
    decreases n
  {
    if n == 0 || s == [] then None
    else if s[0] < 128 then Some((s[0], s[1..]))
    else
      match ReadVarint(s[1..], n - 1)
      case None => None
      case Some((high, rest)) => Some((s[0] - 128 + 128 * high, rest))
  }

  function Power128(n: nat): nat {
    if n == 0 then 1 else 128 * Power128(n - 1)
  }

  lemma {:induction false} VarintRoundTrip(v: nat, n: nat, rest: seq<byte>)
    requires n > 0 && v < Power128(n)
    ensures ReadVarint(WriteVarint(v) + rest, n) == Some((v, rest))
    decreases n
  {
    var s := WriteVarint(v) + rest;
    if v < 128 {
      assert s[1..] == rest;
    } else {
      assert s[1..] == WriteVarint(v / 128) + rest;
      VarintRoundTrip(v / 128, n - 1, rest);
    }
  }

  lemma WordRoundTrip(v: u64, rest: seq<byte>)
    ensures ReadVarint(WriteVarint(v) + rest, MAX_VARINT) == Some((v, rest))
  {
    assert Power128(2) == 0x4000 && Power128(4) == 0x1000_0000;
    assert Power128(6) == 0x400_0000_0000 && Power128(8) == 0x100_0000_0000_0000;
    assert Power128(10) == 0x40_0000_0000_0000_0000;
    VarintRoundTrip(v, MAX_VARINT, rest);
  }

  /** ComputeUInt32Size and ComputeUInt64Size: thresholds, not a loop. */
  function VarintSize(v: u64): nat {
    if v < 0x80 then 1
    else if v < 0x4000 then 2
    else if v < 0x20_0000 then 3
    else if v < 0x1000_0000 then 4
    else if v < 0x8_0000_0000 then 5
    else if v < 0x400_0000_0000 then 6
    else if v < 0x2_0000_0000_0000 then 7
    else if v < 0x100_0000_0000_0000 then 8
    else if v < 0x8000_0000_0000_0000 then 9
    else 10
  }

  lemma {:induction false} VarintSizeIsLength(v: u64)
    ensures |WriteVarint(v)| == VarintSize(v)
    decreases v
  {
    if v < 128 {
    } else {
      VarintSizeIsLength(v / 128);
    }
  }

  lemma {:induction false} VarintExtends(s: seq<byte>, n: nat, more: seq<byte>)
    requires ReadVarint(s, n).Some?
    ensures ReadVarint(s + more, n) == Some((ReadVarint(s, n).value.0, ReadVarint(s, n).value.1 + more))
    decreases n
  {
    if s[0] < 128 {
      assert (s + more)[1..] == s[1..] + more;
    } else {
      assert (s + more)[1..] == s[1..] + more;
      VarintExtends(s[1..], n - 1, more);
    }
  }

  // ---- what varint bytes say ----

  /** The number whose base-128 digits, least significant first, are the low seven bits of the first `n` bytes. */
  function Spelled(s: seq<byte>, n: nat): nat
    requires n <= |s|
  {
    if n == 0 then 0 else Spelled(s, n - 1) + s[n - 1] % 128 * Power128(n - 1)
  }

  lemma {:induction false} SpelledFromFront(s: seq<byte>, n: nat)
    requires n < |s|
    ensures Spelled(s, n + 1) == s[0] % 128 + 128 * Spelled(s[1..], n)
    decreases n
  {
    if n == 0 {
      assert Spelled(s, 1) == s[0] % 128 * Power128(0);
    } else {
      SpelledFromFront(s, n - 1);
      var d := s[n] % 128;
      assert s[1..][n - 1] == s[n];
      assert d * Power128(n) == 128 * (d * Power128(n - 1));
    }
  }

  lemma OneByteVarint(s: seq<byte>, n: nat)
    requires s != [] && s[0] < 128
    ensures ReadVarint(s, n) == if n > 0 then Some((Spelled(s, 1), s[1..])) else None
  {
    assert Power128(0) == 1;
    assert Spelled(s, 0) == 0;
  }

  /** A varint ends at the first byte below 128, which must come within `n` bytes; nothing else is refused, leading zeros included. */
  lemma {:induction false} VarintIsSpelled(s: seq<byte>, n: nat, k: nat)
    requires k < |s| && s[k] < 128 && forall j | 0 <= j < k :: s[j] >= 128
    ensures ReadVarint(s, n) == if k < n then Some((Spelled(s, k + 1), s[k + 1..])) else None
    decreases k
  {
    hide Spelled;
    if k == 0 {
      OneByteVarint(s, n);
    } else if n > 0 {
      SpelledFromFront(s, k);
      VarintIsSpelled(s[1..], n - 1, k - 1);
      assert s[1..][k..] == s[k + 1..];
    }
  }

  lemma {:induction false} UnendedVarint(s: seq<byte>, n: nat)
    requires forall j | 0 <= j < |s| :: s[j] >= 128
    ensures ReadVarint(s, n) == None
    decreases n
  {
    if n == 0 || s == [] {
    } else {
      UnendedVarint(s[1..], n - 1);
    }
  }

  lemma {:induction false} WrittenSpells(v: nat)
    ensures Spelled(WriteVarint(v), |WriteVarint(v)|) == v
    decreases v
  {
    var s := WriteVarint(v);
    SpelledFromFront(s, |s| - 1);
    if v < 128 {
    } else {
      WrittenSpells(v / 128);
      assert s[1..] == WriteVarint(v / 128);
      hide Spelled;
    }
  }

  predicate EndsAtLast(s: seq<byte>) {
    s != [] && s[|s| - 1] < 128 && forall j | 0 <= j < |s| - 1 :: s[j] >= 128
  }

  lemma LongerEndsAtLast(b: byte, t: seq<byte>)
    requires EndsAtLast(t) && b >= 128
    ensures EndsAtLast([b] + t) && ([b] + t)[|t|] == t[|t| - 1]
  {
    var s := [b] + t;
    forall j | 0 <= j < |s| - 1
      ensures s[j] >= 128
    {
      if j > 0 {
        assert s[j] == t[j - 1];
      }
    }
  }

  lemma {:induction false} WrittenEndsAtLast(v: nat)
    ensures var s := WriteVarint(v); EndsAtLast(s) && (s[|s| - 1] == 0 ==> v == 0)
    decreases v
  {
    if v < 128 {
    } else {
      WrittenEndsAtLast(v / 128);
      hide EndsAtLast;
      LongerEndsAtLast(v % 128 + 128, WriteVarint(v / 128));
    }
  }

  /** What is written spells the value in the fewest bytes: all but the last are 128 or more, and the last is 0 only for 0. */
  lemma VarintIsMinimal(v: nat)
    ensures var s := WriteVarint(v);
            && (forall j | 0 <= j < |s| - 1 :: s[j] >= 128)
            && s[|s| - 1] < 128 && (s[|s| - 1] == 0 ==> v == 0)
            && Spelled(s, |s|) == v
  {
    WrittenSpells(v);
    WrittenEndsAtLast(v);
    hide WriteVarint, Spelled;
  }

  // ---- tagged fields ("Message Structure") ----

  /** One field on the wire: a varint or a length-delimited body, each after its tag. */
  datatype Field = Number(tag: nat, value: nat) | Blob(tag: nat, body: seq<byte>)

  predicate ValidField(f: Field) {
    && 8 <= f.tag < 128
    && match f
       case Number(t, v) => t % 8 == 0 && v < TWO_TO_64
       case Blob(t, b) => t % 8 == 2 && |b| < TWO_TO_31
  }

  function EncodeField(f: Field): (s: seq<byte>)
    ensures s != []
  {
    match f
    case Number(t, v) => WriteVarint(t) + WriteVarint(v)
    case Blob(t, b) => WriteVarint(t) + (WriteVarint(|b|) + b)
  }

  /** A field as the schema numbers it: the tag is the number times 8, plus 0 for a varint and 2 for a length-delimited body. */
  function NumberField(n: nat, v: nat): Field { Number(8 * n, v) }

  function BytesField(n: nat, b: seq<byte>): Field { Blob(8 * n + 2, b) }

  /** The bytes of a field: one tag byte, then the varint, or the length as a varint and the body. */
  lemma FieldBytes(f: Field)
    requires ValidField(f)
    ensures EncodeField(f) ==
            match f
            case Number(t, v) => [t] + WriteVarint(v)
            case Blob(t, b) => [t] + WriteVarint(|b|) + b
  {
    assert WriteVarint(f.tag) == [f.tag];
    hide WriteVarint;
  }

  lemma BlobBytes(tag: nat, body: seq<byte>, before: seq<byte>)
    ensures before + (WriteVarint(tag) + WriteVarint(|body|)) + body == before + EncodeField(Blob(tag, body))
  {
    hide WriteVarint;
  }

  function EncodeFields(fs: seq<Field>): seq<byte> {
    if fs == [] then [] else EncodeField(fs[0]) + EncodeFields(fs[1..])
  }

  lemma {:induction false} EncodeAppend(fs: seq<Field>, gs: seq<Field>)
    ensures EncodeFields(fs + gs) == EncodeFields(fs) + EncodeFields(gs)
  {
    hide EncodeField;
    if fs == [] {
      assert fs + gs == gs;
    } else {
      assert (fs + gs)[1..] == fs[1..] + gs;
      EncodeAppend(fs[1..], gs);
      assert EncodeFields(fs + gs) == EncodeField(fs[0]) + (EncodeFields(fs[1..]) + EncodeFields(gs));
    }
  }

  lemma EncodeNothing()
    ensures EncodeFields([]) == []
  {}

  datatype TagRead = AtEnd | BadTag | Tag(tag: nat, rest: seq<byte>)

  /** ReadTag: tags are 32 bits wide and field number 0 is refused. */
  function ReadTag(s: seq<byte>): (r: TagRead)
    ensures r.Tag? ==> |r.rest| < |s|
  {
    if s == [] then AtEnd
    else
      match ReadVarint(s, MAX_VARINT)
      case None => BadTag
      case Some((v, rest)) => if v % TWO_TO_32 < 8 then BadTag else Tag(v % TWO_TO_32, rest)
  }

  /** Of the one-byte tags those of field number 0 are refused, and no others. */
  lemma OneByteTag(t: byte, rest: seq<byte>)
    requires t < 128
    ensures ReadTag([t] + rest) == if t < 8 then BadTag else Tag(t, rest)
  {}

  function ReadNumber(s: seq<byte>): (r: Option<(u64, seq<byte>)>)
    ensures r.Some? ==> |r.value.1| < |s|
  {
    match ReadVarint(s, MAX_VARINT)
    case None => None
    case Some((v, rest)) => Some((v % TWO_TO_64, rest))
  }

  /** A length is a signed 32-bit number: negative, or more than is left, is malformed. */
  function ReadBlob(s: seq<byte>): (r: Option<(seq<byte>, seq<byte>)>)
    ensures r.Some? ==> |r.value.1| < |s|
  {
    match ReadVarint(s, MAX_VARINT)
    case None => None
    case Some((v, rest)) =>
      var n := v % TWO_TO_32;
      if n < TWO_TO_31 && n <= |rest| then Some((rest[..n], rest[n..])) else None
  }

  /** What follows a known tag. */
  function ReadPayload(tag: nat, s: seq<byte>): (r: Option<(Field, seq<byte>)>)
    ensures r.Some? ==> |r.value.1| < |s| && r.value.0.tag == tag && (r.value.0.Number? <==> tag % 8 == 0)
  {
    if tag % 8 == 0 then
      match ReadNumber(s)
      case None => None
      case Some((v, rest)) => Some((Number(tag, v), rest))
    else
      match ReadBlob(s)
      case None => None
      case Some((b, rest)) => Some((Blob(tag, b), rest))
  }

  lemma NumberRoundTrip(v: u64, rest: seq<byte>)
    ensures ReadNumber(WriteVarint(v) + rest) == Some((v, rest))
  {
    hide ReadVarint, WriteVarint;
    WordRoundTrip(v, rest);
  }

  lemma BlobAfterLength(input: seq<byte>, n: nat, s: seq<byte>)
    requires ReadVarint(input, MAX_VARINT) == Some((n, s)) && n < TWO_TO_31 && n <= |s|
    ensures ReadBlob(input) == Some((s[..n], s[n..]))
  {
    hide ReadVarint;
  }

  lemma BlobRoundTrip(b: seq<byte>, rest: seq<byte>)
    requires |b| < TWO_TO_31
    ensures ReadBlob(WriteVarint(|b|) + (b + rest)) == Some((b, rest))
  {
    hide ReadVarint, WriteVarint, ReadBlob;
    WordRoundTrip(|b|, b + rest);
    BlobAfterLength(WriteVarint(|b|) + (b + rest), |b|, b + rest);
    assert (b + rest)[..|b|] == b;
    assert (b + rest)[|b|..] == rest;
  }

  lemma FieldRoundTrip(f: Field, rest: seq<byte>)
    requires ValidField(f)
    ensures var r := ReadTag(EncodeField(f) + rest);
            r.Tag? && r.tag == f.tag && ReadPayload(f.tag, r.rest) == Some((f, rest))
  {
    hide ReadVarint, WriteVarint;
    match f
    case Number(t, v) =>
      assert EncodeField(f) + rest == WriteVarint(t) + (WriteVarint(v) + rest);
      WordRoundTrip(t, WriteVarint(v) + rest);
      NumberRoundTrip(v, rest);
    case Blob(t, b) =>
      assert EncodeField(f) + rest == WriteVarint(t) + (WriteVarint(|b|) + (b + rest));
      WordRoundTrip(t, WriteVarint(|b|) + (b + rest));
      BlobRoundTrip(b, rest);
  }

  lemma TagExtends(s: seq<byte>, more: seq<byte>)
    requires ReadTag(s).Tag?
    ensures ReadTag(s + more) == Tag(ReadTag(s).tag, ReadTag(s).rest + more)
  {
    hide ReadVarint;
    VarintExtends(s, MAX_VARINT, more);
  }

  lemma PayloadExtends(tag: nat, s: seq<byte>, more: seq<byte>)
    requires ReadPayload(tag, s).Some?
    ensures ReadPayload(tag, s + more) == Some((ReadPayload(tag, s).value.0, ReadPayload(tag, s).value.1 + more))
  {
    hide ReadVarint;
    VarintExtends(s, MAX_VARINT, more);
    if tag % 8 != 0 {
      var rest := ReadVarint(s, MAX_VARINT).value.1;
      var n := ReadVarint(s, MAX_VARINT).value.0 % TWO_TO_32;
      assert (rest + more)[..n] == rest[..n];
      assert (rest + more)[n..] == rest[n..] + more;
    }
  }

  // ---- the merge loop ----

  /** Unknown: a tag the message does not declare, whose preservation is not part of this model. */
  datatype Outcome<M> = Done(message: M) | EndGroup(message: M) | Malformed | Unknown

  /** A message type: the tags its switch has a case for, and what each case does. */
  datatype Codec<!M> = Codec(known: set<nat>, apply: (M, Field) -> Outcome<M>)

  function StreamMerge<M>(c: Codec<M>, m: M, s: seq<byte>): Outcome<M>
    decreases |s|
  {
    match ReadTag(s)
    case AtEnd => Done(m)
    case BadTag => Malformed
    case Tag(t, rest) =>
      if t % 8 == 4 then EndGroup(m)
      else if t !in c.known then Unknown
      else
        match ReadPayload(t, rest)
        case None => Malformed
        case Some((f, after)) =>
          match c.apply(m, f)
          case Done(m') => StreamMerge(c, m', after)
          case o => o
  }

  /** One turn of the loop past its tag: what the switch leaves, and the unread bytes. */
  function MergeField<M>(c: Codec<M>, m: M, tag: nat, s: seq<byte>): (Outcome<M>, seq<byte>) {
    if tag !in c.known then (Unknown, s)
    else
      match ReadPayload(tag, s)
      case None => (Malformed, s)
      case Some((f, after)) => (c.apply(m, f), after)
  }

  /** A nested message must end where its bytes end. */
  function Nested<M>(o: Outcome<M>): Outcome<M> {
    if o.EndGroup? then Malformed else o
  }

  function FoldFields<M>(c: Codec<M>, m: M, fs: seq<Field>): Outcome<M> {
    if fs == [] then Done(m)
    else
      match c.apply(m, fs[0])
      case Done(m') => FoldFields(c, m', fs[1..])
      case o => o
  }

  lemma {:induction false} FoldAppend<M>(c: Codec<M>, m: M, fs: seq<Field>, gs: seq<Field>)
    requires FoldFields(c, m, fs).Done?
    ensures FoldFields(c, m, fs + gs) == FoldFields(c, FoldFields(c, m, fs).message, gs)
    decreases |fs|
  {
    if fs == [] {
      assert fs + gs == gs;
    } else {
      assert (fs + gs)[1..] == fs[1..] + gs;
      FoldAppend(c, c.apply(m, fs[0]).message, fs[1..], gs);
    }
  }

  /** The fields the loop reads, up to where it stops. */
  function FieldsOf<M>(c: Codec<M>, s: seq<byte>): seq<Field>
    decreases |s|
  {
    match ReadTag(s)
    case Tag(t, rest) =>
      if t % 8 == 4 || t !in c.known then []
      else
        (match ReadPayload(t, rest)
         case None => []
         case Some((f, after)) => [f] + FieldsOf(c, after))
    case _ => []
  }

  /** A message type whose every case succeeds, on the fields its tags call for. */
  ghost predicate NeverRefuses<M(!new)>(c: Codec<M>) {
    forall m: M, f: Field :: f.tag in c.known && (f.Number? <==> f.tag % 8 == 0) ==> c.apply(m, f).Done?
  }

  /** For such a type, whether bytes decode does not depend on the message they are read into. */
  lemma {:induction false} DecodesAnywhere<M(!new)>(c: Codec<M>, m: M, a: M, s: seq<byte>)
    requires NeverRefuses(c) && StreamMerge(c, m, s).Done?
    ensures StreamMerge(c, a, s).Done?
    decreases |s|
  {
    hide ReadTag, ReadPayload;
    if ReadTag(s).Tag? {
      var t, rest := ReadTag(s).tag, ReadTag(s).rest;
      var (f, after) := ReadPayload(t, rest).value;
      assert c.apply(a, f).Done? && c.apply(m, f).Done?;
      DecodesAnywhere(c, c.apply(m, f).message, c.apply(a, f).message, after);
    }
  }

  lemma {:induction false} StreamIsFold<M>(c: Codec<M>, m: M, s: seq<byte>)
    requires StreamMerge(c, m, s).Done?
    ensures FoldFields(c, m, FieldsOf(c, s)) == StreamMerge(c, m, s)
    decreases |s|
  {
    hide ReadTag, ReadPayload;
    if ReadTag(s).Tag? {
      var t, rest := ReadTag(s).tag, ReadTag(s).rest;
      var (f, after) := ReadPayload(t, rest).value;
      StreamIsFold(c, c.apply(m, f).message, after);
      assert FieldsOf(c, s) == [f] + FieldsOf(c, after);
    }
  }

  predicate Encodable<M>(c: Codec<M>, fs: seq<Field>) {
    forall f <- fs :: ValidField(f) && f.tag in c.known
  }

  function Then<M>(o: Outcome<M>, c: Codec<M>, s: seq<byte>): Outcome<M> {
    if o.Done? then StreamMerge(c, o.message, s) else o
  }

  /** Reading back what was written applies the fields one by one and leaves the rest of the stream. */
  lemma {:induction false} EncodedMerges<M>(c: Codec<M>, m: M, fs: seq<Field>, rest: seq<byte>)
    requires Encodable(c, fs)
    ensures StreamMerge(c, m, EncodeFields(fs) + rest) == Then(FoldFields(c, m, fs), c, rest)
    decreases |fs|
  {
    hide ReadTag, ReadPayload, EncodeField;
    if fs == [] {
      assert EncodeFields(fs) + rest == rest;
    } else {
      var f := fs[0];
      assert f in fs && ValidField(f);
      var tail := EncodeFields(fs[1..]) + rest;
      assert EncodeFields(fs) + rest == EncodeField(f) + tail;
      FieldRoundTrip(f, tail);
      var r := c.apply(m, f);
      if r.Done? {
        EncodedMerges(c, r.message, fs[1..], rest);
      }
    }
  }

  lemma EncodedDecodes<M>(c: Codec<M>, m: M, fs: seq<Field>)
    requires Encodable(c, fs)
    ensures StreamMerge(c, m, EncodeFields(fs)) == FoldFields(c, m, fs)
  {
    EncodedMerges(c, m, fs, []);
    assert EncodeFields(fs) + [] == EncodeFields(fs);
  }

  /** Decoding is incremental on every input: bytes that decode on their own can be continued by any others. */
  lemma {:induction false} ConcatenationMerges<M>(c: Codec<M>, m: M, s: seq<byte>, more: seq<byte>)
    requires StreamMerge(c, m, s).Done?
    ensures StreamMerge(c, m, s + more) == StreamMerge(c, StreamMerge(c, m, s).message, more)
    decreases |s|
  {
    hide ReadTag, ReadPayload;
    if ReadTag(s).AtEnd? {
      assert s == [] by { AtEndIsEmpty(s); }
      assert s + more == more;
    } else {
      var t, rest := ReadTag(s).tag, ReadTag(s).rest;
      TagExtends(s, more);
      PayloadExtends(t, rest, more);
      var (f, after) := ReadPayload(t, rest).value;
      ConcatenationMerges(c, c.apply(m, f).message, after, more);
    }
  }

  lemma AtEndIsEmpty(s: seq<byte>)
    ensures ReadTag(s).AtEnd? <==> s == []
  {}

  function MapOutcome<A, B>(h: A -> B, o: Outcome<A>): Outcome<B> {
    match o
    case Done(m) => Done(h(m))
    case EndGroup(m) => EndGroup(h(m))
    case Malformed => Malformed
    case Unknown => Unknown
  }

  ghost predicate Simulates<A(!new), B>(h: A -> B, ca: Codec<A>, cb: Codec<B>) {
    && ca.known == cb.known
    && forall a, f :: cb.apply(h(a), f) == MapOutcome(h, ca.apply(a, f))
  }

  /** Two messages that agree case by case read every byte string alike. */
  lemma {:induction false} TwinsAgree<A(!new), B>(h: A -> B, ca: Codec<A>, cb: Codec<B>, a: A, s: seq<byte>)
    requires Simulates(h, ca, cb)
    ensures StreamMerge(cb, h(a), s) == MapOutcome(h, StreamMerge(ca, a, s))
    decreases |s|
  {
    hide ReadTag, ReadPayload;
    if ReadTag(s).Tag? {
      var t, rest := ReadTag(s).tag, ReadTag(s).rest;
      if t % 8 != 4 && t in ca.known && ReadPayload(t, rest).Some? {
        var (f, after) := ReadPayload(t, rest).value;
        assert cb.apply(h(a), f) == MapOutcome(h, ca.apply(a, f));
        if ca.apply(a, f).Done? {
          TwinsAgree(h, ca, cb, ca.apply(a, f).message, after);
        }
      }
    }
  }

  // ---- a field written only when it differs from its default ----

  function When(present: bool, f: Field, rest: seq<Field>): seq<Field> {
    if present then [f] + rest else rest
  }

  /** `next` is the message after the field, or the same message when the field is absent. */
  lemma FoldWhen<M>(c: Codec<M>, m: M, present: bool, f: Field, next: M, rest: seq<Field>)
    requires if present then c.apply(m, f) == Done(next) else next == m
    ensures FoldFields(c, m, When(present, f, rest)) == FoldFields(c, next, rest)
  {
    if present {
      assert ([f] + rest)[1..] == rest;
    }
  }

  lemma EncodableWhen<M>(c: Codec<M>, present: bool, f: Field, rest: seq<Field>)
    requires Encodable(c, rest) && (present ==> ValidField(f) && f.tag in c.known)
    ensures Encodable(c, When(present, f, rest))
  {}

  lemma EncodeWhen(present: bool, f: Field, rest: seq<Field>)
    ensures EncodeFields(When(present, f, rest)) == (if present then EncodeField(f) else []) + EncodeFields(rest)
  {
    hide EncodeField;
    if present {
      assert ([f] + rest)[1..] == rest;
    }
  }

  /** One tag byte, then the payload, as CalculateSize adds it up. */
  function FieldSize(f: Field): nat
    requires ValidField(f)
  {
    match f
    case Number(_, v) => 1 + VarintSize(v)
    case Blob(_, b) => 1 + (VarintSize(|b|) + |b|)
  }

  lemma FieldSizeIsLength(f: Field)
    requires ValidField(f)
    ensures |EncodeField(f)| == FieldSize(f)
  {
    VarintSizeIsLength(f.tag);
    if f.Number? {
      VarintSizeIsLength(f.value);
    } else {
      VarintSizeIsLength(|f.body|);
    }
    hide WriteVarint;
  }

  function SizeIf(present: bool, f: Field): nat
    requires present ==> ValidField(f)
  {
    if present then FieldSize(f) else 0
  }

  lemma SizeWhen(present: bool, f: Field, rest: seq<Field>)
    requires present ==> ValidField(f)
    ensures |EncodeFields(When(present, f, rest))| == SizeIf(present, f) + |EncodeFields(rest)|
  {
    hide EncodeField, FieldSize;
    EncodeWhen(present, f, rest);
    if present {
      FieldSizeIsLength(f);
    }
  }

  /** An enum is a signed 32-bit number, sign-extended to 64 bits on the wire. */
  function EnumWord(e: i32): u64 {
    if e < 0 then e + TWO_TO_64 else e
  }

  function EnumOfWord(v: nat): i32 {
    ToI32(v % TWO_TO_32)
  }

  lemma EnumRoundTrip(e: i32)
    ensures EnumOfWord(EnumWord(e)) == e
  {}

  /** On the wire an enum is its 64-bit two's complement, so a negative one takes ten bytes; what is read is congruent modulo 2^32. */
  lemma EnumOnWire(e: i32, v: nat)
    ensures EnumWord(e) == e % TWO_TO_64 && (e < 0 ==> VarintSize(EnumWord(e)) == 10)
    ensures (EnumOfWord(v) - v) % TWO_TO_32 == 0
  {}

  function BoolWord(b: bool): u64 {
    if b then 1 else 0
  }

  /** A written true is the tag and the byte 1. */
  lemma TrueOnWire(n: nat)
    requires 0 < n < 16
    ensures EncodeField(NumberField(n, BoolWord(true))) == [8 * n, 1]
  {}

  // ---- the runtime's streams ----

  class CodedOutput {
    var bytes: seq<byte>

    constructor ()
      ensures bytes == []
    {
      bytes := [];
    }

    method WriteRawTag(tag: byte)
      modifies this
      ensures bytes == old(bytes) + [tag]
    {
      bytes := bytes + [tag];
    }

    method WriteVarintValue(v: u64)
      modifies this
      ensures bytes == old(bytes) + WriteVarint(v)
    {
      var n: nat := v;
      while n >= 128
        invariant bytes + WriteVarint(n) == old(bytes) + WriteVarint(v)
      {
        assert bytes + WriteVarint(n) == bytes + [n % 128 + 128] + WriteVarint(n / 128);
        bytes := bytes + [n % 128 + 128];
        n := n / 128;
      }
      bytes := bytes + [n];
    }

    method WriteNumber(tag: byte, v: u64)
      requires 8 <= tag < 128
      modifies this
      ensures bytes == old(bytes) + EncodeField(Number(tag, v))
    {
      WriteRawTag(tag);
      WriteVarintValue(v);
      assert WriteVarint(tag) == [tag];
    }

    method WriteBlob(tag: byte, body: seq<byte>)
      requires 8 <= tag < 128 && |body| < TWO_TO_31
      modifies this
      ensures bytes == old(bytes) + EncodeField(Blob(tag, body))
    {
      assert WriteVarint(tag) == [tag];
      hide WriteVarint;
      WriteRawTag(tag);
      WriteVarintValue(|body|);
      bytes := bytes + body;
    }

    /** What precedes a nested message. */
    method WriteMessagePrefix(tag: byte, size: u64)
      requires 8 <= tag < 128
      modifies this
      ensures bytes == old(bytes) + (WriteVarint(tag) + WriteVarint(size))
    {
      assert WriteVarint(tag) == [tag];
      hide WriteVarint;
      WriteRawTag(tag);
      WriteVarintValue(size);
    }

    /** `rest` names the fields still to be written. */
    method WriteNumberIf(present: bool, tag: byte, v: u64, ghost rest: seq<Field>)
      requires 8 <= tag < 128
      modifies this
      ensures bytes + EncodeFields(rest) == old(bytes) + EncodeFields(When(present, Number(tag, v), rest))
    {
      hide EncodeField, EncodeFields;
      EncodeWhen(present, Number(tag, v), rest);
      if present {
        WriteNumber(tag, v);
      }
    }

    method WriteBlobIf(present: bool, tag: byte, body: seq<byte>, ghost rest: seq<Field>)
      requires 8 <= tag < 128 && |body| < TWO_TO_31
      modifies this
      ensures bytes + EncodeFields(rest) == old(bytes) + EncodeFields(When(present, Blob(tag, body), rest))
    {
      hide EncodeField, EncodeFields;
      EncodeWhen(present, Blob(tag, body), rest);
      if present {
        WriteBlob(tag, body);
      }
    }
  }

  /** What is left to read. */
  class CodedInput {
    var rest: seq<byte>

    constructor (data: seq<byte>)
      ensures rest == data
    {
      rest := data;
    }

    method ReadVarintValue() returns (r: Option<nat>)
      modifies this
      ensures match ReadVarint(old(rest), MAX_VARINT)
              case None => r == None
              case Some((v, after)) => r == Some(v) && rest == after
    {
      hide ReadVarint, Shifted;
      var value: nat, scale: nat, n: nat := 0, 1, MAX_VARINT;
      ShiftedByNothing(ReadVarint(rest, n));
      while n > 0 && rest != []
        invariant Shifted(value, scale, ReadVarint(rest, n)) == ReadVarint(old(rest), MAX_VARINT)
        decreases n
      {
        ShiftStep(value, scale, rest, n);
        var b: nat := rest[0];
        rest := rest[1..];
        if b < 128 {
          return Some(value + scale * b);
        }
        value, scale, n := value + scale * (b - 128), scale * 128, n - 1;
      }
      ShiftedEnds(value, scale, rest, n);
      r := None;
    }

    /** ReadTag, where `None` is its exception and tag 0 is the end of the input. */
    method ReadTagValue() returns (r: Option<nat>)
      modifies this
      ensures match ReadTag(old(rest))
              case AtEnd => r == Some(0) && rest == []
              case BadTag => r == None
              case Tag(t, after) => r == Some(t) && t != 0 && rest == after
    {
      if rest == [] {
        return Some(0);
      }
      var v := ReadVarintValue();
      if v.None? || v.value % TWO_TO_32 < 8 {
        return None;
      }
      r := Some(v.value % TWO_TO_32);
    }

    method ReadNumberValue() returns (r: Option<u64>)
      modifies this
      ensures match ReadNumber(old(rest))
              case None => r == None
              case Some((v, after)) => r == Some(v) && rest == after
    {
      var v := ReadVarintValue();
      r := if v.None? then None else Some(v.value % TWO_TO_64);
    }

    method ReadBlobValue() returns (r: Option<seq<byte>>)
      modifies this
      ensures match ReadBlob(old(rest))
              case None => r == None
              case Some((b, after)) => r == Some(b) && rest == after
    {
      var v := ReadVarintValue();
      if v.None? {
        return None;
      }
      var n := v.value % TWO_TO_32;
      if n >= TWO_TO_31 || n > |rest| {
        return None;
      }
      r := Some(rest[..n]);
      rest := rest[n..];
    }
  }

  /** The rest of a varint read, once `value` has been gathered below `scale`. */
  function Shifted(value: nat, scale: nat, r: Option<(nat, seq<byte>)>): Option<(nat, seq<byte>)> {
    match r
    case None => None
    case Some((v, rest)) => Some((value + scale * v, rest))
  }

  lemma ShiftedByNothing(r: Option<(nat, seq<byte>)>)
    ensures Shifted(0, 1, r) == r
  {}

  lemma ShiftedEnds(value: nat, scale: nat, s: seq<byte>, n: nat)
    requires s == [] || n == 0
    ensures Shifted(value, scale, ReadVarint(s, n)) == None
  {}

  lemma ShiftStep(value: nat, scale: nat, s: seq<byte>, n: nat)
    requires s != [] && n > 0
    ensures Shifted(value, scale, ReadVarint(s, n)) ==
            if s[0] < 128 then Some((value + scale * s[0], s[1..]))
            else Shifted(value + scale * (s[0] - 128), scale * 128, ReadVarint(s[1..], n - 1))
  {
    if s[0] >= 128 && ReadVarint(s[1..], n - 1).Some? {
      var high := ReadVarint(s[1..], n - 1).value.0;
      assert scale * (s[0] - 128 + 128 * high) == scale * (s[0] - 128) + (scale * 128) * high;
    }
  }
}

/** LoginResult: what the client reads after its login request. */
module LoginMessages {
  import opened Bytes
  import opened Wire
  import opened CommonMessages

  /** The repeated field: one tagged message after another. */
  function EntryBlobs(es: seq<WorldEntryNode>): seq<Field> {
    if es == [] then [] else [Blob(34, EncodeWorld(es[0]))] + EntryBlobs(es[1..])
  }

  predicate EntriesFit(es: seq<WorldEntryNode>) {
    forall e <- es :: WorldFits(e) && |EncodeWorld(e)| < TWO_TO_31
  }

  datatype LoginResult = LoginResult(
    ok: bool, accountId: u64, loginSession: seq<byte>, worldEntries: seq<WorldEntryNode>, failReason: seq<byte>)

  const NO_LOGIN := LoginResult(false, 0, [], [], [])

  function LoginFields(m: LoginResult): seq<Field> {
    When(m.ok, Number(8, BoolWord(m.ok)), When(m.accountId != 0, Number(16, m.accountId),
    When(m.loginSession != [], Blob(26, m.loginSession),
         EntryBlobs(m.worldEntries) + When(m.failReason != [], Blob(42, m.failReason), []))))
  }

  /** With every field set: the fields in the order of their numbers, one field 4 for each entry. */
  lemma LoginLayout(m: LoginResult)
    requires m.ok && m.accountId != 0 && m.loginSession != [] && m.failReason != []
    ensures LoginFields(m) == [NumberField(1, 1), NumberField(2, m.accountId), BytesField(3, m.loginSession)]
                              + EntryBlobs(m.worldEntries) + [BytesField(5, m.failReason)]
  {
    hide EntryBlobs;
  }

  lemma {:induction false} EntryBlobsLayout(es: seq<WorldEntryNode>)
    ensures |EntryBlobs(es)| == |es|
    ensures forall k | 0 <= k < |es| :: EntryBlobs(es)[k] == BytesField(4, EncodeWorld(es[k]))
    decreases |es|
  {
    if es == [] {
    } else {
      EntryBlobsLayout(es[1..]);
      hide EncodeWorld;
    }
  }

  function EncodeLogin(m: LoginResult): seq<byte> {
    EncodeFields(LoginFields(m))
  }

  function ApplyLogin(m: LoginResult, f: Field): Outcome<LoginResult> {
    match f
    case Number(8, v) => Done(m.(ok := v % TWO_TO_64 != 0))
    case Number(16, v) => Done(m.(accountId := v % TWO_TO_64))
    case Blob(26, b) => Done(m.(loginSession := b))
    case Blob(34, b) =>
      (match Nested(StreamMerge(WorldCodec(), NO_WORLD, b))
       case Done(e) => Done(m.(worldEntries := m.worldEntries + [e]))
       case Unknown => Unknown
       case _ => Malformed)
    case Blob(42, b) => Done(m.(failReason := b))
    case _ => Unknown
  }

  function LoginCodec(): Codec<LoginResult> {
    Codec({8, 16, 26, 34, 42}, ApplyLogin)
  }

  function MergeLogin(a: LoginResult, b: LoginResult): LoginResult {
    LoginResult(
      if b.ok then true else a.ok,
      if b.accountId != 0 then b.accountId else a.accountId,
      if b.loginSession != [] then b.loginSession else a.loginSession,
      a.worldEntries + b.worldEntries,
      if b.failReason != [] then b.failReason else a.failReason)
  }

  predicate LoginFits(m: LoginResult) {
    |m.loginSession| < TWO_TO_31 && |m.failReason| < TWO_TO_31 && EntriesFit(m.worldEntries)
  }

  lemma EntryBlobApplies(a: LoginResult, e: WorldEntryNode)
    requires WorldFits(e)
    ensures ApplyLogin(a, Blob(34, EncodeWorld(e))) == Done(a.(worldEntries := a.worldEntries + [e]))
  {
    hide StreamMerge, EncodeWorld, WorldFits;
    WorldRoundTrip(e);
  }

  lemma {:induction false} EntryBlobsMerge(a: LoginResult, es: seq<WorldEntryNode>)
    requires EntriesFit(es)
    ensures FoldFields(LoginCodec(), a, EntryBlobs(es)) == Done(a.(worldEntries := a.worldEntries + es))
    decreases |es|
  {
    hide ApplyLogin, EncodeWorld, WorldFits;
    if es == [] {
      assert a.worldEntries + es == a.worldEntries;
    } else {
      hide FoldFields;
      var a' := a.(worldEntries := a.worldEntries + [es[0]]);
      assert es[0] in es;
      EntryBlobApplies(a, es[0]);
      FoldWhen(LoginCodec(), a, true, Blob(34, EncodeWorld(es[0])), a', EntryBlobs(es[1..]));
      EntryBlobsMerge(a', es[1..]);
      assert a'.worldEntries + es[1..] == a.worldEntries + es;
    }
  }

  lemma LoginFieldsMerge(a: LoginResult, b: LoginResult)
    requires LoginFits(b)
    ensures FoldFields(LoginCodec(), a, LoginFields(b)) == Done(MergeLogin(a, b))
  {
    hide StreamMerge, EntryBlobs, EntriesFit;
    var c := LoginCodec();
    var m := MergeLogin(a, b);
    var a2 := a.(ok := m.ok);
    var a3 := a2.(accountId := m.accountId);
    var a4 := a3.(loginSession := m.loginSession);
    var a5 := a4.(worldEntries := m.worldEntries);
    var f5 := When(b.failReason != [], Blob(42, b.failReason), []);
    var f4 := EntryBlobs(b.worldEntries) + f5;
    var f3 := When(b.loginSession != [], Blob(26, b.loginSession), f4);
    var f2 := When(b.accountId != 0, Number(16, b.accountId), f3);
    assert FoldFields(c, m, []) == Done(m);
    hide When, FoldFields;
    FoldWhen(c, a, b.ok, Number(8, BoolWord(b.ok)), a2, f2);
    FoldWhen(c, a2, b.accountId != 0, Number(16, b.accountId), a3, f3);
    FoldWhen(c, a3, b.loginSession != [], Blob(26, b.loginSession), a4, f4);
    EntryBlobsMerge(a4, b.worldEntries);
    FoldAppend(c, a4, EntryBlobs(b.worldEntries), f5);
    FoldWhen(c, a5, b.failReason != [], Blob(42, b.failReason), m, []);
  }

  lemma {:induction false} EntryBlobsEncodable(es: seq<WorldEntryNode>)
    requires EntriesFit(es)
    ensures Encodable(LoginCodec(), EntryBlobs(es))
  {
    hide WorldFits, EncodeWorld;
    if es == [] {
    } else {
      assert es[0] in es;
      EntryBlobsEncodable(es[1..]);
    }
  }

  lemma LoginEncodable(m: LoginResult)
    requires LoginFits(m)
    ensures Encodable(LoginCodec(), LoginFields(m))
  {
    hide EntriesFit, EntryBlobs;
    var c := LoginCodec();
    var f5 := When(m.failReason != [], Blob(42, m.failReason), []);
    var f4 := EntryBlobs(m.worldEntries) + f5;
    var f3 := When(m.loginSession != [], Blob(26, m.loginSession), f4);
    var f2 := When(m.accountId != 0, Number(16, m.accountId), f3);
    EntryBlobsEncodable(m.worldEntries);
    EncodableWhen(c, m.failReason != [], Blob(42, m.failReason), []);
    hide When;
    EncodableWhen(c, m.loginSession != [], Blob(26, m.loginSession), f4);
    EncodableWhen(c, m.accountId != 0, Number(16, m.accountId), f3);
    EncodableWhen(c, m.ok, Number(8, BoolWord(m.ok)), f2);
  }

  lemma LoginConcatenationIsMerge(start: LoginResult, s: seq<byte>, a: LoginResult, b: LoginResult)
    requires StreamMerge(LoginCodec(), start, s) == Done(a) && LoginFits(b)
    ensures StreamMerge(LoginCodec(), start, s + EncodeLogin(b)) == Done(MergeLogin(a, b))
  {
    hide StreamMerge, LoginFields, LoginFits, MergeLogin;
    ConcatenationMerges(LoginCodec(), start, s, EncodeLogin(b));
    LoginEncodable(b);
    EncodedDecodes(LoginCodec(), a, LoginFields(b));
    LoginFieldsMerge(a, b);
  }

  lemma LoginRoundTrip(m: LoginResult)
    requires LoginFits(m)
    ensures StreamMerge(LoginCodec(), NO_LOGIN, EncodeLogin(m)) == Done(m)
  {
    hide StreamMerge, LoginFields, LoginFits;
    LoginEncodable(m);
    EncodedDecodes(LoginCodec(), NO_LOGIN, LoginFields(m));
    LoginFieldsMerge(NO_LOGIN, m);
    assert NO_LOGIN.worldEntries + m.worldEntries == m.worldEntries;
  }

  lemma LoginSize(m: LoginResult)
    requires LoginFits(m)
    ensures |EncodeLogin(m)| == SizeIf(m.ok, Number(8, BoolWord(m.ok))) + SizeIf(m.accountId != 0, Number(16, m.accountId))
                              + SizeIf(m.loginSession != [], Blob(26, m.loginSession))
                              + |EncodeFields(EntryBlobs(m.worldEntries))| + SizeIf(m.failReason != [], Blob(42, m.failReason))
  {
    hide EncodeFields, When, FieldSize, EntriesFit, EntryBlobs;
    var f5 := When(m.failReason != [], Blob(42, m.failReason), []);
    var f4 := EntryBlobs(m.worldEntries) + f5;
    var f3 := When(m.loginSession != [], Blob(26, m.loginSession), f4);
    var f2 := When(m.accountId != 0, Number(16, m.accountId), f3);
    SizeWhen(m.ok, Number(8, BoolWord(m.ok)), f2);
    SizeWhen(m.accountId != 0, Number(16, m.accountId), f3);
    SizeWhen(m.loginSession != [], Blob(26, m.loginSession), f4);
    EncodeAppend(EntryBlobs(m.worldEntries), f5);
    SizeWhen(m.failReason != [], Blob(42, m.failReason), []);
    EncodeNothing();
  }

  method WriteEntry(e: WorldEntryNode, output: CodedOutput)
    requires WorldFits(e) && |EncodeWorld(e)| < TWO_TO_31
    modifies output
    ensures output.bytes == old(output.bytes) + EncodeField(Blob(34, EncodeWorld(e)))
  {
    hide EncodeWorld, WorldFits, EncodeField;
    var entry := new WorldEntryMessage(e);
    var size := entry.CalculateSize();
    output.WriteMessagePrefix(34, size);
    entry.WriteTo(output);
    BlobBytes(34, EncodeWorld(e), old(output.bytes));
  }

  method WriteEntries(es: seq<WorldEntryNode>, output: CodedOutput)
    requires EntriesFit(es)
    modifies output
    ensures output.bytes == old(output.bytes) + EncodeFields(EntryBlobs(es))
  {
    hide EncodeFields, EncodeWorld, EncodeField, WorldFits;
    EncodeNothing();
    for i := 0 to |es|
      invariant output.bytes + EncodeFields(EntryBlobs(es[i..])) == old(output.bytes) + EncodeFields(EntryBlobs(es))
    {
      assert es[i] in es;
      assert es[i..][0] == es[i] && es[i..][1..] == es[i + 1..];
      EncodeWhen(true, Blob(34, EncodeWorld(es[i])), EntryBlobs(es[i + 1..]));
      WriteEntry(es[i], output);
    }
    assert es[|es|..] == [];
  }

  method SizeOfEntries(es: seq<WorldEntryNode>) returns (size: nat)
    requires EntriesFit(es)
    ensures size == |EncodeFields(EntryBlobs(es))|
  {
    hide EncodeFields, EncodeWorld, WorldFits;
    EncodeNothing();
    size := 0;
    for i := 0 to |es|
      invariant size + |EncodeFields(EntryBlobs(es[i..]))| == |EncodeFields(EntryBlobs(es))|
    {
      assert es[i] in es;
      assert es[i..][0] == es[i] && es[i..][1..] == es[i + 1..];
      SizeWhen(true, Blob(34, EncodeWorld(es[i])), EntryBlobs(es[i + 1..]));
      var entry := new WorldEntryMessage(es[i]);
      var n := entry.CalculateSize();
      size := size + 1 + (VarintSize(n) + n);
    }
    assert es[|es|..] == [];
  }

  class LoginResultMessage {
    var ok: bool
    var accountId: u64
    var loginSession: seq<byte>
    var worldEntries: seq<WorldEntryNode>
    var failReason: seq<byte>

    constructor (m: LoginResult)
      ensures Value() == m
    {
      ok, accountId, loginSession, worldEntries, failReason := m.ok, m.accountId, m.loginSession, m.worldEntries, m.failReason;
    }

    function Value(): LoginResult
      reads this
    {
      LoginResult(ok, accountId, loginSession, worldEntries, failReason)
    }

    method WriteTo(output: CodedOutput)
      requires LoginFits(Value())
      modifies output
      ensures output.bytes == old(output.bytes) + EncodeLogin(Value())
    {
      hide EncodeFields, When, EntriesFit;
      EncodeNothing();
      ghost var f5 := When(failReason != [], Blob(42, failReason), []);
      ghost var f4 := EntryBlobs(worldEntries) + f5;
      ghost var f3 := When(loginSession != [], Blob(26, loginSession), f4);
      ghost var f2 := When(accountId != 0, Number(16, accountId), f3);
      output.WriteNumberIf(ok, 8, BoolWord(ok), f2);
      output.WriteNumberIf(accountId != 0, 16, accountId, f3);
      output.WriteBlobIf(loginSession != [], 26, loginSession, f4);
      EncodeAppend(EntryBlobs(worldEntries), f5);
      ghost var before, entries, last := output.bytes, EncodeFields(EntryBlobs(worldEntries)), EncodeFields(f5);
      WriteEntries(worldEntries, output);
      assert before + entries + last == before + (entries + last);
      output.WriteBlobIf(failReason != [], 42, failReason, []);
    }

    method CalculateSize() returns (size: nat)
      requires LoginFits(Value())
      ensures size == |EncodeLogin(Value())|
    {
      hide EncodeLogin, EncodeFields, EntriesFit, SizeIf;
      LoginSize(Value());
      size := SizeIf(ok, Number(8, BoolWord(ok)));
      size := size + SizeIf(accountId != 0, Number(16, accountId));
      size := size + SizeIf(loginSession != [], Blob(26, loginSession));
      var n := SizeOfEntries(worldEntries);
      size := size + n;
      size := size + SizeIf(failReason != [], Blob(42, failReason));
    }

    method MergeFrom(other: LoginResultMessage)
      modifies this
      ensures Value() == MergeLogin(old(Value()), old(other.Value()))
    {
      if other.ok != false {
        ok := other.ok;
      }
      if other.accountId != 0 {
        accountId := other.accountId;
      }
      if other.loginSession != [] {
        loginSession := other.loginSession;
      }
      worldEntries := worldEntries + other.worldEntries;
      if other.failReason != [] {
        failReason := other.failReason;
      }
    }

    method MergeFromStream(input: CodedInput) returns (r: Outcome<LoginResult>)
      modifies this, input
      ensures r == StreamMerge(LoginCodec(), old(Value()), old(input.rest))
      ensures r.Done? || r.EndGroup? ==> Value() == r.message
    {
      hide ReadTag, ReadPayload, ApplyLogin;
      while true
        invariant StreamMerge(LoginCodec(), Value(), input.rest) == StreamMerge(LoginCodec(), old(Value()), old(input.rest))
        decreases |input.rest|
      {
        var tag := input.ReadTagValue();
        if tag.None? {
          return Malformed;
        }
        if tag.value == 0 {
          return Done(Value());
        }
        if tag.value % 8 == 4 {
          return EndGroup(Value());
        }
        r := MergeCase(tag.value, input);
        if !r.Done? {
          return;
        }
      }
    }

    method MergeCase(tag: nat, input: CodedInput) returns (r: Outcome<LoginResult>)
      modifies this, input
      ensures r == MergeField(LoginCodec(), old(Value()), tag, old(input.rest)).0
      ensures !r.EndGroup?
      ensures r.Done? ==> Value() == r.message && input.rest == MergeField(LoginCodec(), old(Value()), tag, old(input.rest)).1
    {
      hide ReadNumber, ReadBlob, WorldCodec;
      match tag {
        case 8 =>
          var v := input.ReadNumberValue();
          if v.None? {
            return Malformed;
          }
          ok := v.value != 0;
        case 16 =>
          var v := input.ReadNumberValue();
          if v.None? {
            return Malformed;
          }
          accountId := v.value;
        case 26 =>
          var s := input.ReadBlobValue();
          if s.None? {
            return Malformed;
          }
          loginSession := s.value;
        case 34 =>
          var s := input.ReadBlobValue();
          if s.None? {
            return Malformed;
          }
          var entry := new WorldEntryMessage(NO_WORLD);
          var nested := new CodedInput(s.value);
          var o := entry.MergeFromStream(nested);
          if !o.Done? {
            return if o.Unknown? then Unknown else Malformed;
          }
          worldEntries := worldEntries + [entry.Value()];
        case 42 =>
          var s := input.ReadBlobValue();
          if s.None? {
            return Malformed;
          }
          failReason := s.value;
        case _ =>
          return Unknown;
      }
      r := Done(Value());
    }
  }
}

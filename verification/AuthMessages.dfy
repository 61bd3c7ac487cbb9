/** AuthResult: the account server's internal twin of LoginResult. */
module AuthMessages {
  import opened Bytes
  import opened Wire
  import opened CommonMessages
  import opened LoginMessages

  datatype AuthResult = AuthResult(
    ok: bool, accountId: u64, loginSession: seq<byte>, worldEntries: seq<WorldEntryNode>, failReason: seq<byte>)

  const NO_AUTH := AuthResult(false, 0, [], [], [])

  function AuthFields(m: AuthResult): seq<Field> {
    When(m.ok, Number(8, BoolWord(m.ok)), When(m.accountId != 0, Number(16, m.accountId),
    When(m.loginSession != [], Blob(26, m.loginSession),
         EntryBlobs(m.worldEntries) + When(m.failReason != [], Blob(42, m.failReason), []))))
  }

  /** With every field set: the fields in the order of their numbers, one field 4 for each entry. */
  lemma AuthLayout(m: AuthResult)
    requires m.ok && m.accountId != 0 && m.loginSession != [] && m.failReason != []
    ensures AuthFields(m) == [NumberField(1, 1), NumberField(2, m.accountId), BytesField(3, m.loginSession)]
                             + EntryBlobs(m.worldEntries) + [BytesField(5, m.failReason)]
  {
    hide EntryBlobs;
  }

  function EncodeAuth(m: AuthResult): seq<byte> {
    EncodeFields(AuthFields(m))
  }

  function ApplyAuth(m: AuthResult, f: Field): Outcome<AuthResult> {
    match f
    case Number(8, v) => Done(m.(ok := v % TWO_TO_64 != 0))
    case Number(16, v) => Done(m.(accountId := v % TWO_TO_64))
    case Blob(26, b) => Done(m.(loginSession := b))
    case Blob(34, b) =>
      (match Nested(StreamMerge(WorldCodec(), NO_WORLD, b))
       case Done(e) => Done(m.(worldEntries := m.worldEntries + [e]))
       case Unknown => Unknown
       case _ => Malformed)
    case Blob(42, b) => Done(m.(failReason := b))
    case _ => Unknown
  }

  function AuthCodec(): Codec<AuthResult> {
    Codec({8, 16, 26, 34, 42}, ApplyAuth)
  }

  function MergeAuth(a: AuthResult, b: AuthResult): AuthResult {
    AuthResult(
      if b.ok then true else a.ok,
      if b.accountId != 0 then b.accountId else a.accountId,
      if b.loginSession != [] then b.loginSession else a.loginSession,
      a.worldEntries + b.worldEntries,
      if b.failReason != [] then b.failReason else a.failReason)
  }

  predicate AuthFits(m: AuthResult) {
    |m.loginSession| < TWO_TO_31 && |m.failReason| < TWO_TO_31 && EntriesFit(m.worldEntries)
  }

  function ToLogin(m: AuthResult): LoginResult {
    LoginResult(m.ok, m.accountId, m.loginSession, m.worldEntries, m.failReason)
  }

  /** Every byte string, well formed or not, is read alike by the server's message and the client's. */
  lemma AuthReadsAsLogin(a: AuthResult, s: seq<byte>)
    ensures StreamMerge(LoginCodec(), ToLogin(a), s) == MapOutcome(ToLogin, StreamMerge(AuthCodec(), a, s))
  {
    hide StreamMerge;
    TwinsAgree(ToLogin, AuthCodec(), LoginCodec(), a, s);
  }

  /** A server message arrives in the client with equal fields, and the other way round. */
  lemma AuthArrivesAsLogin(m: AuthResult)
    requires AuthFits(m)
    ensures StreamMerge(LoginCodec(), NO_LOGIN, EncodeAuth(m)) == Done(ToLogin(m))
    ensures StreamMerge(AuthCodec(), NO_AUTH, EncodeLogin(ToLogin(m))) == Done(m)
  {
    hide StreamMerge, EntriesFit, EntryBlobs, ApplyLogin, ApplyAuth;
    LoginRoundTrip(ToLogin(m));
    AuthReadsAsLogin(NO_AUTH, EncodeAuth(m));
  }

  lemma AuthConcatenationIsMerge(start: AuthResult, s: seq<byte>, a: AuthResult, b: AuthResult)
    requires StreamMerge(AuthCodec(), start, s) == Done(a) && AuthFits(b)
    ensures StreamMerge(AuthCodec(), start, s + EncodeAuth(b)) == Done(MergeAuth(a, b))
  {
    hide StreamMerge, EntriesFit, EntryBlobs, ApplyLogin, ApplyAuth;
    AuthReadsAsLogin(start, s);
    AuthReadsAsLogin(start, s + EncodeAuth(b));
    LoginConcatenationIsMerge(ToLogin(start), s, ToLogin(a), ToLogin(b));
  }

  lemma AuthSize(m: AuthResult)
    requires AuthFits(m)
    ensures |EncodeAuth(m)| == SizeIf(m.ok, Number(8, BoolWord(m.ok))) + SizeIf(m.accountId != 0, Number(16, m.accountId))
                             + SizeIf(m.loginSession != [], Blob(26, m.loginSession))
                             + |EncodeFields(EntryBlobs(m.worldEntries))| + SizeIf(m.failReason != [], Blob(42, m.failReason))
  {
    hide EntriesFit, EntryBlobs, EncodeFields, SizeIf;
    LoginSize(ToLogin(m));
  }

  class AuthResultMessage {
    var ok: bool
    var accountId: u64
    var loginSession: seq<byte>
    var worldEntries: seq<WorldEntryNode>
    var failReason: seq<byte>

    constructor (m: AuthResult)
      ensures Value() == m
    {
      ok, accountId, loginSession, worldEntries, failReason := m.ok, m.accountId, m.loginSession, m.worldEntries, m.failReason;
    }

    function Value(): AuthResult
      reads this
    {
      AuthResult(ok, accountId, loginSession, worldEntries, failReason)
    }

    method WriteTo(output: CodedOutput)
      requires AuthFits(Value())
      modifies output
      ensures output.bytes == old(output.bytes) + EncodeAuth(Value())
    {
      hide EncodeFields, When, EntriesFit;
      EncodeNothing();
      ghost var f5 := When(failReason != [], Blob(42, failReason), []);
      ghost var f4 := EntryBlobs(worldEntries) + f5;
      ghost var f3 := When(loginSession != [], Blob(26, loginSession), f4);
      ghost var f2 := When(accountId != 0, Number(16, accountId), f3);
      output.WriteNumberIf(ok, 8, BoolWord(ok), f2);
      output.WriteNumberIf(accountId != 0, 16, accountId, f3);
      output.WriteBlobIf(loginSession != [], 26, loginSession, f4);
      EncodeAppend(EntryBlobs(worldEntries), f5);
      ghost var before, entries, last := output.bytes, EncodeFields(EntryBlobs(worldEntries)), EncodeFields(f5);
      WriteEntries(worldEntries, output);
      assert before + entries + last == before + (entries + last);
      output.WriteBlobIf(failReason != [], 42, failReason, []);
    }

    method CalculateSize() returns (size: nat)
      requires AuthFits(Value())
      ensures size == |EncodeAuth(Value())|
    {
      hide EncodeAuth, EncodeFields, EntriesFit, SizeIf;
      AuthSize(Value());
      size := SizeIf(ok, Number(8, BoolWord(ok)));
      size := size + SizeIf(accountId != 0, Number(16, accountId));
      size := size + SizeIf(loginSession != [], Blob(26, loginSession));
      var n := SizeOfEntries(worldEntries);
      size := size + n;
      size := size + SizeIf(failReason != [], Blob(42, failReason));
    }

    method MergeFrom(other: AuthResultMessage)
      modifies this
      ensures Value() == MergeAuth(old(Value()), old(other.Value()))
    {
      if other.ok != false {
        ok := other.ok;
      }
      if other.accountId != 0 {
        accountId := other.accountId;
      }
      if other.loginSession != [] {
        loginSession := other.loginSession;
      }
      worldEntries := worldEntries + other.worldEntries;
      if other.failReason != [] {
        failReason := other.failReason;
      }
    }

    method MergeFromStream(input: CodedInput) returns (r: Outcome<AuthResult>)
      modifies this, input
      ensures r == StreamMerge(AuthCodec(), old(Value()), old(input.rest))
      ensures r.Done? || r.EndGroup? ==> Value() == r.message
    {
      hide ReadTag, ReadPayload, ApplyAuth;
      while true
        invariant StreamMerge(AuthCodec(), Value(), input.rest) == StreamMerge(AuthCodec(), old(Value()), old(input.rest))
        decreases |input.rest|
      {
        var tag := input.ReadTagValue();
        if tag.None? {
          return Malformed;
        }
        if tag.value == 0 {
          return Done(Value());
        }
        if tag.value % 8 == 4 {
          return EndGroup(Value());
        }
        r := MergeCase(tag.value, input);
        if !r.Done? {
          return;
        }
      }
    }

    method MergeCase(tag: nat, input: CodedInput) returns (r: Outcome<AuthResult>)
      modifies this, input
      ensures r == MergeField(AuthCodec(), old(Value()), tag, old(input.rest)).0
      ensures !r.EndGroup?
      ensures r.Done? ==> Value() == r.message && input.rest == MergeField(AuthCodec(), old(Value()), tag, old(input.rest)).1
    {
      hide ReadNumber, ReadBlob, WorldCodec;
      match tag {
        case 8 =>
          var v := input.ReadNumberValue();
          if v.None? {
            return Malformed;
          }
          ok := v.value != 0;
        case 16 =>
          var v := input.ReadNumberValue();
          if v.None? {
            return Malformed;
          }
          accountId := v.value;
        case 26 =>
          var s := input.ReadBlobValue();
          if s.None? {
            return Malformed;
          }
          loginSession := s.value;
        case 34 =>
          var s := input.ReadBlobValue();
          if s.None? {
            return Malformed;
          }
          var entry := new WorldEntryMessage(NO_WORLD);
          var nested := new CodedInput(s.value);
          var o := entry.MergeFromStream(nested);
          if !o.Done? {
            return if o.Unknown? then Unknown else Malformed;
          }
          worldEntries := worldEntries + [entry.Value()];
        case 42 =>
          var s := input.ReadBlobValue();
          if s.None? {
            return Malformed;
          }
          failReason := s.value;
        case _ =>
          return Unknown;
      }
      r := Done(Value());
    }
  }
}

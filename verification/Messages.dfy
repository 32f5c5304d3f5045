/** The schemas of the messages two devices and their relay exchange. */
module Messages {
  import opened Wrappers
  import opened Schema
  import opened SchemaTheorems

  function Text(max: nat): Schema { StrOf(0, max, (s: string) => true) }

  function AlphabetChar(c: char): bool { '0' <= c <= '9' || ('A' <= c <= 'Z' && c != 'I' && c != 'L' && c != 'O' && c != 'U') }

  /** HD-XXXX-XXXX */
  function DeviceId(): Schema {
    StrOf(0, 12, (s: string) =>
      |s| == 12 && s[..3] == "HD-" && s[7] == '-' && forall i :: 3 <= i < 12 && i != 7 ==> AlphabetChar(s[i]))
  }

  function Bytes(n: nat): Schema { B64(Some(n), None) }

  const MAX_SAFE_INTEGER: real := 9007199254740991.0

  function TypeIs(name: string): Field { Field("type", Literal(Str(name))) }

  const VERSIONS: Schema := IntIn(1.0, 1000.0)
  const TIMES: Schema := IntIn(0.0, MAX_SAFE_INTEGER)

  function HelloFields(): seq<Field> {
    [TypeIs("hello"), Field("v", VERSIONS), Field("hostId", DeviceId()), Field("viewerId", DeviceId()),
     Field("viewerKey", Bytes(32)), Field("viewerName", Text(64)), Field("nonce", Bytes(32)), Field("time", TIMES)]
  }

  function HelloProofs(): seq<Field> {
    [Field("auth", OneOf(["code", "grant", "paired", "account"])), Field("grantId", Optional(Bytes(16))),
     Field("share", Optional(Bytes(65))), Field("dh", Optional(Bytes(32))), Field("signature", Optional(Bytes(64)))]
  }

  function HelloMessage(): Schema { Shape(HelloFields() + HelloProofs()) }

  function ChallengeHost(): seq<Field> {
    [TypeIs("challenge"), Field("hostKey", Bytes(32)), Field("hostName", Text(64)), Field("nonce", Bytes(32))]
  }

  function ChallengeProofs(): seq<Field> {
    [Field("share", Optional(Bytes(65))), Field("dh", Optional(Bytes(32))), Field("confirm", Bytes(32)),
     Field("signature", Bytes(64))]
  }

  function ChallengeMessage(): Schema { Shape(ChallengeHost() + ChallengeProofs()) }

  function ConfirmMessage(): Schema {
    Shape([TypeIs("confirm"), Field("confirm", Bytes(32)), Field("signature", Bytes(64))])
  }

  const HANDSHAKE_ERRORS: seq<string> :=
    ["unsupported-version", "unknown-device", "rate-limited", "bad-auth", "grant-invalid", "not-paired", "code-disabled",
     "not-authorised", "replay", "clock-skew", "busy", "protocol", "host-disabled"]

  function ErrorMessage(): Schema {
    Shape([TypeIs("error"), Field("code", OneOf(HANDSHAKE_ERRORS)), Field("retryAfterMs", Optional(IntIn(0.0, 86400000.0)))])
  }

  function SealedMessage(): Schema { Shape([TypeIs("sealed"), Field("data", B64(None, Some(4194304)))]) }

  function SignalingVariants(): seq<Field> {
    [Field("hello", HelloMessage()), Field("challenge", ChallengeMessage()), Field("confirm", ConfirmMessage()),
     Field("error", ErrorMessage()), Field("sealed", SealedMessage())]
  }

  function SignalingMessage(): Schema { Tagged("type", SignalingVariants()) }

  /** A relayed message, as the client sends it to the relay. */
  function FrameMessage(): Schema {
    Shape([TypeIs("frame"), Field("sessionId", StrOf(8, 64, (s: string) => true)), Field("payload", SignalingMessage())])
  }

  predicate Sound(fields: seq<Field>) {
    Distinct(fields) && forall i :: 0 <= i < |fields| ==> WellFormed(fields[i].schema)
  }

  lemma HelloFieldsDistinct()
    ensures Distinct(HelloFields())
  {
    hide Bytes, Text, DeviceId, TypeIs, VERSIONS, TIMES;
    TypeName("hello");
  }

  lemma TypeName(name: string) ensures TypeIs(name).name == "type" {}

  lemma HelloFieldsSound()
    ensures Sound(HelloFields())
  {
    HelloFieldsDistinct();
    hide Distinct, Check;
  }

  lemma HelloProofsSound() ensures Sound(HelloProofs()) {}

  predicate Free(fields: seq<Field>, name: string) { forall i :: 0 <= i < |fields| ==> fields[i].name != name }

  lemma AuthIsFree() ensures Free(HelloFields(), "auth") {}
  lemma GrantIsFree() ensures Free(HelloFields(), "grantId") {}
  lemma ShareIsFree() ensures Free(HelloFields(), "share") {}
  lemma DhIsFree() ensures Free(HelloFields(), "dh") {}
  lemma SignatureIsFree() ensures Free(HelloFields(), "signature") {}

  lemma HelloPartsDiffer()
    ensures forall j :: 0 <= j < |HelloProofs()| ==> Free(HelloFields(), HelloProofs()[j].name)
  {
    hide HelloFields, Free;
    AuthIsFree();
    GrantIsFree();
    ShareIsFree();
    DhIsFree();
    SignatureIsFree();
  }

  lemma HelloWellFormed()
    ensures WellFormed(HelloMessage())
  {
    hide HelloFields, HelloProofs, Sound, Free, WellFormed;
    HelloFieldsSound();
    HelloProofsSound();
    HelloPartsDiffer();
    SoundParts(HelloFields(), HelloProofs());
  }

  lemma PartsWellFormed(name: string, n: nat)
    ensures WellFormed(Bytes(n)) && WellFormed(Optional(Bytes(n))) && WellFormed(Text(n)) && WellFormed(TypeIs(name).schema)
  {
  }

  lemma ChallengeHostSound()
    ensures Sound(ChallengeHost())
  {
    hide Check, TypeIs, Bytes, Text, WellFormed;
    TypeName("challenge");
    PartsWellFormed("challenge", 32);
    PartsWellFormed("challenge", 64);
  }

  lemma ChallengeProofsSound()
    ensures Sound(ChallengeProofs())
  {
    hide Check, Bytes, WellFormed;
    PartsWellFormed("challenge", 65);
    PartsWellFormed("challenge", 32);
    PartsWellFormed("challenge", 64);
  }

  lemma ChallengePartsDiffer()
    ensures forall j :: 0 <= j < |ChallengeProofs()| ==> Free(ChallengeHost(), ChallengeProofs()[j].name)
  {
    hide Bytes, Text, TypeIs;
    TypeName("challenge");
  }

  /** Two parts of an object's fields. */
  lemma SoundParts(a: seq<Field>, b: seq<Field>)
    requires Sound(a) && Sound(b) && forall j :: 0 <= j < |b| ==> Free(a, b[j].name)
    ensures WellFormed(Shape(a + b))
  {
    forall i, j | 0 <= i < |a| && 0 <= j < |b| ensures a[i].name != b[j].name {
      assert Free(a, b[j].name);
    }
  }

  lemma ChallengeWellFormed()
    ensures WellFormed(ChallengeMessage())
  {
    hide ChallengeHost, ChallengeProofs, Sound, Free, WellFormed;
    ChallengeHostSound();
    ChallengeProofsSound();
    ChallengePartsDiffer();
    SoundParts(ChallengeHost(), ChallengeProofs());
  }

  lemma ConfirmWellFormed() ensures WellFormed(ConfirmMessage()) {}
  lemma ErrorWellFormed()
    ensures WellFormed(ErrorMessage())
  {
    hide HANDSHAKE_ERRORS, Check;
  }

  lemma SealedWellFormed() ensures WellFormed(SealedMessage()) {}

  lemma TagsKept()
    ensures KeepsTag(Field("hello", HelloMessage()), "type") && KeepsTag(Field("challenge", ChallengeMessage()), "type")
    ensures KeepsTag(Field("confirm", ConfirmMessage()), "type") && KeepsTag(Field("error", ErrorMessage()), "type")
    ensures KeepsTag(Field("sealed", SealedMessage()), "type")
  {
    assert IsLiteral(HelloMessage().fields[0], "type", Str("hello"));
    assert IsLiteral(ChallengeMessage().fields[0], "type", Str("challenge"));
    assert IsLiteral(ConfirmMessage().fields[0], "type", Str("confirm"));
    assert IsLiteral(ErrorMessage().fields[0], "type", Str("error"));
    assert IsLiteral(SealedMessage().fields[0], "type", Str("sealed"));
  }

  lemma VariantsDistinct()
    ensures Distinct(SignalingVariants())
  {
    hide HelloMessage, ChallengeMessage, ConfirmMessage, ErrorMessage, SealedMessage;
  }

  lemma VariantsKeepTags()
    ensures forall i :: 0 <= i < |SignalingVariants()| ==>
              WellFormed(SignalingVariants()[i].schema) && KeepsTag(SignalingVariants()[i], "type")
  {
    hide HelloMessage, ChallengeMessage, ConfirmMessage, ErrorMessage, SealedMessage, KeepsTag, WellFormed;
    HelloWellFormed();
    ChallengeWellFormed();
    ConfirmWellFormed();
    ErrorWellFormed();
    SealedWellFormed();
    TagsKept();
  }

  lemma SignalingWellFormed()
    ensures WellFormed(SignalingMessage())
  {
    hide SignalingVariants, KeepsTag, Distinct;
    VariantsDistinct();
    VariantsKeepTags();
  }

  lemma FrameKeepsTag()
    ensures KeepsTag(Field("frame", FrameMessage()), "type")
  {
    hide SignalingMessage, Check;
    assert IsLiteral(FrameMessage().fields[0], "type", Str("frame"));
  }

  lemma FrameFieldsDistinct()
    ensures FrameMessage().Shape? && Distinct(FrameMessage().fields)
  {
    hide SignalingMessage, Check;
  }

  lemma FrameFieldsWellFormed()
    ensures FrameMessage().Shape?
    ensures forall i :: 0 <= i < |FrameMessage().fields| ==> WellFormed(FrameMessage().fields[i].schema)
  {
    hide SignalingMessage, Check;
    SignalingWellFormed();
  }

  lemma FrameWellFormed()
    ensures WellFormed(FrameMessage()) && KeepsTag(Field("frame", FrameMessage()), "type")
  {
    hide FrameMessage, Distinct, KeepsTag;
    FrameFieldsDistinct();
    FrameFieldsWellFormed();
    FrameKeepsTag();
  }

  lemma FrameFields()
    ensures var fields := FrameMessage().fields;
            && FrameMessage().Shape? && |fields| == 3 && fields[0] == TypeIs("frame")
            && fields[1].name == "sessionId" && fields[2] == Field("payload", SignalingMessage())
    ensures forall v :: Check(FrameMessage().fields[1].schema, v).Some? <==> v.Str? && 8 <= |v.s| <= 64
    ensures forall v :: Check(FrameMessage().fields[0].schema, v).Some? <==> v == Str("frame")
    ensures forall v :: Check(FrameMessage().fields[1].schema, v).Some? ==> Check(FrameMessage().fields[1].schema, v) == Some(v)
  {
    hide SignalingMessage;
  }

  /** A device may check a relayed message as if it had come directly. The relay accepts a frame exactly
      when its session id has a proper length and the device would accept its payload; what it then
      hands on as the payload is what the device's own check makes of the payload that was sent, and the
      device's check leaves it as it is. */
  lemma RelayedPayloadIsTheSame(members: seq<Member>)
    ensures var sid, payload := Lookup(members, "sessionId"), Lookup(members, "payload");
            var relayed := Check(FrameMessage(), Obj(members));
            && (relayed.Some? <==> Lookup(members, "type") == Str("frame") && sid.Str? && 8 <= |sid.s| <= 64
                                   && Check(SignalingMessage(), payload).Some?)
            && (relayed.Some? ==>
                  var out := relayed.value;
                  && out.Obj? && Lookup(out.members, "sessionId") == sid
                  && Some(Lookup(out.members, "payload")) == Check(SignalingMessage(), payload)
                                                          == Check(SignalingMessage(), Lookup(out.members, "payload")))
    ensures WellFormed(SignalingMessage())
    ensures Check(FrameMessage(), Obj(members)).Some? ==>
              Size(Lookup(Check(FrameMessage(), Obj(members)).value.members, "payload")) <= Bound(SignalingMessage())
  {
    hide SignalingMessage, FrameMessage, Check, TypeIs, CheckFields, KeepsTag;
    FrameFields();
    FrameWellFormed();
    SignalingWellFormed();
    FrameChecks(members);
    FieldsChecked(FrameMessage(), 0, members);
    hide WellFormed;
    if CheckFields(FrameMessage(), 0, members).Some? {
      FieldThrough(FrameMessage(), 0, members, 1);
      FieldThrough(FrameMessage(), 0, members, 2);
      CheckedOnTheWay(SignalingMessage(), Lookup(members, "payload"));
      Bounded(SignalingMessage(), Lookup(members, "payload"));
    }
  }

  lemma FrameChecks(members: seq<Member>)
    ensures FrameMessage().Shape?
    ensures Check(FrameMessage(), Obj(members)) ==
            match CheckFields(FrameMessage(), 0, members) case None => None case Some(out) => Some(Obj(out))
    ensures FrameMessage().fields[0].name == "type" && Distinct(FrameMessage().fields)
  {
    hide SignalingMessage;
  }
}

/** Authenticated encryption of everything sent after the handshake. */
module Channel {
  import opened Wrappers
  import opened Bytes

  datatype Role = HostRole | ViewerRole

  const MAX_COUNTER: nat := 0x1_0000_0000_0000
  const COUNTER_BYTES: nat := 8
  const TAG_BYTES: nat := 16

  // ---- specification ---------------------------------------------------------------------------

  function Direction(from: Role): string { if from.HostRole? then "host->viewer" else "viewer->host" }

  function Other(role: Role): Role { if role.HostRole? then ViewerRole else HostRole }

  function KeyInfo(name: string, from: Role): string {
    "hopdesk/channel/v1" + ['\0'] + name + ['\0'] + Direction(from)
  }

  function ChannelKey(root: Data, name: string, from: Role): Data {
    Block(Kdf(root, [], Utf8(KeyInfo(name, from))), 0, 32)
  }

  /** Four zero bytes and the counter. */
  function NonceFor(counter: nat): Data { Digits(0, 4) + BigIntToBytes(counter, 8) }

  /** Eight literal bytes, the most significant first. */
  function ReadCounter(header: Data): Option<nat>
    requires |header| == COUNTER_BYTES
  {
    var n := FromDigits(Reverse(header));
    if header == BigIntToBytes(n, 8) && n < Pow256(8) then Some(n) else None
  }

  function FromDigits(s: Data): nat {
    if s == [] then 0 else (if s[0].Lit? then s[0].b else 0) + 256 * FromDigits(s[1..])
  }

  /** The plaintext under a ciphertext and its tag, if they were made with these inputs. */
  function Decrypt(key: Data, nonce: Data, aad: Data, body: Data): Option<Data> {
    if body == [] || !body[0].Part? || !body[0].of.Sealed? then None
    else
      var t := body[0].of;
      if (t.key, t.nonce, t.aad) == (key, nonce, aad) && body == Encrypt(key, nonce, aad, t.plain) then Some(t.plain) else None
  }

  function Encrypt(key: Data, nonce: Data, aad: Data, plain: Data): Data {
    Block(Sealed(key, nonce, aad, plain), 0, |plain| + TAG_BYTES)
  }

  datatype Channel = Channel(sendKey: Data, recvKey: Data, prefix: Data, sent: nat, highest: nat)

  function NewChannel(root: Data, name: string, role: Role): Channel {
    Channel(ChannelKey(root, name, role), ChannelKey(root, name, Other(role)), Utf8(name), 0, 0)
  }

  function FrameOf(ch: Channel, counter: nat, plain: Data): Data {
    var header := BigIntToBytes(counter, 8);
    header + Encrypt(ch.sendKey, NonceFor(counter), ch.prefix + header, plain)
  }

  function Seal(ch: Channel, plain: Data): (Channel, Option<Data>) {
    if ch.sent + 1 >= MAX_COUNTER then (ch, None)
    else (ch.(sent := ch.sent + 1), Some(FrameOf(ch, ch.sent + 1, plain)))
  }

  function Open(ch: Channel, frame: Data): (Channel, Option<Data>) {
    if |frame| < COUNTER_BYTES + TAG_BYTES then (ch, None)
    else
      var header := frame[..COUNTER_BYTES];
      var counter := ReadCounter(header);
      if counter.None? || counter.value == 0 || counter.value >= MAX_COUNTER || counter.value <= ch.highest then (ch, None)
      else
        match Decrypt(ch.recvKey, NonceFor(counter.value), ch.prefix + header, frame[COUNTER_BYTES..])
        case None => (ch, None)
        case Some(plain) => (ch.(highest := counter.value), Some(plain))
  }

  class SealedChannel {
    const sendKey: Data
    const recvKey: Data
    const prefix: Data
    var sent: nat
    var highestReceived: nat

    ghost function View(): Channel
      reads this
    {
      Channel(sendKey, recvKey, prefix, sent, highestReceived)
    }

    constructor (root: Data, name: string, role: Role)
      requires |root| == 32 && 0 < |name| <= 64
      ensures View() == NewChannel(root, name, role)
    {
      sendKey, recvKey, prefix := ChannelKey(root, name, role), ChannelKey(root, name, Other(role)), Utf8(name);
      sent, highestReceived := 0, 0;
    }

    /** None where the source's constructor throws. */
    static method New(root: Data, name: string, role: Role) returns (r: Option<SealedChannel>)
      ensures r.Some? <==> |root| == 32 && 0 < |name| <= 64
      ensures r.Some? ==> fresh(r.value) && r.value.View() == NewChannel(root, name, role)
    {
      if |root| != 32 || name == "" || |name| > 64 {
        return None;
      }
      var ch := new SealedChannel(root, name, role);
      r := Some(ch);
    }

    method SealData(plain: Data) returns (frame: Option<Data>)
      modifies this
      ensures (View(), frame) == Seal(old(View()), plain)
    {
      if sent + 1 >= MAX_COUNTER {
        return None;
      }
      sent := sent + 1;
      var header := BigIntToBytes(sent, 8);
      frame := Some(header + Encrypt(sendKey, NonceFor(sent), prefix + header, plain));
    }

    method OpenFrame(frame: Data) returns (plain: Option<Data>)
      modifies this
      ensures (View(), plain) == Open(old(View()), frame)
    {
      if |frame| < COUNTER_BYTES + TAG_BYTES {
        return None;
      }
      var header := frame[..COUNTER_BYTES];
      var counter := ReadCounter(header);
      if counter.None? || counter.value == 0 || counter.value >= MAX_COUNTER {
        return None;
      }
      if counter.value <= highestReceived {
        return None;
      }
      plain := Decrypt(recvKey, NonceFor(counter.value), prefix + header, frame[COUNTER_BYTES..]);
      if plain.Some? {
        highestReceived := counter.value;
      }
    }
  }
}

/** Answering for this computer, and finding the others. */
module Discovery {
  import opened Wrappers
  import opened Mdns

  const HOPDESK: Text := [95, 104, 111, 112, 100, 101, 115, 107]    // _hopdesk
  const TCP: Text := [95, 116, 99, 112]                             // _tcp
  const LOCAL: Text := [108, 111, 99, 97, 108]                      // local
  const HOPDESK_SERVICE: Text := HOPDESK + [DOT] + (TCP + [DOT] + LOCAL)
  const ID: Text := [105, 100]
  const NAME: Text := [110, 97, 109, 101]
  const VERSION: Text := [118]
  const ONE: Text := [49]

  datatype Host = Host(deviceId: Text, name: Text, address: Text, port: Word)

  function Lower(s: Text): (r: Text)
    ensures |r| == |s|
  {
    seq(|s|, i requires 0 <= i < |s| => if 65 <= s[i] <= 90 then s[i] + 32 else s[i])
  }

  function DecimalByte(n: Byte): Text {
    if n < 10 then [48 + n] else if n < 100 then [48 + n / 10, 48 + n % 10] else [48 + n / 100, 48 + n / 10 % 10, 48 + n % 10]
  }

  function Dotted(data: seq<Byte>): Text {
    if data == [] then [] else if |data| == 1 then DecimalByte(data[0]) else DecimalByte(data[0]) + [DOT] + Dotted(data[1..])
  }

  // ---- TXT data -----------------------------------------------------------------------------------

  function ParseTxt(data: seq<Byte>, at: nat, out: map<Text, Text>): map<Text, Text>
    decreases |data| - at
  {
    if at >= |data| then out
    else
      var to := at + 1 + data[at];
      var entry := data[at + 1..if to <= |data| then to else |data|];
      var eq := IndexOf(entry, EQUALS);
      ParseTxt(data, to, if 0 < eq < |entry| then out[entry[..eq] := entry[eq + 1..]] else out)
  }

  method ParseTxtOf(data: seq<Byte>) returns (out: map<Text, Text>)
    ensures out == ParseTxt(data, 0, map[])
  {
    hide IndexOf;
    out := map[];
    var at := 0;
    while at < |data|
      invariant ParseTxt(data, at, out) == ParseTxt(data, 0, map[])
      decreases |data| - at
    {
      var to := at + 1 + data[at];
      var entry := data[at + 1..if to <= |data| then to else |data|];
      at := to;
      var eq := IndexOf(entry, EQUALS);
      if 0 < eq < |entry| {
        out := out[entry[..eq] := entry[eq + 1..]];
      }
    }
  }

  // ---- collecting ------------------------------------------------------------------------------------

  function Addresses(records: seq<ParsedRecord>, out: map<Text, Text>): map<Text, Text>
    decreases |records|
  {
    if records == [] then out
    else
      var r := records[0];
      Addresses(records[1..], if r.kind == TYPE_A && |r.data| == 4 then out[r.name := Dotted(r.data)] else out)
  }

  function FirstTxt(records: seq<ParsedRecord>, name: Text): Option<seq<Byte>> {
    if records == [] then None
    else if records[0].kind == TYPE_TXT && records[0].name == name then Some(records[0].data)
    else FirstTxt(records[1..], name)
  }

  /** A map in insertion order: a host that is there already keeps its place. */
  function Put(hosts: seq<Host>, h: Host): seq<Host> {
    if hosts == [] then [h]
    else if hosts[0].deviceId == h.deviceId then [h] + hosts[1..]
    else [hosts[0]] + Put(hosts[1..], h)
  }

  function Get(m: map<Text, Text>, key: Text, otherwise: Text): Text { if key in m then m[key] else otherwise }

  /** What one SRV record says of a host: none where the source throws, and no host where something is
      missing. */
  function HostOf(r: ParsedRecord, records: seq<ParsedRecord>, addresses: map<Text, Text>): Option<Option<Host>> {
    match (ReadWord(r.data, 4), ReadName(r.data, 6))
    case (Some(port), Got(target, _)) =>
      var txt := FirstTxt(records, r.name);
      var fields := if txt.Some? then ParseTxt(txt.value, 0, map[]) else map[];
      var deviceId := Get(fields, ID, Split(r.name)[0]);
      var address := Get(addresses, target, []);
      if deviceId == [] || address == [] || port == 0 then Some(None)
      else Some(Some(Host(deviceId, Get(fields, NAME, deviceId), address, port)))
    case _ => None
  }

  function HostsFrom(todo: seq<ParsedRecord>, records: seq<ParsedRecord>, addresses: map<Text, Text>, hosts: seq<Host>)
    : Option<seq<Host>>
    decreases |todo|
  {
    if todo == [] then Some(hosts)
    else if todo[0].kind != TYPE_SRV then HostsFrom(todo[1..], records, addresses, hosts)
    else
      match HostOf(todo[0], records, addresses)
      case None => None
      case Some(None) => HostsFrom(todo[1..], records, addresses, hosts)
      case Some(Some(h)) => HostsFrom(todo[1..], records, addresses, Put(hosts, h))
  }

  function Collect(records: seq<ParsedRecord>): Option<seq<Host>> {
    HostsFrom(records, records, Addresses(records, map[]), [])
  }

  method CollectHosts(records: seq<ParsedRecord>) returns (r: Option<seq<Host>>)
    ensures r == Collect(records)
  {
    var addresses: map<Text, Text> := map[];
    for i := 0 to |records|
      invariant Addresses(records[i..], addresses) == Addresses(records, map[])
    {
      assert records[i..][1..] == records[i + 1..];
      if records[i].kind == TYPE_A && |records[i].data| == 4 {
        addresses := addresses[records[i].name := Dotted(records[i].data)];
      }
    }
    assert records[|records|..] == [];
    var hosts: seq<Host> := [];
    for i := 0 to |records|
      invariant HostsFrom(records[i..], records, addresses, hosts) == Collect(records)
    {
      assert records[i..][1..] == records[i + 1..];
      if records[i].kind != TYPE_SRV {
        continue;
      }
      var h := HostOf(records[i], records, addresses);
      if h.None? {
        return None;
      }
      if h.value.Some? {
        hosts := Put(hosts, h.value.value);
      }
    }
    r := Some(hosts);
  }

  // ---- announcing ------------------------------------------------------------------------------------

  datatype Announcer = Announcer(deviceId: Text, name: Text, port: Word, address: seq<Byte>)

  function Instance(a: Announcer): Text { a.deviceId + [DOT] + HOPDESK_SERVICE }
  function Hostname(a: Announcer): Text { Lower(a.deviceId) + [DOT] + LOCAL }

  /** The PTR, SRV, TXT and A records of this computer; none where one of them cannot be written. */
  function Records(a: Announcer): Option<(Record, Record, Record, Record)> {
    match (EncodeName(Instance(a)), SrvData(0, 0, a.port, Hostname(a)),
           TxtData([Pair(ID, a.deviceId), Pair(NAME, a.name), Pair(VERSION, ONE)]))
    case (Some(ptr), Some(srv), Some(txt)) =>
      Some((Record(HOPDESK_SERVICE, TYPE_PTR, 120, ptr, false), Record(Instance(a), TYPE_SRV, 120, srv, true),
            Record(Instance(a), TYPE_TXT, 120, txt, true), Record(Hostname(a), TYPE_A, 120, a.address, true)))
    case _ => None
  }

  predicate Wanted(a: Announcer, questions: seq<Question>) {
    exists i :: 0 <= i < |questions| &&
      var q := questions[i];
      || (q.name == HOPDESK_SERVICE && (q.kind == TYPE_PTR || q.kind == TYPE_ANY))
      || (q.name == Instance(a) && (q.kind == TYPE_SRV || q.kind == TYPE_TXT || q.kind == TYPE_ANY))
      || (q.name == Hostname(a) && (q.kind == TYPE_A || q.kind == TYPE_ANY))
  }

  /** The reply to a packet, if it is a question about this computer. */
  function Answer(a: Announcer, packet: seq<Byte>): Option<seq<Byte>> {
    match Parse(packet)
    case Got(m, _) =>
      if m.response || !Wanted(a, m.questions) then None
      else
        (match Records(a)
         case None => None
         case Some((ptr, srv, txt, addr)) => Message(0, true, [], [ptr], [srv, txt, addr]))
    case _ => None
  }

  /** What a computer looking for others sends. */
  function Query(): Option<seq<Byte>> {
    Message(0, false, [Question(HOPDESK_SERVICE, TYPE_PTR), Question(HOPDESK_SERVICE, TYPE_ANY)], [], [])
  }
}

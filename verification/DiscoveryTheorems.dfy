/** A query is answered by every announcer, and its answer says who it is. */
module DiscoveryTheorems {
  import opened Wrappers
  import opened Mdns
  import opened Discovery
  import opened MdnsTheorems

  predicate NoDot(s: Text) { forall i :: 0 <= i < |s| ==> s[i] != DOT }

  lemma {:induction false} SplitCons(first: Text, rest: Text)
    requires NoDot(first)
    ensures Split(first + [DOT] + rest) == [first] + Split(rest)
    ensures Split(first) == [first]
  {
    var all := first + [DOT] + rest;
    assert IndexOf(first, DOT) == |first|;
    IndexAfter(first, rest, DOT);
    assert all[..|first|] == first && all[|first| + 1..] == rest;
  }

  lemma Constants()
    ensures NoDot(HOPDESK) && NoDot(TCP) && NoDot(LOCAL) && |HOPDESK| == 8 && |TCP| == 4 && |LOCAL| == 5
  {
  }

  lemma ServiceLabels()
    ensures Split(HOPDESK_SERVICE) == [HOPDESK, TCP, LOCAL] && Proper(HOPDESK_SERVICE)
  {
    hide Split, HOPDESK, TCP, LOCAL, NoDot;
    Constants();
    SplitCons(HOPDESK, TCP + [DOT] + LOCAL);
    SplitCons(TCP, LOCAL);
    SplitCons(LOCAL, []);
  }

  /** A Device ID that is one label, a name that fits a TXT entry, an IPv4 address and a real port. */
  predicate Announces(a: Announcer) {
    0 < |a.deviceId| <= 63 && NoDot(a.deviceId) && |a.name| <= 250 && |a.address| == 4 && a.port != 0
  }

  lemma NamesProper(a: Announcer)
    requires Announces(a)
    ensures Proper(Instance(a)) && Proper(Hostname(a))
  {
    hide Split, HOPDESK, TCP, LOCAL, HOPDESK_SERVICE, NoDot, Lower;
    Constants();
    ServiceLabels();
    LowerNoDot(a.deviceId);
    SplitCons(a.deviceId, HOPDESK_SERVICE);
    SplitCons(Lower(a.deviceId), LOCAL);
    SplitCons(LOCAL, []);
  }

  lemma LowerNoDot(s: Text)
    requires NoDot(s)
    ensures NoDot(Lower(s))
  {
  }

  function Pairs(a: Announcer): seq<Pair> { [Pair(ID, a.deviceId), Pair(NAME, a.name), Pair(VERSION, ONE)] }

  lemma PlainKeys(a: Announcer)
    ensures forall i :: 0 <= i < 3 ==> Plain(Pairs(a)[i])
    ensures ID != NAME && ID != VERSION && NAME != VERSION
  {
    assert IndexOf(ID, EQUALS) == 2 by { assert ID[1..][1..] == []; }
    assert IndexOf(NAME, EQUALS) == 4 by { assert NAME[1..][1..][1..][1..] == []; }
    assert IndexOf(VERSION, EQUALS) == 1 by { assert VERSION[1..] == []; }
    assert |ID| == 2 && |NAME| == 4 && |VERSION| == 1;
  }

  lemma TxtFields(a: Announcer)
    requires Announces(a)
    ensures TxtData(Pairs(a)).Some?
    ensures var fields := ParseTxt(TxtData(Pairs(a)).value, 0, map[]);
            Get(fields, ID, []) == a.deviceId && ID in fields && Get(fields, NAME, []) == a.name && NAME in fields
  {
    PlainKeys(a);
    TxtWrites(a);
    TxtRoundTrip(Pairs(a));
    hide ParseTxt, TxtData, Plain;
    var ps := Pairs(a);
    assert ps[1..] == [ps[1], ps[2]] && ps[1..][1..] == [ps[2]] && ps[1..][1..][1..] == [];
    var m1 := map[ID := a.deviceId];
    assert Fields(ps, map[]) == Fields(ps[1..], m1) == Fields(ps[1..][1..], m1[NAME := a.name])
        == Fields([], m1[NAME := a.name][VERSION := ONE]);
  }

  lemma TxtWrites(a: Announcer)
    requires Announces(a)
    ensures TxtData(Pairs(a)).Some?
  {
    var ps := Pairs(a);
    assert ps[1..] == [ps[1], ps[2]] && ps[1..][1..] == [ps[2]] && ps[1..][1..][1..] == [];
    assert TxtEntries([ps[2]]).Some? by { assert [ps[2]][1..] == []; }
    assert TxtEntries(ps[1..]).Some?;
  }

  // ---- sizes ---------------------------------------------------------------------------------------------

  lemma {:induction false} EncodedLength(parts: seq<Text>)
    requires parts != [] && Labels(parts) && EncodeLabels(parts).Some?
    ensures |EncodeLabels(parts).value| == |Join(parts)| + 2
  {
    if |parts| > 1 { EncodedLength(parts[1..]); }
  }

  lemma NameLength(name: Text)
    requires Proper(name)
    ensures EncodeName(name).Some? && |EncodeName(name).value| == |name| + 2
  {
    ProperEncodes(name);
    EncodedLength(Split(name));
    JoinSplit(name);
  }

  lemma {:induction false} TxtLength(pairs: seq<Pair>)
    requires TxtEntries(pairs).Some?
    ensures |TxtEntries(pairs).value| <= 256 * |pairs|
  {
    if pairs != [] { TxtLength(pairs[1..]); }
  }

  // ---- question and answer ---------------------------------------------------------------------------------

  lemma QueryReads()
    ensures Query().Some?
    ensures Parse(Query().value) ==
      Got(ParsedMessage(false, [Question(HOPDESK_SERVICE, TYPE_PTR), Question(HOPDESK_SERVICE, TYPE_ANY)], []), |Query().value|)
  {
    hide HOPDESK_SERVICE, Parse, EncodeName, Header, Proper;
    ServiceLabels();
    NameLength(HOPDESK_SERVICE);
    var qs := [Question(HOPDESK_SERVICE, TYPE_PTR), Question(HOPDESK_SERVICE, TYPE_ANY)];
    assert qs[1..] == [qs[1]] && qs[1..][1..] == [];
    assert EncodeQuestions(qs[1..]).Some? && EncodeQuestions(qs).Some?;
    MessageRoundTrip(0, false, qs, [], []);
    assert AllParsed([]) + AllParsed([]) == [];
  }

  /** The four records of an announcer can be written, and say what they should. */
  lemma RecordsWrite(a: Announcer)
    requires Announces(a)
    ensures Records(a).Some?
    ensures var (ptr, srv, txt, addr) := Records(a).value;
            && Lasting([ptr]) && Lasting([srv, txt, addr])
            && EncodeRecords([ptr]).Some? && EncodeRecords([srv, txt, addr]).Some?
            && ProperRecords([ptr]) && ProperRecords([srv, txt, addr])
            && SrvData(0, 0, a.port, Hostname(a)) == Some(srv.data) && TxtData(Pairs(a)) == Some(txt.data)
            && (ptr.kind, srv.kind, txt.kind, addr.kind) == (TYPE_PTR, TYPE_SRV, TYPE_TXT, TYPE_A)
            && srv.name == txt.name == Instance(a) && addr.name == Hostname(a) && addr.data == a.address
  {
    hide EncodeName, TxtData, HOPDESK_SERVICE, ID, NAME, VERSION, ONE, Proper, Hostname, Instance, WriteLong, WriteWord;
    ServiceLabels();
    NamesProper(a);
    NameSizes(a);
    NameLength(HOPDESK_SERVICE);
    NameLength(Instance(a));
    NameLength(Hostname(a));
    TxtFields(a);
    TxtSize(a);
    var (ptr, srv, txt, addr) := Records(a).value;
    assert EncodeRecord(ptr).Some? && EncodeRecord(srv).Some? && EncodeRecord(txt).Some? && EncodeRecord(addr).Some?;
    hide EncodeRecord;
    RecordsOfOne(ptr);
    RecordsOfThree(srv, txt, addr);
  }

  lemma NameSizes(a: Announcer)
    requires Announces(a)
    ensures |Instance(a)| < 100 && |Hostname(a)| < 100
  {
    Constants();
  }

  lemma TxtSize(a: Announcer)
    requires TxtData(Pairs(a)).Some?
    ensures |TxtData(Pairs(a)).value| <= 768
  {
    hide ID, NAME, VERSION, ONE;
    TxtLength(Pairs(a));
  }

  lemma RecordsOfOne(r: Record)
    requires r.ttl < 0x1_0000_0000 && EncodeRecord(r).Some?
    ensures EncodeRecords([r]).Some?
  {
    assert [r][1..] == [];
    assert EncodeRecords([]).Some?;
  }

  lemma RecordsOfThree(r: Record, s: Record, t: Record)
    requires r.ttl < 0x1_0000_0000 && s.ttl < 0x1_0000_0000 && t.ttl < 0x1_0000_0000
    requires EncodeRecord(r).Some? && EncodeRecord(s).Some? && EncodeRecord(t).Some?
    ensures EncodeRecords([r, s, t]).Some?
  {
    hide EncodeRecord;
    assert [r, s, t][1..] == [s, t] && [s, t][1..] == [t];
    RecordsOfOne(t);
    assert EncodeRecords([s, t]).Some?;
  }

  lemma SrvBack(a: Announcer, data: seq<Byte>)
    requires Proper(Hostname(a)) && SrvData(0, 0, a.port, Hostname(a)) == Some(data)
    ensures ReadWord(data, 4) == Some(a.port) && ReadName(data, 6).Got? && ReadName(data, 6).value == Hostname(a)
  {
    hide EncodeName, ReadName, At, Proper, Hostname, WriteWord, ReadWord;
    var name := EncodeName(Hostname(a)).value;
    var zero, port := WriteWord(0), WriteWord(a.port);
    AtStart(zero + zero + port + name);
    AtSplit(data, 0, zero + zero + port, name);
    AtSplit(data, 0, zero + zero, port);
    ReadWordBack(data, 4, a.port);
    ReadNameBack(data, 6, Hostname(a));
  }

  // ---- what the finder makes of the replies -------------------------------------------------------------

  /** Four records that say of an announcer what they should. */
  predicate Speaks(a: Announcer, rs: seq<ParsedRecord>) {
    && |rs| == 4 && (rs[0].kind, rs[1].kind, rs[2].kind, rs[3].kind) == (TYPE_PTR, TYPE_SRV, TYPE_TXT, TYPE_A)
    && SrvData(0, 0, a.port, Hostname(a)) == Some(rs[1].data) && TxtData(Pairs(a)) == Some(rs[2].data)
    && rs[1].name == rs[2].name == Instance(a) && rs[3].name == Hostname(a) && rs[3].data == a.address
  }

  function HostFor(a: Announcer): Host { Host(a.deviceId, a.name, Dotted(a.address), a.port) }

  /** What is answered to the finder's question. */
  function ReplyOf(a: Announcer): seq<ParsedRecord> {
    if Query().None? || Answer(a, Query().value).None? then []
    else match Parse(Answer(a, Query().value).value) case Got(m, _) => m.records case _ => []
  }

  /** The records of the replies that came, in the order in which they came. */
  function Pooled(replies: seq<Announcer>): seq<ParsedRecord> {
    if replies == [] then [] else ReplyOf(replies[0]) + Pooled(replies[1..])
  }

  /** Each announcer where it comes first. */
  function Firsts(replies: seq<Announcer>, before: seq<Announcer>): seq<Announcer>
    decreases |replies|
  {
    if replies == [] then before
    else Firsts(replies[1..], if replies[0] in before then before else before + [replies[0]])
  }

  function HostsOf(found: seq<Announcer>): seq<Host> { seq(|found|, i requires 0 <= i < |found| => HostFor(found[i])) }

  /** Announcers whose Device IDs differ in more than case; one may have answered more than once. */
  predicate Apart(replies: seq<Announcer>) {
    forall i, j :: 0 <= i < |replies| && 0 <= j < |replies| && Lower(replies[i].deviceId) == Lower(replies[j].deviceId) ==>
      replies[i] == replies[j]
  }

  predicate AllAnnounce(replies: seq<Announcer>) { forall i :: 0 <= i < |replies| ==> Announces(replies[i]) }

  /** All that is known of the addresses read so far. */
  predicate Addressed(found: map<Text, Text>, replies: seq<Announcer>) {
    forall i :: 0 <= i < |replies| ==> Hostname(replies[i]) in found && found[Hostname(replies[i])] == Dotted(replies[i].address)
  }

  lemma NotEmpty(data: seq<Byte>)
    requires data != []
    ensures Dotted(data) != []
  {
  }

  /** Which announcer a name belongs to. */
  lemma NamesTell(a: Announcer, b: Announcer)
    ensures Hostname(a) == Hostname(b) ==> Lower(a.deviceId) == Lower(b.deviceId)
    ensures Instance(a) == Instance(b) ==> a.deviceId == b.deviceId
  {
    Same(Lower(a.deviceId), Lower(b.deviceId), [DOT] + LOCAL);
    Same(a.deviceId, b.deviceId, [DOT] + HOPDESK_SERVICE);
    hide Lower, LOCAL, HOPDESK_SERVICE;
    assert Hostname(a) == Lower(a.deviceId) + ([DOT] + LOCAL) && Hostname(b) == Lower(b.deviceId) + ([DOT] + LOCAL);
    assert Instance(a) == a.deviceId + ([DOT] + HOPDESK_SERVICE) && Instance(b) == b.deviceId + ([DOT] + HOPDESK_SERVICE);
  }

  lemma Same(a: Text, b: Text, end: Text)
    ensures a + end == b + end ==> a == b
  {
    if a + end == b + end {
      assert |a| == |b|;
      assert a == (a + end)[..|a|] == (b + end)[..|b|] == b;
    }
  }

  lemma AddressesOfFour(a: Announcer, rs: seq<ParsedRecord>, rest: seq<ParsedRecord>, out: map<Text, Text>)
    requires Speaks(a, rs) && |a.address| == 4
    ensures Addresses(rs + rest, out) == Addresses(rest, out[Hostname(a) := Dotted(a.address)])
  {
    hide SrvData, TxtData, Hostname, Instance, Dotted, Pairs;
    var all := rs + rest;
    assert all[1..][1..][1..][1..] == rest && all[1..][0] == rs[1] && all[1..][1..][0] == rs[2] && all[1..][1..][1..][0] == rs[3];
    assert Addresses(all, out) == Addresses(all[1..], out) == Addresses(all[1..][1..], out) == Addresses(all[1..][1..][1..], out);
  }

  lemma {:induction false} AddressesPooled(before: seq<Announcer>, replies: seq<Announcer>, out: map<Text, Text>)
    requires AllAnnounce(replies) && Apart(before + replies) && Addressed(out, before)
    ensures Addressed(Addresses(Pooled(replies), out), before + replies)
    decreases |replies|
  {
    hide Speaks, ReplyOf, Announces, Hostname, Dotted, Lower, Addressed, Apart, Addresses, Answer, Query, Parse;
    if replies == [] {
      assert before + replies == before;
      AddressesNone(out);
    } else {
      var a := replies[0];
      assert Announces(a);
      AnswerSpeaks(a);
      AddressOk(a);
      AddressesOfFour(a, ReplyOf(a), Pooled(replies[1..]), out);
      AddressedNext(before, replies, out);
      assert (before + [a]) + replies[1..] == before + replies;
      AddressesPooled(before + [a], replies[1..], out[Hostname(a) := Dotted(a.address)]);
    }
  }

  lemma AddressesNone(out: map<Text, Text>)
    ensures Addresses([], out) == out
  {
  }

  lemma AddressedNext(before: seq<Announcer>, replies: seq<Announcer>, out: map<Text, Text>)
    requires replies != [] && Apart(before + replies) && Addressed(out, before)
    ensures Addressed(out[Hostname(replies[0]) := Dotted(replies[0].address)], before + [replies[0]])
  {
    hide Hostname, Dotted, Lower;
    var a := replies[0];
    forall i | 0 <= i < |before| ensures Hostname(before[i]) == Hostname(a) ==> before[i] == a {
      NamesTell(before[i], a);
      assert (before + replies)[i] == before[i] && (before + replies)[|before|] == a;
    }
  }

  lemma AddressOk(a: Announcer)
    requires Announces(a)
    ensures |a.address| == 4 && a.port != 0 && a.deviceId != []
  {
  }

  lemma FirstTxtOfFour(a: Announcer, rs: seq<ParsedRecord>, rest: seq<ParsedRecord>, name: Text)
    requires Speaks(a, rs)
    ensures FirstTxt(rs + rest, name) == if name == Instance(a) then TxtData(Pairs(a)) else FirstTxt(rest, name)
  {
    hide SrvData, TxtData, Hostname, Instance, Pairs;
    var all := rs + rest;
    assert all[1..][1..][1..][1..] == rest && all[1..][0] == rs[1] && all[1..][1..][0] == rs[2] && all[1..][1..][1..][0] == rs[3];
    assert FirstTxt(all, name) == FirstTxt(all[1..], name) == FirstTxt(all[1..][1..], name);
    if name != Instance(a) {
      assert FirstTxt(all[1..][1..], name) == FirstTxt(all[1..][1..][1..], name) == FirstTxt(rest, name);
    }
  }

  lemma {:induction false} TxtPooled(replies: seq<Announcer>, i: nat)
    requires AllAnnounce(replies) && Apart(replies) && i < |replies|
    ensures FirstTxt(Pooled(replies), Instance(replies[i])) == TxtData(Pairs(replies[i]))
    decreases |replies|
  {
    hide Speaks, ReplyOf, Announces, Instance, TxtData, Pairs, FirstTxt, Lower, Answer, Query, Parse;
    var a := replies[0];
    assert Announces(a);
    AnswerSpeaks(a);
    FirstTxtOfFour(a, ReplyOf(a), Pooled(replies[1..]), Instance(replies[i]));
    if Instance(replies[i]) == Instance(a) {
      NamesTell(replies[i], a);
      assert replies[i] == replies[0];
    } else {
      assert i > 0 && replies[1..][i - 1] == replies[i];
      TxtPooled(replies[1..], i - 1);
    }
  }

  /** The SRV record of an announcer makes it known, once its address and its TXT record are at hand. */
  lemma HostOfSrv(a: Announcer, srv: ParsedRecord, records: seq<ParsedRecord>, addresses: map<Text, Text>)
    requires Announces(a) && srv.name == Instance(a) && SrvData(0, 0, a.port, Hostname(a)) == Some(srv.data)
    requires FirstTxt(records, Instance(a)) == TxtData(Pairs(a))
    requires Hostname(a) in addresses && addresses[Hostname(a)] == Dotted(a.address)
    ensures HostOf(srv, records, addresses) == Some(Some(HostFor(a)))
  {
    hide TxtData, SrvData, ParseTxt, ReadName, ReadWord, Hostname, Instance, ID, NAME, VERSION, ONE, Split, Proper, NoDot, FirstTxt, Pairs;
    NamesProper(a);
    SrvBack(a, srv.data);
    TxtFields(a);
    NotEmpty(a.address);
    hide Dotted;
  }

  lemma HostsFromFour(a: Announcer, rs: seq<ParsedRecord>, rest: seq<ParsedRecord>, records: seq<ParsedRecord>,
                      addresses: map<Text, Text>, hosts: seq<Host>)
    requires Speaks(a, rs) && HostOf(rs[1], records, addresses) == Some(Some(HostFor(a)))
    ensures HostsFrom(rs + rest, records, addresses, hosts) == HostsFrom(rest, records, addresses, Put(hosts, HostFor(a)))
  {
    hide HostOf, HostFor, SrvData, TxtData, Hostname, Instance, Put, Pairs;
    var all := rs + rest;
    assert all[1..][1..][1..][1..] == rest && all[1..][0] == rs[1] && all[1..][1..][0] == rs[2] && all[1..][1..][1..][0] == rs[3];
    assert HostsFrom(all, records, addresses, hosts) == HostsFrom(all[1..], records, addresses, hosts);
    var more := Put(hosts, HostFor(a));
    assert HostsFrom(all[1..], records, addresses, hosts) == HostsFrom(all[1..][1..], records, addresses, more)
        == HostsFrom(all[1..][1..][1..], records, addresses, more) == HostsFrom(rest, records, addresses, more);
  }

  /** A host that is listed is listed once, in its place. */
  lemma {:induction false} PutListed(found: seq<Announcer>, a: Announcer)
    requires Apart(found + [a])
    ensures Put(HostsOf(found), HostFor(a)) == HostsOf(if a in found then found else found + [a])
  {
    hide HostFor, Lower, Apart;
    HostForId(a);
    if found == [] {
      assert HostsOf([a]) == [HostFor(a)] && found + [a] == [a];
    } else {
      HostForId(found[0]);
      HostsOfFirst(found);
      ApartParts(found, a);
      if found[0].deviceId != a.deviceId {
        PutListed(found[1..], a);
        assert (found + [a])[1..] == found[1..] + [a];
        HostsOfFirst(found + [a]);
        assert a in found <==> a in found[1..];
      }
      hide HostsOf;
    }
  }

  lemma ApartParts(found: seq<Announcer>, a: Announcer)
    requires Apart(found + [a]) && found != []
    ensures Apart(found[1..] + [a]) && (found[0].deviceId == a.deviceId ==> found[0] == a)
  {
    hide Lower;
    assert (found + [a])[0] == found[0] && (found + [a])[|found|] == a;
    assert (found + [a])[1..] == found[1..] + [a];
  }

  lemma HostsOfFirst(found: seq<Announcer>)
    requires found != []
    ensures HostsOf(found) == [HostFor(found[0])] + HostsOf(found[1..])
  {
    hide HostFor;
  }

  lemma HostForId(a: Announcer)
    ensures HostFor(a).deviceId == a.deviceId
  {
  }

  lemma {:induction false} HostsPooled(all: seq<Announcer>, k: nat, found: seq<Announcer>, addresses: map<Text, Text>)
    requires k <= |all| && AllAnnounce(all) && Apart(all) && Addressed(addresses, all)
    requires forall i :: 0 <= i < |found| ==> found[i] in all
    ensures HostsFrom(Pooled(all[k..]), Pooled(all), addresses, HostsOf(found)) == Some(HostsOf(Firsts(all[k..], found)))
    decreases |all| - k
  {
    hide Speaks, ReplyOf, Announces, HostsOf, HostFor, HostOf, Put, Hostname, Dotted, Lower, HostsFrom, FirstTxt;
    if k == |all| {
      assert all[k..] == [];
      HostsFromNone(Pooled(all), addresses, HostsOf(found));
    } else {
      var a := all[k];
      assert all[k..][0] == a && all[k..][1..] == all[k + 1..];
      HostReplies(all, k, addresses);
      HostsFromFour(a, ReplyOf(a), Pooled(all[k + 1..]), Pooled(all), addresses, HostsOf(found));
      ApartOf(all, found, a);
      PutListed(found, a);
      HostsPooled(all, k + 1, if a in found then found else found + [a], addresses);
    }
  }

  lemma HostsFromNone(records: seq<ParsedRecord>, addresses: map<Text, Text>, hosts: seq<Host>)
    ensures HostsFrom([], records, addresses, hosts) == Some(hosts)
  {
  }

  lemma ApartOf(all: seq<Announcer>, found: seq<Announcer>, a: Announcer)
    requires Apart(all) && a in all && forall i :: 0 <= i < |found| ==> found[i] in all
    ensures Apart(found + [a])
  {
    hide Lower;
    assert forall x, y :: x in all && y in all && Lower(x.deviceId) == Lower(y.deviceId) ==> x == y;
    forall i | 0 <= i < |found + [a]| ensures (found + [a])[i] in all {}
  }

  lemma HostReplies(all: seq<Announcer>, k: nat, addresses: map<Text, Text>)
    requires k < |all| && AllAnnounce(all) && Apart(all) && Addressed(addresses, all)
    ensures Speaks(all[k], ReplyOf(all[k])) && HostOf(ReplyOf(all[k])[1], Pooled(all), addresses) == Some(Some(HostFor(all[k])))
  {
    hide ReplyOf, Announces, HostFor, HostOf, Hostname, Instance, Dotted, Lower, SrvData, TxtData, Pairs, FirstTxt, Pooled, Apart;
    var a := all[k];
    assert Announces(a);
    AnswerSpeaks(a);
    TxtPooled(all, k);
    HostOfSrv(a, ReplyOf(a)[1], Pooled(all), addresses);
  }

  /** An announcer answers the finder's question with four records that say who it is. */
  lemma AnswerSpeaks(a: Announcer)
    requires Announces(a)
    ensures Query().Some? && Answer(a, Query().value).Some? && Speaks(a, ReplyOf(a))
    ensures var r := Parse(Answer(a, Query().value).value); r.Got? && r.value.response && r.value.records == ReplyOf(a)
  {
    hide Query, Parse, Instance, Hostname, HOPDESK_SERVICE, TxtData, SrvData, Announces, EncodeRecords, ProperRecords, Dotted;
    QueryReads();
    RecordsWrite(a);
    var (ptr, srv, txt, addr) := Records(a).value;
    var asked := [Question(HOPDESK_SERVICE, TYPE_PTR), Question(HOPDESK_SERVICE, TYPE_ANY)];
    assert Wanted(a, asked) by { assert asked[0].name == HOPDESK_SERVICE; }
    hide Records, Wanted;
    MessageRoundTrip(0, true, [], [ptr], [srv, txt, addr]);
    assert AllParsed([ptr]) + AllParsed([srv, txt, addr]) == [Parsed(ptr), Parsed(srv), Parsed(txt), Parsed(addr)];
  }

  /** Each announcer that answered is there, once, where its first answer came. */
  lemma {:induction false} FirstsAre(replies: seq<Announcer>, before: seq<Announcer>)
    requires forall i, j :: 0 <= i < j < |before| ==> before[i] != before[j]
    ensures var r := Firsts(replies, before);
            && before <= r && (forall a :: a in r <==> a in before || a in replies)
            && forall i, j :: 0 <= i < j < |r| ==> r[i] != r[j]
    decreases |replies|
  {
    if replies != [] {
      assert replies == [replies[0]] + replies[1..];
      FirstsAre(replies[1..], if replies[0] in before then before else before + [replies[0]]);
    }
  }

  /** A computer that looks for others sends a question that every announcer answers. Whatever answers
      come, in whatever order and however often, it collects from them exactly the Device ID, name,
      address and port of each announcer that answered, in the order of their first answers. */
  lemma AnnouncersAreFound(replies: seq<Announcer>)
    requires AllAnnounce(replies) && Apart(replies)
    ensures forall i :: 0 <= i < |replies| ==> Query().Some? && Answer(replies[i], Query().value).Some?
    ensures Collect(Pooled(replies)) == Some(HostsOf(Firsts(replies, [])))
    ensures forall h :: h in HostsOf(Firsts(replies, [])) <==> exists a :: a in replies && h == HostFor(a)
  {
    hide Query, Answer, Pooled, Apart, Announces, HostFor, Dotted, Hostname;
    forall i | 0 <= i < |replies| ensures Query().Some? && Answer(replies[i], Query().value).Some? {
      assert Announces(replies[i]);
      AnswerSpeaks(replies[i]);
    }
    assert [] + replies == replies && replies[0..] == replies;
    AddressesPooled([], replies, map[]);
    HostsPooled(replies, 0, [], Addresses(Pooled(replies), map[]));
    hide HostsFrom, Addresses, Addressed, AllAnnounce;
    assert HostsOf([]) == [];
    FirstsAre(replies, []);
    HostsOfFirsts(replies, Firsts(replies, []));
  }

  lemma HostsOfFirsts(replies: seq<Announcer>, firsts: seq<Announcer>)
    requires forall a :: a in firsts <==> a in replies
    ensures forall h :: h in HostsOf(firsts) <==> exists a :: a in replies && h == HostFor(a)
  {
    hide HostFor;
    forall a | a in replies ensures HostFor(a) in HostsOf(firsts) {
      var i :| 0 <= i < |firsts| && firsts[i] == a;
      assert HostsOf(firsts)[i] == HostFor(a);
    }
    forall h | h in HostsOf(firsts) ensures exists a :: a in replies && h == HostFor(a) {
      var i :| 0 <= i < |HostsOf(firsts)| && HostsOf(firsts)[i] == h;
      assert firsts[i] in firsts && h == HostFor(firsts[i]);
    }
  }

  /** In particular, one announcer is found from its one answer. */
  lemma AnnouncerIsFound(a: Announcer)
    requires Announces(a)
    ensures Query().Some? && Answer(a, Query().value).Some?
    ensures var r := Parse(Answer(a, Query().value).value);
            && r.Got? && r.value.response
            && Collect(r.value.records) == Some([Host(a.deviceId, a.name, Dotted(a.address), a.port)])
  {
    hide Query, Answer, Parse, Announces, Dotted, Collect, Lower, ReplyOf;
    AnswerSpeaks(a);
    AnnouncersAreFound([a]);
    assert [a][1..] == [] && Pooled([a]) == ReplyOf(a) + Pooled([]) == ReplyOf(a);
    assert Firsts([a], []) == Firsts([], [a]) == [a] && HostsOf([a]) == [HostFor(a)];
  }
}

/** Reading back what was written: names, records, whole messages and TXT data. */
module MdnsTheorems {
  import opened Wrappers
  import opened Mdns
  import opened Discovery

  // ---- names --------------------------------------------------------------------------------------

  lemma {:induction false} JoinSplit(s: Text)
    ensures Join(Split(s)) == s
    decreases |s|
  {
    hide Join, IndexOf;
    var i := IndexOf(s, DOT);
    if i < |s| {
      var rest := s[i + 1..];
      assert Split(s) == [s[..i]] + Split(rest);
      hide Split;
      JoinSplit(rest);
      JoinCons(s[..i], Split(rest));
      assert s == s[..i] + [DOT] + rest;
    } else {
      assert Split(s) == [s] && [s] + [] == [s];
      JoinCons(s, []);
    }
  }

  lemma JoinCons(part: Text, parts: seq<Text>)
    ensures Join([part] + parts) == if parts == [] then part else part + [DOT] + Join(parts)
  {
    assert ([part] + parts)[1..] == parts;
  }

  lemma {:induction false} EndsInDot(s: Text)
    requires s != [] && s[|s| - 1] == DOT
    ensures Split(s)[|Split(s)| - 1] == []
    decreases |s|
  {
    var i := IndexOf(s, DOT);
    if i == |s| - 1 {
      assert s[i + 1..] == [];
      assert Split([]) == [[]];
    } else {
      EndsInDot(s[i + 1..]);
    }
  }

  predicate Labels(parts: seq<Text>) { forall i :: 0 <= i < |parts| ==> 0 < |parts[i]| <= 63 }

  /** A name of 1 to 128 non-empty labels of at most 63 bytes. */
  predicate Proper(name: Text) { Labels(Split(name)) && |Split(name)| <= 128 }

  lemma ProperEncodes(name: Text)
    requires Proper(name)
    ensures EncodeName(name).Some? && EncodeName(name) == EncodeLabels(Split(name))
  {
    if name != [] && name[|name| - 1] == DOT { EndsInDot(name); }
    LabelsEncode(Split(name));
  }

  lemma {:induction false} LabelsEncode(parts: seq<Text>)
    requires Labels(parts)
    ensures EncodeLabels(parts).Some?
  {
    if parts != [] { LabelsEncode(parts[1..]); }
  }

  /** `bytes` stand in the buffer at `at`. */
  predicate At(buf: seq<Byte>, at: nat, bytes: seq<Byte>) { at + |bytes| <= |buf| && buf[at..at + |bytes|] == bytes }

  lemma AtSplit(buf: seq<Byte>, at: nat, a: seq<Byte>, b: seq<Byte>)
    requires At(buf, at, a + b)
    ensures At(buf, at, a) && At(buf, at + |a|, b)
  {
    var c := a + b;
    assert buf[at..at + |a|] == buf[at..at + |c|][..|a|] == a;
    assert buf[at + |a|..at + |a| + |b|] == buf[at..at + |c|][|a|..] == b;
  }

  lemma {:induction false} ReadLabelsBack(buf: seq<Byte>, at: nat, parts: seq<Text>, guard: nat)
    requires Labels(parts) && guard + |parts| <= 128 && EncodeLabels(parts).Some? && At(buf, at, EncodeLabels(parts).value)
    ensures ReadLabels(buf, at, guard) == Got(parts, at + |EncodeLabels(parts).value|)
    decreases |parts|
  {
    hide At, EncodeLabels, Labels;
    LabelsShape(parts);
    if parts == [] {
      AtData(buf, at, [0]);
      assert buf[at] == buf[at..at + 1][0];
    } else {
      AtSplit(buf, at, Counted(parts[0]), EncodeLabels(parts[1..]).value);
      CountedBack(buf, at, parts[0]);
      ReadLabelsBack(buf, at + 1 + |parts[0]|, parts[1..], guard + 1);
      assert [parts[0]] + parts[1..] == parts;
    }
  }

  lemma LabelsShape(parts: seq<Text>)
    requires Labels(parts) && EncodeLabels(parts).Some?
    ensures if parts == [] then EncodeLabels(parts) == Some([0])
            else
              && 0 < |parts[0]| <= 63 && Labels(parts[1..]) && EncodeLabels(parts[1..]).Some?
              && EncodeLabels(parts).value == Counted(parts[0]) + EncodeLabels(parts[1..]).value
  {
  }

  lemma ReadNameBack(buf: seq<Byte>, at: nat, name: Text)
    requires Proper(name) && EncodeName(name).Some? && At(buf, at, EncodeName(name).value)
    ensures ReadName(buf, at) == Got(name, at + |EncodeName(name).value|)
  {
    ProperEncodes(name);
    ReadLabelsBack(buf, at, Split(name), 0);
    JoinSplit(name);
  }

  // ---- numbers, questions, records -------------------------------------------------------------------

  lemma ReadWordBack(buf: seq<Byte>, at: nat, n: Word)
    requires At(buf, at, WriteWord(n))
    ensures ReadWord(buf, at) == Some(n)
  {
    assert buf[at] == buf[at..at + 2][0] && buf[at + 1] == buf[at..at + 2][1];
  }

  lemma ReadQuestionBack(buf: seq<Byte>, at: nat, q: Question)
    requires Proper(q.name) && EncodeQuestion(q).Some? && At(buf, at, EncodeQuestion(q).value)
    ensures ReadQuestion(buf, at) == Got(q, at + |EncodeQuestion(q).value|)
  {
    hide At, ReadName, EncodeName, WriteWord, ReadWord, Proper;
    var name := EncodeName(q.name).value;
    AtSplit(buf, at, name + WriteWord(q.kind), WriteWord(CLASS_IN));
    AtSplit(buf, at, name, WriteWord(q.kind));
    ReadNameBack(buf, at, q.name);
    ReadWordBack(buf, at + |name|, q.kind);
  }

  function Parsed(r: Record): ParsedRecord { ParsedRecord(r.name, r.kind, r.data) }

  lemma ReadRecordBack(buf: seq<Byte>, at: nat, r: Record)
    requires r.ttl < 0x1_0000_0000 && Proper(r.name) && EncodeRecord(r).Some? && At(buf, at, EncodeRecord(r).value)
    ensures ReadRecord(buf, at) == Got(Parsed(r), at + |EncodeRecord(r).value|)
  {
    hide At, ReadName, EncodeName, WriteWord, WriteLong, ReadWord, Proper;
    var name := EncodeName(r.name).value;
    var kind, flags, ttl, length :=
      WriteWord(r.kind), WriteWord(if r.flush then CLASS_IN + FLUSH else CLASS_IN), WriteLong(r.ttl), WriteWord(|r.data|);
    AtSplit(buf, at, name + kind + flags + ttl + length, r.data);
    AtSplit(buf, at, name + kind + flags + ttl, length);
    AtSplit(buf, at, name + kind + flags, ttl);
    AtSplit(buf, at, name + kind, flags);
    AtSplit(buf, at, name, kind);
    ReadNameBack(buf, at, r.name);
    ReadWordBack(buf, at + |name|, r.kind);
    ReadWordBack(buf, at + |name| + 8, |r.data|);
    AtData(buf, at + |name| + 10, r.data);
  }

  lemma AtData(buf: seq<Byte>, at: nat, bytes: seq<Byte>)
    requires At(buf, at, bytes)
    ensures at + |bytes| <= |buf| && buf[at..at + |bytes|] == bytes
  {
  }

  predicate ProperQuestions(qs: seq<Question>) { forall i :: 0 <= i < |qs| ==> Proper(qs[i].name) }
  predicate ProperRecords(rs: seq<Record>) { forall i :: 0 <= i < |rs| ==> Proper(rs[i].name) }

  function AllParsed(rs: seq<Record>): seq<ParsedRecord> { seq(|rs|, i requires 0 <= i < |rs| => Parsed(rs[i])) }

  lemma {:induction false} ReadQuestionsBack(buf: seq<Byte>, at: nat, qs: seq<Question>)
    requires ProperQuestions(qs) && EncodeQuestions(qs).Some? && At(buf, at, EncodeQuestions(qs).value)
    ensures ReadQuestions(buf, at, |qs|) == Got(qs, at + |EncodeQuestions(qs).value|)
    decreases |qs|
  {
    hide ReadQuestion, EncodeQuestion, At, Proper;
    if qs != [] {
      var head, rest := EncodeQuestion(qs[0]).value, EncodeQuestions(qs[1..]).value;
      AtSplit(buf, at, head, rest);
      ReadQuestionBack(buf, at, qs[0]);
      ReadQuestionsBack(buf, at + |head|, qs[1..]);
      assert [qs[0]] + qs[1..] == qs;
    }
  }

  lemma {:induction false} ReadRecordsBack(buf: seq<Byte>, at: nat, rs: seq<Record>)
    requires Lasting(rs) && ProperRecords(rs) && EncodeRecords(rs).Some? && At(buf, at, EncodeRecords(rs).value)
    ensures ReadRecords(buf, at, |rs|) == Got(AllParsed(rs), at + |EncodeRecords(rs).value|)
    decreases |rs|
  {
    hide ReadRecord, EncodeRecord, At, Proper;
    if rs != [] {
      var head, rest := EncodeRecord(rs[0]).value, EncodeRecords(rs[1..]).value;
      AtSplit(buf, at, head, rest);
      ReadRecordBack(buf, at, rs[0]);
      ReadRecordsBack(buf, at + |head|, rs[1..]);
      assert AllParsed(rs) == [Parsed(rs[0])] + AllParsed(rs[1..]);
      assert Continued([Parsed(rs[0])], ReadRecords(buf, at + |head|, |rs| - 1)).Got?;
    } else {
      assert AllParsed(rs) == [];
    }
  }

  lemma {:induction false} ReadsOn(buf: seq<Byte>, at: nat, n: nat, m: nat)
    ensures ReadRecords(buf, at, n + m) == match ReadRecords(buf, at, n)
                                           case Got(rs, end) => Continued(rs, ReadRecords(buf, end, m))
                                           case Malformed => Malformed
                                           case Pointer => Pointer
    decreases n
  {
    hide ReadRecord;
    if n == 0 {
      ContinuedTwice([], [], ReadRecords(buf, at, m));
    } else if ReadRecord(buf, at).Got? {
      var r := ReadRecord(buf, at);
      ReadsOn(buf, r.end, n - 1, m);
      var some := ReadRecords(buf, r.end, n - 1);
      if some.Got? { ContinuedTwice([r.value], some.value, ReadRecords(buf, some.end, m)); }
    }
  }

  lemma HeaderFields(buf: seq<Byte>, id: Word, response: bool, n: Word, m: Word, k: Word)
    requires At(buf, 0, Header(id, response, n, m, k))
    ensures ReadWord(buf, 2) == Some(if response then 0x8400 else 0) && ReadWord(buf, 4) == Some(n)
    ensures ReadWord(buf, 6) == Some(m) && ReadWord(buf, 8) == Some(0 as Word) && ReadWord(buf, 10) == Some(k)
  {
    var a, b, c, d, e, f := WriteWord(id), WriteWord(if response then 0x8400 else 0), WriteWord(n), WriteWord(m), WriteWord(0), WriteWord(k);
    AtSplit(buf, 0, a + b + c + d + e, f);
    AtSplit(buf, 0, a + b + c + d, e);
    AtSplit(buf, 0, a + b + c, d);
    AtSplit(buf, 0, a + b, c);
    AtSplit(buf, 0, a, b);
    ReadWordBack(buf, 2, if response then 0x8400 else 0);
    ReadWordBack(buf, 4, n);
    ReadWordBack(buf, 6, m);
    ReadWordBack(buf, 8, 0);
    ReadWordBack(buf, 10, k);
  }

  /** A message reads back as the questions and records it was made of, in order, for all pointer-free
      names of 1 to 128 non-empty labels of at most 63 bytes. */
  lemma MessageRoundTrip(id: Word, response: bool, qs: seq<Question>, answers: seq<Record>, additionals: seq<Record>)
    requires Lasting(answers) && Lasting(additionals) && Message(id, response, qs, answers, additionals).Some?
    requires ProperQuestions(qs) && ProperRecords(answers) && ProperRecords(additionals)
    ensures var buf := Message(id, response, qs, answers, additionals).value;
            Parse(buf) == Got(ParsedMessage(response, qs, AllParsed(answers) + AllParsed(additionals)), |buf|)
  {
    hide ReadQuestions, ReadRecords, EncodeQuestions, EncodeRecords, Header, At, ReadWord, Proper;
    var buf := Message(id, response, qs, answers, additionals).value;
    var h := Header(id, response, |qs|, |answers|, |additionals|);
    var q, a, b := EncodeQuestions(qs).value, EncodeRecords(answers).value, EncodeRecords(additionals).value;
    AtStart(h + q + a + b);
    AtSplit(buf, 0, h + q + a, b);
    AtSplit(buf, 0, h + q, a);
    AtSplit(buf, 0, h, q);
    HeaderFields(buf, id, response, |qs|, |answers|, |additionals|);
    ReadQuestionsBack(buf, 12, qs);
    ReadRecordsBack(buf, 12 + |q|, answers);
    ReadRecordsBack(buf, 12 + |q| + |a|, additionals);
    ReadsOn(buf, 12 + |q|, |answers|, |additionals|);
  }

  lemma AtStart(bytes: seq<Byte>)
    ensures At(bytes, 0, bytes)
  {
  }

  // ---- TXT data ---------------------------------------------------------------------------------------

  predicate Plain(p: Pair) { p.key != [] && IndexOf(p.key, EQUALS) == |p.key| }

  function Fields(pairs: seq<Pair>, out: map<Text, Text>): map<Text, Text>
    decreases |pairs|
  {
    if pairs == [] then out else Fields(pairs[1..], out[pairs[0].key := pairs[0].value])
  }

  lemma {:induction false} IndexAfter(s: Text, rest: Text, c: Byte)
    requires IndexOf(s, c) == |s|
    ensures IndexOf(s + [c] + rest, c) == |s|
  {
    var all := s + [c] + rest;
    if s != [] {
      assert all[1..] == s[1..] + [c] + rest && all[0] == s[0];
      IndexAfter(s[1..], rest, c);
    }
  }

  lemma {:induction false} ParseEntries(data: seq<Byte>, at: nat, pairs: seq<Pair>, out: map<Text, Text>)
    requires forall i :: 0 <= i < |pairs| ==> Plain(pairs[i])
    requires TxtEntries(pairs).Some? && At(data, at, TxtEntries(pairs).value) && at + |TxtEntries(pairs).value| == |data|
    ensures ParseTxt(data, at, out) == Fields(pairs, out)
    decreases |pairs|
  {
    hide At, IndexOf, Entry;
    if pairs == [] {
      AtData(data, at, []);
    } else {
      var p, entry := pairs[0], Entry(pairs[0]);
      var rest := TxtEntries(pairs[1..]).value;
      AtSplit(data, at, Counted(entry), rest);
      CountedBack(data, at, entry);
      EntryBack(p);
      ParseEntries(data, at + |Counted(entry)|, pairs[1..], out[p.key := p.value]);
    }
  }

  lemma CountedBack(data: seq<Byte>, at: nat, s: Text)
    requires |s| < 256 && At(data, at, Counted(s))
    ensures at + 1 + |s| <= |data| && data[at] == |s| && data[at + 1..at + 1 + |s|] == s
  {
    assert data[at] == data[at..at + 1 + |s|][0];
    assert data[at + 1..at + 1 + |s|] == data[at..at + 1 + |s|][1..];
  }

  lemma EntryBack(p: Pair)
    requires Plain(p)
    ensures var e := Entry(p);
            0 < IndexOf(e, EQUALS) == |p.key| < |e| && e[..|p.key|] == p.key && e[|p.key| + 1..] == p.value
  {
    IndexAfter(p.key, p.value, EQUALS);
  }

  /** TXT data reads back as the fields it was made of. */
  lemma TxtRoundTrip(pairs: seq<Pair>)
    requires (forall i :: 0 <= i < |pairs| ==> Plain(pairs[i])) && TxtData(pairs).Some?
    ensures ParseTxt(TxtData(pairs).value, 0, map[]) == Fields(pairs, map[])
  {
    var data := TxtData(pairs).value;
    if pairs == [] {
      assert ParseTxt([0], 1, map[]) == map[];
      assert IndexOf([], EQUALS) == 0;
    } else {
      ParseEntries(data, 0, pairs, map[]);
    }
  }
}

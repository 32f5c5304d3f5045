/** Multicast DNS messages (RFC 1035 section 4.1, RFC 6763) as HopDesk writes and reads them. Strings
    are their UTF-8 bytes. */
module Mdns {
  import opened Wrappers

  type Byte = b: nat | b < 256
  type Text = seq<Byte>
  type Word = n: nat | n < 0x1_0000

  const DOT: Byte := 46
  const EQUALS: Byte := 61

  const TYPE_A: Word := 1
  const TYPE_PTR: Word := 12
  const TYPE_TXT: Word := 16
  const TYPE_SRV: Word := 33
  const TYPE_ANY: Word := 255
  const CLASS_IN: Word := 1
  const FLUSH: Word := 0x8000

  // ---- text ------------------------------------------------------------------------------------

  /** The position of the first `c`, or the length. */
  function IndexOf(s: Text, c: Byte): (i: nat)
    ensures i <= |s| && (i < |s| ==> s[i] == c) && forall j :: 0 <= j < i ==> s[j] != c
  {
    if s == [] || s[0] == c then 0 else 1 + IndexOf(s[1..], c)
  }

  function Split(s: Text): (parts: seq<Text>)
    ensures |parts| > 0
  {
    var i := IndexOf(s, DOT);
    if i == |s| then [s] else [s[..i]] + Split(s[i + 1..])
  }

  function Join(parts: seq<Text>): Text {
    if parts == [] then [] else if |parts| == 1 then parts[0] else parts[0] + [DOT] + Join(parts[1..])
  }

  function WithoutLastDot(name: Text): Text {
    if name != [] && name[|name| - 1] == DOT then name[..|name| - 1] else name
  }

  function WriteWord(n: Word): (h: seq<Byte>)
    ensures |h| == 2
  {
    [n / 256, n % 256]
  }

  function WriteLong(n: nat): (h: seq<Byte>)
    requires n < 0x1_0000_0000
    ensures |h| == 4
  {
    WriteWord(n / 0x1_0000) + WriteWord(n % 0x1_0000)
  }

  /** None where the source throws because the buffer ends. */
  function ReadWord(buf: seq<Byte>, at: nat): Option<Word> {
    if at + 2 > |buf| then None else Some((buf[at] as int) * 256 + buf[at + 1])
  }

  // ---- writing ----------------------------------------------------------------------------------

  /** Bytes before others, if there are others. */
  function Prepend(bytes: seq<Byte>, rest: Option<seq<Byte>>): Option<seq<Byte>> {
    match rest case None => None case Some(more) => Some(bytes + more)
  }

  lemma PrependTwice(a: seq<Byte>, b: seq<Byte>, rest: Option<seq<Byte>>)
    ensures Prepend(a, Prepend(b, rest)) == Prepend(a + b, rest) && Prepend([], rest) == rest
  {
    if rest.Some? { assert a + (b + rest.value) == a + b + rest.value && [] + rest.value == rest.value; }
  }

  /** A text behind its length. */
  function Counted(s: Text): seq<Byte>
    requires |s| < 256
  {
    [|s|] + s
  }

  /** None where a label is too long, which the source reports by throwing. */
  function EncodeLabels(parts: seq<Text>): Option<seq<Byte>> {
    if parts == [] then Some([0])
    else if |parts[0]| > 63 then None
    else Prepend(Counted(parts[0]), EncodeLabels(parts[1..]))
  }

  function EncodeName(name: Text): Option<seq<Byte>> { EncodeLabels(Split(WithoutLastDot(name))) }

  method EncodeNameOf(name: Text) returns (out: Option<seq<Byte>>)
    ensures out == EncodeName(name)
  {
    var parts := Split(WithoutLastDot(name));
    var bytes: seq<Byte> := [];
    PrependTwice([], [], EncodeName(name));
    for i := 0 to |parts|
      invariant EncodeName(name) == Prepend(bytes, EncodeLabels(parts[i..]))
    {
      assert parts[i..][1..] == parts[i + 1..];
      if |parts[i]| > 63 {
        return None;
      }
      PrependTwice(bytes, Counted(parts[i]), EncodeLabels(parts[i + 1..]));
      bytes := bytes + Counted(parts[i]);
    }
    out := Some(bytes + [0]);
  }

  datatype Record = Record(name: Text, kind: Word, ttl: nat, data: seq<Byte>, flush: bool)

  datatype Question = Question(name: Text, kind: Word)

  function EncodeRecord(r: Record): Option<seq<Byte>>
    requires r.ttl < 0x1_0000_0000
  {
    match EncodeName(r.name)
    case None => None
    case Some(head) =>
      if |r.data| >= 0x1_0000 then None
      else Some(head + WriteWord(r.kind) + WriteWord(if r.flush then CLASS_IN + FLUSH else CLASS_IN) + WriteLong(r.ttl)
                + WriteWord(|r.data|) + r.data)
  }

  function EncodeQuestion(q: Question): Option<seq<Byte>> {
    match EncodeName(q.name)
    case None => None
    case Some(head) => Some(head + WriteWord(q.kind) + WriteWord(CLASS_IN))
  }

  function SrvData(priority: Word, weight: Word, port: Word, target: Text): Option<seq<Byte>> {
    match EncodeName(target)
    case None => None
    case Some(name) => Some(WriteWord(priority) + WriteWord(weight) + WriteWord(port) + name)
  }

  datatype Pair = Pair(key: Text, value: Text)

  function Entry(p: Pair): Text { p.key + [EQUALS] + p.value }

  function TxtEntries(pairs: seq<Pair>): Option<seq<Byte>> {
    if pairs == [] then Some([])
    else if |Entry(pairs[0])| > 255 then None
    else Prepend(Counted(Entry(pairs[0])), TxtEntries(pairs[1..]))
  }

  /** TXT data is never empty. */
  function TxtData(pairs: seq<Pair>): Option<seq<Byte>> { if pairs == [] then Some([0]) else TxtEntries(pairs) }

  method TxtDataOf(pairs: seq<Pair>) returns (out: Option<seq<Byte>>)
    ensures out == TxtData(pairs)
  {
    var bytes: seq<Byte> := [];
    PrependTwice([], [], TxtEntries(pairs));
    for i := 0 to |pairs|
      invariant TxtEntries(pairs) == Prepend(bytes, TxtEntries(pairs[i..]))
    {
      assert pairs[i..][1..] == pairs[i + 1..];
      var entry := Entry(pairs[i]);
      if |entry| > 255 {
        return None;
      }
      PrependTwice(bytes, Counted(entry), TxtEntries(pairs[i + 1..]));
      bytes := bytes + Counted(entry);
    }
    assert bytes + [] == bytes;
    out := if |pairs| > 0 then Some(bytes) else Some([0]);
  }

  function EncodeQuestions(qs: seq<Question>): Option<seq<Byte>> {
    if qs == [] then Some([])
    else
      match (EncodeQuestion(qs[0]), EncodeQuestions(qs[1..]))
      case (Some(q), Some(rest)) => Some(q + rest)
      case _ => None
  }

  predicate Lasting(rs: seq<Record>) { forall i :: 0 <= i < |rs| ==> rs[i].ttl < 0x1_0000_0000 }

  function EncodeRecords(rs: seq<Record>): Option<seq<Byte>>
    requires Lasting(rs)
  {
    if rs == [] then Some([])
    else
      match (EncodeRecord(rs[0]), EncodeRecords(rs[1..]))
      case (Some(r), Some(rest)) => Some(r + rest)
      case _ => None
  }

  function Header(id: Word, response: bool, questions: Word, answers: Word, additionals: Word): (h: seq<Byte>)
    ensures |h| == 12
  {
    WriteWord(id) + WriteWord(if response then 0x8400 else 0) + WriteWord(questions) + WriteWord(answers)
      + WriteWord(0) + WriteWord(additionals)
  }

  function Message(id: Word, response: bool, qs: seq<Question>, answers: seq<Record>, additionals: seq<Record>): Option<seq<Byte>>
    requires Lasting(answers) && Lasting(additionals)
  {
    if |qs| >= 0x1_0000 || |answers| >= 0x1_0000 || |additionals| >= 0x1_0000 then None
    else
      match (EncodeQuestions(qs), EncodeRecords(answers), EncodeRecords(additionals))
      case (Some(q), Some(a), Some(b)) => Some(Header(id, response, |qs|, |answers|, |additionals|) + q + a + b)
      case _ => None
  }

  // ---- reading ----------------------------------------------------------------------------------

  /** What reading something gives: it and where it ended, or an error the source throws. A compression
      pointer is not followed here. */
  datatype Read<T> = Got(value: T, end: nat) | Malformed | Pointer

  /** What was read before, and what reading the rest gives. */
  function Continued<T>(before: seq<T>, rest: Read<seq<T>>): Read<seq<T>> {
    match rest
    case Got(more, end) => Got(before + more, end)
    case Malformed => Malformed
    case Pointer => Pointer
  }

  lemma ContinuedTwice<T>(a: seq<T>, b: seq<T>, rest: Read<seq<T>>)
    ensures Continued(a, Continued(b, rest)) == Continued(a + b, rest) && Continued([], rest) == rest
  {
    if rest.Got? { assert a + (b + rest.value) == a + b + rest.value && [] + rest.value == rest.value; }
  }

  /** The labels from `at` on; `guard` have been read before. */
  function ReadLabels(buf: seq<Byte>, at: nat, guard: nat): (r: Read<seq<Text>>)
    ensures r.Got? ==> at < r.end <= |buf|
    decreases |buf| - at
  {
    if guard > 128 || at >= |buf| then Malformed
    else
      var len := buf[at];
      if len == 0 then Got([], at + 1)
      else if len >= 192 then Pointer
      else if at + 1 + len > |buf| then Malformed
      else Continued([buf[at + 1..at + 1 + len]], ReadLabels(buf, at + 1 + len, guard + 1))
  }

  function ReadName(buf: seq<Byte>, at: nat): (r: Read<Text>)
    ensures r.Got? ==> at < r.end <= |buf|
  {
    match ReadLabels(buf, at, 0)
    case Got(parts, end) => Got(Join(parts), end)
    case Malformed => Malformed
    case Pointer => Pointer
  }

  function ReadQuestion(buf: seq<Byte>, at: nat): Read<Question> {
    match ReadName(buf, at)
    case Malformed => Malformed
    case Pointer => Pointer
    case Got(name, end) =>
      match ReadWord(buf, end)
      case None => Malformed
      case Some(kind) => Got(Question(name, kind), end + 4)
  }

  datatype ParsedRecord = ParsedRecord(name: Text, kind: Word, data: seq<Byte>)

  /** Data that runs over the end of the buffer is cut there. */
  function ReadRecord(buf: seq<Byte>, at: nat): Read<ParsedRecord> {
    match ReadName(buf, at)
    case Malformed => Malformed
    case Pointer => Pointer
    case Got(name, end) =>
      match (ReadWord(buf, end), ReadWord(buf, end + 8))
      case (Some(kind), Some(length)) =>
        var from, to := end + 10, end + 10 + length;
        Got(ParsedRecord(name, kind, buf[from..if to <= |buf| then to else |buf|]), to)
      case _ => Malformed
  }

  function ReadQuestions(buf: seq<Byte>, at: nat, n: nat): Read<seq<Question>>
    decreases n
  {
    if n == 0 then Got([], at)
    else
      match ReadQuestion(buf, at)
      case Malformed => Malformed
      case Pointer => Pointer
      case Got(q, end) => Continued([q], ReadQuestions(buf, end, n - 1))
  }

  function ReadRecords(buf: seq<Byte>, at: nat, n: nat): Read<seq<ParsedRecord>>
    decreases n
  {
    if n == 0 then Got([], at)
    else
      match ReadRecord(buf, at)
      case Malformed => Malformed
      case Pointer => Pointer
      case Got(r, end) => Continued([r], ReadRecords(buf, end, n - 1))
  }

  datatype ParsedMessage = ParsedMessage(response: bool, questions: seq<Question>, records: seq<ParsedRecord>)

  function Parse(buf: seq<Byte>): Read<ParsedMessage> {
    if |buf| < 12 then Malformed
    else
      var flags, questions := ReadWord(buf, 2).value, ReadWord(buf, 4).value;
      var records := ReadWord(buf, 6).value + ReadWord(buf, 8).value + ReadWord(buf, 10).value;
      match ReadQuestions(buf, 12, questions)
      case Malformed => Malformed
      case Pointer => Pointer
      case Got(qs, end) =>
        match ReadRecords(buf, end, records)
        case Malformed => Malformed
        case Pointer => Pointer
        case Got(rs, end2) => Got(ParsedMessage(flags >= 0x8000, qs, rs), end2)
  }

  /** A cursor over a buffer. */
  class Reader {
    const buf: seq<Byte>
    var at: nat

    constructor (buf: seq<Byte>, at: nat)
      ensures this.buf == buf && this.at == at
    {
      this.buf, this.at := buf, at;
    }

    /** `end` is where the cursor is; it has moved only as far as reading went. */
    method Name() returns (r: Read<Text>)
      modifies this
      ensures r == ReadName(buf, old(at)) && (r.Got? ==> at == r.end)
    {
      var parts: seq<Text> := [];
      var guard := 0;
      ContinuedTwice([], [], ReadLabels(buf, at, 0));
      while true
        invariant ReadLabels(buf, old(at), 0) == Continued(parts, ReadLabels(buf, at, guard))
        decreases |buf| - at
      {
        if guard > 128 {
          return Malformed;
        }
        guard := guard + 1;
        if at >= |buf| {
          return Malformed;
        }
        var len := buf[at];
        if len == 0 {
          at := at + 1;
          assert parts + [] == parts;
          return Got(Join(parts), at);
        }
        if len >= 192 {
          return Pointer;
        }
        if at + 1 + len > |buf| {
          return Malformed;
        }
        ContinuedTwice(parts, [buf[at + 1..at + 1 + len]], ReadLabels(buf, at + 1 + len, guard));
        parts := parts + [buf[at + 1..at + 1 + len]];
        at := at + 1 + len;
      }
    }

    method OneQuestion() returns (r: Read<Question>)
      modifies this
      ensures r == ReadQuestion(buf, old(at)) && (r.Got? ==> at == r.end)
    {
      var name := Name();
      match name {
        case Malformed => r := Malformed;
        case Pointer => r := Pointer;
        case Got(text, end) =>
          var kind := ReadWord(buf, at);
          if kind.None? {
            return Malformed;
          }
          at := at + 4;
          r := Got(Question(text, kind.value), at);
      }
    }

    method OneRecord() returns (r: Read<ParsedRecord>)
      modifies this
      ensures r == ReadRecord(buf, old(at)) && (r.Got? ==> at == r.end)
    {
      var name := Name();
      match name {
        case Malformed => r := Malformed;
        case Pointer => r := Pointer;
        case Got(text, end) =>
          var kind, length := ReadWord(buf, at), ReadWord(buf, at + 8);
          if kind.None? || length.None? {
            return Malformed;
          }
          var to := at + 10 + length.value;
          var data := buf[at + 10..if to <= |buf| then to else |buf|];
          at := to;
          r := Got(ParsedRecord(text, kind.value, data), at);
      }
    }

    method Questions(n: nat) returns (r: Read<seq<Question>>)
      modifies this
      ensures r == ReadQuestions(buf, old(at), n) && (r.Got? ==> at == r.end)
    {
      var questions: seq<Question> := [];
      ContinuedTwice([], [], ReadQuestions(buf, at, n));
      for i := 0 to n
        invariant ReadQuestions(buf, old(at), n) == Continued(questions, ReadQuestions(buf, at, n - i))
      {
        var q := OneQuestion();
        match q {
          case Malformed => return Malformed;
          case Pointer => return Pointer;
          case Got(question, _) =>
            ContinuedTwice(questions, [question], ReadQuestions(buf, at, n - i - 1));
            questions := questions + [question];
        }
      }
      assert questions + [] == questions;
      r := Got(questions, at);
    }

    method Records(n: nat) returns (r: Read<seq<ParsedRecord>>)
      modifies this
      ensures r == ReadRecords(buf, old(at), n) && (r.Got? ==> at == r.end)
    {
      var records: seq<ParsedRecord> := [];
      ContinuedTwice([], [], ReadRecords(buf, at, n));
      for i := 0 to n
        invariant ReadRecords(buf, old(at), n) == Continued(records, ReadRecords(buf, at, n - i))
      {
        var one := OneRecord();
        match one {
          case Malformed => return Malformed;
          case Pointer => return Pointer;
          case Got(record, _) =>
            ContinuedTwice(records, [record], ReadRecords(buf, at, n - i - 1));
            records := records + [record];
        }
      }
      assert records + [] == records;
      r := Got(records, at);
    }
  }

  method ParseMdns(buf: seq<Byte>) returns (r: Read<ParsedMessage>)
    ensures r == Parse(buf)
  {
    if |buf| < 12 {
      return Malformed;
    }
    var reader := new Reader(buf, 12);
    var flags, n := ReadWord(buf, 2).value, ReadWord(buf, 4).value;
    var questions := reader.Questions(n);
    match questions {
      case Malformed => return Malformed;
      case Pointer => return Pointer;
      case Got(qs, _) =>
        var records := reader.Records(ReadWord(buf, 6).value + ReadWord(buf, 8).value + ReadWord(buf, 10).value);
        match records {
          case Malformed => return Malformed;
          case Pointer => return Pointer;
          case Got(rs, _) => r := Got(ParsedMessage(flags >= 0x8000, qs, rs), reader.at);
        }
    }
  }
}

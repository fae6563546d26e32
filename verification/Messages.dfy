/** DNS messages: the header, the question section, and the parser and printer as functions of octets. */
module Messages {
  import opened Wire
  import opened Names
  import opened NameEncoding

  /** The 12-octet header of section 4.1.1 of RFC 1035, with the flag word unpacked. */
  datatype Header = Header(
    id: U16,
    response: bool,
    opcode: Byte,
    authoritative: bool,
    truncated: bool,
    recursionDesired: bool,
    recursionAvailable: bool,
    rcode: Byte,
    questionCount: U16,
    answerCount: U16,
    authorityCount: U16,
    additionalCount: U16
  )

  datatype Question = Question(name: seq<Byte>, qtype: U16, qclass: U16)

  datatype Message = Message(header: Header, questions: seq<Question>)

  const WIRE_SIZE: nat := 12

  // ----- Header ---------------------------------------------------------------

  function Bit(b: bool): (r: int)
  {
    if b then 1 else 0
  }

  /** The flag word; only the low four bits of the two codes are kept. */
  function FlagWord(h: Header): (flags: U16)
  {
    Bit(h.response) * 0x8000 + (h.opcode % 16) * 0x800 + Bit(h.authoritative) * 0x400 + Bit(h.truncated) * 0x200
    + Bit(h.recursionDesired) * 0x100 + Bit(h.recursionAvailable) * 0x80 + h.rcode % 16
  }

  function HeaderBytes(h: Header): (bytes: seq<Byte>)
    ensures |bytes| == WIRE_SIZE
  {
    U16Bytes(h.id) + U16Bytes(FlagWord(h)) + U16Bytes(h.questionCount)
    + U16Bytes(h.answerCount) + U16Bytes(h.authorityCount) + U16Bytes(h.additionalCount)
  }

  /** The header that six words stand for; the three Z bits of the flag word are ignored. */
  function Unpack(id: U16, flags: U16, qd: U16, an: U16, ns: U16, ar: U16): (h: Header)
  {
    Header(id, flags / 0x8000 == 1, (flags / 0x800) % 16, (flags / 0x400) % 2 == 1, (flags / 0x200) % 2 == 1,
           (flags / 0x100) % 2 == 1, (flags / 0x80) % 2 == 1, flags % 16, qd, an, ns, ar)
  }

  function HeaderAt(buffer: seq<Byte>, at: nat): (r: Option<Header>)
    ensures r.Some? <==> at + WIRE_SIZE <= |buffer|
  {
    if at + WIRE_SIZE > |buffer| then None
    else Some(Unpack(U16At(buffer, at).value, U16At(buffer, at + 2).value, U16At(buffer, at + 4).value,
                     U16At(buffer, at + 6).value, U16At(buffer, at + 8).value, U16At(buffer, at + 10).value))
  }

  /** The header with its two codes cut to four bits. */
  function Masked(h: Header): (r: Header)
  {
    h.(opcode := h.opcode % 16, rcode := h.rcode % 16)
  }

  lemma FlagDigits(r: int, op: int, aa: int, tc: int, rd: int, ra: int, rc: int)
    requires 0 <= r < 2 && 0 <= op < 16 && 0 <= aa < 2 && 0 <= tc < 2 && 0 <= rd < 2 && 0 <= ra < 2 && 0 <= rc < 16
    ensures var f := r * 0x8000 + op * 0x800 + aa * 0x400 + tc * 0x200 + rd * 0x100 + ra * 0x80 + rc;
      f / 0x8000 == r && (f / 0x800) % 16 == op && (f / 0x400) % 2 == aa && (f / 0x200) % 2 == tc
      && (f / 0x100) % 2 == rd && (f / 0x80) % 2 == ra && f % 16 == rc
  {
    var f := r * 0x8000 + op * 0x800 + aa * 0x400 + tc * 0x200 + rd * 0x100 + ra * 0x80 + rc;
    assert f / 0x800 == r * 16 + op;
    assert f / 0x400 == (r * 16 + op) * 2 + aa;
    assert f / 0x200 == (r * 32 + op * 2 + aa) * 2 + tc;
    assert f / 0x100 == (r * 64 + op * 4 + aa * 2 + tc) * 2 + rd;
    assert f / 0x80 == (r * 128 + op * 8 + aa * 4 + tc * 2 + rd) * 2 + ra;
  }

  lemma FlagsRoundTrip(h: Header)
    ensures Unpack(h.id, FlagWord(h), h.questionCount, h.answerCount, h.authorityCount, h.additionalCount) == Masked(h)
  {
    FlagDigits(Bit(h.response), h.opcode % 16, Bit(h.authoritative), Bit(h.truncated),
               Bit(h.recursionDesired), Bit(h.recursionAvailable), h.rcode % 16);
  }

  lemma HeldWord(buffer: seq<Byte>, at: nat, n: U16)
    requires Holds(buffer, at, U16Bytes(n))
    ensures U16At(buffer, at) == Some(n)
  {
    var word := buffer[at..at + 2];
    assert word[0] == buffer[at] && word[1] == buffer[at + 1];
  }

  lemma HeldHeader(buffer: seq<Byte>, h: Header)
    requires HeaderBytes(h) <= buffer
    ensures HeaderAt(buffer, 0) == Some(Masked(h))
  {
    forall i | 0 <= i < WIRE_SIZE ensures buffer[i] == HeaderBytes(h)[i] {
    }
    FlagsRoundTrip(h);
  }

  // ----- Questions ----------------------------------------------------------------

  datatype QuestionsAt = QuestionsAt(questions: seq<Question>, end: nat)

  function ParseQuestion(buffer: seq<Byte>, at: nat): (r: Option<(Question, nat)>)
    requires at <= |buffer|
    ensures r.Some? ==> r.value.1 <= |buffer|
  {
    var labels := WalkLabels(buffer, at, |buffer|);
    var end := WalkEnd(buffer, at, at, |buffer|);
    if labels.None? || end + 4 > |buffer| then None
    else Some((Question(Join(labels.value), U16At(buffer, end).value, U16At(buffer, end + 2).value), end + 4))
  }

  function ParseQuestions(buffer: seq<Byte>, at: nat, count: nat): (r: Option<QuestionsAt>)
    requires at <= |buffer|
    ensures r.Some? ==> |r.value.questions| == count && r.value.end <= |buffer|
    decreases count
  {
    if count == 0 then Some(QuestionsAt([], at))
    else
      var first := ParseQuestion(buffer, at);
      if first.None? then None
      else
        var rest := ParseQuestions(buffer, first.value.1, count - 1);
        if rest.None? then None
        else Some(QuestionsAt([first.value.0] + rest.value.questions, rest.value.end))
  }

  predicate Encodable(questions: seq<Question>) {
    forall i :: 0 <= i < |questions| ==> Encode(questions[i].name).ok
  }

  function QuestionBytes(q: Question): (bytes: seq<Byte>)
    ensures |bytes| >= 4
  {
    Encode(q.name).bytes + (U16Bytes(q.qtype) + U16Bytes(q.qclass))
  }

  function QuestionsBytes(questions: seq<Question>): (bytes: seq<Byte>)
  {
    if questions == [] then [] else QuestionBytes(questions[0]) + QuestionsBytes(questions[1..])
  }

  lemma {:induction false} QuestionsBytesAppend(a: seq<Question>, b: seq<Question>)
    ensures QuestionsBytes(a + b) == QuestionsBytes(a) + QuestionsBytes(b)
  {
    if a == [] {
      assert a + b == b;
    } else {
      QuestionsBytesAppend(a[1..], b);
      assert (a + b)[1..] == a[1..] + b;
      ConcatAssociates(QuestionBytes(a[0]), QuestionsBytes(a[1..]), QuestionsBytes(b));
    }
  }

  lemma NoQuestions()
    ensures QuestionsBytes([]) == []
  {
  }

  lemma QuestionsBytesSnoc(questions: seq<Question>, q: Question)
    ensures QuestionsBytes(questions + [q]) == QuestionsBytes(questions) + QuestionBytes(q)
  {
    QuestionsBytesAppend(questions, [q]);
    assert [q][1..] == [];
    assert QuestionsBytes([q]) == QuestionBytes(q) + QuestionsBytes([]);
  }

  function UndottedQuestions(questions: seq<Question>): (r: seq<Question>)
    ensures |r| == |questions|
  {
    if questions == [] then []
    else [questions[0].(name := Undotted(questions[0].name))] + UndottedQuestions(questions[1..])
  }

  predicate NoneEndsInDot(questions: seq<Question>) {
    forall i :: 0 <= i < |questions| ==> !EndsInDot(questions[i].name)
  }

  lemma {:induction false} UndottedIdentity(questions: seq<Question>)
    ensures UndottedQuestions(questions) == questions <==> NoneEndsInDot(questions)
  {
    if questions != [] {
      var q, rest := questions[0], questions[1..];
      UndottedIdentity(rest);
      assert questions == [q] + rest;
      assert EndsInDot(q.name) ==> |Undotted(q.name)| < |q.name|;
      assert NoneEndsInDot(questions) <==> !EndsInDot(q.name) && NoneEndsInDot(rest);
      assert UndottedQuestions(questions)[1..] == UndottedQuestions(rest);
    }
  }

  /** What the parts of a question, read in turn, parse to. */
  lemma ParseQuestionOf(buffer: seq<Byte>, at: nat, labels: seq<Label>, end: nat, qtype: U16, qclass: U16)
    requires at <= |buffer|
    requires WalkLabels(buffer, at, |buffer|) == Some(labels) && WalkEnd(buffer, at, at, |buffer|) == end
    requires U16At(buffer, end) == Some(qtype) && U16At(buffer, end + 2) == Some(qclass)
    ensures ParseQuestion(buffer, at) == Some((Question(Join(labels), qtype, qclass), end + 4))
  {
    hide WalkLabels, WalkEnd, Join;
  }

  lemma HeldQuestion(buffer: seq<Byte>, at: nat, q: Question)
    requires Encode(q.name).ok && Holds(buffer, at, QuestionBytes(q))
    ensures ParseQuestion(buffer, at) == Some((q.(name := Undotted(q.name)), at + |QuestionBytes(q)|))
  {
    hide Encode, WireName, WalkLabels, WalkEnd, Join, ParseQuestion;
    var name := Encode(q.name).bytes;
    HoldsParts(buffer, at, name, U16Bytes(q.qtype) + U16Bytes(q.qclass));
    HoldsParts(buffer, at + |name|, U16Bytes(q.qtype), U16Bytes(q.qclass));
    HeldWord(buffer, at + |name|, q.qtype);
    HeldWord(buffer, at + |name| + 2, q.qclass);
    var labels := EncodeSplits(q.name);
    WireNameReads(buffer, at, labels);
    SpellsUndotted(labels, q.name);
    ParseQuestionOf(buffer, at, labels, at + |name|, q.qtype, q.qclass);
  }

  /** The questions read so far, followed by what the rest parses to. */
  function After(read: seq<Question>, rest: Option<QuestionsAt>): (r: Option<QuestionsAt>)
  {
    if rest.None? then None else Some(QuestionsAt(read + rest.value.questions, rest.value.end))
  }

  /** One turn of the parser's loop. */
  lemma AfterStep(read: seq<Question>, buffer: seq<Byte>, at: nat, count: nat)
    requires at <= |buffer| && count > 0
    ensures var q := ParseQuestion(buffer, at);
      After(read, ParseQuestions(buffer, at, count)) ==
        if q.None? then None else After(read + [q.value.0], ParseQuestions(buffer, q.value.1, count - 1))
  {
    hide ParseQuestion;
    var q := ParseQuestion(buffer, at);
    if q.Some? {
      var rest := ParseQuestions(buffer, q.value.1, count - 1);
      if rest.Some? {
        assert read + ([q.value.0] + rest.value.questions) == (read + [q.value.0]) + rest.value.questions;
      }
    }
  }

  lemma AfterNone(buffer: seq<Byte>, at: nat, count: nat)
    requires at <= |buffer|
    ensures After([], ParseQuestions(buffer, at, count)) == ParseQuestions(buffer, at, count)
  {
    var r := ParseQuestions(buffer, at, count);
    assert r.Some? ==> [] + r.value.questions == r.value.questions;
  }

  lemma AfterAll(read: seq<Question>, buffer: seq<Byte>, at: nat)
    requires at <= |buffer|
    ensures After(read, ParseQuestions(buffer, at, 0)) == Some(QuestionsAt(read, at))
  {
    assert read + [] == read;
  }

  lemma ParseQuestionsCons(buffer: seq<Byte>, at: nat, first: Question, next: nat, rest: QuestionsAt)
    requires at <= |buffer| && ParseQuestion(buffer, at) == Some((first, next))
    requires ParseQuestions(buffer, next, |rest.questions|) == Some(rest)
    ensures ParseQuestions(buffer, at, |rest.questions| + 1) == Some(QuestionsAt([first] + rest.questions, rest.end))
  {
  }

  lemma {:induction false} HeldQuestions(buffer: seq<Byte>, at: nat, questions: seq<Question>)
    requires Encodable(questions) && Holds(buffer, at, QuestionsBytes(questions))
    ensures ParseQuestions(buffer, at, |questions|)
         == Some(QuestionsAt(UndottedQuestions(questions), at + |QuestionsBytes(questions)|))
    decreases |questions|
  {
    hide ParseQuestion, QuestionBytes;
    if questions == [] {
      return;
    }
    var q, rest := questions[0], questions[1..];
    var next := at + |QuestionBytes(q)|;
    var found := QuestionsAt(UndottedQuestions(rest), next + |QuestionsBytes(rest)|);
    assert ParseQuestion(buffer, at) == Some((q.(name := Undotted(q.name)), next))
        && ParseQuestions(buffer, next, |rest|) == Some(found) by {
      HoldsParts(buffer, at, QuestionBytes(q), QuestionsBytes(rest));
      HeldQuestion(buffer, at, q);
      HeldQuestions(buffer, next, rest);
    }
    ParseQuestionsCons(buffer, at, q.(name := Undotted(q.name)), next, found);
  }

  // ----- Whole messages ------------------------------------------------------------

  /** A parsed message and the position at which the cursor was left. */
  datatype ParsedAt = ParsedAt(message: Message, end: nat)

  function ParseAt(buffer: seq<Byte>): (r: Option<ParsedAt>)
    ensures r.Some? ==> WIRE_SIZE <= r.value.end <= |buffer|
  {
    var header := HeaderAt(buffer, 0);
    if header.None? then None
    else
      var questions := ParseQuestions(buffer, WIRE_SIZE, header.value.questionCount);
      if questions.None? then None
      else
        QuestionsAdvance(buffer, WIRE_SIZE, header.value.questionCount);
        Some(ParsedAt(Message(header.value, questions.value.questions), questions.value.end))
  }

  function Parse(buffer: seq<Byte>): (r: Option<Message>)
  {
    var parsed := ParseAt(buffer);
    if parsed.None? then None else Some(parsed.value.message)
  }

  lemma {:induction false} QuestionsAdvance(buffer: seq<Byte>, at: nat, count: nat)
    requires at <= |buffer|
    ensures ParseQuestions(buffer, at, count).Some? ==> at <= ParseQuestions(buffer, at, count).value.end
    decreases count
  {
    if count > 0 && ParseQuestion(buffer, at).Some? {
      WalkBounds(buffer, at, at, |buffer|);
      QuestionsAdvance(buffer, ParseQuestion(buffer, at).value.1, count - 1);
    }
  }

  /** The header as written: the question count is the number of questions cut to 16 bits. */
  function OutHeader(m: Message): (h: Header)
  {
    m.header.(questionCount := |m.questions| % 0x1_0000)
  }

  function Serialize(m: Message): (r: Option<seq<Byte>>)
  {
    if Encodable(m.questions) then Some(HeaderBytes(OutHeader(m)) + QuestionsBytes(m.questions)) else None
  }

  /** The message that a serialized message reads back as. */
  function ReadBack(m: Message): (r: Message)
  {
    Message(Masked(OutHeader(m)), UndottedQuestions(m.questions[..|m.questions| % 0x1_0000]))
  }

  function Contents(h: Header): (r: Header)
  {
    h.(questionCount := 0, answerCount := 0, authorityCount := 0, additionalCount := 0)
  }

  /** Equality of messages: the four section counts do not take part. */
  predicate SameMessage(a: Message, b: Message) {
    Contents(a.header) == Contents(b.header) && a.questions == b.questions
  }

  /** Two messages are the same exactly when id, flags, both codes and the questions agree. */
  lemma SameMessageExactly(a: Message, b: Message)
    ensures SameMessage(a, b) <==>
      && a.header.id == b.header.id && a.header.response == b.header.response && a.header.opcode == b.header.opcode
      && a.header.authoritative == b.header.authoritative && a.header.truncated == b.header.truncated
      && a.header.recursionDesired == b.header.recursionDesired
      && a.header.recursionAvailable == b.header.recursionAvailable && a.header.rcode == b.header.rcode
      && a.questions == b.questions
  {
  }

  /** Any buffer that starts with the header and the counted questions of `m` reads back as ReadBack(m). */
  lemma ReadBackFrom(m: Message, buffer: seq<Byte>)
    requires Encodable(m.questions)
    requires var sent := m.questions[..|m.questions| % 0x1_0000];
      HeaderBytes(OutHeader(m)) + QuestionsBytes(sent) <= buffer
    ensures var sent := m.questions[..|m.questions| % 0x1_0000];
      ParseAt(buffer) == Some(ParsedAt(ReadBack(m), WIRE_SIZE + |QuestionsBytes(sent)|))
  {
    hide HeaderBytes, QuestionsBytes, HeaderAt, ParseQuestions;
    var sent := m.questions[..|m.questions| % 0x1_0000];
    var head, tail := HeaderBytes(OutHeader(m)), QuestionsBytes(sent);
    assert Holds(buffer, 0, head + tail);
    HoldsParts(buffer, 0, head, tail);
    HeldHeader(buffer, OutHeader(m));
    HeldQuestions(buffer, WIRE_SIZE, sent);
  }

  lemma SplitSent(m: Message)
    ensures var sent := |m.questions| % 0x1_0000;
      QuestionsBytes(m.questions) == QuestionsBytes(m.questions[..sent]) + QuestionsBytes(m.questions[sent..])
  {
    var sent := |m.questions| % 0x1_0000;
    QuestionsBytesAppend(m.questions[..sent], m.questions[sent..]);
    assert m.questions == m.questions[..sent] + m.questions[sent..];
  }

  /** What every serializable message reads back as, and where the cursor ends. */
  lemma SerializeParses(m: Message)
    requires Serialize(m).Some?
    ensures var sent := m.questions[..|m.questions| % 0x1_0000];
      ParseAt(Serialize(m).value) == Some(ParsedAt(ReadBack(m), WIRE_SIZE + |QuestionsBytes(sent)|))
    ensures |m.questions| < 0x1_0000 ==> ParseAt(Serialize(m).value).value.end == |Serialize(m).value|
  {
    hide HeaderBytes, QuestionsBytes, ParseAt, ReadBack;
    SplitSent(m);
    ReadBackFrom(m, Serialize(m).value);
    if |m.questions| < 0x1_0000 {
      assert m.questions[..|m.questions|] == m.questions;
    }
  }

  /** Exactly which messages survive the round trip as equal messages. */
  predicate Faithful(m: Message) {
    && m.header.opcode < 16
    && m.header.rcode < 16
    && |m.questions| < 0x1_0000
    && NoneEndsInDot(m.questions)
  }

  lemma ReadBackSame(m: Message)
    ensures SameMessage(ReadBack(m), m) <==> Faithful(m)
  {
    if |m.questions| < 0x1_0000 {
      assert m.questions[..|m.questions|] == m.questions;
      UndottedIdentity(m.questions);
    }
  }

  lemma RoundTrip(m: Message)
    requires Serialize(m).Some?
    ensures Parse(Serialize(m).value).Some?
    ensures SameMessage(Parse(Serialize(m).value).value, m) <==> Faithful(m)
  {
    SerializeParses(m);
    ReadBackSame(m);
  }

  // ----- Extension and truncation ------------------------------------------------------

  lemma {:induction false} QuestionsStable(buffer: seq<Byte>, at: nat, count: nat, suffix: seq<Byte>)
    requires at <= |buffer| && ParseQuestions(buffer, at, count).Some?
    ensures ParseQuestions(buffer + suffix, at, count) == ParseQuestions(buffer, at, count)
    decreases count
  {
    if count > 0 {
      var end := WalkEnd(buffer, at, at, |buffer|);
      WalkStable(buffer, at, suffix);
      U16Stable(buffer, end, suffix);
      U16Stable(buffer, end + 2, suffix);
      QuestionsStable(buffer, end + 4, count - 1, suffix);
    }
  }

  /** Octets after a message that parses do not change what it parses to. */
  lemma ParseStable(buffer: seq<Byte>, suffix: seq<Byte>)
    requires ParseAt(buffer).Some?
    ensures ParseAt(buffer + suffix) == ParseAt(buffer)
  {
    forall i: nat | i + 2 <= WIRE_SIZE ensures U16At(buffer + suffix, i) == U16At(buffer, i) {
      U16Stable(buffer, i, suffix);
    }
    QuestionsStable(buffer, WIRE_SIZE, HeaderAt(buffer, 0).value.questionCount, suffix);
  }

  /** No strict prefix of a serialized message parses, exactly when the question count fits 16 bits. */
  lemma TruncationDetected(m: Message)
    requires Serialize(m).Some?
    ensures var bytes := Serialize(m).value;
      (forall k :: 0 <= k < |bytes| ==> Parse(bytes[..k]).None?) <==> |m.questions| < 0x1_0000
  {
    var bytes := Serialize(m).value;
    SerializeParses(m);
    if |m.questions| < 0x1_0000 {
      forall k | 0 <= k < |bytes| ensures Parse(bytes[..k]).None? {
        assert bytes[..k] + bytes[k..] == bytes;
        if ParseAt(bytes[..k]).Some? {
          ParseStable(bytes[..k], bytes[k..]);
        }
      }
    } else {
      SplitSent(m);
      var sent := |m.questions| % 0x1_0000;
      var k := WIRE_SIZE + |QuestionsBytes(m.questions[..sent])|;
      assert bytes[..k] == HeaderBytes(OutHeader(m)) + QuestionsBytes(m.questions[..sent]);
      ReadBackFrom(m, bytes[..k]);
      assert m.questions[sent..] != [];
    }
  }

  // ----- Decompression --------------------------------------------------------------------

  lemma {:induction false} ParsedNames(buffer: seq<Byte>, at: nat, count: nat)
    requires at <= |buffer| && ParseQuestions(buffer, at, count).Some?
    ensures forall i :: 0 <= i < count ==> NoLongLabel(ParseQuestions(buffer, at, count).value.questions[i].name)
    decreases count
  {
    hide NoLongLabel, WalkLabels, WalkEnd, Join;
    if count > 0 {
      var end := WalkEnd(buffer, at, at, |buffer|);
      WalkLabelsShort(buffer, at, |buffer|);
      JoinHasNoLongLabel(WalkLabels(buffer, at, |buffer|).value);
      ParsedNames(buffer, end + 4, count - 1);
    }
  }

  /** No label between the dots of the name is empty, and no dot ends it. */
  predicate Tidy(name: seq<Byte>) {
    NoEmptyLabel(name) && !EndsInDot(name)
  }

  lemma ReadBackIdentity(m: Message)
    requires m.header.questionCount == |m.questions| && m.header.opcode < 16 && m.header.rcode < 16
    ensures ReadBack(m) == m <==> NoneEndsInDot(m.questions)
  {
    assert m.questions[..|m.questions|] == m.questions;
    UndottedIdentity(m.questions);
  }

  /**
   * Serializing a parsed message undoes all compression and reparses to the very same message,
   * exactly when every name is tidy. The original may use any pointers and any Z bits.
   */
  lemma DecompressionNormalises(datagram: seq<Byte>)
    requires Parse(datagram).Some?
    ensures var m := Parse(datagram).value;
      (Serialize(m).Some? && Parse(Serialize(m).value) == Some(m))
      <==> forall i :: 0 <= i < |m.questions| ==> Tidy(m.questions[i].name)
  {
    var m := Parse(datagram).value;
    ParsedNames(datagram, WIRE_SIZE, m.header.questionCount);
    forall i | 0 <= i < |m.questions|
      ensures Encode(m.questions[i].name).ok <==> NoEmptyLabel(m.questions[i].name)
    {
      AcceptedLocally(m.questions[i].name);
    }
    ReadBackIdentity(m);
    if Serialize(m).Some? {
      SerializeParses(m);
    }
  }

  /** Labels without a dot octet always join to a tidy name, so ordinary compressed messages normalise. */
  lemma DotFreeLabelsAreTidy(labels: seq<Label>)
    requires Proper(labels)
    ensures Tidy(Join(labels))
  {
    EncodeOfSpelling(labels, Join(labels));
    AcceptedLocally(Join(labels));
    JoinEnd(labels);
  }

  /** The walks of the questions give labels without a dot octet. */
  predicate ProperWalks(buffer: seq<Byte>, at: nat, count: nat)
    requires at <= |buffer|
    decreases count
  {
    count > 0 ==>
      var labels, end := WalkLabels(buffer, at, |buffer|), WalkEnd(buffer, at, at, |buffer|);
      && (labels.Some? ==> Proper(labels.value))
      && (end + 4 <= |buffer| ==> ProperWalks(buffer, end + 4, count - 1))
  }

  lemma {:induction false} ProperNamesTidy(buffer: seq<Byte>, at: nat, count: nat)
    requires at <= |buffer| && ParseQuestions(buffer, at, count).Some? && ProperWalks(buffer, at, count)
    ensures forall i :: 0 <= i < count ==> Tidy(ParseQuestions(buffer, at, count).value.questions[i].name)
    decreases count
  {
    hide Tidy;
    if count > 0 {
      DotFreeLabelsAreTidy(WalkLabels(buffer, at, |buffer|).value);
      ProperNamesTidy(buffer, WalkEnd(buffer, at, at, |buffer|) + 4, count - 1);
    }
  }

  /** A datagram whose question labels hold no dot octet, however compressed, normalises. */
  lemma OrdinaryDatagramNormalises(datagram: seq<Byte>)
    requires Parse(datagram).Some? && ProperWalks(datagram, WIRE_SIZE, Parse(datagram).value.header.questionCount)
    ensures var m := Parse(datagram).value; Serialize(m).Some? && Parse(Serialize(m).value) == Some(m)
  {
    hide Tidy, Serialize;
    ProperNamesTidy(datagram, WIRE_SIZE, Parse(datagram).value.header.questionCount);
    DecompressionNormalises(datagram);
  }
}

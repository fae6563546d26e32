/** The reader, the writer and the message codec as the source runs them: cursors, loops and a growing buffer. */
module Codec {
  import opened Wire
  import opened Names
  import opened NameEncoding
  import opened Messages

  function Joined(labels: Option<seq<Label>>): (r: Option<seq<Byte>>)
  {
    if labels.None? then None else Some(Join(labels.value))
  }

  /** A forward cursor over a datagram. */
  class Reader {
    const buffer: seq<Byte>
    var position: nat

    ghost predicate Valid()
      reads this
    {
      position <= |buffer|
    }

    constructor (buffer: seq<Byte>)
      ensures Valid() && this.buffer == buffer && position == 0
    {
      this.buffer := buffer;
      position := 0;
    }

    method ReadU16() returns (r: Option<U16>)
      requires Valid()
      modifies this
      ensures Valid()
      ensures r == U16At(buffer, old(position))
      ensures position == if r.Some? then old(position) + 2 else old(position)
    {
      if |buffer| - position < 2 {
        return None;
      }
      var high: int := buffer[position];
      r := Some(high * 0x100 + buffer[position + 1]);
      position := position + 2;
    }

    /** The loop of read_name computes the walk, and moves the cursor just past the name. */
    method ReadName() returns (r: Option<seq<Byte>>)
      requires Valid()
      modifies this
      ensures Valid()
      ensures r == Joined(WalkLabels(buffer, old(position), |buffer|))
      ensures position == WalkEnd(buffer, old(position), old(position), |buffer|)
      ensures r.Some? ==> old(position) < position && |r.value| <= 64 * |buffer|
    {
      hide WalkLabels, WalkEnd, Join, Prefixed, ShortLabels;
      ghost var start := position;
      ghost var whole := WalkLabels(buffer, start, |buffer|);
      ghost var end := WalkEnd(buffer, start, start, |buffer|);
      WalkBounds(buffer, start, start, |buffer|);

      var name: seq<Byte> := [];
      ghost var read: seq<Label> := [];
      var cursor: nat := position;
      var jumped := false;
      var safety: nat := |buffer|;
      JoinNothing();
      PrefixedEnds([], whole);
      NoLabelsShort();
      while safety > 0
        invariant |read| + safety <= |buffer|
        invariant ShortLabels(read) && name == Join(read)
        invariant whole == Prefixed(read, WalkLabels(buffer, cursor, safety))
        invariant position == if jumped then end else start
        invariant jumped || WalkEnd(buffer, start, cursor, safety) == end
      {
        WalkStep(buffer, start, cursor, safety);
        PrefixedEnds(read, whole);
        safety := safety - 1;
        if cursor >= |buffer| {
          return None;
        }
        var length: int := buffer[cursor];
        if length >= 192 {
          if cursor + 1 >= |buffer| {
            return None;
          }
          var target := (length - 192) * 0x100 + buffer[cursor + 1];
          if !jumped {
            position := cursor + 2;
            jumped := true;
          }
          cursor := target;
          continue;
        }
        if length >= 64 {
          return None;
        }
        cursor := cursor + 1;
        if length == 0 {
          if !jumped {
            position := cursor;
          }
          JoinLength(read);
          return Some(name);
        }
        if cursor + length > |buffer| {
          return None;
        }
        ghost var text := buffer[cursor..cursor + length];
        JoinSnoc(read, text);
        ShortSnoc(read, text);
        PrefixedStep(read, text, WalkLabels(buffer, cursor + length, safety));
        if name != [] {
          name := name + [DOT];
        }
        name := AppendText(name, cursor, length);
        cursor := cursor + length;
        read := read + [text];
      }
      WalkExhausted(buffer, start, cursor);
      PrefixedEnds(read, whole);
      return None;
    }

    /** The octet-by-octet copy of a label. */
    method AppendText(name: seq<Byte>, cursor: nat, length: nat) returns (r: seq<Byte>)
      requires cursor + length <= |buffer|
      ensures r == name + buffer[cursor..cursor + length]
    {
      r := name;
      for i := 0 to length
        invariant r == name + buffer[cursor..cursor + i]
      {
        r := r + [buffer[cursor + i]];
      }
    }

    method ReadQuestion() returns (r: Option<Question>)
      requires Valid()
      modifies this
      ensures Valid()
      ensures r.None? <==> ParseQuestion(buffer, old(position)).None?
      ensures r.Some? ==> ParseQuestion(buffer, old(position)) == Some((r.value, position))
    {
      WalkBounds(buffer, position, position, |buffer|);
      var name := ReadName();
      var qtype := ReadU16();
      var qclass := ReadU16();
      if name.None? || qtype.None? || qclass.None? {
        return None;
      }
      return Some(Question(name.value, qtype.value, qclass.value));
    }

    method ReadHeader() returns (r: Option<Header>)
      requires Valid()
      modifies this
      ensures Valid()
      ensures r == HeaderAt(buffer, old(position))
      // a short header is read word by word as far as it goes
      ensures position == old(position) + if r.Some? then WIRE_SIZE else (|buffer| - old(position)) / 2 * 2
    {
      var id := ReadU16();
      var flags := ReadU16();
      var qd := ReadU16();
      var an := ReadU16();
      var ns := ReadU16();
      var ar := ReadU16();
      if id.None? || flags.None? || qd.None? || an.None? || ns.None? || ar.None? {
        return None;
      }
      return Some(Unpack(id.value, flags.value, qd.value, an.value, ns.value, ar.value));
    }
  }

  /** A growing output buffer. */
  class Writer {
    var bytes: seq<Byte>

    constructor ()
      ensures bytes == []
    {
      bytes := [];
    }

    method WriteU8(value: Byte)
      modifies this
      ensures bytes == old(bytes) + [value]
    {
      bytes := bytes + [value];
    }

    method WriteU16(value: U16)
      modifies this
      ensures bytes == old(bytes) + U16Bytes(value)
    {
      WriteU8(value / 0x100);
      WriteU8(value % 0x100);
    }

    /** The loop of write_name; on refusal the labels before the bad one have already been written. */
    method WriteName(name: seq<Byte>) returns (ok: bool)
      modifies this
      ensures ok == Encode(name).ok
      ensures bytes == old(bytes) + Encode(name).bytes
    {
      hide Encode;
      ghost var goal := bytes + Encode(name).bytes;
      var start := 0;
      assert name[0..] == name;
      while start < |name|
        invariant 0 <= start <= |name|
        invariant bytes + Encode(name[start..]).bytes == goal
        invariant Encode(name[start..]).ok == Encode(name).ok
      {
        var dot := Find(name, start);
        var end := if dot.None? then |name| else dot.value;
        var length := end - start;
        EncodeStep(name, start, end);
        if length == 0 || length > 63 {
          return false;
        }
        ghost var before := bytes;
        ghost var piece := [length] + name[start..end];
        ghost var after := if dot.None? then [0] else Encode(name[end + 1..]).bytes;
        WriteU8(length);
        WriteText(name, start, end);
        assert bytes == before + piece;
        ConcatAssociates(before, piece, after);
        if dot.None? {
          WriteU8(0);
          return true;
        }
        start := end + 1;
      }
      assert name[start..] == [];
      EncodeEmpty();
      WriteU8(0);
      return true;
    }

    method WriteText(name: seq<Byte>, start: nat, end: nat)
      requires start <= end <= |name|
      modifies this
      ensures bytes == old(bytes) + name[start..end]
    {
      for i := start to end
        invariant bytes == old(bytes) + name[start..i]
      {
        WriteU8(name[i]);
      }
    }

    method WriteHeader(h: Header)
      modifies this
      ensures bytes == old(bytes) + HeaderBytes(h)
    {
      WriteU16(h.id);
      WriteU16(FlagWord(h));
      WriteU16(h.questionCount);
      WriteU16(h.answerCount);
      WriteU16(h.authorityCount);
      WriteU16(h.additionalCount);
    }
  }

  /** The first dot at or after `start`. */
  method Find(name: seq<Byte>, start: nat) returns (r: Option<nat>)
    requires start <= |name|
    ensures r.Some? ==> start <= r.value < |name| && name[r.value] == DOT && DOT !in name[start..r.value]
    ensures r.None? ==> DOT !in name[start..]
  {
    for i := start to |name|
      invariant DOT !in name[start..i]
    {
      if name[i] == DOT {
        return Some(i);
      }
    }
    return None;
  }

  method ParseMessage(datagram: seq<Byte>) returns (r: Option<Message>)
    ensures r == Parse(datagram)
  {
    hide ParseQuestion, ParseQuestions, HeaderAt, After;
    var reader := new Reader(datagram);
    var header := reader.ReadHeader();
    if header.None? {
      return None;
    }
    var count := header.value.questionCount;
    var questions: seq<Question> := [];
    ghost var whole := ParseQuestions(datagram, WIRE_SIZE, count);
    AfterNone(datagram, WIRE_SIZE, count);
    for i := 0 to count
      invariant reader.Valid() && reader.buffer == datagram
      invariant After(questions, ParseQuestions(datagram, reader.position, count - i)) == whole
    {
      AfterStep(questions, datagram, reader.position, count - i);
      var q := reader.ReadQuestion();
      if q.None? {
        return None;
      }
      questions := questions + [q.value];
    }
    AfterAll(questions, datagram, reader.position);
    return Some(Message(header.value, questions));
  }

  method SerializeMessage(m: Message) returns (r: Option<seq<Byte>>)
    ensures r == Serialize(m)
  {
    hide HeaderBytes, Encode, QuestionsBytes;
    var writer := new Writer();
    writer.WriteHeader(OutHeader(m));
    assert m.questions[..0] == [] && QuestionsBytes([]) == [] by {
      NoQuestions();
    }
    for i := 0 to |m.questions|
      invariant Encodable(m.questions[..i])
      invariant writer.bytes == HeaderBytes(OutHeader(m)) + QuestionsBytes(m.questions[..i])
    {
      var q := m.questions[i];
      var ok := writer.WriteName(q.name);
      if !ok {
        return None;
      }
      writer.WriteU16(q.qtype);
      writer.WriteU16(q.qclass);
      QuestionsBytesSnoc(m.questions[..i], q);
      assert m.questions[..i + 1] == m.questions[..i] + [q];
    }
    assert m.questions[..|m.questions|] == m.questions;
    return Some(writer.bytes);
  }
}

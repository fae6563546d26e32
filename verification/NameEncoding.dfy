/** The uncompressed encoding of a dotted name (section 3.1 of RFC 1035), as the writer produces it. */
module NameEncoding {
  import opened Wire
  import opened Names

  /** What an encoding attempt appends, and whether it was accepted. */
  datatype Encoded = Encoded(ok: bool, bytes: seq<Byte>)

  /** The position of the first dot, or the length of the name. */
  function FirstDot(name: seq<Byte>): (end: nat)
    ensures end <= |name|
    ensures DOT !in name[..end]
    ensures end < |name| ==> name[end] == DOT
  {
    if name == [] || name[0] == DOT then 0 else 1 + FirstDot(name[1..])
  }

  function Encode(name: seq<Byte>): (r: Encoded)
    decreases |name|
  {
    if name == [] then Encoded(true, [0])
    else
      var end := FirstDot(name);
      if end == 0 || end > 63 then Encoded(false, [])
      else if end == |name| then Encoded(true, [end] + name[..end] + [0])
      else
        var rest := Encode(name[end + 1..]);
        Encoded(rest.ok, [end] + name[..end] + rest.bytes)
  }

  lemma EncodeEmpty()
    ensures Encode([]) == Encoded(true, [0])
  {
  }

  /** One turn of the writer's loop: the label from `start` stops at `end`. */
  lemma EncodeStep(name: seq<Byte>, start: nat, end: nat)
    requires start < |name| && start <= end <= |name| && DOT !in name[start..end]
    requires end < |name| ==> name[end] == DOT
    ensures var piece := [end - start] + name[start..end];
      Encode(name[start..]) ==
        if end == start || end - start > 63 then Encoded(false, [])
        else if end == |name| then Encoded(true, piece + [0])
        else Encoded(Encode(name[end + 1..]).ok, piece + Encode(name[end + 1..]).bytes)
  {
    var rest := name[start..];
    assert rest[..end - start] == name[start..end];
    FirstDotAt(rest, end - start);
    if end < |name| {
      assert rest[end - start + 1..] == name[end + 1..];
    }
  }

  // ----- Which names are accepted ----------------------------------------------

  predicate DotFree(labels: seq<Label>) {
    forall i :: 0 <= i < |labels| ==> DOT !in labels[i]
  }

  /** Labels of 1 to 63 octets, none holding a dot. */
  predicate Proper(labels: seq<Label>) {
    ShortLabels(labels) && DotFree(labels)
  }

  /** `name` is the dot-joined `labels`, with at most one trailing dot. */
  predicate Spells(labels: seq<Label>, name: seq<Byte>) {
    name == Join(labels) || (labels != [] && name == Join(labels) + [DOT])
  }

  function WireName(labels: seq<Label>): (bytes: seq<Byte>)
    requires ShortLabels(labels)
    ensures |bytes| > 0
  {
    if labels == [] then [0] else [|labels[0]|] + labels[0] + WireName(labels[1..])
  }

  lemma {:induction false} FirstDotAt(name: seq<Byte>, end: nat)
    requires end <= |name| && DOT !in name[..end]
    requires end < |name| ==> name[end] == DOT
    ensures FirstDot(name) == end
  {
  }

  lemma {:induction false} EncodeSplits(name: seq<Byte>) returns (labels: seq<Label>)
    requires Encode(name).ok
    ensures Proper(labels) && Spells(labels, name)
    ensures Encode(name).bytes == WireName(labels)
    decreases |name|
  {
    if name == [] {
      labels := [];
      return;
    }
    var end := FirstDot(name);
    var head := name[..end];
    if end == |name| {
      labels := [name];
      assert name[..end] == name;
      assert labels[1..] == [];
      assert WireName([]) == [0];
    } else {
      var rest := EncodeSplits(name[end + 1..]);
      labels := [head] + rest;
      assert labels[1..] == rest;
      assert name == head + [DOT] + name[end + 1..];
      if rest != [] {
        assert Join(labels) == head + [DOT] + Join(rest);
        assert Join(labels) + [DOT] == head + [DOT] + (Join(rest) + [DOT]);
      }
    }
  }

  lemma {:induction false} EncodeOfSpelling(labels: seq<Label>, name: seq<Byte>)
    requires Proper(labels) && Spells(labels, name)
    ensures Encode(name) == Encoded(true, WireName(labels))
    decreases |labels|
  {
    if labels == [] {
      return;
    }
    var head, tail := labels[0], labels[1..];
    var rest := if name == head then [] else name[|head| + 1..];
    if |labels| == 1 {
      assert rest == [];
      assert name == head || name == head + [DOT];
      assert tail == [];
    } else {
      assert Join(labels) + [DOT] == head + [DOT] + (Join(tail) + [DOT]);
      assert rest == Join(tail) || rest == Join(tail) + [DOT];
      assert name == head + [DOT] + rest;
    }
    assert name[..|head|] == head;
    FirstDotAt(name, |head|);
    EncodeOfSpelling(tail, rest);
  }

  /** write_name succeeds exactly on dot-joined labels of 1 to 63 octets with at most one trailing dot. */
  lemma AcceptedExactly(name: seq<Byte>)
    ensures Encode(name).ok <==> exists labels: seq<Label> :: Proper(labels) && Spells(labels, name)
  {
    if Encode(name).ok {
      var labels := EncodeSplits(name);
    }
    if labels: seq<Label> :| Proper(labels) && Spells(labels, name) {
      EncodeOfSpelling(labels, name);
    }
  }

  // ----- A local test for acceptance ---------------------------------------------

  /** No label between dots is empty; a single trailing dot is allowed. */
  predicate NoEmptyLabel(name: seq<Byte>) {
    (name != [] ==> name[0] != DOT) &&
    forall i :: 0 < i < |name| && name[i] == DOT ==> name[i - 1] != DOT
  }

  predicate DotWithin(name: seq<Byte>, i: nat) {
    i + 64 <= |name| ==> DOT in name[i..i + 64]
  }

  /** Every 64 consecutive octets hold a dot, so no label is longer than 63. */
  ghost predicate NoLongLabel(name: seq<Byte>) {
    forall i: nat :: DotWithin(name, i)
  }

  lemma NoEmptyLabelSplit(head: seq<Byte>, rest: seq<Byte>)
    requires DOT !in head
    ensures NoEmptyLabel(head + [DOT] + rest) <==> head != [] && NoEmptyLabel(rest)
  {
    var name := head + [DOT] + rest;
    assert forall i :: 0 <= i < |head| ==> name[i] == head[i] && name[i] != DOT;
    assert forall i :: 0 <= i < |rest| ==> name[|head| + 1 + i] == rest[i];
    assert name[|head|] == DOT;
    if NoEmptyLabel(name) {
      forall i | 0 < i < |rest| && rest[i] == DOT ensures rest[i - 1] != DOT {
        var k := |head| + 1 + i;
        assert name[k] == DOT && name[k - 1] == rest[i - 1];
      }
      assert rest != [] ==> name[|head| + 1] == rest[0];
    }
    if head != [] && NoEmptyLabel(rest) {
      forall i | 0 < i < |name| && name[i] == DOT ensures name[i - 1] != DOT {
        if i > |head| {
          assert name[i] == rest[i - |head| - 1];
        }
      }
    }
  }

  lemma NoLongLabelHead(head: seq<Byte>, rest: seq<Byte>)
    requires DOT !in head && NoLongLabel(head + [DOT] + rest)
    ensures |head| <= 63 && NoLongLabel(rest)
  {
    var name := head + [DOT] + rest;
    assert DotWithin(name, 0);
    assert forall i :: 0 <= i < |head| ==> name[i] == head[i];
    forall i: nat ensures DotWithin(rest, i) {
      if i + 64 <= |rest| {
        var k := |head| + 1 + i;
        assert DotWithin(name, k);
        assert name[|head| + 1..] == rest;
        assert name[k..k + 64] == name[|head| + 1..][i..i + 64];
      }
    }
  }

  lemma NoLongLabelJoin(head: seq<Byte>, rest: seq<Byte>)
    requires |head| <= 63 && NoLongLabel(rest)
    ensures NoLongLabel(head + [DOT] + rest)
  {
    var name := head + [DOT] + rest;
    forall i: nat ensures DotWithin(name, i) {
      if i + 64 <= |name| {
        if i <= |head| {
          assert name[i..i + 64][|head| - i] == DOT;
        } else {
          var k := i - |head| - 1;
          assert DotWithin(rest, k);
          assert name[|head| + 1..] == rest;
          assert name[i..i + 64] == name[|head| + 1..][k..k + 64];
        }
      }
    }
  }

  lemma SingleLabelLocally(name: seq<Byte>)
    requires DOT !in name
    ensures NoEmptyLabel(name)
    ensures NoLongLabel(name) <==> |name| <= 63
  {
    assert NoLongLabel(name) ==> DotWithin(name, 0);
  }

  lemma {:induction false} AcceptedLocally(name: seq<Byte>)
    ensures Encode(name).ok <==> NoEmptyLabel(name) && NoLongLabel(name)
    decreases |name|
  {
    var end := FirstDot(name);
    var head := name[..end];
    if end == |name| {
      assert head == name;
      SingleLabelLocally(name);
    } else {
      var rest := name[end + 1..];
      assert name == head + [DOT] + rest;
      NoEmptyLabelSplit(head, rest);
      if NoLongLabel(name) {
        NoLongLabelHead(head, rest);
      }
      if |head| <= 63 && NoLongLabel(rest) {
        NoLongLabelJoin(head, rest);
      }
      AcceptedLocally(rest);
    }
  }

  /** Whatever octets the labels of a message hold, the joined text has no dot-free stretch of 64. */
  lemma {:induction false} JoinHasNoLongLabel(labels: seq<Label>)
    requires ShortLabels(labels)
    ensures NoLongLabel(Join(labels))
  {
    if |labels| > 1 {
      JoinHasNoLongLabel(labels[1..]);
      NoLongLabelJoin(labels[0], Join(labels[1..]));
    }
  }

  // ----- The dropped trailing dot ---------------------------------------------------

  predicate EndsInDot(name: seq<Byte>) {
    name != [] && name[|name| - 1] == DOT
  }

  /** The name that comes back: one trailing dot is dropped. */
  function Undotted(name: seq<Byte>): (r: seq<Byte>)
  {
    if EndsInDot(name) then name[..|name| - 1] else name
  }

  lemma {:induction false} JoinEnd(labels: seq<Label>)
    requires Proper(labels)
    ensures !EndsInDot(Join(labels))
  {
    if |labels| == 1 {
      var last := labels[0];
      assert last[|last| - 1] in last;
    } else if |labels| > 1 {
      JoinEnd(labels[1..]);
      JoinNonEmpty(labels[1..]);
    }
  }

  lemma JoinNonEmpty(labels: seq<Label>)
    requires ShortLabels(labels) && labels != []
    ensures Join(labels) != []
  {
    if |labels| > 1 {
      assert |Join(labels)| >= |labels[0]|;
    }
  }

  lemma SpellsUndotted(labels: seq<Label>, name: seq<Byte>)
    requires Proper(labels) && Spells(labels, name)
    ensures Join(labels) == Undotted(name)
  {
    JoinEnd(labels);
    if name != Join(labels) {
      assert name[..|name| - 1] == Join(labels);
    }
  }

  // ----- Reading back ------------------------------------------------------------------

  /** `bytes` stand in `buffer` at position `at`. */
  predicate Holds(buffer: seq<Byte>, at: nat, bytes: seq<Byte>) {
    at + |bytes| <= |buffer| && buffer[at..at + |bytes|] == bytes
  }

  lemma HoldsParts(buffer: seq<Byte>, at: nat, a: seq<Byte>, b: seq<Byte>)
    requires Holds(buffer, at, a + b)
    ensures Holds(buffer, at, a) && Holds(buffer, at + |a|, b)
  {
    var all := buffer[at..at + |a| + |b|];
    assert buffer[at..at + |a|] == all[..|a|] == a;
    assert buffer[at + |a|..at + |a| + |b|] == all[|a|..] == b;
  }

  lemma TextCell(buffer: seq<Byte>, at: nat, text: Label)
    requires ShortLabel(text) && Holds(buffer, at, [|text|] + text)
    ensures CellAt(buffer, at) == Text(text, at + 1 + |text|)
  {
    HoldsParts(buffer, at, [|text|], text);
    assert buffer[at] == buffer[at..at + 1][0];
  }

  /** A written name, wherever it stands in a message, denotes its labels and ends where it ends. */
  lemma {:induction false} WireNameTrail(buffer: seq<Byte>, at: nat, labels: seq<Label>) returns (path: seq<nat>)
    requires ShortLabels(labels) && Holds(buffer, at, WireName(labels))
    ensures Trail(buffer, path) && path[0] == at
    ensures TrailLabels(buffer, path) == labels
    ensures TrailEnd(buffer, path) == at + |WireName(labels)|
    decreases |labels|
  {
    if labels == [] {
      path := [at];
      assert buffer[at] == buffer[at..at + 1][0];
    } else {
      var head, tail := labels[0], labels[1..];
      HoldsParts(buffer, at, [|head|] + head, WireName(tail));
      TextCell(buffer, at, head);
      var rest := WireNameTrail(buffer, at + 1 + |head|, tail);
      path := TrailCons(buffer, at, head, rest);
      assert labels == [head] + tail;
    }
  }

  lemma WireNameReads(buffer: seq<Byte>, at: nat, labels: seq<Label>)
    requires ShortLabels(labels) && Holds(buffer, at, WireName(labels))
    ensures WalkLabels(buffer, at, |buffer|) == Some(labels)
    ensures WalkEnd(buffer, at, at, |buffer|) == at + |WireName(labels)|
  {
    var path := WireNameTrail(buffer, at, labels);
    TrailShort(buffer, path);
    WalkFollowsTrail(buffer, path, at, |buffer|);
  }

  /** No encoding is a proper prefix of another, and equal encodings come from the same dotless name. */
  lemma PrefixFree(a: seq<Byte>, b: seq<Byte>)
    requires Encode(a).ok && Encode(b).ok && Encode(a).bytes <= Encode(b).bytes
    ensures Undotted(a) == Undotted(b) && Encode(a).bytes == Encode(b).bytes
  {
    var p := EncodeSplits(a);
    var q := EncodeSplits(b);
    var buffer := WireName(q);
    WireNameReads(buffer, 0, p);
    WireNameReads(buffer, 0, q);
    SpellsUndotted(p, a);
    SpellsUndotted(q, b);
  }
}

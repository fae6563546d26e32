/** Domain names: the dotted text, the label lists, and the walk of section 4.1.4 of RFC 1035. */
module Names {
  import opened Wire

  type Label = seq<Byte>

  // ----- Dotted text -------------------------------------------------------

  function Join(labels: seq<Label>): (name: seq<Byte>)
  {
    if labels == [] then []
    else if |labels| == 1 then labels[0]
    else labels[0] + [DOT] + Join(labels[1..])
  }

  /** The reader's way to add a label: a separating dot unless the name is still empty. */
  function Extend(name: seq<Byte>, text: Label): (r: seq<Byte>)
  {
    if name == [] then text else name + [DOT] + text
  }

  predicate ShortLabel(text: Label) {
    1 <= |text| <= 63
  }

  predicate ShortLabels(labels: seq<Label>) {
    forall i :: 0 <= i < |labels| ==> ShortLabel(labels[i])
  }

  lemma JoinNothing()
    ensures Join([]) == []
  {
  }

  lemma {:induction false} JoinSnoc(labels: seq<Label>, text: Label)
    requires ShortLabels(labels)
    ensures Join(labels + [text]) == Extend(Join(labels), text)
    ensures labels != [] ==> Join(labels) != []
  {
    if |labels| == 1 {
      assert (labels + [text])[1..] == [text];
    } else if |labels| > 1 {
      JoinSnoc(labels[1..], text);
      assert (labels + [text])[1..] == labels[1..] + [text];
    }
  }

  // ----- The walk over a message -------------------------------------------

  /** What the octet at a position of a message stands for (sections 3.1 and 4.1.4 of RFC 1035). */
  datatype Cell =
    | Terminator
    | Text(text: Label, next: nat)
    | Pointer(target: nat)
    | Malformed

  function CellAt(buffer: seq<Byte>, cursor: nat): (c: Cell)
  {
    if cursor >= |buffer| then Malformed
    else
      var length: int := buffer[cursor];
      if length >= 192 then
        if cursor + 1 >= |buffer| then Malformed
        else Pointer((length - 192) * 0x100 + buffer[cursor + 1])
      else if length >= 64 then Malformed
      else if length == 0 then Terminator
      else if cursor + 1 + length > |buffer| then Malformed
      else Text(buffer[cursor + 1..cursor + 1 + length], cursor + 1 + length)
  }

  /**
   * `path` is a complete walk: it starts at path[0], each position is the one that the previous
   * cell leads to, and the last cell is a terminator. There is no bound on its length.
   */
  ghost predicate Trail(buffer: seq<Byte>, path: seq<nat>)
  {
    path != [] &&
    match CellAt(buffer, path[0])
    case Terminator => |path| == 1
    case Text(_, next) => |path| > 1 && path[1] == next && Trail(buffer, path[1..])
    case Pointer(target) => |path| > 1 && path[1] == target && Trail(buffer, path[1..])
    case Malformed => false
  }

  ghost function TrailLabels(buffer: seq<Byte>, path: seq<nat>): (labels: seq<Label>)
    requires Trail(buffer, path)
  {
    match CellAt(buffer, path[0])
    case Terminator => []
    case Text(text, _) => [text] + TrailLabels(buffer, path[1..])
    case Pointer(_) => TrailLabels(buffer, path[1..])
  }

  /** The position just past the name in the original stream: past the terminator or the first pointer. */
  ghost function TrailEnd(buffer: seq<Byte>, path: seq<nat>): (end: nat)
    requires Trail(buffer, path)
  {
    match CellAt(buffer, path[0])
    case Terminator => path[0] + 1
    case Text(_, _) => TrailEnd(buffer, path[1..])
    case Pointer(_) => path[0] + 2
  }

  /** The unbounded reference meaning: some complete walk from `start` spells `labels` and ends at `end`. */
  ghost predicate Denotes(buffer: seq<Byte>, start: nat, labels: seq<Label>, end: nat)
  {
    exists path: seq<nat> :: Trail(buffer, path) && path[0] == start
      && TrailLabels(buffer, path) == labels && TrailEnd(buffer, path) == end
  }

  lemma TrailCons(buffer: seq<Byte>, cursor: nat, text: Label, rest: seq<nat>) returns (path: seq<nat>)
    requires Trail(buffer, rest) && CellAt(buffer, cursor) == Text(text, rest[0])
    ensures path == [cursor] + rest && Trail(buffer, path)
    ensures TrailLabels(buffer, path) == [text] + TrailLabels(buffer, rest)
    ensures TrailEnd(buffer, path) == TrailEnd(buffer, rest)
  {
    path := [cursor] + rest;
    assert path[1..] == rest;
  }

  // ----- The bounded walk of read_name --------------------------------------

  /** The outcome of a walk once `read` labels have already been taken. */
  function Prefixed(read: seq<Label>, rest: Option<seq<Label>>): (r: Option<seq<Label>>)
  {
    if rest.None? then None else Some(read + rest.value)
  }

  /** The labels found in at most `safety` iterations, or None when the walk fails or runs out. */
  function WalkLabels(buffer: seq<Byte>, cursor: nat, safety: nat): (r: Option<seq<Label>>)
    decreases safety
  {
    if safety == 0 then None else
    match CellAt(buffer, cursor)
    case Terminator => Some([])
    case Malformed => None
    case Pointer(target) => WalkLabels(buffer, target, safety - 1)
    case Text(text, next) =>
      Prefixed([text], WalkLabels(buffer, next, safety - 1))
  }

  /** Where the walk leaves the cursor, successful or not: `start` when it ends before any jump. */
  function WalkEnd(buffer: seq<Byte>, start: nat, cursor: nat, safety: nat): (end: nat)
    decreases safety
  {
    if safety == 0 then start else
    match CellAt(buffer, cursor)
    case Terminator => cursor + 1
    case Malformed => start
    case Pointer(_) => cursor + 2
    case Text(_, next) => WalkEnd(buffer, start, next, safety - 1)
  }

  /** One turn of the reader's loop. */
  lemma WalkStep(buffer: seq<Byte>, start: nat, cursor: nat, safety: nat)
    requires 0 < safety
    ensures WalkLabels(buffer, cursor, safety) ==
      match CellAt(buffer, cursor)
      case Terminator => Some([])
      case Malformed => None
      case Pointer(target) => WalkLabels(buffer, target, safety - 1)
      case Text(text, next) => Prefixed([text], WalkLabels(buffer, next, safety - 1))
    ensures WalkEnd(buffer, start, cursor, safety) ==
      match CellAt(buffer, cursor)
      case Terminator => cursor + 1
      case Malformed => start
      case Pointer(_) => cursor + 2
      case Text(_, next) => WalkEnd(buffer, start, next, safety - 1)
  {
  }

  lemma WalkExhausted(buffer: seq<Byte>, start: nat, cursor: nat)
    ensures WalkLabels(buffer, cursor, 0) == None && WalkEnd(buffer, start, cursor, 0) == start
  {
  }

  lemma PrefixedEnds(read: seq<Label>, whole: Option<seq<Label>>)
    ensures Prefixed(read, None) == None && Prefixed(read, Some([])) == Some(read) && Prefixed([], whole) == whole
  {
    assert read + [] == read;
    assert whole.Some? ==> [] + whole.value == whole.value;
  }

  lemma ShortSnoc(labels: seq<Label>, text: Label)
    requires ShortLabels(labels) && ShortLabel(text)
    ensures ShortLabels(labels + [text])
  {
  }

  lemma NoLabelsShort()
    ensures ShortLabels([])
  {
  }

  lemma PrefixedStep(read: seq<Label>, text: Label, rest: Option<seq<Label>>)
    ensures Prefixed(read, Prefixed([text], rest)) == Prefixed(read + [text], rest)
  {
    if rest.Some? {
      assert read + ([text] + rest.value) == (read + [text]) + rest.value;
    }
  }

  // ----- Trails are short ----------------------------------------------------

  lemma {:induction false} TrailUnique(buffer: seq<Byte>, p: seq<nat>, q: seq<nat>)
    requires Trail(buffer, p) && Trail(buffer, q) && p[0] == q[0]
    ensures p == q
    decreases |p|
  {
    if |p| > 1 {
      TrailUnique(buffer, p[1..], q[1..]);
      assert p == [p[0]] + p[1..] && q == [q[0]] + q[1..];
    } else {
      assert p == [p[0]] && q == [q[0]];
    }
  }

  lemma {:induction false} TrailSuffix(buffer: seq<Byte>, path: seq<nat>, i: nat)
    requires Trail(buffer, path) && i < |path|
    ensures Trail(buffer, path[i..]) && path[i] < |buffer|
    decreases i
  {
    if i == 0 {
      assert path[0..] == path;
    } else {
      TrailSuffix(buffer, path[1..], i - 1);
      assert path[1..][i - 1..] == path[i..];
    }
  }

  /** A walk that comes back to a position never ends, so a complete walk visits each position once. */
  lemma TrailDistinct(buffer: seq<Byte>, path: seq<nat>, i: nat, j: nat)
    requires Trail(buffer, path) && i < j < |path|
    ensures path[i] != path[j]
  {
    TrailSuffix(buffer, path, i);
    TrailSuffix(buffer, path, j);
    if path[i] == path[j] {
      TrailUnique(buffer, path[i..], path[j..]);
    }
  }

  /** Pigeonhole: distinct positions below n are at most n. */
  lemma {:induction false} DistinctBelow(path: seq<nat>, n: nat)
    requires forall i :: 0 <= i < |path| ==> path[i] < n
    requires forall i, j :: 0 <= i < j < |path| ==> path[i] != path[j]
    ensures |path| <= n
    decreases n
  {
    if path == [] {
      return;
    }
    assert path[0] < n;
    if k: nat :| k < |path| && path[k] == n - 1 {
      DistinctBelow(path[..k] + path[k + 1..], n - 1);
    } else {
      DistinctBelow(path, n - 1);
    }
  }

  lemma TrailShort(buffer: seq<Byte>, path: seq<nat>)
    requires Trail(buffer, path)
    ensures |path| <= |buffer|
  {
    forall i | 0 <= i < |path| ensures path[i] < |buffer| {
      TrailSuffix(buffer, path, i);
    }
    forall i, j | 0 <= i < j < |path| ensures path[i] != path[j] {
      TrailDistinct(buffer, path, i, j);
    }
    DistinctBelow(path, |buffer|);
  }

  // ----- The cap is exact ------------------------------------------------------

  lemma {:induction false} WalkFollowsTrail(buffer: seq<Byte>, path: seq<nat>, start: nat, safety: nat)
    requires Trail(buffer, path) && |path| <= safety
    ensures WalkLabels(buffer, path[0], safety) == Some(TrailLabels(buffer, path))
    ensures WalkEnd(buffer, start, path[0], safety) == TrailEnd(buffer, path)
    decreases |path|
  {
    if |path| > 1 {
      WalkFollowsTrail(buffer, path[1..], start, safety - 1);
    }
  }

  lemma {:induction false} TrailOfWalk(buffer: seq<Byte>, cursor: nat, start: nat, safety: nat) returns (path: seq<nat>)
    requires WalkLabels(buffer, cursor, safety).Some?
    ensures Trail(buffer, path) && path[0] == cursor
    ensures WalkLabels(buffer, cursor, safety) == Some(TrailLabels(buffer, path))
    ensures WalkEnd(buffer, start, cursor, safety) == TrailEnd(buffer, path)
    decreases safety
  {
    match CellAt(buffer, cursor)
    case Terminator =>
      path := [cursor];
    case Text(text, next) =>
      var rest := TrailOfWalk(buffer, next, start, safety - 1);
      path := TrailCons(buffer, cursor, text, rest);
    case Pointer(target) =>
      var rest := TrailOfWalk(buffer, target, start, safety - 1);
      path := [cursor] + rest;
      assert path[1..] == rest;
  }

  /**
   * Capping the walk at the buffer size loses nothing: it yields `labels` and leaves the cursor at
   * `end` exactly when the unbounded walk does.
   */
  lemma CapIsExact(buffer: seq<Byte>, start: nat, labels: seq<Label>, end: nat)
    ensures WalkLabels(buffer, start, |buffer|) == Some(labels) && WalkEnd(buffer, start, start, |buffer|) == end
       <==> Denotes(buffer, start, labels, end)
  {
    if WalkLabels(buffer, start, |buffer|) == Some(labels) && WalkEnd(buffer, start, start, |buffer|) == end {
      var path := TrailOfWalk(buffer, start, start, |buffer|);
    }
    if Denotes(buffer, start, labels, end) {
      var path :| Trail(buffer, path) && path[0] == start
        && TrailLabels(buffer, path) == labels && TrailEnd(buffer, path) == end;
      TrailShort(buffer, path);
      WalkFollowsTrail(buffer, path, start, |buffer|);
    }
  }

  // ----- Bounds ------------------------------------------------------------------

  lemma {:induction false} WalkBounds(buffer: seq<Byte>, start: nat, cursor: nat, safety: nat)
    requires start <= cursor && start <= |buffer|
    ensures start <= WalkEnd(buffer, start, cursor, safety) <= |buffer|
    ensures WalkLabels(buffer, cursor, safety).Some? ==> start < WalkEnd(buffer, start, cursor, safety)
    decreases safety
  {
    if safety > 0 && CellAt(buffer, cursor).Text? {
      WalkBounds(buffer, start, CellAt(buffer, cursor).next, safety - 1);
    }
  }

  lemma {:induction false} WalkLabelsShort(buffer: seq<Byte>, cursor: nat, safety: nat)
    requires WalkLabels(buffer, cursor, safety).Some?
    ensures ShortLabels(WalkLabels(buffer, cursor, safety).value)
    ensures |WalkLabels(buffer, cursor, safety).value| < safety
    decreases safety
  {
    match CellAt(buffer, cursor)
    case Terminator =>
    case Text(_, next) => WalkLabelsShort(buffer, next, safety - 1);
    case Pointer(target) => WalkLabelsShort(buffer, target, safety - 1);
  }

  lemma {:induction false} JoinLength(labels: seq<Label>)
    requires ShortLabels(labels)
    ensures |Join(labels)| <= 64 * |labels|
  {
    if |labels| > 1 {
      JoinLength(labels[1..]);
    }
  }

  // ----- Extension -----------------------------------------------------------------

  lemma {:induction false} TrailStable(buffer: seq<Byte>, path: seq<nat>, suffix: seq<Byte>)
    requires Trail(buffer, path)
    ensures Trail(buffer + suffix, path)
    ensures TrailLabels(buffer + suffix, path) == TrailLabels(buffer, path)
    ensures TrailEnd(buffer + suffix, path) == TrailEnd(buffer, path)
    decreases |path|
  {
    CellStable(buffer, path[0], suffix);
    if |path| > 1 {
      TrailStable(buffer, path[1..], suffix);
    }
  }

  lemma CellStable(buffer: seq<Byte>, cursor: nat, suffix: seq<Byte>)
    requires !CellAt(buffer, cursor).Malformed?
    ensures CellAt(buffer + suffix, cursor) == CellAt(buffer, cursor)
  {
    var all := buffer + suffix;
    if CellAt(buffer, cursor).Text? {
      var next := cursor + 1 + buffer[cursor];
      assert all[cursor + 1..next] == buffer[cursor + 1..next];
    }
  }

  /** More octets after the message change neither a name that was read nor where the cursor went. */
  lemma WalkStable(buffer: seq<Byte>, start: nat, suffix: seq<Byte>)
    requires WalkLabels(buffer, start, |buffer|).Some?
    ensures WalkLabels(buffer + suffix, start, |buffer + suffix|) == WalkLabels(buffer, start, |buffer|)
    ensures WalkEnd(buffer + suffix, start, start, |buffer + suffix|) == WalkEnd(buffer, start, start, |buffer|)
  {
    var path := TrailOfWalk(buffer, start, start, |buffer|);
    TrailStable(buffer, path, suffix);
    TrailShort(buffer + suffix, path);
    WalkFollowsTrail(buffer + suffix, path, start, |buffer + suffix|);
  }
}

/** Octets and 16-bit words of the DNS wire format (RFC 1035, section 4). */
module Wire {

  type Byte = b: int | 0 <= b < 0x100

  type U16 = n: int | 0 <= n < 0x1_0000

  datatype Option<+T> = None | Some(value: T)

  const DOT: Byte := 46

  /** Big-endian encoding of a word. */
  function U16Bytes(n: U16): (bytes: seq<Byte>)
    ensures |bytes| == 2
  {
    [n / 0x100, n % 0x100]
  }

  /** The word at `position`, or None when fewer than two octets remain. */
  function U16At(buffer: seq<Byte>, position: nat): (r: Option<U16>)
    ensures r.Some? <==> position + 2 <= |buffer|
  {
    if position + 2 > |buffer| then None
    else
      var high: int := buffer[position];
      Some(high * 0x100 + buffer[position + 1])
  }

  lemma U16Stable(buffer: seq<Byte>, position: nat, suffix: seq<Byte>)
    requires U16At(buffer, position).Some?
    ensures U16At(buffer + suffix, position) == U16At(buffer, position)
  {
  }

  lemma ConcatAssociates(a: seq<Byte>, b: seq<Byte>, c: seq<Byte>)
    ensures (a + b) + c == a + (b + c)
  {
  }
}

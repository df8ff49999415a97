/** `base64.b64encode`: the base 64 encoding of section 4 of RFC 4648, with
    `=` padding, and a strict decoder as its partner. */
module Base64 {
  import opened Results
  import opened Bytes

  /** The value of one base 64 character. */
  type index = x: int | 0 <= x < 0x40

  /** Table 1 of RFC 4648: A-Z, a-z, 0-9, '+', '/'. */
  function CharOf(i: index): (c: char)
    ensures c != '='
  {
    if i < 26 then ('A' as int + i) as char
    else if i < 52 then ('a' as int + (i - 26)) as char
    else if i < 62 then ('0' as int + (i - 52)) as char
    else if i == 62 then '+'
    else '/'
  }

  /** The inverse of the table; `None` for a character outside the alphabet
      (the pad character included). */
  function IndexOf(c: char): (r: Option<index>)
    ensures r.Some? ==> CharOf(r.value) == c
  {
    if 'A' <= c <= 'Z' then Some(c as int - 'A' as int)
    else if 'a' <= c <= 'z' then Some(c as int - 'a' as int + 26)
    else if '0' <= c <= '9' then Some(c as int - '0' as int + 52)
    else if c == '+' then Some(62)
    else if c == '/' then Some(63)
    else None
  }

  lemma IndexOfCharOf(i: index)
    ensures IndexOf(CharOf(i)) == Some(i)
  {
  }

  predicate InAlphabet(c: char) {
    IndexOf(c).Some?
  }

  /** Three octets as four characters. */
  function Quantum(b0: byte, b1: byte, b2: byte): seq<char> {
    [CharOf(b0 / 4), CharOf((b0 % 4) * 16 + b1 / 16), CharOf((b1 % 16) * 4 + b2 / 64), CharOf(b2 % 64)]
  }

  /** The encoding: whole 24-bit groups, then a final group of one octet
      padded with "==" or of two octets padded with "=". */
  function Encode(bs: seq<byte>): (s: string)
    decreases |bs|
    ensures |s| == 4 * ((|bs| + 2) / 3)
  {
    if |bs| == 0 then ""
    else if |bs| == 1 then [CharOf(bs[0] / 4), CharOf((bs[0] % 4) * 16), '=', '=']
    else if |bs| == 2 then [CharOf(bs[0] / 4), CharOf((bs[0] % 4) * 16 + bs[1] / 16), CharOf((bs[1] % 16) * 4), '=']
    else Quantum(bs[0], bs[1], bs[2]) + Encode(bs[3..])
  }

  /** Text made only of alphabet characters and the pad. */
  predicate AlphabetText(s: string) {
    forall i :: 0 <= i < |s| ==> InAlphabet(s[i]) || s[i] == '='
  }

  /** Every character of an encoding is in the alphabet or is the pad. */
  lemma {:induction false} EncodeInAlphabet(bs: seq<byte>)
    decreases |bs|
    ensures AlphabetText(Encode(bs))
  {
    if |bs| == 1 {
      IndexOfCharOf(bs[0] / 4);
      IndexOfCharOf((bs[0] % 4) * 16);
    } else if |bs| == 2 {
      IndexOfCharOf(bs[0] / 4);
      IndexOfCharOf((bs[0] % 4) * 16 + bs[1] / 16);
      IndexOfCharOf((bs[1] % 16) * 4);
    } else if |bs| >= 3 {
      IndexOfCharOf(bs[0] / 4);
      IndexOfCharOf((bs[0] % 4) * 16 + bs[1] / 16);
      IndexOfCharOf((bs[1] % 16) * 4 + bs[2] / 64);
      IndexOfCharOf(bs[2] % 64);
      var q := Quantum(bs[0], bs[1], bs[2]);
      assert AlphabetText(q);
      EncodeInAlphabet(bs[3..]);
      assert Encode(bs) == q + Encode(bs[3..]);
      AppendAlphabetText(q, Encode(bs[3..]));
    }
  }

  lemma AppendAlphabetText(a: string, b: string)
    requires AlphabetText(a) && AlphabetText(b)
    ensures AlphabetText(a + b)
  {
    forall i | 0 <= i < |a + b|
      ensures InAlphabet((a + b)[i]) || (a + b)[i] == '='
    {
      if i >= |a| {
        assert (a + b)[i] == b[i - |a|];
      }
    }
  }

  /** Four characters back to one, two or three octets; the unused bits
      of a padded group must be zero. */
  function DecodeQuantum(c0: char, c1: char, c2: char, c3: char): (r: Option<seq<byte>>)
    ensures r.Some? ==> 1 <= |r.value| <= 3
  {
    if !(InAlphabet(c0) && InAlphabet(c1)) then None
    else
      var i0, i1 := IndexOf(c0).value, IndexOf(c1).value;
      if c2 == '=' && c3 == '=' then
        if i1 % 16 == 0 then Some([i0 * 4 + i1 / 16]) else None
      else if !InAlphabet(c2) then None
      else
        var i2 := IndexOf(c2).value;
        if c3 == '=' then
          if i2 % 4 == 0 then Some([i0 * 4 + i1 / 16, (i1 % 16) * 16 + i2 / 4]) else None
        else if !InAlphabet(c3) then None
        else
          var i3 := IndexOf(c3).value;
          Some([i0 * 4 + i1 / 16, (i1 % 16) * 16 + i2 / 4, (i2 % 4) * 64 + i3])
  }

  /** The decoding: a multiple of four characters, padding only in the last group. */
  function Decode(s: string): (r: Option<seq<byte>>)
    decreases |s|
  {
    if |s| == 0 then Some([])
    else if |s| < 4 then None
    else
      match DecodeQuantum(s[0], s[1], s[2], s[3])
      case None => None
      case Some(group) =>
        if |group| < 3 && |s| > 4 then None
        else
          match Decode(s[4..])
          case None => None
          case Some(rest) => Some(group + rest)
  }

  /** One full group round-trips. */
  lemma DecodeQuantumFull(b0: byte, b1: byte, b2: byte)
    ensures var q := Quantum(b0, b1, b2);
            DecodeQuantum(q[0], q[1], q[2], q[3]) == Some([b0, b1, b2])
  {
    var i0, i1, i2, i3 := b0 / 4, (b0 % 4) * 16 + b1 / 16, (b1 % 16) * 4 + b2 / 64, b2 % 64;
    IndexOfCharOf(i0);
    IndexOfCharOf(i1);
    IndexOfCharOf(i2);
    IndexOfCharOf(i3);
    assert i1 / 16 == b0 % 4 && i1 % 16 == b1 / 16;
    assert i2 / 4 == b1 % 16 && i2 % 4 == b2 / 64;
    assert i0 * 4 + i1 / 16 == b0;
    assert (i1 % 16) * 16 + i2 / 4 == b1;
    assert (i2 % 4) * 64 + i3 == b2;
  }

  /** A final group of one octet round-trips. */
  lemma DecodeQuantumOne(b0: byte)
    ensures DecodeQuantum(CharOf(b0 / 4), CharOf((b0 % 4) * 16), '=', '=') == Some([b0])
  {
    IndexOfCharOf(b0 / 4);
    IndexOfCharOf((b0 % 4) * 16);
  }

  /** A final group of two octets round-trips. */
  lemma DecodeQuantumTwo(b0: byte, b1: byte)
    ensures DecodeQuantum(CharOf(b0 / 4), CharOf((b0 % 4) * 16 + b1 / 16), CharOf((b1 % 16) * 4), '=') == Some([b0, b1])
  {
    var i0, i1, i2 := b0 / 4, (b0 % 4) * 16 + b1 / 16, (b1 % 16) * 4;
    IndexOfCharOf(i0);
    IndexOfCharOf(i1);
    IndexOfCharOf(i2);
    assert i1 / 16 == b0 % 4 && i1 % 16 == b1 / 16;
    assert i2 / 4 == b1 % 16 && i2 % 4 == 0;
  }

  /** An input of one octet round-trips. */
  lemma DecodeEncodeOne(bs: seq<byte>)
    requires |bs| == 1
    ensures Decode(Encode(bs)) == Some(bs)
  {
    var s := Encode(bs);
    DecodeQuantumOne(bs[0]);
    assert s[4..] == [];
    assert Decode(s) == Some([bs[0]] + []);
    assert [bs[0]] + [] == bs;
  }

  /** An input of two octets round-trips. */
  lemma DecodeEncodeTwo(bs: seq<byte>)
    requires |bs| == 2
    ensures Decode(Encode(bs)) == Some(bs)
  {
    var s := Encode(bs);
    DecodeQuantumTwo(bs[0], bs[1]);
    assert s[4..] == [];
    assert Decode(s) == Some([bs[0], bs[1]] + []);
    assert [bs[0], bs[1]] + [] == bs;
  }

  /** Decoding undoes encoding. */
  lemma {:induction false} DecodeEncode(bs: seq<byte>)
    decreases |bs|
    ensures Decode(Encode(bs)) == Some(bs)
  {
    if |bs| == 1 {
      DecodeEncodeOne(bs);
    } else if |bs| == 2 {
      DecodeEncodeTwo(bs);
    } else if |bs| >= 3 {
      var s := Encode(bs);
      var q := Quantum(bs[0], bs[1], bs[2]);
      assert s == q + Encode(bs[3..]);
      assert s[4..] == Encode(bs[3..]);
      DecodeQuantumFull(bs[0], bs[1], bs[2]);
      DecodeEncode(bs[3..]);
      assert [bs[0], bs[1], bs[2]] + bs[3..] == bs;
    }
  }

  /** The test vectors of section 10 of RFC 4648. */
  lemma Rfc4648Vectors()
    ensures Encode([]) == ""
    ensures Encode(['f' as int]) == "Zg=="
    ensures Encode(['f' as int, 'o' as int]) == "Zm8="
    ensures Encode(['f' as int, 'o' as int, 'o' as int]) == "Zm9v"
    ensures Encode(['f' as int, 'o' as int, 'o' as int, 'b' as int, 'a' as int, 'r' as int]) == "Zm9vYmFy"
  {
  }
}

/**
 * The fixed field sizes of the signalling protocol and the binary layout of its
 * 24-byte nonce, given as a Python `struct` format string: a byte-order mark, then
 * items made of an optional decimal repeat count and a format code. Only the two
 * codes the nonce layout uses are modelled: `s` (one field of `count` raw bytes)
 * and `B` (`count` fields of one unsigned byte each).
 */
module Constants {
  import opened Wrappers
  import Decimal

  const KeyLength: nat := 32
  const NonceLength: nat := 24
  const NonceFormatter: string := "!16s2B6s"
  const CookieLength: nat := 16
  const HashLength: nat := 32

  /** Width of each of the two single-byte address fields of a nonce. */
  const AddressLength: nat := 1
  /** Width of the combined overflow and sequence-number field of a nonce. */
  const CsnLength: nat := 6

  datatype Code = Chars | UnsignedByte
  datatype Item = Item(count: nat, code: Code)

  /** `@`, `=`, `<`, `>` and `!` (network order) may open a format string. */
  predicate IsByteOrder(c: char) {
    c == '@' || c == '=' || c == '<' || c == '>' || c == '!'
  }

  function CodeOf(c: char): (r: Option<Code>)
    ensures r.Some? <==> c == 's' || c == 'B'
  {
    if c == 's' then Some(Chars) else if c == 'B' then Some(UnsignedByte) else None
  }

  /** The items of a format string after its byte-order mark; None if it is malformed. */
  function ParseItems(s: string): Option<seq<Item>>
    decreases |s|
  {
    if s == [] then Some([])
    else
      var k := Decimal.LeadingDigits(s);
      if k == |s| then None
      else
        match CodeOf(s[k])
        case None => None
        case Some(code) =>
          var count := if k == 0 then 1 else Decimal.ToNat(s[..k]);
          match ParseItems(s[k + 1..])
          case None => None
          case Some(rest) => Some([Item(count, code)] + rest)
  }

  function ParseFormat(fmt: string): Option<seq<Item>> {
    if fmt != [] && IsByteOrder(fmt[0]) then ParseItems(fmt[1..]) else ParseItems(fmt)
  }

  /** The widths of the fields the items describe, in order. */
  function Fields(items: seq<Item>): seq<nat> {
    if items == [] then []
    else
      var first := match items[0].code
        case Chars => [items[0].count]
        case UnsignedByte => seq(items[0].count, _ => AddressLength);
      first + Fields(items[1..])
  }

  function Sum(ws: seq<nat>): nat {
    if ws == [] then 0 else ws[0] + Sum(ws[1..])
  }

  /** `struct.calcsize`: both codes have alignment 1, so the size is the sum of the counts. */
  function CalcSize(items: seq<Item>): nat {
    if items == [] then 0 else items[0].count + CalcSize(items[1..])
  }

  /** Offset at which field `i` starts. */
  function Offset(ws: seq<nat>, i: nat): nat
    requires i <= |ws|
  {
    Sum(ws[..i])
  }

  /** Each field starts where the one before it ends. */
  lemma OffsetStep(ws: seq<nat>, i: nat)
    requires i < |ws|
    ensures Offset(ws, i + 1) == Offset(ws, i) + ws[i]
  {
    assert ws[..i + 1] == ws[..i] + [ws[i]];
    SumConcat(ws[..i], [ws[i]]);
    assert Sum([ws[i]]) == ws[i] + Sum([]);
  }

  lemma {:induction false} SumConcat(a: seq<nat>, b: seq<nat>)
    ensures Sum(a + b) == Sum(a) + Sum(b)
  {
    if a == [] {
      assert a + b == b;
    } else {
      assert (a + b)[0] == a[0];
      assert (a + b)[1..] == a[1..] + b;
      SumConcat(a[1..], b);
    }
  }

  lemma {:induction false} SumOfOnes(n: nat)
    ensures Sum(seq(n, _ => AddressLength)) == n
  {
    if n > 0 {
      assert seq(n, _ => AddressLength)[1..] == seq(n - 1, _ => AddressLength);
      SumOfOnes(n - 1);
    }
  }

  /** The fields a format describes exactly fill the size `struct.calcsize` reports. */
  lemma {:induction false} FieldsFillSize(items: seq<Item>)
    ensures Sum(Fields(items)) == CalcSize(items)
  {
    if items != [] {
      var first := match items[0].code
        case Chars => [items[0].count]
        case UnsignedByte => seq(items[0].count, _ => AddressLength);
      SumConcat(first, Fields(items[1..]));
      if items[0].code == UnsignedByte {
        SumOfOnes(items[0].count);
      } else {
        assert Sum(first) == items[0].count + Sum([]);
      }
      FieldsFillSize(items[1..]);
    }
  }

  /**
   * The nonce layout `!16s2B6s`: a cookie of COOKIE_LENGTH bytes at offset 0, the
   * source address at 16, the destination address at 17 and the 6-byte overflow and
   * sequence number at 18, filling exactly NONCE_LENGTH bytes.
   */
  lemma NonceLayout()
    ensures ParseFormat(NonceFormatter)
         == Some([Item(CookieLength, Chars), Item(2, UnsignedByte), Item(CsnLength, Chars)])
    ensures var ws := Fields(ParseFormat(NonceFormatter).value);
            ws == [CookieLength, AddressLength, AddressLength, CsnLength]
            && Offset(ws, 1) == CookieLength
            && Offset(ws, 2) == CookieLength + AddressLength
            && Offset(ws, 3) == CookieLength + 2 * AddressLength
            && Offset(ws, 4) == NonceLength
            && CalcSize(ParseFormat(NonceFormatter).value) == NonceLength
  {
    var s := NonceFormatter[1..];
    assert s == "16s2B6s";
    assert Decimal.LeadingDigits(s) == 2 by {
      assert Decimal.LeadingDigits(s[2..]) == 0;
      assert Decimal.LeadingDigits(s[1..]) == 1;
    }
    assert s[..2] == "16";
    assert Decimal.ToNat("16") == 16 by {
      assert "16"[..1] == "1";
      assert ""[..0] == "";
    }
    var s2 := s[3..];
    assert s2 == "2B6s";
    assert Decimal.LeadingDigits(s2) == 1 by {
      assert Decimal.LeadingDigits(s2[1..]) == 0;
    }
    assert Decimal.ToNat(s2[..1]) == 2 by {
      assert s2[..1] == "2";
      assert "2"[..0] == "";
    }
    var s3 := s2[2..];
    assert s3 == "6s";
    assert Decimal.LeadingDigits(s3) == 1 by {
      assert Decimal.LeadingDigits(s3[1..]) == 0;
    }
    assert Decimal.ToNat(s3[..1]) == 6 by {
      assert s3[..1] == "6";
      assert "6"[..0] == "";
    }
    var items := [Item(CookieLength, Chars), Item(2, UnsignedByte), Item(CsnLength, Chars)];
    assert ParseItems(s3) == Some(items[2..]) by {
      assert s3[1] == 's' && s3[2..] == [];
      assert CodeOf(s3[1]) == Some(Chars);
      assert ParseItems(s3[2..]) == Some([]);
      assert [Item(CsnLength, Chars)] + [] == items[2..];
    }
    assert ParseItems(s2) == Some(items[1..]) by {
      assert s2[1] == 'B' && s2[2..] == s3;
      assert CodeOf(s2[1]) == Some(UnsignedByte);
      assert [Item(2, UnsignedByte)] + items[2..] == items[1..];
    }
    assert ParseItems(s) == Some(items) by {
      assert s[2] == 's' && s[3..] == s2;
      assert CodeOf(s[2]) == Some(Chars);
      assert [Item(CookieLength, Chars)] + items[1..] == items;
    }
    assert Fields(items[2..]) == [CsnLength];
    assert Fields(items[1..]) == [AddressLength, AddressLength, CsnLength];
    var ws := Fields(items);
    assert ws == [CookieLength, AddressLength, AddressLength, CsnLength];
    assert ParseFormat(NonceFormatter) == Some(items);
    assert ws[..0] == [];
    OffsetStep(ws, 0);
    OffsetStep(ws, 1);
    OffsetStep(ws, 2);
    OffsetStep(ws, 3);
    FieldsFillSize(items);
  }
}

/** Text renderings of hashes and addresses: lower-case hexadecimal as the
    `{:x}` formatter writes a fixed-size hash (two digits per byte, no digit
    dropped), and the abbreviated `Display` form of an address used in error
    messages. */
module Hex {
  import opened Base

  predicate IsLowerHexDigit(c: char)
  {
    '0' <= c <= '9' || 'a' <= c <= 'f'
  }

  function Digit(d: nat): (c: char)
    requires d < 16
    ensures IsLowerHexDigit(c)
  {
    if d < 10 then ('0' as int + d) as char else ('a' as int + d - 10) as char
  }

  function DigitValue(c: char): (r: Option<nat>)
    ensures r.Some? <==> IsLowerHexDigit(c)
    ensures r.Some? ==> r.value < 16 && Digit(r.value) == c
  {
    if '0' <= c <= '9' then Some(c as int - '0' as int)
    else if 'a' <= c <= 'f' then Some(c as int - 'a' as int + 10)
    else None
  }

  /** Two lower-case digits per byte, high nibble first. */
  function LowerHex(bytes: seq<Byte>): (s: string)
    ensures |s| == 2 * |bytes|
    ensures forall i :: 0 <= i < |s| ==> IsLowerHexDigit(s[i])
  {
    if bytes == [] then ""
    else [Digit(bytes[0] / 16), Digit(bytes[0] % 16)] + LowerHex(bytes[1..])
  }

  /** Reads back what LowerHex writes; None on an odd length or a character
      that is not a lower-case hex digit. */
  function ParseLowerHex(s: string): (r: Option<seq<Byte>>)
    ensures r.Some? ==> 2 * |r.value| == |s|
    decreases |s|
  {
    if s == [] then Some([])
    else if |s| == 1 then None
    else
      match (DigitValue(s[0]), DigitValue(s[1]), ParseLowerHex(s[2..]))
      case (Some(hi), Some(lo), Some(rest)) => Some([hi * 16 + lo] + rest)
      case _ => None
  }

  lemma {:induction false} ParseLowerHexInverts(bytes: seq<Byte>)
    ensures ParseLowerHex(LowerHex(bytes)) == Some(bytes)
    decreases |bytes|
  {
    if bytes != [] {
      var b := bytes[0];
      var s := LowerHex(bytes);
      assert s[2..] == LowerHex(bytes[1..]);
      ParseLowerHexInverts(bytes[1..]);
      assert DigitValue(s[0]) == Some(b / 16);
      assert DigitValue(s[1]) == Some(b % 16);
      assert [b / 16 * 16 + b % 16] + bytes[1..] == bytes;
    }
  }

  /** The response text of a transaction hash: `format!("0x{:x}", hash)`. */
  function HashText(h: TxHash): (s: string)
    ensures |s| == 66 && s[..2] == "0x"
    ensures forall i :: 2 <= i < |s| ==> IsLowerHexDigit(s[i])
  {
    "0x" + LowerHex(h)
  }

  /** Distinct hashes give distinct response texts. */
  lemma HashTextInjective(a: TxHash, b: TxHash)
    requires HashText(a) == HashText(b)
    ensures a == b
  {
    assert HashText(a)[2..] == LowerHex(a);
    assert HashText(b)[2..] == LowerHex(b);
    ParseLowerHexInverts(a);
    ParseLowerHexInverts(b);
  }

  /** An address formatted with `{}`: "0x", its first two bytes, an ellipsis,
      its last two bytes. */
  function AddressDisplay(a: Address): (s: string)
    ensures |s| == 11 && s[..2] == "0x" && s[6] == '…'
    ensures ParseLowerHex(s[2..6]) == Some(a[..2])
    ensures ParseLowerHex(s[7..]) == Some(a[18..])
  {
    var s := "0x" + LowerHex(a[..2]) + "…" + LowerHex(a[18..]);
    assert s[2..6] == LowerHex(a[..2]) && s[7..] == LowerHex(a[18..]);
    ParseLowerHexInverts(a[..2]);
    ParseLowerHexInverts(a[18..]);
    s
  }

  /** The abbreviated form loses the twelve middle bytes: two addresses that
      differ only there render alike. */
  lemma AddressDisplayIsLossy()
    ensures exists a: Address, b: Address :: a != b && AddressDisplay(a) == AddressDisplay(b)
  {
    var a: Address := seq(20, _ => 0);
    var b: Address := seq(20, i => if i == 10 then 1 else 0);
    assert a[10] != b[10];
    assert a[..2] == b[..2] && a[18..] == b[18..];
    assert a != b && AddressDisplay(a) == AddressDisplay(b);
  }
}

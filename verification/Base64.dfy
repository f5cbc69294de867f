/** Base64 with the standard alphabet and no padding: RFC 4648, section 4, with the padding
    omitted as its section 3.2 allows (`base64.RawStdEncoding`). */
module Base64 {
  import opened Wrappers

  type Byte = b: int | 0 <= b < 256
  type Sextet = v: int | 0 <= v < 64

  /** The character for a six-bit value. */
  function Char(v: Sextet): char {
    if v < 26 then 'A' + v as char
    else if v < 52 then 'a' + (v - 26) as char
    else if v < 62 then '0' + (v - 52) as char
    else if v == 62 then '+'
    else '/'
  }

  function SextetOf(c: char): Option<Sextet> {
    if 'A' <= c <= 'Z' then Some((c - 'A') as int)
    else if 'a' <= c <= 'z' then Some((c - 'a') as int + 26)
    else if '0' <= c <= '9' then Some((c - '0') as int + 52)
    else if c == '+' then Some(62)
    else if c == '/' then Some(63)
    else None
  }

  predicate InAlphabet(c: char) {
    SextetOf(c).Some?
  }

  lemma SextetOfChar(v: Sextet)
    ensures SextetOf(Char(v)) == Some(v)
  {
  }

  /** Three bytes become four sextets; one or two last bytes become two or three. */
  function Regroup(data: seq<Byte>): seq<Sextet> {
    if data == [] then []
    else if |data| == 1 then First(data[0], 0)
    else if |data| == 2 then First(data[0], data[1]) + [data[1] % 16 * 4]
    else First(data[0], data[1]) + Last(data[1], data[2]) + Regroup(data[3..])
  }

  function First(a: Byte, b: Byte): seq<Sextet> {
    [a / 4, a % 4 * 16 + b / 16]
  }

  function Last(b: Byte, c: Byte): seq<Sextet> {
    [b % 16 * 4 + c / 64, c % 64]
  }

  /** The reverse, ignoring bits left over in the last sextet. */
  function Ungroup(v: seq<Sextet>): Option<seq<Byte>> {
    if v == [] then Some([])
    else if |v| == 1 then None
    else if |v| == 2 then Some([High(v[0], v[1])])
    else if |v| == 3 then Some([High(v[0], v[1]), Middle(v[1], v[2])])
    else
      match Ungroup(v[4..])
      case None => None
      case Some(rest) => Some([High(v[0], v[1]), Middle(v[1], v[2]), Low(v[2], v[3])] + rest)
  }

  function High(a: Sextet, b: Sextet): Byte {
    a * 4 + b / 16
  }

  function Middle(b: Sextet, c: Sextet): Byte {
    b % 16 * 16 + c / 4
  }

  function Low(c: Sextet, d: Sextet): Byte {
    c % 4 * 64 + d
  }

  /** `EncodeToString`. */
  function Encode(data: seq<Byte>): string {
    var v := Regroup(data);
    seq(|v|, i requires 0 <= i < |v| => Char(v[i]))
  }

  /** The decoder passes over line breaks wherever they stand. */
  function DropLineBreaks(s: string): string {
    if s == "" then ""
    else (if s[0] == '\r' || s[0] == '\n' then "" else [s[0]]) + DropLineBreaks(s[1..])
  }

  /** `DecodeString`. */
  function Decode(s: string): Option<seq<Byte>> {
    var t := DropLineBreaks(s);
    if forall i :: 0 <= i < |t| ==> InAlphabet(t[i]) then
      Ungroup(seq(|t|, i requires 0 <= i < |t| => SextetOf(t[i]).value))
    else None
  }

  lemma {:induction false} UngroupRegroup(data: seq<Byte>)
    ensures Ungroup(Regroup(data)) == Some(data)
  {
    hide High, Middle, Low;
    if |data| == 1 {
      UngroupTriple(data[0], 0, 0);
      assert [data[0]] == data;
    } else if |data| == 2 {
      UngroupTriple(data[0], data[1], 0);
      assert Last(data[1], 0)[0] == data[1] % 16 * 4;
      assert [data[0], data[1]] == data;
    } else if |data| > 2 {
      UngroupRegroup(data[3..]);
      UngroupTriple(data[0], data[1], data[2]);
      assert Regroup(data)[4..] == Regroup(data[3..]);
      assert [data[0], data[1], data[2]] + data[3..] == data;
    }
  }

  lemma UngroupTriple(a: Byte, b: Byte, c: Byte)
    ensures High(First(a, b)[0], First(a, b)[1]) == a
    ensures Middle(First(a, b)[1], Last(b, c)[0]) == b
    ensures Low(Last(b, c)[0], Last(b, c)[1]) == c
  {
  }

  lemma {:induction false} NoLineBreaks(s: string)
    requires forall i :: 0 <= i < |s| ==> InAlphabet(s[i])
    ensures DropLineBreaks(s) == s
  {
    if s != "" {
      assert InAlphabet(s[0]);
      NoLineBreaks(s[1..]);
      assert [s[0]] + s[1..] == s;
    }
  }

  lemma EncodeInAlphabet(data: seq<Byte>)
    ensures forall i :: 0 <= i < |Encode(data)| ==> InAlphabet(Encode(data)[i])
  {
    forall v: Sextet
      ensures SextetOf(Char(v)) == Some(v)
    {
      SextetOfChar(v);
    }
  }

  /** Decoding undoes encoding for every byte string. */
  lemma RoundTrip(data: seq<Byte>)
    ensures Decode(Encode(data)) == Some(data)
  {
    var s := Encode(data);
    EncodeInAlphabet(data);
    NoLineBreaks(s);
    assert seq(|s|, i requires 0 <= i < |s| => SextetOf(s[i]).value) == Regroup(data);
    UngroupRegroup(data);
  }

  // ---------- The encoding, as the standard states it ----------

  const ALPHABET := "ABCDEFGHIJKLMNOPQRSTUVWXYZ" + "abcdefghijklmnopqrstuvwxyz" + "0123456789" + "+/"

  /** The character is the one at this place of the standard alphabet. */
  predicate IsDigit(c: char, v: int) {
    0 <= v < |ALPHABET| && c == ALPHABET[v]
  }

  lemma UpperListed(v: nat)
    requires v < 26
    ensures "ABCDEFGHIJKLMNOPQRSTUVWXYZ"[v] == 'A' + v as char
  {
  }

  lemma LowerListed(v: nat)
    requires v < 26
    ensures "abcdefghijklmnopqrstuvwxyz"[v] == 'a' + v as char
  {
  }

  lemma CharInTable(v: Sextet)
    ensures IsDigit(Char(v), v)
  {
    var upper, lower, digits := "ABCDEFGHIJKLMNOPQRSTUVWXYZ", "abcdefghijklmnopqrstuvwxyz", "0123456789";
    assert |upper| == 26 && |lower| == 26 && |digits| == 10;
    if v < 26 {
      UpperListed(v);
      assert ALPHABET[v] == upper[v];
    } else if v < 52 {
      LowerListed(v - 26);
      assert ALPHABET[v] == lower[v - 26];
    } else if v < 62 {
      assert ALPHABET[v] == digits[v - 52] == '0' + (v - 52) as char;
    }
  }

  /** The text is the number's digits in base 64, written in the standard alphabet. */
  predicate IsNumeral(s: string, digits: seq<int>) {
    |s| == |digits| && forall i :: 0 <= i < |s| ==> IsDigit(s[i], digits[i])
  }

  lemma NumeralOf(v: seq<Sextet>)
    ensures IsNumeral(seq(|v|, i requires 0 <= i < |v| => Char(v[i])), v)
  {
    forall i | 0 <= i < |v|
      ensures IsDigit(Char(v[i]), v[i])
    {
      CharInTable(v[i]);
    }
  }

  /** Three bytes, read as one number of 24 bits, are its four digits in base 64, the highest first. Of two bytes
      or one, the bits that are missing in the last digit count as zero. */
  lemma EncodesGroup(a: Byte, b: Byte, c: Byte)
    ensures var n := a * 65536 + b * 256 + c;
            IsNumeral(Encode([a, b, c]), [n / 262144, n / 4096 % 64, n / 64 % 64, n % 64])
    ensures var n := (a * 256 + b) * 4; IsNumeral(Encode([a, b]), [n / 4096, n / 64 % 64, n % 64])
    ensures var n := a * 16; IsNumeral(Encode([a]), [n / 64, n % 64])
  {
    hide IsNumeral, Regroup;
    ThreeBytes(a, b, c);
    TwoBytes(a, b);
    NumeralOf(Regroup([a, b, c]));
    NumeralOf(Regroup([a, b]));
    NumeralOf(Regroup([a]));
  }

  lemma ThreeBytesDigits(a: Byte, b: Byte, c: Byte)
    ensures var n := a * 65536 + b * 256 + c;
            && a / 4 == n / 262144 && a % 4 * 16 + b / 16 == n / 4096 % 64 && b % 16 * 4 + c / 64 == n / 64 % 64
            && c % 64 == n % 64
  {
    var n := a * 65536 + b * 256 + c;
    assert n / 64 == a * 1024 + b * 4 + c / 64;
    assert n / 4096 == a * 16 + b / 16;
  }

  lemma ThreeBytes(a: Byte, b: Byte, c: Byte)
    ensures var n := a * 65536 + b * 256 + c;
            Regroup([a, b, c]) == [n / 262144, n / 4096 % 64, n / 64 % 64, n % 64]
  {
    ThreeBytesDigits(a, b, c);
    RegroupThree(a, b, c);
  }

  lemma RegroupThree(a: Byte, b: Byte, c: Byte)
    ensures Regroup([a, b, c]) == [a / 4, a % 4 * 16 + b / 16, b % 16 * 4 + c / 64, c % 64]
  {
    assert [a, b, c][3..] == [];
  }

  lemma TwoBytes(a: Byte, b: Byte)
    ensures var n := (a * 256 + b) * 4; Regroup([a, b]) == [n / 4096, n / 64 % 64, n % 64]
    ensures var n := a * 16; Regroup([a]) == [n / 64, n % 64]
  {
    TwoBytesDigits(a, b);
    assert Regroup([a, b]) == [a / 4, a % 4 * 16 + b / 16, b % 16 * 4];
    assert Regroup([a]) == [a / 4, a % 4 * 16];
  }

  lemma TwoBytesDigits(a: Byte, b: Byte)
    ensures var n := (a * 256 + b) * 4;
            a / 4 == n / 4096 && a % 4 * 16 + b / 16 == n / 64 % 64 && b % 16 * 4 == n % 64
    ensures var n := a * 16; a / 4 == n / 64 && a % 4 * 16 == n % 64
  {
    var n := (a * 256 + b) * 4;
    assert n / 64 == a * 16 + b / 16;
  }

  /** And a longer text is encoded group by group. */
  lemma {:induction false} EncodesInGroups(data: seq<Byte>, more: seq<Byte>)
    requires |data| % 3 == 0
    ensures Encode(data + more) == Encode(data) + Encode(more)
  {
    RegroupsInGroups(data, more);
  }

  lemma {:induction false} RegroupsInGroups(data: seq<Byte>, more: seq<Byte>)
    requires |data| % 3 == 0
    ensures Regroup(data + more) == Regroup(data) + Regroup(more)
  {
    if data == [] {
      assert data + more == more;
    } else {
      assert (data + more)[3..] == data[3..] + more;
      RegroupsInGroups(data[3..], more);
    }
  }

  /** Four digits in base 64 are read back as the three bytes of their number; of three digits or two, the bits that
      do not fill a byte are dropped, whatever they are. */
  lemma DecodesGroup(w: Sextet, x: Sextet, y: Sextet, z: Sextet)
    ensures var n := ((w * 64 + x) * 64 + y) * 64 + z;
            Ungroup([w, x, y, z]) == Some([n / 65536, n / 256 % 256, n % 256])
    ensures var n := (w * 64 + x) * 64 + y; Ungroup([w, x, y]) == Some([n / 1024, n / 4 % 256])
    ensures var n := w * 64 + x; Ungroup([w, x]) == Some([n / 16])
  {
    hide High, Middle, Low;
    FourDigits(w, x, y, z);
    ThreeDigits(w, x, y);
    UngroupFour(w, x, y, z);
  }

  lemma FourDigits(w: Sextet, x: Sextet, y: Sextet, z: Sextet)
    ensures var n := ((w * 64 + x) * 64 + y) * 64 + z;
            High(w, x) == n / 65536 && Middle(x, y) == n / 256 % 256 && Low(y, z) == n % 256
  {
    BytesAreNumber(w, x, y, z);
    ThreeBytesOf(High(w, x), Middle(x, y), Low(y, z));
  }

  lemma BytesAreNumber(w: Sextet, x: Sextet, y: Sextet, z: Sextet)
    ensures High(w, x) * 65536 + Middle(x, y) * 256 + Low(y, z) == ((w * 64 + x) * 64 + y) * 64 + z
  {
    assert x == 16 * (x / 16) + x % 16 && y == 4 * (y / 4) + y % 4;
  }

  lemma ThreeBytesOf(a: Byte, b: Byte, c: Byte)
    ensures var n := a * 65536 + b * 256 + c; a == n / 65536 && b == n / 256 % 256 && c == n % 256
  {
    assert (a * 65536 + b * 256 + c) / 256 == a * 256 + b;
  }

  lemma ThreeDigits(w: Sextet, x: Sextet, y: Sextet)
    ensures var n := (w * 64 + x) * 64 + y; High(w, x) == n / 1024 && Middle(x, y) == n / 4 % 256
    ensures High(w, x) == (w * 64 + x) / 16
  {
    assert ((w * 64 + x) * 64 + y) / 4 == w * 1024 + x * 16 + y / 4;
  }

  lemma UngroupFour(w: Sextet, x: Sextet, y: Sextet, z: Sextet)
    ensures Ungroup([w, x, y, z]) == Some([High(w, x), Middle(x, y), Low(y, z)])
    ensures Ungroup([w, x, y]) == Some([High(w, x), Middle(x, y)]) && Ungroup([w, x]) == Some([High(w, x)])
  {
    hide High, Middle, Low;
    assert [w, x, y, z][4..] == [];
    assert [High(w, x), Middle(x, y), Low(y, z)] + [] == [High(w, x), Middle(x, y), Low(y, z)];
  }

  predicate Decodable(s: string) {
    && (forall c <- s :: c == '\r' || c == '\n' || InAlphabet(c))
    && |DropLineBreaks(s)| % 4 != 1
  }

  /** Exactly which strings decode: apart from line breaks, only alphabet characters, in a number
      that does not leave one character over. */
  lemma DecodesExactlyWhen(s: string)
    ensures Decode(s).Some? <==> Decodable(s)
  {
    var t := DropLineBreaks(s);
    KeepsTheRest(s);
    if forall i :: 0 <= i < |t| ==> InAlphabet(t[i]) {
      assert forall c <- t :: InAlphabet(c);
      UngroupDefined(seq(|t|, i requires 0 <= i < |t| => SextetOf(t[i]).value));
    } else {
      var i :| 0 <= i < |t| && !InAlphabet(t[i]);
      assert t[i] in s && !InAlphabet(t[i]);
    }
  }

  lemma {:induction false} KeepsTheRest(s: string)
    ensures forall c :: c in DropLineBreaks(s) <==> c in s && c != '\r' && c != '\n'
  {
    if s != "" {
      KeepsTheRest(s[1..]);
      assert s == [s[0]] + s[1..];
    }
  }

  lemma PlusFour(n: nat)
    ensures (n + 4) % 4 == n % 4
  {
  }

  lemma {:induction false} UngroupDefined(v: seq<Sextet>)
    ensures Ungroup(v).Some? <==> |v| % 4 != 1
  {
    hide High, Middle, Low;
    if |v| >= 4 {
      UngroupDefined(v[4..]);
      PlusFour(|v| - 4);
    }
  }
}

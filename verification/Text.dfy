/** The string handling the hash format relies on: splitting at a separator, and printing and
    scanning decimal numbers. */
module Text {
  import opened Wrappers

  /** `strings.Split(s, sep)` for a one-character separator. */
  function Split(s: string, sep: char): (parts: seq<string>)
    ensures |parts| >= 1
  {
    if s == "" then [""]
    else
      var rest := Split(s[1..], sep);
      if s[0] == sep then [""] + rest else [[s[0]] + rest[0]] + rest[1..]
  }

  /** `strings.Join(parts, sep)`. */
  function Join(parts: seq<string>, sep: char): string
    requires |parts| >= 1
  {
    if |parts| == 1 then parts[0] else parts[0] + [sep] + Join(parts[1..], sep)
  }

  /** Splitting undoes joining for any fields that do not contain the separator. */
  lemma {:induction false} SplitJoin(parts: seq<string>, sep: char)
    requires |parts| >= 1
    requires forall i :: 0 <= i < |parts| ==> sep !in parts[i]
    ensures Split(Join(parts, sep), sep) == parts
  {
    if |parts| == 1 {
      SplitField(parts[0], sep);
    } else {
      SplitJoin(parts[1..], sep);
      SplitFirst(parts[0], Join(parts[1..], sep), sep);
    }
  }

  /** Joining undoes splitting, and no part holds the separator: the split is the only one. */
  lemma {:induction false} JoinSplit(s: string, sep: char)
    ensures Join(Split(s, sep), sep) == s
    ensures forall i :: 0 <= i < |Split(s, sep)| ==> sep !in Split(s, sep)[i]
  {
    if s != "" {
      JoinSplit(s[1..], sep);
      var rest := Split(s[1..], sep);
      if s[0] == sep {
        assert ([""] + rest)[1..] == rest;
        assert Join([""] + rest, sep) == [sep] + Join(rest, sep);
      } else {
        var parts := [[s[0]] + rest[0]] + rest[1..];
        assert parts[1..] == rest[1..];
        assert Join(parts, sep) == [s[0]] + Join(rest, sep);
      }
    }
  }

  lemma {:induction false} SplitField(field: string, sep: char)
    requires sep !in field
    ensures Split(field, sep) == [field]
  {
    if field != "" {
      SplitField(field[1..], sep);
      assert [field[0]] + field[1..] == field;
    }
  }

  lemma {:induction false} SplitFirst(field: string, rest: string, sep: char)
    requires sep !in field
    ensures Split(field + [sep] + rest, sep) == [field] + Split(rest, sep)
  {
    var s := field + [sep] + rest;
    if field == "" {
      assert s[1..] == rest;
    } else {
      assert s[1..] == field[1..] + [sep] + rest;
      SplitFirst(field[1..], rest, sep);
      assert [field[0]] + field[1..] == field;
    }
  }

  predicate IsDigit(c: char) {
    '0' <= c <= '9'
  }

  predicate AllDigits(s: string) {
    forall c <- s :: IsDigit(c)
  }

  /** The `%d` verb of `fmt.Sprintf` on an unsigned number. */
  function Print(n: nat): (s: string)
    ensures s != "" && AllDigits(s)
  {
    var digit := ['0' + (n % 10) as char];
    if n < 10 then digit else Print(n / 10) + digit
  }

  function DigitValue(c: char): nat
    requires IsDigit(c)
  {
    (c - '0') as nat
  }

  function Value(s: string): nat
    requires AllDigits(s)
  {
    if s == "" then 0 else 10 * Value(s[..|s| - 1]) + DigitValue(s[|s| - 1])
  }

  lemma {:induction false} ValueOfPrint(n: nat)
    ensures Value(Print(n)) == n
  {
    if n >= 10 {
      ValueOfPrint(n / 10);
      assert Print(n)[..|Print(n)| - 1] == Print(n / 10);
    } else {
      assert Print(n)[..0] == "";
    }
  }

  function Pow10(i: nat): (p: nat)
    ensures p > 0
  {
    if i == 0 then 1 else 10 * Pow10(i - 1)
  }

  lemma Distributes(p: int, q: int, d: int)
    ensures (p - q) * d == p * d - q * d
  {
  }

  lemma AtLeastOnce(k: int, d: int)
    requires k >= 1 && d > 0
    ensures k * d >= d
  {
  }

  lemma QuotientIs(n: nat, d: nat, q: nat, r: nat)
    requires 0 <= r < d && n == q * d + r
    ensures n / d == q
  {
    var p := n / d;
    assert n == p * d + n % d;
    Distributes(p, q, d);
    Distributes(q, p, d);
    if p > q {
      AtLeastOnce(p - q, d);
    } else if p < q {
      AtLeastOnce(q - p, d);
    }
  }

  lemma DivDiv(n: nat, p: nat)
    requires p > 0
    ensures n / (10 * p) == n / 10 / p
  {
    var q := n / 10;
    var a, b := q / p, q % p;
    assert a * (10 * p) == 10 * (a * p);
    QuotientIs(n, 10 * p, a, 10 * b + n % 10);
  }

  /** The i-th digit from the right is that of the i-th power of ten, and the first one is not zero unless the
      number is. */
  lemma {:induction false} PrintIsDecimal(n: nat, i: nat)
    ensures var s := Print(n);
            && (i < |s| ==> s[|s| - 1 - i] == "0123456789"[n / Pow10(i) % 10])
            && (s[0] == '0' ==> n == 0)
  {
    var s := Print(n);
    assert s[|s| - 1] == "0123456789"[n % 10];
    if n >= 10 {
      PrintIsDecimal(n / 10, if i == 0 then 0 else i - 1);
      assert s == Print(n / 10) + [s[|s| - 1]];
      if i > 0 {
        DivDiv(n, Pow10(i - 1));
      }
    }
  }

  /** Number of digits at the start of `s`. */
  function DigitRun(s: string): (k: nat)
    ensures k <= |s| && AllDigits(s[..k])
    ensures k < |s| ==> !IsDigit(s[k])
  {
    if s == "" || !IsDigit(s[0]) then 0
    else
      var k := 1 + DigitRun(s[1..]);
      assert s[..k] == [s[0]] + s[1..][..k - 1];
      k
  }

  function SkipBlanks(s: string): string {
    if s != "" && (s[0] == ' ' || s[0] == '\t') then SkipBlanks(s[1..]) else s
  }

  /** The longest run of digits at the start of `s`, which must not be empty nor reach `bound`. */
  function ScanDigits(s: string, bound: nat): Option<(nat, string)> {
    var k := DigitRun(s);
    if k == 0 || Value(s[..k]) >= bound then None else Some((Value(s[..k]), s[k..]))
  }

  /** The `%d` verb of `fmt.Sscanf` into an unsigned variable that holds values below `bound`. */
  function ScanUint(s: string, bound: nat): Option<(nat, string)> {
    ScanDigits(SkipBlanks(s), bound)
  }

  /** The same verb into a signed 64-bit variable: one optional sign before the digits. */
  function ScanInt(s: string): Option<(int, string)> {
    var t := SkipBlanks(s);
    if t != "" && t[0] == '-' then
      match ScanDigits(t[1..], 0x8000_0000_0000_0001)
      case None => None
      case Some(scanned) => Some((0 - scanned.0 as int, scanned.1))
    else
      match ScanDigits(if t != "" && t[0] == '+' then t[1..] else t, 0x8000_0000_0000_0000)
      case None => None
      case Some(scanned) => Some((scanned.0 as int, scanned.1))
  }

  /** A literal piece of a `Sscanf` format: it must be there, and is consumed. */
  function Literal(s: string, lit: string): Option<string> {
    if lit <= s then Some(s[|lit|..]) else None
  }

  /** Scanning a printed number gives back the number and exactly the text after it. */
  lemma ScanOfPrint(n: nat, rest: string, bound: nat)
    requires n < bound
    requires rest == "" || !IsDigit(rest[0])
    ensures ScanUint(Print(n) + rest, bound) == Some((n, rest))
    ensures bound <= 0x8000_0000_0000_0000 ==> ScanInt(Print(n) + rest) == Some((n, rest))
  {
    var s := Print(n) + rest;
    assert IsDigit(Print(n)[0]);
    assert s[0] == Print(n)[0];
    assert SkipBlanks(s) == s;
    DigitRunOfPrefix(Print(n), rest);
    assert s[..|Print(n)|] == Print(n);
    ValueOfPrint(n);
  }

  predicate AllBlanks(s: string) {
    forall i :: 0 <= i < |s| ==> s[i] == ' ' || s[i] == '\t'
  }

  /** A number stands at the start of the text, perhaps after blanks, and ends where the rest begins. */
  predicate Scanned(s: string, blanks: string, digits: string, rest: string) {
    && s == blanks + digits + rest && AllBlanks(blanks) && digits != "" && AllDigits(digits)
    && (rest == "" || !IsDigit(rest[0]))
  }

  lemma {:induction false} BlanksSkipped(s: string) returns (k: nat)
    ensures k <= |s| && s[k..] == SkipBlanks(s) && forall i :: 0 <= i < k ==> s[i] == ' ' || s[i] == '\t'
  {
    k := 0;
    if s != "" && (s[0] == ' ' || s[0] == '\t') {
      var j := BlanksSkipped(s[1..]);
      k := j + 1;
      assert s[1..][j..] == s[k..];
      assert forall i :: 1 <= i < k ==> s[i] == s[1..][i - 1];
    }
  }

  lemma {:induction false} SkipsBlanks(blanks: string, t: string)
    requires AllBlanks(blanks) && t != "" && t[0] != ' ' && t[0] != '\t'
    ensures SkipBlanks(blanks + t) == t
  {
    if blanks == "" {
      assert blanks + t == t;
    } else {
      assert (blanks + t)[1..] == blanks[1..] + t;
      SkipsBlanks(blanks[1..], t);
    }
  }

  /** Exactly which texts the verb scans, and as what: an optional run of blanks, and then the longest run of digits,
      whose value the variable can hold. */
  lemma ScansExactlyWhen(s: string, bound: nat, n: nat, rest: string)
    ensures ScanUint(s, bound) == Some((n, rest)) <==>
              exists blanks, digits :: Scanned(s, blanks, digits, rest) && Value(digits) == n < bound
  {
    hide ScanUint, Value;
    if r :| ScanUint(s, bound) == Some(r) {
      var blanks, digits := ScannedFrom(s, bound);
    }
    if blanks, digits :| Scanned(s, blanks, digits, rest) && Value(digits) == n < bound {
      ScanOfScanned(s, blanks, digits, rest, bound);
    }
  }

  lemma ScannedFrom(s: string, bound: nat) returns (blanks: string, digits: string)
    requires ScanUint(s, bound).Some?
    ensures var (n, rest) := ScanUint(s, bound).value; Scanned(s, blanks, digits, rest) && Value(digits) == n < bound
  {
    var t := SkipBlanks(s);
    var k := DigitRun(t);
    var skipped := BlanksSkipped(s);
    blanks, digits := s[..skipped], t[..k];
    assert t == digits + t[k..];
    assert s == blanks + digits + t[k..];
  }

  lemma ScanOfScanned(s: string, blanks: string, digits: string, rest: string, bound: nat)
    requires Scanned(s, blanks, digits, rest) && Value(digits) < bound
    ensures ScanUint(s, bound) == Some((Value(digits), rest))
  {
    var t := digits + rest;
    assert s == blanks + t && t[0] == digits[0] && IsDigit(digits[0]);
    SkipsBlanks(blanks, t);
    DigitRunOfPrefix(digits, rest);
    assert t[..|digits|] == digits && t[|digits|..] == rest;
  }

  lemma {:induction false} DigitRunOfPrefix(digits: string, rest: string)
    requires AllDigits(digits)
    requires rest == "" || !IsDigit(rest[0])
    ensures DigitRun(digits + rest) == |digits|
  {
    if digits == "" {
      assert digits + rest == rest;
    } else {
      assert (digits + rest)[1..] == digits[1..] + rest;
      DigitRunOfPrefix(digits[1..], rest);
    }
  }
}

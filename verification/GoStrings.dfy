/** The string functions of the Go library that the codec uses. */
module GoStrings {
  import opened Options

  function Split(s: string, sep: char): (r: seq<string>)
    ensures |r| >= 1
  {
    if s == "" then [""]
    else
      var rest := Split(s[1..], sep);
      if s[0] == sep then [""] + rest else [[s[0]] + rest[0]] + rest[1..]
  }

  function TrimSuffix(s: string, suffix: char): string {
    if s != "" && s[|s| - 1] == suffix then s[..|s| - 1] else s
  }

  // The pieces, each followed by the separator.
  function Terminated(pieces: seq<string>, sep: char): string {
    if pieces == [] then ""
    else Terminated(pieces[..|pieces| - 1], sep) + pieces[|pieces| - 1] + [sep]
  }

  lemma {:induction false} PiecesAreFree(s: string, sep: char, piece: string, c: char)
    requires piece in Split(s, sep)
    ensures sep !in piece
    ensures c in piece ==> c in s
  {
    if s != "" {
      var rest := Split(s[1..], sep);
      PiecesAreFree(s[1..], sep, rest[0], c);
      if piece in rest {
        PiecesAreFree(s[1..], sep, piece, c);
      }
    }
  }

  lemma {:induction false} SplitFree(s: string, sep: char)
    requires sep !in s
    ensures Split(s, sep) == [s]
  {
    if s != "" {
      SplitFree(s[1..], sep);
      assert s == [s[0]] + s[1..];
    }
  }

  lemma {:induction false} SplitAt(a: string, sep: char, b: string)
    ensures Split(a + [sep] + b, sep) == Split(a, sep) + Split(b, sep)
  {
    var s := a + [sep] + b;
    if a == "" {
      assert s == [sep] + b;
      assert s[1..] == b;
    } else {
      assert s[1..] == a[1..] + [sep] + b && s[0] == a[0];
      SplitAt(a[1..], sep, b);
    }
  }

  /** Splitting finds the pieces again; no pieces at all come back as one that is empty. */
  lemma {:induction false} SplitTerminated(pieces: seq<string>, sep: char)
    requires forall p :: p in pieces ==> sep !in p
    ensures Split(TrimSuffix(Terminated(pieces, sep), sep), sep) == if pieces == [] then [""] else pieces
  {
    if pieces != [] {
      var init, last := pieces[..|pieces| - 1], pieces[|pieces| - 1];
      assert pieces == init + [last];
      SplitTerminated(init, sep);
      SplitFree(last, sep);
      var trimmed := TrimSuffix(Terminated(pieces, sep), sep);
      assert trimmed == Terminated(init, sep) + last;
      if init == [] {
        assert trimmed == last;
      } else {
        var before := TrimSuffix(Terminated(init, sep), sep);
        assert Terminated(init, sep) == before + [sep];
        SplitAt(before, sep, last);
      }
    }
  }

  // Numbers

  const MIN_INT := -0x8000_0000_0000_0000
  const MAX_INT := 0x7fff_ffff_ffff_ffff

  function Digit(d: nat): char
    requires d < 10
  {
    '0' + d as char
  }

  function Digits(n: nat): (r: string)
    ensures r != ""
  {
    if n < 10 then [Digit(n)] else Digits(n / 10) + [Digit(n % 10)]
  }

  function Itoa(n: int): string {
    if n < 0 then "-" + Digits(-n) else Digits(n)
  }

  function Value(s: string): Option<nat> {
    if s == "" then Some(0)
    else
      var c := s[|s| - 1];
      match Value(s[..|s| - 1])
      case None => None
      case Some(v) => if '0' <= c <= '9' then Some(v * 10 + (c as int - '0' as int)) else None
  }

  // An optional sign and at least one digit, if the number fits 64 bits.
  function Atoi(s: string): Option<int> {
    var signed := s != "" && (s[0] == '-' || s[0] == '+');
    var digits := if signed then s[1..] else s;
    match Value(digits)
    case None => None
    case Some(v) =>
      var n := if signed && s[0] == '-' then 0 - v else v;
      if digits == "" || n < MIN_INT || n > MAX_INT then None else Some(n)
  }

  lemma {:induction false} DigitsBack(n: nat)
    ensures Value(Digits(n)) == Some(n)
    ensures forall c :: c in Digits(n) ==> '0' <= c <= '9'
  {
    if n < 10 {
      assert Digits(n)[..0] == "";
    } else {
      DigitsBack(n / 10);
      assert Digits(n)[..|Digits(n)| - 1] == Digits(n / 10);
    }
  }

  lemma ItoaFree(n: int, c: char)
    requires c != '-' && !('0' <= c <= '9')
    ensures c !in Itoa(n)
  {
    DigitsBack(if n < 0 then -n else n);
  }

  lemma AtoiItoa(n: int)
    ensures Atoi(Itoa(n)) == if -0x8000_0000_0000_0000 <= n <= 0x7fff_ffff_ffff_ffff then Some(n) else None
    ensures ',' !in Itoa(n) && '?' !in Itoa(n)
  {
    var v := if n < 0 then -n else n;
    var digits := Digits(v);
    DigitsBack(v);
    hide Value, Digits;
    assert digits[0] in digits;
    assert ("-" + digits)[1..] == digits;
    ItoaFree(n, ',');
    ItoaFree(n, '?');
  }

  // What else reads as a number

  function ZeroDigits(k: nat): string {
    seq(k, _ => '0')
  }

  lemma {:induction false} ValueReads(digits: string, v: nat) returns (zeros: nat)
    requires digits != "" && Value(digits) == Some(v)
    ensures digits == ZeroDigits(zeros) + Digits(v)
  {
    var init, last := digits[..|digits| - 1], digits[|digits| - 1];
    assert digits == init + [last];
    if init == "" {
      zeros := 0;
    } else {
      var u := Value(init).value;
      zeros := ValueReads(init, u);
      if u == 0 {
        assert init + [last] == ZeroDigits(zeros + 1) + [last];
        zeros := zeros + 1;
      } else {
        assert v / 10 == u && Digits(v) == Digits(u) + [last];
      }
    }
  }

  lemma {:induction false} LeadingZeros(zeros: nat, digits: string)
    requires digits == "" || Value(digits).Some?
    ensures Value(ZeroDigits(zeros) + digits) == Value(digits)
    decreases zeros + |digits|
  {
    var s := ZeroDigits(zeros) + digits;
    if digits != "" {
      assert s[..|s| - 1] == ZeroDigits(zeros) + digits[..|digits| - 1];
      LeadingZeros(zeros, digits[..|digits| - 1]);
    } else if zeros > 0 {
      assert s[..|s| - 1] == ZeroDigits(zeros - 1) + "";
      LeadingZeros(zeros - 1, "");
    }
  }

  function Magnitude(n: int): nat {
    if n < 0 then -n else n
  }

  predicate SignFits(sign: string, n: int) {
    sign in (if n < 0 then {"-"} else if n == 0 then {"", "+", "-"} else {"", "+"})
  }

  // A sign, zeros and the decimal digits of the number.
  function Decimal(sign: string, zeros: nat, n: int): string {
    sign + (ZeroDigits(zeros) + Digits(Magnitude(n)))
  }

  ghost predicate Denotes(s: string, n: int) {
    exists sign, zeros: nat :: SignFits(sign, n) && s == Decimal(sign, zeros, n)
  }

  lemma SignedAtoi(sign: string, digits: string)
    requires sign in {"", "+", "-"} && Value(digits).Some? && digits != ""
    requires digits[0] != '+' && digits[0] != '-'
    ensures var v := Value(digits).value;
            var n := if sign == "-" then 0 - v else v;
            Atoi(sign + digits) == if MIN_INT <= n <= MAX_INT then Some(n) else None
  {
    hide Value;
    assert sign == "" ==> sign + digits == digits;
    assert sign != "" ==> (sign + digits)[1..] == digits;
  }

  lemma DenotingReads(n: int, sign: string, zeros: nat)
    requires SignFits(sign, n)
    ensures Atoi(Decimal(sign, zeros, n)) == if MIN_INT <= n <= MAX_INT then Some(n) else None
  {
    var v := Magnitude(n);
    var digits := ZeroDigits(zeros) + Digits(v);
    DigitsBack(v);
    LeadingZeros(zeros, Digits(v));
    assert digits[0] == '0' || digits[0] in Digits(v);
    SignedAtoi(sign, digits);
  }

  lemma ReadDenotes(s: string, n: int)
    requires Atoi(s) == Some(n)
    ensures Denotes(s, n)
  {
    var signed := s != "" && (s[0] == '-' || s[0] == '+');
    var sign, digits := if signed then s[..1] else "", if signed then s[1..] else s;
    var zeros := ValueReads(digits, Value(digits).value);
    hide Value, Digits, ZeroDigits;
    assert s == sign + digits;
    assert signed ==> sign == [s[0]];
    assert Magnitude(n) == Value(digits).value && SignFits(sign, n);
    assert s == Decimal(sign, zeros, n);
  }

  /** Reading numbers exactly: a string reads as a number of 64 bits if it is its
      decimal form, with any zeros in front and a sign if it fits; nothing else
      reads as a number. */
  lemma AtoiExactly(s: string, n: int)
    ensures Atoi(s) == Some(n) <==> Denotes(s, n) && -0x8000_0000_0000_0000 <= n <= 0x7fff_ffff_ffff_ffff
  {
    if Denotes(s, n) {
      var sign, zeros: nat :| SignFits(sign, n) && s == Decimal(sign, zeros, n);
      DenotingReads(n, sign, zeros);
    }
    if Atoi(s) == Some(n) {
      ReadDenotes(s, n);
      hide Denotes;
    }
  }
}

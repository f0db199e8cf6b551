// Six-digit one-time codes by rejection sampling: server/internal/otpcode/otpcode.go.
module OtpCode {
  import opened Base
  import opened ModArith

  const CODES: Pos := 1_000_000
  const MAX_MULTIPLE := 1_000_000 * 4294
  const DRAWS := 0x1_0000_0000
  const MAX_ATTEMPTS := 10

  // ---------- how often a residue is hit ----------

  // The draws below limit that are reduced to c.
  function Bucket(limit: nat, m: Pos, c: nat): (b: set<nat>) {
    set n: nat | n < limit && n % m == c
  }

  ghost predicate Uniform(limit: nat, m: Pos) {
    forall c, d | 0 <= c < m && 0 <= d < m :: |Bucket(limit, m, c)| == |Bucket(limit, m, d)|
  }

  lemma DivModNext(limit: nat, m: Pos)
    ensures limit % m == m - 1 ==> (limit + 1) / m == limit / m + 1 && (limit + 1) % m == 0
    ensures limit % m != m - 1 ==> (limit + 1) / m == limit / m && (limit + 1) % m == limit % m + 1
  {
    Split(limit, m);
    var q := limit / m;
    if limit % m == m - 1 {
      assert m * (q + 1) == m * q + m;
      DivModUnique(limit + 1, m, q + 1, 0);
    } else {
      DivModUnique(limit + 1, m, q, limit % m + 1);
    }
  }

  // Every residue is hit limit / m times, and the residues below limit % m once
  // more.
  lemma {:induction false} BucketSize(limit: nat, m: Pos, c: nat)
    requires c < m
    ensures |Bucket(limit, m, c)| == limit / m + if c < limit % m then 1 else 0
  {
    if limit == 0 {
      DivModUnique(0, m, 0, 0);
      assert Bucket(0, m, c) == {};
    } else {
      var n := limit - 1;
      BucketSize(n, m, c);
      DivModNext(n, m);
      if n % m == c {
        assert Bucket(limit, m, c) == Bucket(n, m, c) + {n};
      } else {
        assert Bucket(limit, m, c) == Bucket(n, m, c);
      }
    }
  }

  // Reducing every draw below limit is unbiased exactly when m divides limit.
  lemma UniformIffMultiple(limit: nat, m: Pos)
    ensures Uniform(limit, m) <==> limit % m == 0
  {
    if limit % m == 0 {
      forall c, d | 0 <= c < m && 0 <= d < m
        ensures |Bucket(limit, m, c)| == |Bucket(limit, m, d)|
      {
        BucketSize(limit, m, c);
        BucketSize(limit, m, d);
      }
    } else {
      BucketSize(limit, m, 0);
      BucketSize(limit, m, limit % m);
    }
  }

  // The accepted window is the largest unbiased one a 32-bit draw allows.
  lemma WindowIsLargest(limit: nat)
    requires MAX_MULTIPLE < limit <= DRAWS
    ensures Uniform(MAX_MULTIPLE, CODES) && !Uniform(limit, CODES)
  {
    UniformIffMultiple(MAX_MULTIPLE, CODES);
    UniformIffMultiple(limit, CODES);
  }

  // ---------- draws as bytes ----------

  type Draw = d: seq<Byte> | |d| == 4 witness [0, 0, 0, 0]

  // binary.BigEndian.Uint32
  function BigEndian(d: Draw): nat {
    Push(Push(Push(d[0], d[1]), d[2]), d[3])
  }

  function Push(n: nat, b: Byte): nat {
    n * 0x100 + b
  }

  lemma PushUndone(n: nat, b: Byte)
    ensures Push(n, b) / 0x100 == n && Push(n, b) % 0x100 == b
  {
  }

  function ToBytes(n: nat): Draw
    requires n < DRAWS
  {
    var hi := n / 0x100;
    [hi / 0x100 / 0x100, hi / 0x100 % 0x100, hi % 0x100, n % 0x100]
  }

  lemma BytesRoundTrip(d: Draw)
    ensures BigEndian(d) < DRAWS && ToBytes(BigEndian(d)) == d
  {
    PushUndone(d[0], d[1]);
    PushUndone(Push(d[0], d[1]), d[2]);
    PushUndone(Push(Push(d[0], d[1]), d[2]), d[3]);
  }

  lemma NumberRoundTrip(n: nat)
    requires n < DRAWS
    ensures BigEndian(ToBytes(n)) == n
  {
  }

  // ---------- printing ----------

  function Digit(d: nat): (c: char)
    requires d < 10
    ensures '0' <= c <= '9' && (c - '0') as nat == d
  {
    '0' + d as char
  }

  function Decimal(n: nat): string {
    (if n < 10 then "" else Decimal(n / 10)) + [Digit(n % 10)]
  }

  function Zeros(k: nat): string {
    seq(k, _ => '0')
  }

  // Go's %0<width>d for a value that is not negative.
  function Padded(n: nat, width: nat): string {
    var d := Decimal(n);
    if |d| < width then Zeros(width - |d|) + d else d
  }

  predicate IsDigits(s: string) {
    forall k | 0 <= k < |s| :: '0' <= s[k] <= '9'
  }

  function Value(s: string): nat
    requires IsDigits(s)
  {
    if s == "" then 0 else 10 * Value(s[..|s| - 1]) + (Last(s) - '0') as nat
  }

  function Pow10(k: nat): nat {
    if k == 0 then 1 else 10 * Pow10(k - 1)
  }

  lemma ValueAppend(s: string, c: char)
    requires IsDigits(s) && '0' <= c <= '9'
    ensures IsDigits(s + [c]) && Value(s + [c]) == 10 * Value(s) + (c - '0') as nat
  {
    assert (s + [c])[..|s|] == s;
  }

  lemma {:induction false} DecimalReads(n: nat)
    ensures IsDigits(Decimal(n)) && Value(Decimal(n)) == n
  {
    hide Digit, Value, IsDigits;
    if n < 10 {
      EmptyValue();
      ValueAppend("", Digit(n));
      assert Decimal(n) == "" + [Digit(n)];
    } else {
      DecimalReads(n / 10);
      ValueAppend(Decimal(n / 10), Digit(n % 10));
    }
  }

  lemma EmptyValue()
    ensures IsDigits("") && Value("") == 0
  {
  }

  lemma {:induction false} DecimalFits(n: nat, width: nat)
    requires 0 < width
    ensures |Decimal(n)| <= width <==> n < Pow10(width)
  {
    if width == 1 {
      assert Pow10(1) == 10 * Pow10(0);
    } else if n >= 10 {
      DecimalFits(n / 10, width - 1);
    } else {
      DecimalFits(n, width - 1);
    }
  }

  lemma {:induction false} ZerosAreSilent(k: nat, s: string)
    requires IsDigits(s)
    ensures IsDigits(Zeros(k) + s) && Value(Zeros(k) + s) == Value(s)
    decreases |s|, k
  {
    var z := Zeros(k) + s;
    if s != "" {
      ZerosAreSilent(k, s[..|s| - 1]);
      assert z[..|z| - 1] == Zeros(k) + s[..|s| - 1];
    } else if k > 0 {
      ZerosAreSilent(k - 1, s);
      assert z[..|z| - 1] == Zeros(k - 1) + s;
    }
  }

  lemma {:induction false} ValueFits(s: string)
    requires IsDigits(s)
    ensures Value(s) < Pow10(|s|)
  {
    if s != "" {
      ValueFits(s[..|s| - 1]);
    }
  }

  lemma SameDigit(a: nat, x: char, b: nat, y: char)
    requires '0' <= x <= '9' && '0' <= y <= '9'
    requires 10 * a + (x - '0') as nat == 10 * b + (y - '0') as nat
    ensures a == b && x == y
  {
  }

  // Same length and same value: same digits.
  lemma {:induction false} ValueIsInjective(s: string, t: string)
    requires IsDigits(s) && IsDigits(t) && |s| == |t| && Value(s) == Value(t)
    ensures s == t
  {
    if s != "" {
      var i := |s| - 1;
      SameDigit(Value(s[..i]), s[i], Value(t[..i]), t[i]);
      ValueIsInjective(s[..i], t[..i]);
      assert s == s[..i] + [s[i]];
      assert t == t[..i] + [t[i]];
    }
  }

  ghost predicate IsCode(s: string) {
    |s| == 6 && IsDigits(s)
  }

  // Printing to six places is a bijection between the numbers below a million
  // and the six-digit strings.
  lemma SixDigits(n: nat)
    ensures n < CODES <==> IsCode(Padded(n, 6))
    ensures IsDigits(Padded(n, 6)) && Value(Padded(n, 6)) == n
  {
    DecimalReads(n);
    DecimalFits(n, 6);
    MillionIsPow10();
    if |Decimal(n)| < 6 {
      ZerosAreSilent(6 - |Decimal(n)|, Decimal(n));
    }
  }

  lemma EveryCodeIsPrinted(s: string)
    requires IsCode(s)
    ensures Value(s) < CODES && Padded(Value(s), 6) == s
  {
    ValueFits(s);
    MillionIsPow10();
    SixDigits(Value(s));
    ValueIsInjective(Padded(Value(s), 6), s);
  }

  lemma MillionIsPow10()
    ensures Pow10(6) == CODES
  {
    assert Pow10(3) == 1000;
    assert Pow10(6) == 1000 * Pow10(3);
  }

  // ---------- the generator ----------

  predicate Accepted(d: Draw) {
    BigEndian(d) < MAX_MULTIPLE
  }

  function CodeOf(d: Draw): string {
    Padded(BigEndian(d) % CODES, 6)
  }

  // draw(i) is what the i-th read of the system's random source yields, None
  // when it fails; fallback is what rand.Int yields.
  method Generate(draw: nat -> Option<Draw>, fallback: Option<nat>) returns (code: Option<string>, ghost used: nat)
    requires fallback.Some? ==> fallback.value < 1_000_000
    ensures code.Some? ==> IsCode(code.value)
    ensures used <= 10 && forall i | 0 <= i < used :: draw(i).Some? && !Accepted(draw(i).value)
    ensures used < 10 && draw(used).None? ==> code == None
    ensures used < 10 && draw(used).Some? ==>
        Accepted(draw(used).value) && code == Some(CodeOf(draw(used).value))
    ensures used == 10 ==> (code.Some? <==> fallback.Some?)
    ensures used == 10 && code.Some? ==> IsDigits(code.value) && Value(code.value) == fallback.value
  {
    used := 0;
    for i := 0 to MAX_ATTEMPTS
      invariant used == i
      invariant forall k | 0 <= k < i :: draw(k).Some? && !Accepted(draw(k).value)
    {
      var buf := draw(i);
      if buf.None? {
        return None, used;
      }
      var n := BigEndian(buf.value);
      if n < MAX_MULTIPLE {
        SixDigits(n % CODES);
        return Some(Padded(n % CODES, 6)), used;
      }
      used := used + 1;
    }
    if fallback.None? {
      return None, used;
    }
    SixDigits(fallback.value);
    return Some(Padded(fallback.value, 6)), used;
  }

  function BytesOf(numbers: set<nat>): set<Draw>
    requires forall n | n in numbers :: n < DRAWS
  {
    set n | n in numbers :: ToBytes(n)
  }

  lemma {:induction false} BytesOfSize(numbers: set<nat>)
    requires forall n | n in numbers :: n < DRAWS
    ensures |BytesOf(numbers)| == |numbers|
  {
    if numbers != {} {
      var x :| x in numbers;
      BytesOfSize(numbers - {x});
      NumberRoundTrip(x);
      forall n | n in numbers - {x}
        ensures ToBytes(n) != ToBytes(x)
      {
        NumberRoundTrip(n);
      }
      assert BytesOf(numbers) == BytesOf(numbers - {x}) + {ToBytes(x)};
    }
  }

  // Each six-digit string is the answer to exactly 4294 of the accepted draws,
  // and no other string is an answer.
  lemma CodesAreUnbiased(s: string)
    ensures exists draws: set<Draw> ::
        |draws| == (if IsCode(s) then 4294 else 0) && forall d: Draw :: d in draws <==> Accepted(d) && CodeOf(d) == s
  {
    var numbers := {};
    if IsCode(s) {
      EveryCodeIsPrinted(s);
      numbers := Bucket(MAX_MULTIPLE, CODES, Value(s));
      BucketSize(MAX_MULTIPLE, CODES, Value(s));
    }
    BytesOfSize(numbers);
    var draws := BytesOf(numbers);
    forall d: Draw
      ensures d in draws <==> Accepted(d) && CodeOf(d) == s
    {
      BytesRoundTrip(d);
      SixDigits(BigEndian(d) % CODES);
      if d in draws {
        var n :| n in numbers && d == ToBytes(n);
        NumberRoundTrip(n);
      }
      if Accepted(d) && CodeOf(d) == s {
        assert BigEndian(d) in numbers;
      }
    }
  }
}

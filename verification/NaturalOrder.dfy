/** Ordering of asset codes with numbers compared as numbers (GD-2 before GD-10). Codes are sequences of bytes. */
module NaturalOrder {
  import opened Orders

  const MAX_INT64 := 0x7FFF_FFFF_FFFF_FFFF

  predicate IsDigit(c: int) {
    48 <= c <= 57
  }

  /** Lower case of a byte taken as a code point: ASCII letters and the Latin-1 letters. */
  function Fold(c: int): int {
    if 65 <= c <= 90 || (0xC0 <= c <= 0xDE && c != 0xD7) then c + 32 else c
  }

  /** Length of the digits a code starts with. */
  function DigitRun(s: seq<int>): (n: nat)
    ensures n <= |s| && (forall k :: 0 <= k < n ==> IsDigit(s[k])) && (n < |s| ==> !IsDigit(s[n]))
  {
    if s == [] || !IsDigit(s[0]) then 0 else 1 + DigitRun(s[1..])
  }

  function Decimal(digits: seq<int>): int {
    if digits == [] then 0 else 10 * Decimal(digits[..|digits| - 1]) + (digits[|digits| - 1] - 48)
  }

  /** What parsing as a 64-bit number yields: too large a number becomes the largest. */
  function ParseInt(digits: seq<int>): int {
    if Decimal(digits) > MAX_INT64 then MAX_INT64 else Decimal(digits)
  }

  lemma {:induction false} DecimalNonNegative(digits: seq<int>)
    requires forall k :: 0 <= k < |digits| ==> IsDigit(digits[k])
    ensures Decimal(digits) >= 0
  {
    if digits != [] { DecimalNonNegative(digits[..|digits| - 1]); }
  }

  /** The place of a single character among all tokens: characters below the digits, numbers, characters above. */
  function CharKey(c: int): int {
    if Fold(c) < 48 then Fold(c) else MAX_INT64 + Fold(c)
  }

  /** The tokens of a code: maximal runs of digits as numbers, all other characters one by one without case. */
  function Keys(s: seq<int>): (keys: seq<int>)
    ensures keys == [] <==> s == []
    decreases |s|
  {
    if s == [] then []
    else if IsDigit(s[0]) then
      var n := DigitRun(s);
      [48 + ParseInt(s[..n])] + Keys(s[n..])
    else [CharKey(s[0])] + Keys(s[1..])
  }

  lemma LexCons(x: int, a: seq<int>, y: int, b: seq<int>)
    ensures LexLess([x] + a, [y] + b) <==> x < y || (x == y && LexLess(a, b))
  {
    assert ([x] + a)[1..] == a && ([y] + b)[1..] == b;
  }

  lemma KeyOfDigits(s: seq<int>)
    requires s != [] && IsDigit(s[0])
    ensures 0 < DigitRun(s) && 48 <= 48 + ParseInt(s[..DigitRun(s)]) <= 48 + MAX_INT64
  {
    DecimalNonNegative(s[..DigitRun(s)]);
  }

  method TakeDigits(s: seq<int>) returns (i: nat)
    ensures i == DigitRun(s)
  {
    i := 0;
    while i < |s| && IsDigit(s[i])
      invariant i <= |s|
      invariant i + DigitRun(s[i..]) == DigitRun(s)
    {
      assert s[i..][1..] == s[i + 1..];
      i := i + 1;
    }
  }

  /** The comparison as the loop it is. */
  method NaturalLess(first: seq<int>, second: seq<int>) returns (less: bool)
    ensures less == LexLess(Keys(first), Keys(second))
  {
    var a, b := first, second;
    while a != [] && b != []
      invariant LexLess(Keys(a), Keys(b)) == LexLess(Keys(first), Keys(second))
      decreases |a|
    {
      var ca, cb := a[0], b[0];
      if IsDigit(ca) && IsDigit(cb) {
        var i := TakeDigits(a);
        var j := TakeDigits(b);
        var na, nb := ParseInt(a[..i]), ParseInt(b[..j]);
        LexCons(48 + na, Keys(a[i..]), 48 + nb, Keys(b[j..]));
        if na != nb {
          return na < nb;
        }
        a, b := a[i..], b[j..];
        continue;
      }
      KeyHeads(a);
      KeyHeads(b);
      var la, lb := Fold(ca), Fold(cb);
      if la != lb {
        return la < lb;
      }
      LexCons(CharKey(ca), Keys(a[1..]), CharKey(cb), Keys(b[1..]));
      a, b := a[1..], b[1..];
    }
    return |a| < |b|;
  }

  /** Where the first token of a code falls. */
  lemma KeyHeads(s: seq<int>)
    requires s != []
    ensures Keys(s) != []
    ensures IsDigit(s[0]) ==> 48 <= Keys(s)[0] <= 48 + MAX_INT64
    ensures !IsDigit(s[0]) ==> Keys(s)[0] == CharKey(s[0]) && !IsDigit(Fold(s[0]))
  {
    if IsDigit(s[0]) { KeyOfDigits(s); }
  }

  /** The order of codes that the comparison decides. */
  predicate Precedes(a: seq<int>, b: seq<int>) {
    LexLess(Keys(a), Keys(b))
  }

  /** Sorting needs a strict weak order: irreflexive, transitive, and with transitive ties. A tie means the same
      tokens. */
  lemma NaturalIsStrictWeak(a: seq<int>, b: seq<int>, c: seq<int>)
    ensures !Precedes(a, a)
    ensures Precedes(a, b) && Precedes(b, c) ==> Precedes(a, c)
    ensures !Precedes(a, b) && !Precedes(b, a) <==> Keys(a) == Keys(b)
    ensures !Precedes(a, b) && !Precedes(b, a) && !Precedes(b, c) && !Precedes(c, b)
        ==> !Precedes(a, c) && !Precedes(c, a)
  {
    LexTrichotomy(Keys(a), Keys(a));
    LexTrichotomy(Keys(a), Keys(b));
    LexTrichotomy(Keys(b), Keys(c));
    LexTrichotomy(Keys(a), Keys(c));
    if Precedes(a, b) && Precedes(b, c) {
      LexTransitive(Keys(a), Keys(b), Keys(c));
    }
  }

  lemma {:induction false} DigitRunOf(digits: seq<int>, rest: seq<int>)
    requires forall k :: 0 <= k < |digits| ==> IsDigit(digits[k])
    requires rest == [] || !IsDigit(rest[0])
    ensures DigitRun(digits + rest) == |digits|
  {
    if digits == [] {
      assert digits + rest == rest;
    } else {
      assert (digits + rest)[1..] == digits[1..] + rest;
      DigitRunOf(digits[1..], rest);
    }
  }

  /** A run of digits that ends before the cut is the same run in the whole code. */
  lemma {:induction false} RunBeforeCut(prefix: seq<int>, rest: seq<int>)
    requires prefix != [] && IsDigit(prefix[0]) && !IsDigit(prefix[|prefix| - 1])
    ensures var n := DigitRun(prefix);
      0 < n < |prefix| && DigitRun(prefix + rest) == n && (prefix + rest)[..n] == prefix[..n]
      && (prefix + rest)[n..] == prefix[n..] + rest
  {
    var n := DigitRun(prefix);
    assert n < |prefix|;
    assert prefix[..n] + (prefix[n..] + rest) == prefix + rest;
    DigitRunOf(prefix[..n], prefix[n..] + rest);
  }

  lemma {:induction false} KeysOfChar(s: seq<int>)
    requires s != [] && !IsDigit(s[0])
    ensures Keys(s) == [CharKey(s[0])] + Keys(s[1..])
  {
  }

  lemma {:induction false} KeysOfConcat(prefix: seq<int>, rest: seq<int>)
    requires prefix == [] || !IsDigit(prefix[|prefix| - 1])
    ensures Keys(prefix + rest) == Keys(prefix) + Keys(rest)
    decreases |prefix|
  {
    hide ParseInt, Decimal, CharKey, Keys, DigitRun, IsDigit;
    if prefix == [] {
      assert prefix + rest == rest;
      assert Keys([]) == [];
    } else if IsDigit(prefix[0]) {
      RunBeforeCut(prefix, rest);
      var n := DigitRun(prefix);
      KeysOfRun(prefix);
      KeysOfRun(prefix + rest);
      assert prefix[n..][|prefix| - n - 1] == prefix[|prefix| - 1];
      KeysOfConcat(prefix[n..], rest);
    } else {
      KeysOfChar(prefix);
      KeysOfChar(prefix + rest);
      assert (prefix + rest)[1..] == prefix[1..] + rest;
      if |prefix| > 1 { assert prefix[1..][|prefix| - 2] == prefix[|prefix| - 1]; }
      KeysOfConcat(prefix[1..], rest);
    }
  }

  lemma {:induction false} LexSharedPrefix(p: seq<int>, a: seq<int>, b: seq<int>)
    ensures LexLess(p + a, p + b) <==> LexLess(a, b)
  {
    if p == [] {
      assert p + a == a && p + b == b;
    } else {
      assert p + a == [p[0]] + (p[1..] + a) && p + b == [p[0]] + (p[1..] + b);
      LexCons(p[0], p[1..] + a, p[0], p[1..] + b);
      LexSharedPrefix(p[1..], a, b);
    }
  }

  lemma {:induction false} KeysOfRun(s: seq<int>)
    requires s != [] && IsDigit(s[0])
    ensures Keys(s) == [48 + ParseInt(s[..DigitRun(s)])] + Keys(s[DigitRun(s)..])
  {
    KeyOfDigits(s);
  }

  lemma {:induction false} KeysOfNumber(m: seq<int>)
    requires m != [] && (forall k :: 0 <= k < |m| ==> IsDigit(m[k]))
    ensures Keys(m) == [48 + ParseInt(m)]
  {
    hide ParseInt, DigitRun, IsDigit, Keys;
    DigitRunOf(m, []);
    assert m + [] == m;
    KeysOfRun(m);
    assert m[..|m|] == m && m[|m|..] == [];
  }

  /** Codes that share a prefix without a trailing digit and end in a number are ordered by that number. */
  lemma NumberedCodes(prefix: seq<int>, m: seq<int>, n: seq<int>)
    requires prefix == [] || !IsDigit(prefix[|prefix| - 1])
    requires m != [] && n != []
    requires (forall k :: 0 <= k < |m| ==> IsDigit(m[k])) && (forall k :: 0 <= k < |n| ==> IsDigit(n[k]))
    requires Decimal(m) <= MAX_INT64 && Decimal(n) <= MAX_INT64
    ensures Precedes(prefix + m, prefix + n) <==> Decimal(m) < Decimal(n)
  {
    KeysOfConcat(prefix, m);
    KeysOfConcat(prefix, n);
    LexSharedPrefix(Keys(prefix), Keys(m), Keys(n));
    KeysOfNumber(m);
    KeysOfNumber(n);
  }

  // ------------------------------------------------------------------ written numbers and letters

  /** A number as it is written. */
  function Numeral(n: nat): (digits: seq<int>)
    ensures digits != [] && forall k :: 0 <= k < |digits| ==> 48 <= digits[k] <= 57
  {
    if n < 10 then [48 + n] else Numeral(n / 10) + [48 + n % 10]
  }

  function Zeros(k: nat): (digits: seq<int>)
    ensures |digits| == k && forall i :: 0 <= i < k ==> digits[i] == 48
  {
    seq(k, _ => 48)
  }

  lemma {:induction false} DecimalOfNumeral(k: nat, n: nat)
    ensures Decimal(Zeros(k) + Numeral(n)) == n
    decreases k + n
  {
    var digits := Zeros(k) + Numeral(n);
    if n < 10 {
      assert digits[..|digits| - 1] == Zeros(k);
      DecimalOfZeros(k);
    } else {
      assert digits[..|digits| - 1] == Zeros(k) + Numeral(n / 10);
      DecimalOfNumeral(k, n / 10);
    }
  }

  lemma {:induction false} DecimalOfZeros(k: nat)
    ensures Decimal(Zeros(k)) == 0
  {
    if k > 0 {
      assert Zeros(k)[..k - 1] == Zeros(k - 1);
      DecimalOfZeros(k - 1);
    }
  }

  /** Where a written number stands among all tokens; numbers of 64 bits and more all count as the largest. */
  function NumberKey(n: nat): int {
    48 + if n < 0x7FFF_FFFF_FFFF_FFFF then n else 0x7FFF_FFFF_FFFF_FFFF
  }

  lemma {:induction false} KeysOfWritten(prefix: seq<int>, k: nat, n: nat)
    requires prefix == [] || !IsDigit(prefix[|prefix| - 1])
    ensures Keys(prefix + (Zeros(k) + Numeral(n))) == Keys(prefix) + [NumberKey(n)]
  {
    hide Keys, Decimal, DigitRun, Zeros, Numeral;
    var digits := Zeros(k) + Numeral(n);
    KeysOfConcat(prefix, digits);
    KeysOfNumber(digits);
    DecimalOfNumeral(k, n);
  }

  /** Codes that share a prefix without a trailing digit and end in written numbers are ordered by these numbers,
      whatever zeros they are written with; numbers of 64 bits and more all count as the largest. */
  lemma {:induction false} WrittenNumbers(prefix: seq<int>, j: nat, m: nat, k: nat, n: nat)
    requires prefix == [] || !(48 <= prefix[|prefix| - 1] <= 57)
    ensures var a, b := prefix + (Zeros(j) + Numeral(m)), prefix + (Zeros(k) + Numeral(n));
      Precedes(a, b) <==> m < n && m < 0x7FFF_FFFF_FFFF_FFFF
  {
    hide Keys, Zeros, Numeral, LexLess;
    KeysOfWritten(prefix, j, m);
    KeysOfWritten(prefix, k, n);
    LexSharedPrefix(Keys(prefix), [NumberKey(m)], [NumberKey(n)]);
    LexOne(NumberKey(m), NumberKey(n));
  }

  lemma LexOne(x: int, y: int)
    ensures LexLess([x], [y]) <==> x < y
  {
    assert [x][1..] == [] && [y][1..] == [];
  }

  /** A byte as a small letter: the capital letters of ASCII, and those of Latin-1, which 0xD7 is not. */
  function Small(c: int): int {
    if 'A' as int <= c <= 'Z' as int then c + 32
    else if 192 <= c <= 222 && c != 215 then c + 32
    else c
  }

  /** Codes of one byte are ordered as bytes, capital letters as small ones. */
  lemma {:induction false} SingleBytes(c: int, d: int)
    requires 0 <= c < 256 && 0 <= d < 256
    ensures Precedes([c], [d]) <==> Small(c) < Small(d)
  {
    KeyOfByte(c);
    KeyOfByte(d);
    hide Keys, LexLess;
    LexOne(ByteKey(c), ByteKey(d));
  }

  function ByteKey(c: int): int {
    if IsDigit(c) then c else CharKey(c)
  }

  lemma {:induction false} KeyOfByte(c: int)
    requires 0 <= c < 256
    ensures Keys([c]) == [ByteKey(c)]
  {
    if IsDigit(c) {
      KeysOfNumber([c]);
      assert [c][..0] == [];
      assert Decimal([c]) == c - 48;
    } else {
      KeysOfChar([c]);
      assert [c][1..] == [];
    }
  }

  /** Capital and small letters do not differ: codes equal but for the case of ASCII letters are ties. */
  lemma {:induction false} CaseIsIgnored(a: seq<int>, b: seq<int>)
    requires |a| == |b|
    requires forall k :: 0 <= k < |a| ==> a[k] == b[k] || (65 <= a[k] <= 90 && b[k] == a[k] + 32)
    ensures !Precedes(a, b) && !Precedes(b, a)
  {
    SameKeys(a, b);
    LexTrichotomy(Keys(a), Keys(b));
  }

  lemma {:induction false} SameKeys(a: seq<int>, b: seq<int>)
    requires |a| == |b|
    requires forall k :: 0 <= k < |a| ==> a[k] == b[k] || (65 <= a[k] <= 90 && b[k] == a[k] + 32)
    ensures Keys(a) == Keys(b)
    decreases |a|
  {
    hide Keys, Decimal, ParseInt;
    assert a == [] ==> b == [];
    if a != [] {
      if IsDigit(a[0]) {
        var n := DigitRun(a);
        assert a[..n] == b[..n];
        assert b == b[..n] + b[n..];
        DigitRunOf(b[..n], b[n..]);
        KeysOfRun(a);
        KeysOfRun(b);
        SameKeys(a[n..], b[n..]);
      } else {
        KeysOfChar(a);
        KeysOfChar(b);
        SameKeys(a[1..], b[1..]);
      }
    }
  }
}

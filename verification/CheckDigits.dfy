/** The Luhn and IBAN validators of shield-core.js, and which mistyped numbers they turn down. */
module CheckDigits {
  import opened Wrappers

  predicate IsDigit(c: char) {
    '0' <= c <= '9'
  }

  predicate IsLetter(c: char) {
    'A' <= c <= 'Z'
  }

  ghost predicate AllDigits(d: seq<int>) {
    forall k :: 0 <= k < |d| ==> 0 <= d[k] <= 9
  }

  // ----- Luhn (Annex B of ISO/IEC 7812-1)

  function DigitsOf(m: string): (d: seq<int>)
    ensures AllDigits(d)
  {
    if m == "" then []
    else
      var c := m[|m| - 1];
      DigitsOf(m[..|m| - 1]) + (if IsDigit(c) then [c as int - '0' as int] else [])
  }

  /** What a digit adds at a place counted from the right, starting at 0. */
  function Contribution(n: int, place: nat): int {
    if place % 2 == 0 then n else if 2 * n > 9 then 2 * n - 9 else 2 * n
  }

  function WeightedSum(d: seq<int>): int {
    if d == [] then 0 else Contribution(d[0], |d| - 1) + WeightedSum(d[1..])
  }

  predicate LuhnValid(d: seq<int>) {
    13 <= |d| <= 19 && WeightedSum(d) % 10 == 0
  }

  method OnlyDigits(m: string) returns (d: seq<int>)
    ensures d == DigitsOf(m)
  {
    d := [];
    for i := 0 to |m|
      invariant d == DigitsOf(m[..i])
    {
      assert m[..i + 1][..i] == m[..i];
      if IsDigit(m[i]) {
        d := d + [m[i] as int - '0' as int];
      }
    }
    assert m[..|m|] == m;
  }

  method Luhn(m: string) returns (r: bool)
    ensures r <==> LuhnValid(DigitsOf(m))
  {
    var d := OnlyDigits(m);
    if |d| < 13 || |d| > 19 {
      return false;
    }
    var sum := 0;
    for i := 0 to |d|
      invariant sum == WeightedSum(d[|d| - i..])
    {
      var n := d[|d| - 1 - i];
      if i % 2 == 1 {
        n := n * 2;
        if n > 9 {
          n := n - 9;
        }
      }
      assert d[|d| - 1 - i..][1..] == d[|d| - i..];
      sum := sum + n;
    }
    assert d[0..] == d;
    r := sum % 10 == 0;
  }

  lemma {:induction false} SumAfterChange(d: seq<int>, i: nat, x: int)
    requires i < |d|
    ensures WeightedSum(d[i := x]) == WeightedSum(d) - Contribution(d[i], |d| - 1 - i) + Contribution(x, |d| - 1 - i)
  {
    if i == 0 {
      assert d[i := x][1..] == d[1..];
    } else {
      assert d[i := x][1..] == d[1..][i - 1 := x];
      SumAfterChange(d[1..], i - 1, x);
    }
  }

  lemma {:induction false} LeadingZeros(n: nat, d: seq<int>)
    ensures WeightedSum(seq(n, _ => 0) + d) == WeightedSum(d)
  {
    var all := seq(n, _ => 0) + d;
    if n == 0 {
      assert all == d;
    } else {
      LeadingZeros(n - 1, d);
      assert all[1..] == seq(n - 1, _ => 0) + d;
    }
  }

  /** Of any length allowed, zeros and then 18 are a valid number, and zeros and then 81 are not: it is the last digit
      but one that is doubled. */
  lemma KnownNumbers(n: nat)
    ensures LuhnValid(seq(n, _ => 0) + [1, 8]) <==> 11 <= n <= 17
    ensures !LuhnValid(seq(n, _ => 0) + [8, 1])
  {
    LeadingZeros(n, [1, 8]);
    LeadingZeros(n, [8, 1]);
    assert [1, 8][1..] == [8] && [8, 1][1..] == [1] && [8][1..] == [] && [1][1..] == [];
    assert WeightedSum([8]) == 8 && WeightedSum([1]) == 1;
  }

  /** Every single-digit substitution is turned down. */
  lemma LuhnSubstitution(d: seq<int>, i: nat, x: int)
    requires LuhnValid(d) && AllDigits(d) && i < |d|
    requires 0 <= x <= 9 && x != d[i]
    ensures !LuhnValid(d[i := x])
  {
    SumAfterChange(d, i, x);
    hide WeightedSum;
    ContributionsDiffer(d[i], x, |d| - 1 - i);
    Shift(WeightedSum(d), Contribution(x, |d| - 1 - i) - Contribution(d[i], |d| - 1 - i));
  }

  lemma ContributionsDiffer(a: int, b: int, p: nat)
    requires 0 <= a <= 9 && 0 <= b <= 9 && a != b
    ensures (Contribution(b, p) - Contribution(a, p)) % 10 != 0
  {
  }

  lemma Shift(w: int, c: int)
    requires w % 10 == 0
    ensures (w + c) % 10 == 0 <==> c % 10 == 0
  {
  }

  function Swap<T>(s: seq<T>, i: nat): (r: seq<T>)
    requires i + 1 < |s|
    ensures |r| == |s|
  {
    s[i := s[i + 1]][i + 1 := s[i]]
  }

  /** An adjacent transposition of different digits passes exactly when it swaps a 0 and a 9. */
  lemma LuhnTransposition(d: seq<int>, i: nat)
    requires LuhnValid(d) && AllDigits(d) && i + 1 < |d|
    ensures LuhnValid(Swap(d, i)) <==>
            d[i] == d[i + 1] || (d[i] == 0 && d[i + 1] == 9) || (d[i] == 9 && d[i + 1] == 0)
  {
    var a, b, p := d[i], d[i + 1], |d| - 1 - i;
    SumAfterChange(d, i, b);
    SumAfterChange(d[i := b], i + 1, a);
    SwapChange(a, b, p);
    hide WeightedSum, Contribution;
    Shift(WeightedSum(d), Contribution(b, p) - Contribution(a, p) + Contribution(a, p - 1) - Contribution(b, p - 1));
  }

  lemma SwapChange(a: int, b: int, p: nat)
    requires 0 <= a <= 9 && 0 <= b <= 9 && p > 0
    ensures var change := Contribution(b, p) - Contribution(a, p) + Contribution(a, p - 1) - Contribution(b, p - 1);
            change % 10 == 0 <==> a == b || (a == 0 && b == 9) || (a == 9 && b == 0)
  {
  }

  // ----- IBAN (ISO 7064 MOD 97-10, as ISO 13616 uses it)

  /** What follows the removal of white space and upper-casing. */
  predicate Format(s: string) {
    && 15 <= |s| <= 34
    && IsLetter(s[0]) && IsLetter(s[1]) && IsDigit(s[2]) && IsDigit(s[3])
    && forall k :: 4 <= k < |s| ==> IsLetter(s[k]) || IsDigit(s[k])
  }

  function Rotate(s: string): (r: string)
    requires |s| >= 4
    ensures |r| == |s|
  {
    s[4..] + s[..4]
  }

  /** A letter stands for two digits, A for 10 up to Z for 35. */
  function Expand(c: char): seq<int> {
    var v := c as int - 55;
    if IsLetter(c) then [v / 10, v % 10] else [c as int - '0' as int]
  }

  function ExpandAll(r: string): seq<int> {
    if r == "" then [] else ExpandAll(r[..|r| - 1]) + Expand(r[|r| - 1])
  }

  /** The decimal number a digit string writes. */
  function Number(d: seq<int>): int {
    if d == [] then 0 else Number(d[..|d| - 1]) * 10 + d[|d| - 1]
  }

  /** The remainder mod 97 of the number the expanded characters write. */
  function Rem(r: string): int {
    Number(ExpandAll(r)) % 97
  }

  predicate IbanValid(s: string) {
    Format(s) && Rem(Rotate(s)) == 1
  }

  function Stripped(m: string, isSpace: char -> bool): string {
    if m == "" then ""
    else Stripped(m[..|m| - 1], isSpace) + if isSpace(m[|m| - 1]) then "" else [m[|m| - 1]]
  }

  method Strip(m: string, isSpace: char -> bool) returns (s: string)
    ensures s == Stripped(m, isSpace)
  {
    s := "";
    for i := 0 to |m|
      invariant s == Stripped(m[..i], isSpace)
    {
      Prefixes(m, i);
      if !isSpace(m[i]) {
        s := s + [m[i]];
      }
    }
    assert m[..|m|] == m;
  }

  /** White space is taken out and the rest put in upper case, as the two parameters say. */
  method Iban(m: string, isSpace: char -> bool, upper: string -> string) returns (r: bool)
    ensures r <==> IbanValid(upper(Stripped(m, isSpace)))
  {
    var s := Strip(m, isSpace);
    r := CheckRemainder(upper(s));
  }

  method CheckRemainder(s: string) returns (r: bool)
    ensures r <==> IbanValid(s)
  {
    var ok := IsFormat(s);
    if !ok {
      return false;
    }
    var t := s[4..] + s[..4];
    hide ExpandAll, Number, Format;
    EmptyNumber();
    var rem := 0;
    assert t[..0] == "";
    for i := 0 to |t|
      invariant rem == Rem(t[..i])
    {
      rem := FeedDigits(rem, Expand(t[i]), ExpandAll(t[..i]));
      ExpandNext(t, i);
    }
    assert t[..|t|] == t;
    r := rem == 1;
  }

  lemma EmptyNumber()
    ensures Rem("") == 0
  {
  }

  lemma ExpandNext(t: string, i: nat)
    requires i < |t|
    ensures ExpandAll(t[..i + 1]) == ExpandAll(t[..i]) + Expand(t[i])
  {
    assert t[..i + 1][..i] == t[..i];
  }

  method FeedDigits(rem0: int, v: seq<int>, ghost done: seq<int>) returns (rem: int)
    requires rem0 == Number(done) % 97
    ensures rem == Number(done + v) % 97
  {
    rem := rem0;
    assert done + v[..0] == done;
    for j := 0 to |v|
      invariant rem == Number(done + v[..j]) % 97
    {
      NumberNext(done, v, j);
      NextRemainder(Number(done + v[..j]), v[j]);
      rem := (rem * 10 + v[j]) % 97;
    }
    assert v[..|v|] == v;
  }

  lemma NumberNext(done: seq<int>, v: seq<int>, j: nat)
    requires j < |v|
    ensures Number(done + v[..j + 1]) == Number(done + v[..j]) * 10 + v[j]
  {
    assert (done + v[..j + 1])[..|done| + j] == done + v[..j];
  }

  method IsFormat(s: string) returns (r: bool)
    ensures r <==> Format(s)
  {
    if |s| < 15 || |s| > 34 || !IsLetter(s[0]) || !IsLetter(s[1]) || !IsDigit(s[2]) || !IsDigit(s[3]) {
      return false;
    }
    for k := 4 to |s|
      invariant forall j :: 4 <= j < k ==> IsLetter(s[j]) || IsDigit(s[j])
    {
      if !IsLetter(s[k]) && !IsDigit(s[k]) {
        return false;
      }
    }
    r := true;
  }

  lemma NextRemainder(n: int, d: int)
    ensures (n % 97 * 10 + d) % 97 == (n * 10 + d) % 97
  {
    var q := n / 97;
    assert n * 10 + d == (n % 97 * 10 + d) + 97 * (q * 10);
    Multiple(n % 97 * 10 + d, q * 10);
  }

  lemma Multiple(x: int, k: int)
    ensures (x + 97 * k) % 97 == x % 97
  {
  }

  function Pow10(k: nat): int {
    if k == 0 then 1 else Pow10(k - 1) * 10
  }

  lemma {:induction false} NumberConcat(a: seq<int>, b: seq<int>)
    ensures Number(a + b) == Number(a) * Pow10(|b|) + Number(b)
  {
    if b == [] {
      assert a + b == a;
    } else {
      var n := |b| - 1;
      NumberConcat(a, b[..n]);
      assert (a + b)[..|a| + n] == a + b[..n];
      Distribute(Number(a), Pow10(n), Number(b[..n]));
    }
  }

  lemma Distribute(x: int, p: int, y: int)
    ensures (x * p + y) * 10 == x * (p * 10) + y * 10
  {
  }

  lemma {:induction false} ExpandConcat(a: string, b: string)
    ensures ExpandAll(a + b) == ExpandAll(a) + ExpandAll(b)
  {
    hide Expand;
    if b == "" {
      assert a + b == a;
    } else {
      var n := |b| - 1;
      ExpandConcat(a, b[..n]);
      Front(a, b);
      Assoc(ExpandAll(a), ExpandAll(b[..n]), Expand(b[n]));
    }
  }

  lemma TenIsInvertible(y: int)
    ensures (y * 10) % 97 == 0 <==> y % 97 == 0
  {
    var q, r := (y * 10) / 97, (y * 10) % 97;
    if r == 0 {
      assert y == 97 * (68 * q - 7 * y);
    }
  }

  lemma {:induction false} PowersCancel(x: int, k: nat)
    ensures (x * Pow10(k)) % 97 == 0 <==> x % 97 == 0
  {
    if k > 0 {
      PowersCancel(x, k - 1);
      assert x * Pow10(k) == (x * Pow10(k - 1)) * 10 by {
        Distribute(x, Pow10(k - 1), 0);
      }
      TenIsInvertible(x * Pow10(k - 1));
    }
  }

  lemma SameRemainder(x: int, y: int)
    ensures x % 97 == y % 97 <==> (x - y) % 97 == 0
  {
  }

  /** Replacing a middle part by another of the same width keeps the remainder exactly when the two parts agree mod
      97. */
  lemma MiddleDecides(a: string, m: string, n: string, b: string)
    requires |ExpandAll(m)| == |ExpandAll(n)|
    ensures Rem(a + m + b) == Rem(a + n + b) <==>
            (Number(ExpandAll(m)) - Number(ExpandAll(n))) % 97 == 0
  {
    hide Number, ExpandAll, Pow10;
    var k := |ExpandAll(b)|;
    NumberWith(a, m, b);
    NumberWith(a, n, b);
    var x, y := Number(ExpandAll(m)), Number(ExpandAll(n));
    var front := Number(ExpandAll(a)) * Pow10(|ExpandAll(m)|);
    Difference(front, x, y, Pow10(k), Number(ExpandAll(b)));
    PowersCancel(x - y, k);
    SameRemainder(Number(ExpandAll(a + m + b)), Number(ExpandAll(a + n + b)));
  }

  lemma NumberWith(a: string, m: string, b: string)
    ensures Number(ExpandAll(a + m + b))
         == (Number(ExpandAll(a)) * Pow10(|ExpandAll(m)|) + Number(ExpandAll(m))) * Pow10(|ExpandAll(b)|)
             + Number(ExpandAll(b))
  {
    hide Number, ExpandAll, Pow10;
    ExpandConcat(a + m, b);
    ExpandConcat(a, m);
    NumberConcat(ExpandAll(a) + ExpandAll(m), ExpandAll(b));
    NumberConcat(ExpandAll(a), ExpandAll(m));
  }

  lemma Difference(f: int, x: int, y: int, p: int, z: int)
    ensures ((f + x) * p + z) - ((f + y) * p + z) == (x - y) * p
  {
  }

  function Code(c: char): int {
    if IsLetter(c) then c as int - 55 else c as int - '0' as int
  }

  function Width(c: char): int {
    if IsLetter(c) then 100 else 10
  }

  lemma OneChar(c: char)
    ensures ExpandAll([c]) == Expand(c)
    ensures Number(Expand(c)) == Code(c)
  {
    assert [c][..0] == "";
    if IsLetter(c) {
      TwoDigits(Code(c) / 10, Code(c) % 10);
    } else {
      OneDigit(Code(c));
    }
  }

  lemma OneDigit(x: int)
    ensures Number([x]) == x
  {
    assert [x][..0] == [];
  }

  lemma TwoDigits(x: int, y: int)
    ensures Number([x, y]) == x * 10 + y
  {
    assert [x, y][..1] == [x];
    OneDigit(x);
  }

  lemma TwoChars(c: char, e: char)
    ensures |ExpandAll([c, e])| == |Expand(c)| + |Expand(e)|
    ensures Number(ExpandAll([c, e])) == Code(c) * Width(e) + Code(e)
  {
    ExpandConcat([c], [e]);
    assert [c] + [e] == [c, e];
    OneChar(c);
    OneChar(e);
    NumberConcat(Expand(c), Expand(e));
    assert Pow10(|Expand(e)|) == Width(e) by {
      assert Pow10(1) == 10 && Pow10(2) == 100;
    }
    hide Number, ExpandAll, Pow10;
  }

  predicate Alnum(c: char) {
    IsLetter(c) || IsDigit(c)
  }

  /** Any one letter for another, or one digit for another, in the rotated string changes the remainder. */
  lemma RotatedSubstitution(a: string, c: char, e: char, b: string)
    requires Alnum(c) && Alnum(e) && c != e && (IsLetter(c) <==> IsLetter(e))
    ensures Rem(a + [c] + b) != Rem(a + [e] + b)
  {
    OneChar(c);
    OneChar(e);
    MiddleDecides(a, [c], [e], b);
    hide Number, ExpandAll, Rem;
    NearZero(Code(c) - Code(e));
  }

  lemma NearZero(z: int)
    requires -97 < z < 97
    ensures z % 97 == 0 <==> z == 0
  {
  }

  /** The pairs that write the same digits in either order: 1 and B (111), 2 and M (222), 3 and X (333). */
  predicate Blind(c: char, e: char) {
    c == e || {c, e} in [{'1', 'B'}, {'2', 'M'}, {'3', 'X'}]
  }

  /** Swapping two neighbours of the rotated string goes unnoticed exactly for those pairs. */
  lemma RotatedTransposition(a: string, c: char, e: char, b: string)
    requires Alnum(c) && Alnum(e)
    ensures Rem(a + [c, e] + b) == Rem(a + [e, c] + b) <==> Blind(c, e)
  {
    TwoChars(c, e);
    TwoChars(e, c);
    hide Number, ExpandAll, Rem;
    MiddleDecides(a, [c, e], [e, c], b);
    SwapDifference(c, e);
    BlindPairs(c, e);
  }

  lemma SwapDifference(c: char, e: char)
    requires Alnum(c) && Alnum(e)
    ensures ((Code(c) * Width(e) + Code(e)) - (Code(e) * Width(c) + Code(c))) % 97 == 0 <==>
            c == e || (IsDigit(c) && IsLetter(e) && Code(e) == 11 * Code(c))
                || (IsLetter(c) && IsDigit(e) && Code(c) == 11 * Code(e))
  {
    var x, y := Code(c), Code(e);
    if IsLetter(c) && IsLetter(e) {
      Small(x, y, 99);
    } else if IsDigit(c) && IsDigit(e) {
      Small(x, y, 9);
    } else if IsDigit(c) {
      Mixed(x, y);
    } else {
      Mixed(y, x);
    }
  }

  lemma Small(x: int, y: int, f: int)
    requires f == 9 || f == 99
    requires -25 <= x - y <= 25 && (f == 9 ==> -9 <= x - y <= 9)
    ensures (f * x - f * y) % 97 == 0 <==> x == y
  {
    var z := x - y;
    if f == 99 {
      assert f * x - f * y == 2 * z + 97 * z;
      Multiple(2 * z, z);
      NearZero(2 * z);
    } else {
      assert f * x - f * y == 9 * z;
      NearZero(9 * z);
    }
  }

  lemma NineTimes(z: int)
    requires -89 <= z <= 89
    ensures (9 * z) % 97 == 0 <==> z == 0
  {
    var q, r := (9 * z) / 97, (9 * z) % 97;
    assert 9 * z == 97 * q + r;
    if r == 0 {
      assert 9 * z == 97 * q;
      assert z == 97 * (54 * q - 5 * z);
    }
  }

  lemma Mixed(d: int, v: int)
    requires 0 <= d <= 9 && 10 <= v <= 35
    ensures ((d * 100 + v) - (v * 10 + d)) % 97 == 0 <==> v == 11 * d
    ensures ((v * 10 + d) - (d * 100 + v)) % 97 == 0 <==> v == 11 * d
  {
    var z := 11 * d - v;
    NineTimes(z);
    NineTimes(-z);
    assert (d * 100 + v) - (v * 10 + d) == 9 * z;
    assert (v * 10 + d) - (d * 100 + v) == 9 * -z;
  }

  lemma BlindPairs(c: char, e: char)
    requires Alnum(c) && Alnum(e)
    ensures Blind(c, e) <==>
            c == e || (IsDigit(c) && IsLetter(e) && Code(e) == 11 * Code(c))
                || (IsLetter(c) && IsDigit(e) && Code(c) == 11 * Code(e))
  {
    forall x: char, y: char ensures {c, e} == {x, y} <==> (c == x && e == y) || (c == y && e == x) {
      assert c in {c, e} && e in {c, e} && x in {x, y} && y in {x, y};
    }
  }

  /** Where a place of the number ends up in the rotated string. */
  function Rotated(s: string, i: nat): nat
    requires |s| >= 4 && i < |s|
  {
    if i < 4 then |s| - 4 + i else i - 4
  }

  lemma RotateChange(s: string, i: nat, c: char)
    requires |s| >= 4 && i < |s|
    ensures var r, p := Rotate(s), Rotated(s, i);
            && r == r[..p] + [s[i]] + r[p + 1..]
            && Rotate(s[i := c]) == r[..p] + [c] + r[p + 1..]
  {
    var r, p := Rotate(s), Rotated(s, i);
    assert r[p] == s[i];
    assert Rotate(s[i := c]) == r[p := c];
  }

  lemma RotateSwap(s: string, i: nat)
    requires |s| >= 4 && i + 1 < |s| && i != 3
    ensures var r, p := Rotate(s), Rotated(s, i);
            && p + 2 <= |r|
            && r == r[..p] + [s[i], s[i + 1]] + r[p + 2..]
            && Rotate(Swap(s, i)) == r[..p] + [s[i + 1], s[i]] + r[p + 2..]
  {
    var r, p := Rotate(s), Rotated(s, i);
    assert r[p] == s[i] && r[p + 1] == s[i + 1];
    assert Rotate(Swap(s, i)) == r[p := s[i + 1]][p + 1 := s[i]];
  }

  /** A valid number with one letter or digit mistyped for another of its kind is turned down. */
  lemma IbanSubstitution(s: string, i: nat, c: char)
    requires IbanValid(s) && i < |s|
    requires Alnum(c) && c != s[i] && (IsLetter(c) <==> IsLetter(s[i]))
    ensures !IbanValid(s[i := c])
  {
    hide Rem, Rotate;
    RotateChange(s, i, c);
    var r, p := Rotate(s), Rotated(s, i);
    RotatedSubstitution(r[..p], s[i], c, r[p + 1..]);
  }

  // ----- a swap across the fourth place, which the rotation sends to the two ends

  // The powers of ten mod 97, as far as an IBAN is long.
  function Row(k: nat, a: int, b: int, c: int, d: int, e: int, f: int, g: int, h: int): int {
    if k < 4 then (if k < 2 then (if k == 0 then a else b) else if k == 2 then c else d)
    else if k < 6 then (if k == 4 then e else f) else if k == 6 then g else h
  }

  function Table(k: nat): int {
    if k < 8 then Row(k, 1, 10, 3, 30, 9, 90, 27, 76)
    else if k < 16 then Row(k - 8, 81, 34, 49, 5, 50, 15, 53, 45)
    else if k < 24 then Row(k - 16, 62, 38, 89, 17, 73, 51, 25, 56)
    else if k < 32 then Row(k - 24, 75, 71, 31, 19, 93, 57, 85, 74)
    else if k < 40 then Row(k - 32, 61, 28, 86, 84, 64, 58, 95, 77)
    else if k < 48 then Row(k - 40, 91, 37, 79, 14, 43, 42, 32, 29)
    else if k < 56 then Row(k - 48, 96, 87, 94, 67, 88, 7, 70, 21)
    else if k < 64 then Row(k - 56, 16, 63, 48, 92, 47, 82, 44, 52)
    else Row(k - 64, 35, 59, 8, 80, 24, 46, 72, 41)
  }

  lemma LowPowers(k: nat)
    requires k < 34
    ensures Table(k + 1) == Table(k) * 10 % 97 && Table(k + 1) != 1
  {
  }

  lemma HighPowers(k: nat)
    requires 34 <= k < 66
    ensures Table(k + 1) == Table(k) * 10 % 97 && Table(k + 1) != 1
  {
  }

  lemma {:induction false} PowersInTable(k: nat)
    requires k <= 66
    ensures Pow10(k) % 97 == Table(k) && (k > 0 ==> Table(k) != 1)
  {
    if k > 0 {
      hide Table;
      PowersInTable(k - 1);
      if k - 1 < 34 {
        LowPowers(k - 1);
      } else {
        HighPowers(k - 1);
      }
      NextRemainder(Pow10(k - 1), 0);
    }
  }

  /** Ten to the k is not 1 mod 97 for any k an IBAN is long enough for. */
  lemma PowersDiffer(k: nat)
    requires 0 < k <= 66
    ensures (Pow10(k) - 1) % 97 != 0
  {
    hide Pow10, Table;
    PowersInTable(k);
    NotOne(Pow10(k));
  }

  lemma NotOne(x: int)
    requires x % 97 != 1
    ensures (x - 1) % 97 != 0
  {
    var q, r := (x - 1) / 97, (x - 1) % 97;
    if r == 0 {
      Multiple(1, q);
    }
  }

  lemma CancelBy(d: int, q: int, inverse: int, m: int)
    requires d * inverse == 97 * m + 1
    ensures (d * q) % 97 == 0 ==> q % 97 == 0
  {
    if (d * q) % 97 == 0 {
      var t := d * q / 97;
      assert d * q == 97 * t;
      assert inverse * (d * q) == (97 * m + 1) * q;
      assert q == 97 * (inverse * t - m * q);
    }
  }

  lemma Cancel(d: int, q: int)
    requires 1 <= d <= 9
    ensures (d * q) % 97 == 0 ==> q % 97 == 0
  {
    var inverse, m := [1, 49, 65, 73, 39, 81, 14, 85, 54][d - 1], [0, 1, 2, 3, 2, 5, 1, 7, 5][d - 1];
    CancelBy(d, q, inverse, m);
  }

  lemma Opposite(x: int)
    ensures (-x) % 97 == 0 <==> x % 97 == 0
  {
  }

  lemma EndsDifference(x: int, y: int, p: int, n: int)
    ensures ((x * p + n) * 10 + y) - ((y * p + n) * 10 + x) == (x - y) * (p * 10 - 1)
  {
  }

  lemma DifferenceSeen(a: int, b: int, q: int)
    requires 0 <= a <= 9 && 0 <= b <= 9 && a != b && q % 97 != 0
    ensures ((a - b) * q) % 97 != 0
  {
    if a > b {
      Cancel(a - b, q);
    } else {
      Cancel(b - a, q);
      assert (a - b) * q == -((b - a) * q);
      Opposite((b - a) * q);
    }
  }

  lemma EndsNumber(x: char, y: char, mid: string)
    requires IsDigit(x) && IsDigit(y)
    ensures Number(ExpandAll([x] + mid + [y]))
            == (Code(x) * Pow10(|ExpandAll(mid)|) + Number(ExpandAll(mid))) * 10 + Code(y)
  {
    hide Number, ExpandAll;
    assert Pow10(1) == 10;
    hide Pow10;
    OneChar(x);
    OneChar(y);
    assert |ExpandAll([y])| == 1;
    hide Expand, Code;
    NumberWith([x], mid, [y]);
  }

  lemma EndsApart(x: char, y: char, mid: string)
    requires IsDigit(x) && IsDigit(y) && x != y && |ExpandAll(mid)| < 66
    ensures (Number(ExpandAll([x] + mid + [y])) - Number(ExpandAll([y] + mid + [x]))) % 97 != 0
  {
    hide Number, ExpandAll;
    var k, n := |ExpandAll(mid)|, Number(ExpandAll(mid));
    assert Pow10(k + 1) == Pow10(k) * 10;
    hide Pow10;
    EndsNumber(x, y, mid);
    EndsNumber(y, x, mid);
    PowersDiffer(k + 1);
    DigitCodes(x, y);
    hide Code;
    EndsDifference(Code(x), Code(y), Pow10(k), n);
    DifferenceSeen(Code(x), Code(y), Pow10(k) * 10 - 1);
  }

  lemma DigitCodes(x: char, y: char)
    requires IsDigit(x) && IsDigit(y) && x != y
    ensures 0 <= Code(x) <= 9 && 0 <= Code(y) <= 9 && Code(x) != Code(y)
  {
  }

  /** Different digits swapped between the two ends are noticed. */
  lemma EndsSwapped(x: char, y: char, mid: string)
    requires IsDigit(x) && IsDigit(y) && x != y && |ExpandAll(mid)| < 66
    ensures Rem([x] + mid + [y]) != Rem([y] + mid + [x])
  {
    hide Number, ExpandAll, Rem;
    EndsApart(x, y, mid);
    RemsDiffer([x] + mid + [y], [y] + mid + [x]);
  }

  lemma RemsDiffer(r: string, t: string)
    requires (Number(ExpandAll(r)) - Number(ExpandAll(t))) % 97 != 0
    ensures Rem(r) != Rem(t)
  {
    hide Number, ExpandAll;
    SameRemainder(Number(ExpandAll(r)), Number(ExpandAll(t)));
  }

  lemma {:induction false} ExpandedLength(r: string)
    ensures |ExpandAll(r)| <= 2 * |r|
  {
    if r != "" {
      ExpandedLength(r[..|r| - 1]);
    }
  }

  lemma AcrossTheCut(s: string)
    requires Format(s) && IsDigit(s[4]) && s[3] != s[4]
    ensures Rem(Rotate(Swap(s, 3))) != Rem(Rotate(s))
  {
    var mid := s[5..] + s[..3];
    assert Rotate(s) == [s[4]] + mid + [s[3]];
    assert Rotate(Swap(s, 3)) == [s[3]] + mid + [s[4]];
    ExpandedLength(mid);
    hide Rem, Rotate, ExpandAll;
    EndsSwapped(s[4], s[3], mid);
  }

  lemma SwapFormat(s: string, i: nat)
    requires Format(s) && i + 1 < |s|
    ensures i < 4 ==> (Format(Swap(s, i)) <==> (IsLetter(s[i]) <==> IsLetter(s[i + 1])))
    ensures i >= 4 ==> Format(Swap(s, i))
    ensures Alnum(s[i]) && Alnum(s[i + 1])
    ensures i == 3 ==> IsDigit(s[3])
  {
  }

  lemma BlindMixes(c: char, e: char)
    requires Alnum(c) && Alnum(e) && Blind(c, e)
    ensures c == e || (IsLetter(c) <==> !IsLetter(e))
  {
    BlindPairs(c, e);
  }

  /** Two neighbours of a valid number swapped pass exactly when they are equal, or a blind pair past the fourth
      place. */
  lemma IbanTransposition(s: string, i: nat)
    requires IbanValid(s) && i + 1 < |s|
    ensures IbanValid(Swap(s, i)) <==> s[i] == s[i + 1] || (i >= 4 && Blind(s[i], s[i + 1]))
  {
    SwapFormat(s, i);
    hide Format, Rem, Rotate, Blind;
    if s[i] == s[i + 1] {
      assert Swap(s, i) == s;
    } else if i == 3 {
      if !IsLetter(s[4]) {
        AcrossTheCut(s);
      }
    } else {
      RotateSwap(s, i);
      var r, p := Rotate(s), Rotated(s, i);
      RotatedTransposition(r[..p], s[i], s[i + 1], r[p + 2..]);
      if Blind(s[i], s[i + 1]) {
        BlindMixes(s[i], s[i + 1]);
      }
    }
  }

  lemma RemNext(r: string, c: char)
    requires Alnum(c)
    ensures Rem(r + [c]) == (Rem(r) * Width(c) + Code(c)) % 97
  {
    ExpandConcat(r, [c]);
    OneChar(c);
    NumberConcat(ExpandAll(r), Expand(c));
    assert Pow10(|Expand(c)|) == Width(c) by {
      assert Pow10(1) == 10 && Pow10(2) == 100;
    }
    hide Number, ExpandAll, Pow10, Expand;
    ScaledRemainder(Number(ExpandAll(r)), Width(c), Code(c));
  }

  lemma ScaledRemainder(n: int, w: int, d: int)
    ensures (n % 97 * w + d) % 97 == (n * w + d) % 97
  {
    var q := n / 97;
    Distribute97(n % 97, q, w);
    Multiple(n % 97 * w + d, q * w);
  }

  lemma Distribute97(r: int, q: int, w: int)
    ensures (r + 97 * q) * w == r * w + 97 * (q * w)
  {
  }

  function Zeros(n: nat): string {
    if n == 0 then "" else Zeros(n - 1) + "0"
  }

  lemma {:induction false} RemZeros(r: string, n: nat)
    ensures Rem(r + Zeros(n + 1)) == Rem(r + Zeros(n)) * 10 % 97
  {
    assert r + Zeros(n + 1) == (r + Zeros(n)) + ['0'];
    RemNext(r + Zeros(n), '0');
  }

  lemma {:induction false} ZerosAre(n: nat)
    ensures |Zeros(n)| == n && forall k :: 0 <= k < n ==> Zeros(n)[k] == '0'
  {
    if n > 0 {
      ZerosAre(n - 1);
    }
  }

  lemma ExampleShape(z: string)
    requires |z| == 11 && forall k :: 0 <= k < |z| ==> z[k] == '0'
    ensures var s := "GB681B" + z;
            Format(s) && s[4] == '1' && s[5] == 'B' && Rotate(s) == "1B" + z + "GB68" && Swap(s, 4) != s
  {
    var s := "GB681B" + z;
    assert s[4..] == "1B" + z && s[..4] == "GB68";
    assert Swap(s, 4)[4] == 'B';
  }

  lemma ExampleCodes()
    ensures Code('1') == 1 && Code('B') == 11 && Code('G') == 16 && Code('6') == 6 && Code('8') == 8
    ensures Width('1') == 10 && Width('B') == 100 && Width('G') == 100 && Width('6') == 10 && Width('8') == 10
    ensures Alnum('1') && Alnum('B') && Alnum('G') && Alnum('6') && Alnum('8') && Zeros(0) == ""
  {
  }

  /** A number whose first eleven digits after 1B are zeros, character by character. */
  lemma ExampleStart()
    ensures Rem("1B") == 14
  {
    EmptyNumber();
    ExampleCodes();
    hide Rem, Code, Width, Alnum;
    RemNext("", '1');
    RemNext("1", 'B');
    assert "" + ['1'] == "1" && "1" + ['B'] == "1B";
  }

  lemma {:induction false} RemAfterZeros(r: string, n: nat)
    ensures Rem(r + Zeros(n)) == Rem(r) * Pow10(n) % 97
  {
    hide Rem;
    if n == 0 {
      assert r + Zeros(0) == r;
      RemBelow(r);
    } else {
      RemAfterZeros(r, n - 1);
      RemZeros(r, n - 1);
      NextRemainder(Rem(r) * Pow10(n - 1), 0);
      Distribute(Rem(r), Pow10(n - 1), 0);
    }
  }

  lemma RemBelow(r: string)
    ensures Rem(r) % 97 == Rem(r)
  {
    hide Number, ExpandAll;
  }

  lemma ExampleZeros(r: string, n: nat)
    requires Rem(r) == 14 && n == 11
    ensures Rem(r + Zeros(n)) == 70
  {
    hide Rem, Zeros;
    RemAfterZeros(r, n);
    PowersInTable(n);
    assert Table(n) == 5;
    hide Pow10, Table;
    ScaledRemainder(Pow10(n), 14, 0);
  }

  lemma ExampleEnd(z: string)
    requires Rem(z) == 70
    ensures Rem(z + "GB68") == 1
  {
    ExampleCodes();
    hide *;
    RemNext(z, 'G');
    RemNext(z + ['G'], 'B');
    RemNext(z + ['G'] + ['B'], '6');
    RemNext(z + ['G'] + ['B'] + ['6'], '8');
    assert z + "GB68" == z + ['G'] + ['B'] + ['6'] + ['8'];
  }

  /** A swap of a blind pair that goes unnoticed: GB68 1B00... and GB68 B100... are both valid. */
  lemma BlindSwapPasses()
    ensures exists s: string :: |s| == 17 && IbanValid(s) && Swap(s, 4) != s && IbanValid(Swap(s, 4))
  {
    hide Rem, Rotate, Format, Zeros;
    var z := Zeros(11);
    var s := "GB681B" + z;
    ZerosAre(11);
    ExampleShape(z);
    ExampleStart();
    ExampleZeros("1B", 11);
    ExampleEnd("1B" + z);
    IbanTransposition(s, 4);
    assert Swap(s, 4) != s && IbanValid(s) && IbanValid(Swap(s, 4));
  }

  // ----- what is read of a match

  /** Digits are kept in order and nothing else is. */
  lemma DigitsRead(m: string, c: char)
    ensures DigitsOf("") == []
    ensures DigitsOf(m + [c]) == DigitsOf(m) + if '0' <= c <= '9' then [c as int - '0' as int] else []
  {
    assert (m + [c])[..|m|] == m;
  }

  /** White space goes and everything else stays, in order. */
  lemma StrippedReads(m: string, c: char, isSpace: char -> bool)
    ensures Stripped("", isSpace) == ""
    ensures Stripped(m + [c], isSpace) == Stripped(m, isSpace) + if isSpace(c) then "" else [c]
  {
    assert (m + [c])[..|m|] == m;
  }

  /** Two letters, two digits, and from eleven to thirty letters or digits. */
  lemma FormatMeaning(s: string)
    ensures Format(s) <==>
              && 4 + 11 <= |s| <= 4 + 30
              && 'A' <= s[0] <= 'Z' && 'A' <= s[1] <= 'Z' && '0' <= s[2] <= '9' && '0' <= s[3] <= '9'
              && forall k :: 4 <= k < |s| ==> 'A' <= s[k] <= 'Z' || '0' <= s[k] <= '9'
  {
  }
}

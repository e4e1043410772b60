/** The token codecs of kronos_vendor/module.py and kronos.py: sign vectors to integers and back, least
    significant bit first for the half tokens, most significant first for the codebook. Both are defined as
    the positional sums and masks of the source; the proofs go through the one-digit-at-a-time form. */
module BitCodec {

  function Pow2(n: nat): (p: nat)
    ensures p >= 1
  {
    if n == 0 then 1 else 2 * Pow2(n - 1)
  }

  /** Quotient and remainder are determined by the division equation. */
  lemma {:induction false} DivModUnique(x: int, m: int, q: int, r: int)
    requires m > 0 && x == q * m + r && 0 <= r < m
    ensures x / m == q && x % m == r
  {
    var d := x / m - q;
    assert x == x / m * m + x % m;
    assert d * m == r - x % m by { assert x / m * m == d * m + q * m; }
    TooFar(d, m);
  }

  lemma TooFar(d: int, m: int)
    requires m > 0
    ensures d >= 1 ==> d * m >= m
    ensures d <= -1 ==> d * m <= -m
  {
  }

  /** Dividing by two and then by m is dividing by 2m, and the remainders fit together. */
  lemma {:induction false} Halve(x: int, m: int)
    requires m > 0
    ensures x / (2 * m) == x / 2 / m
    ensures x % (2 * m) == x % 2 + 2 * (x / 2 % m)
  {
    var h := x / 2;
    assert h == h / m * m + h % m;
    assert h / m * (2 * m) == 2 * (h / m * m);
    DivModUnique(x, 2 * m, h / m, x % 2 + 2 * (h % m));
  }

  // ----- Least significant bit first -----

  function Digit(b: bool): nat {
    if b then 1 else 0
  }

  /** Sum of bit[i] * 2^i. */
  function Lsb(bits: seq<bool>): (x: nat)
    ensures x < Pow2(|bits|)
  {
    if bits == [] then 0
    else Lsb(bits[..|bits| - 1]) + if bits[|bits| - 1] then Pow2(|bits| - 1) else 0
  }

  /** Bit `i` of an integer: x & 2^i is nonzero. */
  predicate Bit(x: int, i: nat) {
    x / Pow2(i) % 2 == 1
  }

  function IndexBits(x: int, n: nat): (bits: seq<bool>)
    ensures |bits| == n
  {
    seq(n, i requires 0 <= i < n => Bit(x, i))
  }

  lemma {:induction false} LsbFront(bits: seq<bool>)
    requires bits != []
    ensures Lsb(bits) == Digit(bits[0]) + 2 * Lsb(bits[1..])
  {
    if |bits| > 1 {
      var init := bits[..|bits| - 1];
      LsbFront(init);
      assert bits[1..][..|bits| - 2] == init[1..];
    }
  }

  lemma {:induction false} BitShift(x: int, i: nat)
    ensures Bit(x, 0) == (x % 2 == 1)
    ensures i > 0 ==> Bit(x, i) == Bit(x / 2, i - 1)
  {
    if i > 0 { Halve(x, Pow2(i - 1)); }
  }

  lemma {:induction false} IndexBitsFront(x: int, n: nat)
    requires n > 0
    ensures IndexBits(x, n) == [x % 2 == 1] + IndexBits(x / 2, n - 1)
  {
    forall i | 0 <= i < n ensures IndexBits(x, n)[i] == ([x % 2 == 1] + IndexBits(x / 2, n - 1))[i] {
      BitShift(x, i);
    }
  }

  /** Decoding an encoding gives the bits back. */
  lemma {:induction false} DecodeOfEncode(bits: seq<bool>)
    ensures IndexBits(Lsb(bits), |bits|) == bits
  {
    if bits != [] {
      LsbFront(bits);
      DecodeOfEncode(bits[1..]);
      IndexBitsFront(Lsb(bits), |bits|);
    }
  }

  /** Encoding a decoding gives the integer modulo 2^n, so on [0, 2^n) it gives the integer itself. */
  lemma {:induction false} EncodeOfDecode(x: int, n: nat)
    ensures Lsb(IndexBits(x, n)) == x % Pow2(n)
    ensures 0 <= x < Pow2(n) ==> Lsb(IndexBits(x, n)) == x
    decreases n
  {
    if n > 0 {
      EncodeOfDecode(x / 2, n - 1);
      IndexBitsFront(x, n);
      LsbFront(IndexBits(x, n));
      Halve(x, Pow2(n - 1));
    }
    if 0 <= x < Pow2(n) {
      DivModUnique(x, Pow2(n), 0, x);
    }
  }

  lemma ConcatStep(digit: int, low: int, p: int, high: int)
    ensures digit + 2 * (low + p * high) == digit + 2 * low + 2 * p * high
  {
  }

  lemma {:induction false} LsbConcat(a: seq<bool>, b: seq<bool>)
    ensures Lsb(a + b) == Lsb(a) + Pow2(|a|) * Lsb(b)
  {
    if a == [] {
      assert a + b == b;
    } else {
      LsbConcat(a[1..], b);
      ConcatStep(Digit(a[0]), Lsb(a[1..]), Pow2(|a| - 1), Lsb(b));
      LsbFront(a);
      ConcatFront(a, b);
    }
  }

  lemma ConcatFront(a: seq<bool>, b: seq<bool>)
    requires a != []
    ensures Lsb(a + b) == Digit(a[0]) + 2 * Lsb(a[1..] + b)
  {
    assert (a + b)[1..] == a[1..] + b;
    LsbFront(a + b);
  }

  // ----- Sign vectors and half tokens -----

  /** Every component is plus or minus the scale. */
  predicate Signs(z: seq<real>, scale: real) {
    forall i :: 0 <= i < |z| ==> z[i] == scale || z[i] == -scale
  }

  /** A component counts as a one when it is not negative. */
  function SignBits(z: seq<real>): (bits: seq<bool>)
    ensures |bits| == |z|
  {
    seq(|z|, i requires 0 <= i < |z| => z[i] >= 0.0)
  }

  function BitsToIndices(z: seq<real>): nat {
    Lsb(SignBits(z))
  }

  /** The decoder's bits as signs, scaled. */
  function IndicesToBits(x: int, n: nat, scale: real): (z: seq<real>)
    ensures |z| == n && Signs(z, scale)
  {
    seq(n, i requires 0 <= i < n => if Bit(x, i) then scale else -scale)
  }

  lemma SignRoundTrip(z: seq<real>, scale: real)
    requires scale > 0.0 && Signs(z, scale)
    ensures IndicesToBits(BitsToIndices(z), |z|, scale) == z
  {
    DecodeOfEncode(SignBits(z));
    forall i | 0 <= i < |z| ensures IndicesToBits(BitsToIndices(z), |z|, scale)[i] == z[i] {
      assert Bit(Lsb(SignBits(z)), i) == IndexBits(Lsb(SignBits(z)), |z|)[i];
    }
  }

  /** What an index says: bit `i` is set exactly when component `i` is not negative, and nothing beyond is set. */
  lemma BitsOfIndex(z: seq<real>, i: nat)
    ensures Bit(BitsToIndices(z), i) <==> i < |z| && z[i] >= 0.0
  {
    if i < |z| {
      DecodeOfEncode(SignBits(z));
      assert IndexBits(Lsb(SignBits(z)), |z|)[i] == SignBits(z)[i];
    } else {
      HighBitIsZero(SignBits(z), i);
    }
  }

  function EncodeHalves(z: seq<real>, s1: nat): (nat, nat)
    requires s1 <= |z|
  {
    (BitsToIndices(z[..s1]), BitsToIndices(z[s1..]))
  }

  /** Both halves are decoded with masks of half the codebook dimension. */
  function DecodeHalves(indices: (nat, nat), codebookDim: nat, scale: real): seq<real> {
    IndicesToBits(indices.0, codebookDim / 2, scale) + IndicesToBits(indices.1, codebookDim / 2, scale)
  }

  ghost predicate HalvesRoundTrip(s1: nat, s2: nat, scale: real) {
    forall z :: |z| == s1 + s2 && Signs(z, scale) ==> DecodeHalves(EncodeHalves(z, s1), s1 + s2, scale) == z
  }

  lemma EqualHalves(z: seq<real>, s1: nat, scale: real)
    requires scale > 0.0 && |z| == s1 + s1 && Signs(z, scale)
    ensures DecodeHalves(EncodeHalves(z, s1), s1 + s1, scale) == z
  {
    assert (s1 + s1) / 2 == s1;
    SignRoundTrip(z[..s1], scale);
    SignRoundTrip(z[s1..], scale);
    assert z == z[..s1] + z[s1..];
  }

  lemma {:induction false} Pow2Monotone(a: nat, b: nat)
    requires a <= b
    ensures Pow2(a) <= Pow2(b)
  {
    if a < b { Pow2Monotone(a, b - 1); }
  }

  /** A bit beyond the length of an encoding is zero. */
  lemma {:induction false} HighBitIsZero(bits: seq<bool>, i: nat)
    requires i >= |bits|
    ensures !Bit(Lsb(bits), i)
  {
    Pow2Monotone(|bits|, i);
    DivModUnique(Lsb(bits), Pow2(i), 0, Lsb(bits));
  }

  lemma {:induction false} UnequalHalves(s1: nat, s2: nat, scale: real)
    requires scale > 0.0 && s1 != s2
    ensures var z := seq(s1 + s2, _ => scale);
            Signs(z, scale) && DecodeHalves(EncodeHalves(z, s1), s1 + s2, scale) != z
  {
    var z := seq(s1 + s2, _ => scale);
    var h := (s1 + s2) / 2;
    var out := DecodeHalves(EncodeHalves(z, s1), s1 + s2, scale);
    if h + h == s1 + s2 {
      if s1 < h {
        HighBitIsZero(SignBits(z[..s1]), s1);
        assert out[s1] == -scale;
      } else {
        HighBitIsZero(SignBits(z[s1..]), s2);
        assert out[h + s2] == -scale;
      }
    }
  }

  /** Splitting a sign vector, encoding both halves and decoding them with the half masks gives every vector
      back if and only if the halves are equally long. */
  lemma HalvesRoundTripIff(s1: nat, s2: nat, scale: real)
    requires scale > 0.0
    ensures HalvesRoundTrip(s1, s2, scale) <==> s1 == s2
  {
    if s1 == s2 {
      forall z | |z| == s1 + s2 && Signs(z, scale) ensures DecodeHalves(EncodeHalves(z, s1), s1 + s2, scale) == z {
        EqualHalves(z, s1, scale);
      }
    } else {
      UnequalHalves(s1, s2, scale);
    }
  }

  /** The index of the whole vector is pre + 2^s1 * post. */
  lemma {:induction false} FullIndexFromHalves(z: seq<real>, s1: nat)
    requires s1 <= |z|
    ensures BitsToIndices(z) == EncodeHalves(z, s1).0 + Pow2(s1) * EncodeHalves(z, s1).1
  {
    assert SignBits(z) == SignBits(z[..s1]) + SignBits(z[s1..]);
    LsbConcat(SignBits(z[..s1]), SignBits(z[s1..]));
  }

  // ----- Most significant bit first: the codebook -----

  /** Codes are vectors over {-1, 1}. */
  predicate Codes(c: seq<int>) {
    forall i :: 0 <= i < |c| ==> c[i] == -1 || c[i] == 1
  }

  /** Sum of (c[i] + 1) / 2 * 2^(d - 1 - i). */
  function CodesToIndexes(c: seq<int>): int {
    if c == [] then 0 else (c[0] + 1) / 2 * Pow2(|c| - 1) + CodesToIndexes(c[1..])
  }

  /** (x // 2^i) mod 2, recentred to plus or minus one. */
  function Code(x: int, i: nat): (c: int)
    ensures c == -1 || c == 1
  {
    x / Pow2(i) % 2 * 2 - 1
  }

  function IndexesToCodes(x: int, d: nat): (c: seq<int>)
    ensures |c| == d
    ensures Codes(c)
  {
    seq(d, i requires 0 <= i < d => Code(x, d - 1 - i))
  }

  lemma {:induction false} IndexBack(c: seq<int>)
    requires Codes(c) && c != []
    ensures CodesToIndexes(c) == 2 * CodesToIndexes(c[..|c| - 1]) + (c[|c| - 1] + 1) / 2
  {
    if |c| > 1 {
      IndexBack(c[1..]);
      assert c[1..][..|c| - 2] == c[..|c| - 1][1..];
    }
  }

  lemma {:induction false} IndexNonnegative(c: seq<int>)
    requires Codes(c)
    ensures 0 <= CodesToIndexes(c) < Pow2(|c|)
  {
    if c != [] { IndexNonnegative(c[1..]); }
  }

  lemma {:induction false} CodeShift(x: int, i: nat)
    ensures Code(x, 0) == x % 2 * 2 - 1
    ensures i > 0 ==> Code(x, i) == Code(x / 2, i - 1)
  {
    if i > 0 { Halve(x, Pow2(i - 1)); }
  }

  lemma IndexesToCodesBack(x: int, d: nat)
    requires d > 0
    ensures IndexesToCodes(x, d) == IndexesToCodes(x / 2, d - 1) + [x % 2 * 2 - 1]
  {
    forall i | 0 <= i < d
      ensures IndexesToCodes(x, d)[i] == (IndexesToCodes(x / 2, d - 1) + [x % 2 * 2 - 1])[i]
    {
      CodeShift(x, d - 1 - i);
    }
  }

  /** On codes, decoding an index gives the code back. */
  lemma {:induction false} CodesRoundTrip(c: seq<int>)
    requires Codes(c)
    ensures IndexesToCodes(CodesToIndexes(c), |c|) == c
  {
    if c != [] {
      IndexBack(c);
      CodesRoundTrip(c[..|c| - 1]);
      IndexesToCodesBack(CodesToIndexes(c), |c|);
    }
  }

  /** Encoding the code of any integer gives it back modulo 2^d. */
  lemma {:induction false} IndexesRoundTrip(x: int, d: nat)
    ensures CodesToIndexes(IndexesToCodes(x, d)) == x % Pow2(d)
    ensures 0 <= x < Pow2(d) ==> CodesToIndexes(IndexesToCodes(x, d)) == x
    decreases d
  {
    if d > 0 {
      IndexesRoundTrip(x / 2, d - 1);
      IndexesToCodesBack(x, d);
      IndexBack(IndexesToCodes(x, d));
      Halve(x, Pow2(d - 1));
    }
    if 0 <= x < Pow2(d) {
      DivModUnique(x, Pow2(d), 0, x);
    }
  }

  lemma {:induction false} SplitDigit(x: int, front: int, digit: int, m: int)
    requires m > 0 && x == 2 * front + digit && 0 <= digit <= 1
    ensures x / (2 * m) == front / m
    ensures x % (2 * m) == 2 * (front % m) + digit
  {
    Halve(x, m);
  }

  /** Cutting off the last `j` components divides the index by their weight; they are the remainder. */
  lemma {:induction false} IndexSplit(c: seq<int>, j: nat)
    requires Codes(c) && j <= |c|
    ensures CodesToIndexes(c) / Pow2(j) == CodesToIndexes(c[..|c| - j])
    ensures CodesToIndexes(c) % Pow2(j) == CodesToIndexes(c[|c| - j..])
  {
    if j == 0 {
      assert c[..|c|] == c;
    } else {
      var front, digit := c[..|c| - 1], (c[|c| - 1] + 1) / 2;
      IndexBack(c);
      IndexSplit(front, j - 1);
      SplitDigit(CodesToIndexes(c), CodesToIndexes(front), digit, Pow2(j - 1));
      TailIndex(c, j);
      assert front[..|front| - (j - 1)] == c[..|c| - j];
    }
  }

  /** The last `j` components without the very last. */
  lemma TailIndex(c: seq<int>, j: nat)
    requires Codes(c) && 0 < j <= |c|
    ensures CodesToIndexes(c[|c| - j..])
         == 2 * CodesToIndexes(c[..|c| - 1][|c| - j..]) + (c[|c| - 1] + 1) / 2
  {
    var tail := c[|c| - j..];
    assert tail[..|tail| - 1] == c[..|c| - 1][|c| - j..];
    IndexBack(tail);
  }

  // ----- Groups -----

  predicate Divides(size: nat, n: nat) {
    size > 0 && n % size == 0
  }

  lemma {:induction false} Peel(n: nat, size: nat)
    requires Divides(size, n) && n > 0
    ensures n >= size && Divides(size, n - size) && (n - size) / size == n / size - 1
  {
    var q := n / size;
    assert n == q * size;
    TooFar(q, size);
    assert (q - 1) * size == n - size;
    DivModUnique(n - size, size, q - 1, 0);
  }

  /** One index per group of `size` consecutive components. */
  function CodesToGroupIndexes(c: seq<int>, size: nat): (g: seq<int>)
    requires Divides(size, |c|)
    ensures |g| == |c| / size
  {
    if c == [] then []
    else
      Peel(|c|, size);
      [CodesToIndexes(c[..size])] + CodesToGroupIndexes(c[size..], size)
  }

  /** The codes of all groups, one after the other. */
  function GroupIndexesToCodes(g: seq<int>, size: nat): (c: seq<int>)
    ensures Codes(c)
  {
    if g == [] then [] else IndexesToCodes(g[0], size) + GroupIndexesToCodes(g[1..], size)
  }

  lemma {:induction false} GroupCodesLength(g: seq<int>, size: nat)
    requires size > 0
    ensures Divides(size, |GroupIndexesToCodes(g, size)|) && |GroupIndexesToCodes(g, size)| / size == |g|
  {
    if g != [] {
      GroupCodesLength(g[1..], size);
      var n := |GroupIndexesToCodes(g[1..], size)|;
      assert n == n / size * size;
      assert (n / size + 1) * size == n + size;
      DivModUnique(n + size, size, n / size + 1, 0);
    }
  }

  lemma {:induction false} GroupFront(c: seq<int>, size: nat)
    requires Divides(size, |c|) && c != []
    ensures |c| >= size && Divides(size, |c| - size)
    ensures CodesToGroupIndexes(c, size) == [CodesToIndexes(c[..size])] + CodesToGroupIndexes(c[size..], size)
  {
    Peel(|c|, size);
  }

  lemma GroupCodesFront(x: int, g: seq<int>, size: nat)
    ensures GroupIndexesToCodes([x] + g, size) == IndexesToCodes(x, size) + GroupIndexesToCodes(g, size)
  {
    assert ([x] + g)[1..] == g;
  }

  /** On codes, decoding the group indices gives the code back. */
  lemma {:induction false} GroupCodesRoundTrip(c: seq<int>, size: nat)
    requires Divides(size, |c|) && Codes(c)
    ensures GroupIndexesToCodes(CodesToGroupIndexes(c, size), size) == c
  {
    if c != [] {
      GroupFront(c, size);
      var front, rest := c[..size], c[size..];
      assert c == front + rest && Codes(front) && Codes(rest);
      CodesRoundTrip(front);
      GroupCodesRoundTrip(rest, size);
      GroupCodesFront(CodesToIndexes(front), CodesToGroupIndexes(rest, size), size);
    }
  }

  /** Encoding the codes of group indices in [0, 2^size) gives the indices back. */
  lemma {:induction false} GroupIndexesRoundTrip(g: seq<int>, size: nat)
    requires size > 0 && forall i :: 0 <= i < |g| ==> 0 <= g[i] < Pow2(size)
    ensures Divides(size, |GroupIndexesToCodes(g, size)|)
    ensures CodesToGroupIndexes(GroupIndexesToCodes(g, size), size) == g
  {
    GroupCodesLength(g, size);
    if g != [] {
      GroupIndexesRoundTrip(g[1..], size);
      IndexesRoundTrip(g[0], size);
      var c := GroupIndexesToCodes(g, size);
      assert c[..size] == IndexesToCodes(g[0], size) && c[size..] == GroupIndexesToCodes(g[1..], size);
      assert g == [g[0]] + g[1..];
    }
  }

  /** Group `k` encodes the components from k * size on. */
  lemma {:induction false} GroupAt(c: seq<int>, size: nat, k: nat)
    requires Divides(size, |c|) && k < |CodesToGroupIndexes(c, size)|
    ensures 0 <= k * size && k * size + size <= |c|
    ensures CodesToGroupIndexes(c, size)[k] == CodesToIndexes(c[k * size..k * size + size])
    decreases k
  {
    GroupFront(c, size);
    if k > 0 {
      GroupAt(c[size..], size, k - 1);
      OneMore(k, size);
      SliceOfRest(c, size, (k - 1) * size);
    }
  }

  lemma OneMore(k: int, size: int)
    ensures k * size == (k - 1) * size + size
  {
  }

  lemma SliceOfRest(c: seq<int>, size: nat, at: nat)
    requires at + size + size <= |c|
    ensures c[size..][at..at + size] == c[at + size..at + size + size]
  {
  }

  /** The group indices are the digits of the full index to the base 2^size, most significant first. */
  lemma {:induction false} GroupIndexesAreDigits(c: seq<int>, size: nat, k: nat)
    requires Divides(size, |c|) && Codes(c) && k < |CodesToGroupIndexes(c, size)|
    ensures |c| - (k * size + size) >= 0
    ensures CodesToGroupIndexes(c, size)[k] == CodesToIndexes(c) / Pow2(|c| - (k * size + size)) % Pow2(size)
  {
    GroupAt(c, size, k);
    var at := k * size;
    IndexSplit(c, |c| - (at + size));
    var front := c[..at + size];
    IndexSplit(front, size);
    assert front[at..] == c[at..at + size];
  }
}

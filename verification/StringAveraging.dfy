/** String averaging (src/utils.ts:540-698): strings over a contiguous alphabet are read
    as bijective base-N numerals, so that a string strictly between two others can be
    computed by averaging two numbers. */
module StringAveraging {

  /** A UTF-16 code unit, which is what `charCodeAt` returns. */
  type CodeUnit = c: int | 0 <= c < 0x1_0000
  type JsString = seq<CodeUnit>

  const DEFAULT_ALPHABET: JsString := seq(0x7E - 0x20 + 1, i requires 0 <= i < 0x7E - 0x20 + 1 => 0x20 + i)

  /** The alphabets on which the character-code subtraction in `stringToBase` is an index lookup. */
  ghost predicate Contiguous(alphabet: JsString) {
    |alphabet| >= 1 && forall i :: 0 <= i < |alphabet| ==> alphabet[i] == alphabet[0] + i
  }

  /** s only uses characters of the alphabet. */
  ghost predicate Over(s: JsString, alphabet: JsString)
    requires |alphabet| >= 1
  {
    forall i :: 0 <= i < |s| ==> alphabet[0] <= s[i] < alphabet[0] + |alphabet|
  }

  // ----- Orders

  /** The first index from k on at which a and b differ or one of them ends. */
  function FirstDifference(a: JsString, b: JsString, k: nat): (d: nat)
    requires k <= |a| && k <= |b|
    ensures k <= d <= |a| && d <= |b|
    ensures forall i :: k <= i < d ==> a[i] == b[i]
    ensures d == |a| || d == |b| || a[d] != b[d]
    decreases |a| - k
  {
    if k < |a| && k < |b| && a[k] == b[k] then FirstDifference(a, b, k + 1) else k
  }

  /** The order of JavaScript's `<` on strings. */
  predicate Less(a: JsString, b: JsString) {
    var d := FirstDifference(a, b, 0);
    d < |b| && (d == |a| || a[d] < b[d])
  }

  function LexicographicCompare(a: JsString, b: JsString): int {
    if Less(a, b) then -1 else if a == b then 0 else 1
  }

  /** Length first, then lexicographic. */
  ghost predicate Shortlex(a: JsString, b: JsString) {
    |a| < |b| || (|a| == |b| && Less(a, b))
  }

  // ----- The operations

  function Padding(n: nat, alphabet: JsString): (p: JsString)
    requires |alphabet| >= 1
  {
    seq(n, i => alphabet[0])
  }

  function AlphabetPad(s: JsString, n: nat, alphabet: JsString): JsString
    requires |alphabet| >= 1
  {
    if |s| >= n then s else s + Padding(n - |s|, alphabet)
  }

  function BaseToString(n: int, alphabet: JsString): JsString
    requires |alphabet| >= 1
    decreases if n < 0 then 0 else n
  {
    var len := |alphabet|;
    if n <= len then
      if 1 <= n then [alphabet[n - 1]] else []
    else
      var d, r := n / len, n % len - 1;
      RolloverDecreases(n, len);
      if r < 0 then BaseToString(d - (-r), alphabet) + [alphabet[len - 1]]
      else BaseToString(d, alphabet) + [alphabet[r]]
  }

  /** The number a string denotes: what the loop of `stringToBase` adds up. */
  function Value(s: JsString, alphabet: JsString): int
    requires |alphabet| >= 1
  {
    if s == [] then 0
    else Value(s[..|s| - 1], alphabet) * |alphabet| + 1 + (s[|s| - 1] as int - alphabet[0])
  }

  function Pow(base: int, e: nat): int {
    if e == 0 then 1 else base * Pow(base, e - 1)
  }

  method StringToBase(s: JsString, alphabet: JsString) returns (result: int)
    requires |alphabet| >= 1
    ensures result == Value(s, alphabet)
  {
    var len := |alphabet|;
    result := 0;
    var i, j := |s| - 1, 0;
    assert s[..|s|] == s;
    while i >= 0
      invariant -1 <= i < |s| && j == |s| - 1 - i
      invariant result + Value(s[..i + 1], alphabet) * Pow(len, j) == Value(s, alphabet)
    {
      var charIndex: int := s[i] as int - alphabet[0];
      assert s[..i + 1][..i] == s[..i];
      HornerStep(result, Value(s[..i], alphabet), len, 1 + charIndex, Pow(len, j));
      result := result + (1 + charIndex) * Pow(len, j);
      i, j := i - 1, j + 1;
    }
    assert s[..0] == [];
  }

  function NextString(s: JsString, alphabet: JsString): JsString
    requires |alphabet| >= 1
  {
    BaseToString(Value(s, alphabet) + 1, alphabet)
  }

  function PrevString(s: JsString, alphabet: JsString): JsString
    requires |alphabet| >= 1
  {
    BaseToString(Value(s, alphabet) - 1, alphabet)
  }

  /** JavaScript's bigint division by 2 truncates; both numbers are non-negative over the alphabet. */
  function Halve(n: int): int {
    if n >= 0 then n / 2 else -((-n) / 2)
  }

  function AverageBetweenStrings(a: JsString, b: JsString, alphabet: JsString): JsString
    requires |alphabet| >= 1
  {
    var padN := if |a| >= |b| then |a| else |b|;
    Midpoint(Value(AlphabetPad(a, padN, alphabet), alphabet),
             Value(AlphabetPad(b, padN, alphabet), alphabet), alphabet)
  }

  /** The string for the average of two numbers, with the rounding conflict detected. */
  function Midpoint(baseA: int, baseB: int, alphabet: JsString): JsString
    requires |alphabet| >= 1
  {
    var avg := Halve(baseA + baseB);
    if avg == baseA || avg == baseB then BaseToString(avg, alphabet) + [alphabet[0]]
    else BaseToString(avg, alphabet)
  }

  // ----- Arithmetic

  lemma {:induction false} HornerStep(result: int, v: int, len: int, digit: int, p: int)
    ensures result + digit * p + v * (len * p) == result + (v * len + digit) * p
  {
  }

  /** The quotient and remainder of n = q * len + (r + 1), with digits running from 1 to len. */
  lemma {:induction false} RolloverDecreases(n: int, len: int)
    requires len >= 1 && n > len
    ensures n % len == 0 ==> 1 <= n / len - 1 < n && n == (n / len - 1) * len + len
    ensures n % len != 0 ==> 1 <= n / len < n && n == (n / len) * len + n % len
  {
    var q := n / len;
    assert n == q * len + n % len;
    if len == 1 {
      assert n % len == 0 && q == n;
    } else {
      QuotientRange(q, len, n % len, n);
    }
  }

  lemma {:induction false} QuotientRange(q: int, len: int, r: int, n: int)
    requires len >= 2 && 0 <= r < len < n && n == q * len + r
    ensures 1 <= q < n && (r == 0 ==> q >= 2)
  {
    if q <= 0 {
      MulLe(q, 0, len);
    } else if q == 1 {
      assert n == len + r;
    } else {
      assert q * len >= q * 2;
    }
  }

  lemma {:induction false} MulLe(a: int, b: int, len: int)
    requires a <= b && len >= 0
    ensures a * len <= b * len
  {
  }

  /** Prefixing keeps strict bounds: digits run from 1 to len. */
  lemma {:induction false} DigitStep(lo: int, v: int, len: int, d: int)
    requires lo < v && len >= 1 && d <= len
    ensures lo * len + d < v * len + 1
  {
    MulLe(lo + 1, v, len);
    assert (lo + 1) * len == lo * len + len;
  }

  // ----- Facts about the lexicographic order

  lemma {:induction false} LessTotal(a: JsString, b: JsString)
    ensures (Less(a, b) && a != b && !Less(b, a)) || (a == b && !Less(a, b) && !Less(b, a)) || (Less(b, a) && a != b && !Less(a, b))
  {
  }

  lemma {:induction false} LessTransitive(a: JsString, b: JsString, c: JsString)
    requires Less(a, b) && Less(b, c)
    ensures Less(a, c)
  {
  }

  /** a comes before b at the d-th place: they are equal so far, and then a ends or has a lower character. */
  predicate ComesBeforeAt(a: JsString, b: JsString, d: nat) {
    && d <= |a| && d < |b| && a[..d] == b[..d] && (d == |a| || a[d] < b[d])
  }

  /** The result is negative exactly when the first string comes before the second, and positive
      exactly when it comes after it. */
  lemma {:induction false} CompareIff(a: JsString, b: JsString)
    ensures LexicographicCompare(a, b) < 0 <==> exists d: nat :: ComesBeforeAt(a, b, d)
    ensures LexicographicCompare(a, b) > 0 <==> exists d: nat :: ComesBeforeAt(b, a, d)
  {
    LessIff(a, b);
    LessIff(b, a);
    LessTotal(a, b);
  }

  lemma {:induction false} LessIff(a: JsString, b: JsString)
    ensures Less(a, b) <==> exists d: nat :: ComesBeforeAt(a, b, d)
  {
    var d := FirstDifference(a, b, 0);
    if Less(a, b) {
      assert ComesBeforeAt(a, b, d);
    }
    forall e: nat | ComesBeforeAt(a, b, e)
      ensures Less(a, b)
    {
      assert forall i :: 0 <= i < e ==> a[i] == a[..e][i] && b[i] == b[..e][i];
      assert d == e;
    }
  }

  /** The comparison function is safe to sort with: antisymmetric, transitive, zero only on equals. */
  lemma {:induction false} CompareIsTotalOrder(a: JsString, b: JsString, c: JsString)
    ensures LexicographicCompare(b, a) == -LexicographicCompare(a, b)
    ensures LexicographicCompare(a, b) == 0 <==> a == b
    ensures LexicographicCompare(a, b) <= 0 && LexicographicCompare(b, c) <= 0 ==> LexicographicCompare(a, c) <= 0
  {
    LessTotal(a, b);
    LessTotal(b, c);
    LessTotal(a, c);
    if Less(a, b) && Less(b, c) { LessTransitive(a, b, c); }
  }

  lemma {:induction false} ProperPrefixIsLess(a: JsString, c: JsString)
    ensures Less(a, a + c) <==> c != []
  {
    var d := FirstDifference(a, a + c, 0);
  }

  /** On strings of one length the order is decided by the prefixes, then by the last characters. */
  lemma {:induction false} LessSnoc(a: JsString, x: CodeUnit, b: JsString, y: CodeUnit)
    requires |a| == |b|
    ensures Less(a + [x], b + [y]) <==> Less(a, b) || (a == b && x < y)
  {
    var d, e := FirstDifference(a, b, 0), FirstDifference(a + [x], b + [y], 0);
    if d < |a| {
      assert (a + [x])[d] == a[d] && (b + [y])[d] == b[d];
      assert e == d;
    } else {
      assert a == b && (a + [x])[d] == x && (b + [y])[d] == y;
    }
  }

  /** If a is below b padded to a's length, then any extension of a is below b itself. */
  lemma {:induction false} LessDropsPadding(a: JsString, b: JsString, k: nat, ext: JsString, alphabet: JsString)
    requires |alphabet| >= 1 && Over(a, alphabet) && |a| == |b| + k
    requires Less(a, b + Padding(k, alphabet))
    ensures Less(a + ext, b)
  {
    var d, e := FirstDifference(a, b + Padding(k, alphabet), 0), FirstDifference(a + ext, b, 0);
    assert d < |b|;
    assert (a + ext)[d] == a[d] && (b + Padding(k, alphabet))[d] == b[d];
  }

  lemma {:induction false} NothingBelowPadding(a: JsString, alphabet: JsString)
    requires |alphabet| >= 1 && Over(a, alphabet)
    ensures !Less(a, Padding(|a|, alphabet))
  {
  }

  // ----- Values

  lemma {:induction false} ValueSnoc(s: JsString, x: CodeUnit, alphabet: JsString)
    requires |alphabet| >= 1
    ensures Value(s + [x], alphabet) == Value(s, alphabet) * |alphabet| + 1 + (x as int - alphabet[0])
  {
    assert (s + [x])[..|s|] == s;
  }

  /** The value of the first string of length n. */
  function First(n: nat, len: nat): int {
    if n == 0 then 0 else First(n - 1, len) * len + 1
  }

  lemma {:induction false} FirstStep(n: nat, len: nat)
    requires len >= 1
    ensures First(n, len) >= 0
    ensures First(n + 1, len) > First(n, len)
  {
    if n > 0 { FirstStep(n - 1, len); }
    MulLe(1, len, First(n, len));
  }

  lemma {:induction false} FirstMonotone(m: nat, n: nat, len: nat)
    requires len >= 1 && m <= n
    ensures 0 <= First(m, len) <= First(n, len)
  {
    FirstStep(m, len);
    if m < n {
      FirstMonotone(m, n - 1, len);
      FirstStep(n - 1, len);
    }
  }

  lemma {:induction false} ValueRange(s: JsString, alphabet: JsString)
    requires |alphabet| >= 1 && Over(s, alphabet)
    ensures First(|s|, |alphabet|) <= Value(s, alphabet) < First(|s| + 1, |alphabet|)
  {
    var len := |alphabet|;
    if s == [] {
      assert First(0, len) == 0 && First(1, len) == 1;
    } else {
      var s', d := s[..|s| - 1], 1 + (s[|s| - 1] as int - alphabet[0]);
      ValueRange(s', alphabet);
      MulLe(First(|s'|, len), Value(s', alphabet), len);
      DigitStep(Value(s', alphabet), First(|s|, len), len, d);
    }
  }

  /** Value is an order isomorphism from shortlex order onto the integers. */
  lemma {:induction false} ValueOrder(a: JsString, b: JsString, alphabet: JsString)
    requires |alphabet| >= 1 && Over(a, alphabet) && Over(b, alphabet)
    ensures Shortlex(a, b) <==> Value(a, alphabet) < Value(b, alphabet)
    ensures a == b <==> Value(a, alphabet) == Value(b, alphabet)
  {
    if |a| != |b| {
      ValueRange(a, alphabet);
      ValueRange(b, alphabet);
      if |a| < |b| { FirstMonotone(|a| + 1, |b|, |alphabet|); } else { FirstMonotone(|b| + 1, |a|, |alphabet|); }
    } else if a != [] {
      var n := |a| - 1;
      assert a == a[..n] + [a[n]] && b == b[..n] + [b[n]];
      ValueOrder(a[..n], b[..n], alphabet);
      LessSnoc(a[..n], a[n], b[..n], b[n]);
      DigitsOrder(Value(a[..n], alphabet), 1 + (a[n] as int - alphabet[0]),
                  Value(b[..n], alphabet), 1 + (b[n] as int - alphabet[0]), |alphabet|);
    }
  }

  lemma {:induction false} DigitsOrder(v: int, d: int, w: int, e: int, len: int)
    requires 1 <= d <= len && 1 <= e <= len
    ensures v * len + d < w * len + e <==> v < w || (v == w && d < e)
    ensures v * len + d == w * len + e <==> v == w && d == e
  {
    if v < w {
      DigitStep(v, w, len, d);
    } else if w < v {
      DigitStep(w, v, len, e);
    }
  }

  /** One step of baseToString splits off the last digit, rollover included. */
  lemma {:induction false} LastDigit(n: nat, alphabet: JsString) returns (q: nat, r: nat)
    requires |alphabet| >= 1 && n > |alphabet|
    ensures 1 <= q < n && r < |alphabet| && n == q * |alphabet| + (r + 1)
    ensures BaseToString(n, alphabet) == BaseToString(q, alphabet) + [alphabet[r]]
  {
    var len := |alphabet|;
    RolloverDecreases(n, len);
    if n % len == 0 {
      q, r := n / len - 1, len - 1;
    } else {
      q, r := n / len, n % len - 1;
    }
  }

  /** stringToBase undoes baseToString on every natural number. */
  lemma {:induction false} NumberRoundTrip(n: nat, alphabet: JsString)
    requires Contiguous(alphabet)
    ensures Over(BaseToString(n, alphabet), alphabet)
    ensures Value(BaseToString(n, alphabet), alphabet) == n
    decreases n
  {
    if n > |alphabet| {
      var q, r := LastDigit(n, alphabet);
      NumberRoundTrip(q, alphabet);
      ValueSnoc(BaseToString(q, alphabet), alphabet[r], alphabet);
    } else if n >= 1 {
      ValueSnoc([], alphabet[n - 1], alphabet);
      assert [] + [alphabet[n - 1]] == BaseToString(n, alphabet);
    }
  }

  /** baseToString undoes stringToBase on every string over the alphabet. */
  lemma {:induction false} StringRoundTrip(s: JsString, alphabet: JsString)
    requires Contiguous(alphabet) && Over(s, alphabet)
    ensures Value(s, alphabet) >= 0
    ensures BaseToString(Value(s, alphabet), alphabet) == s
  {
    ValueRange(s, alphabet);
    FirstMonotone(0, |s|, |alphabet|);
    var t := BaseToString(Value(s, alphabet), alphabet);
    NumberRoundTrip(Value(s, alphabet), alphabet);
    ValueOrder(s, t, alphabet);
  }

  // ----- Successor and predecessor

  /** nextString is the immediate shortlex successor, and prevString takes it back. */
  lemma {:induction false} NextIsSuccessor(s: JsString, alphabet: JsString)
    requires Contiguous(alphabet) && Over(s, alphabet)
    ensures var next := NextString(s, alphabet);
            && Over(next, alphabet)
            && Shortlex(s, next)
            && (forall t :: Over(t, alphabet) && Shortlex(s, t) ==> t == next || Shortlex(next, t))
            && PrevString(next, alphabet) == s
  {
    var next := NextString(s, alphabet);
    StringRoundTrip(s, alphabet);
    NumberRoundTrip(Value(s, alphabet) + 1, alphabet);
    ValueOrder(s, next, alphabet);
    forall t | Over(t, alphabet) && Shortlex(s, t)
      ensures t == next || Shortlex(next, t)
    {
      ValueOrder(s, t, alphabet);
      ValueOrder(next, t, alphabet);
    }
  }

  /** prevString is the immediate shortlex predecessor of every string but the empty one, which it leaves alone. */
  lemma {:induction false} PrevIsPredecessor(s: JsString, alphabet: JsString)
    requires Contiguous(alphabet) && Over(s, alphabet)
    ensures s != [] ==>
              var prev := PrevString(s, alphabet);
              && Over(prev, alphabet)
              && Shortlex(prev, s)
              && (forall t :: Over(t, alphabet) && Shortlex(t, s) ==> t == prev || Shortlex(t, prev))
              && NextString(prev, alphabet) == s
    ensures s == [] ==> PrevString(s, alphabet) == []
  {
    StringRoundTrip(s, alphabet);
    if s != [] {
      var prev := PrevString(s, alphabet);
      ValueOrder([], s, alphabet);
      NumberRoundTrip(Value(s, alphabet) - 1, alphabet);
      ValueOrder(prev, s, alphabet);
      forall t | Over(t, alphabet) && Shortlex(t, s)
        ensures t == prev || Shortlex(t, prev)
      {
        NothingBetween(t, prev, s, alphabet);
      }
    }
  }

  lemma {:induction false} NothingBetween(t: JsString, prev: JsString, s: JsString, alphabet: JsString)
    requires |alphabet| >= 1 && Over(t, alphabet) && Over(prev, alphabet) && Over(s, alphabet)
    requires Shortlex(t, s) && Value(s, alphabet) == Value(prev, alphabet) + 1
    ensures t == prev || Shortlex(t, prev)
  {
    ValueOrder(t, s, alphabet);
    ValueOrder(t, prev, alphabet);
  }

  /** s has a character other than the alphabet's last one, so that a longer string need not be next. */
  ghost predicate CanBeRaised(s: JsString, alphabet: JsString)
    requires |alphabet| >= 1
  {
    exists i :: 0 <= i < |s| && s[i] != alphabet[|alphabet| - 1]
  }

  /** s has a character other than the alphabet's first one, so that a shorter string need not be before it. */
  ghost predicate CanBeLowered(s: JsString, alphabet: JsString)
    requires |alphabet| >= 1
  {
    exists i :: 0 <= i < |s| && s[i] != alphabet[0]
  }

  lemma {:induction false} NothingAboveLast(s: JsString, t: JsString, alphabet: JsString)
    requires Contiguous(alphabet) && Over(s, alphabet) && Over(t, alphabet) && |t| == |s| && !CanBeRaised(s, alphabet)
    ensures !Less(s, t)
  {
  }

  lemma {:induction false} NothingBelowFirst(t: JsString, s: JsString, alphabet: JsString)
    requires Contiguous(alphabet) && Over(s, alphabet) && Over(t, alphabet) && |t| == |s| && !CanBeLowered(s, alphabet)
    ensures !Less(t, s)
  {
  }

  lemma {:induction false} Raise(s: JsString, alphabet: JsString) returns (t: JsString)
    requires Contiguous(alphabet) && Over(s, alphabet) && CanBeRaised(s, alphabet)
    ensures Over(t, alphabet) && |t| == |s| && Shortlex(s, t)
  {
    var i :| 0 <= i < |s| && s[i] != alphabet[|alphabet| - 1];
    t := s[i := s[i] + 1];
  }

  lemma {:induction false} Lower(s: JsString, alphabet: JsString) returns (t: JsString)
    requires Contiguous(alphabet) && Over(s, alphabet) && CanBeLowered(s, alphabet)
    ensures Over(t, alphabet) && |t| == |s| && Shortlex(t, s)
  {
    var i :| 0 <= i < |s| && s[i] != alphabet[0];
    t := s[i := s[i] - 1];
  }

  /** The rollover: a successor is one character longer exactly when every character is the last one,
      and it is then made of first characters only. */
  lemma {:induction false} NextRollsOverIff(s: JsString, alphabet: JsString)
    requires Contiguous(alphabet) && Over(s, alphabet)
    ensures var next := NextString(s, alphabet);
            if CanBeRaised(s, alphabet) then |next| == |s| else next == Padding(|s| + 1, alphabet)
  {
    NextIsSuccessor(s, alphabet);
    SuccessorRollsOverIff(s, NextString(s, alphabet), alphabet);
  }

  lemma {:induction false} SuccessorRollsOverIff(s: JsString, next: JsString, alphabet: JsString)
    requires Contiguous(alphabet) && Over(s, alphabet) && Over(next, alphabet) && Shortlex(s, next)
    requires forall t :: Over(t, alphabet) && Shortlex(s, t) ==> t == next || Shortlex(next, t)
    ensures if CanBeRaised(s, alphabet) then |next| == |s| else next == Padding(|s| + 1, alphabet)
  {
    if CanBeRaised(s, alphabet) {
      var t := Raise(s, alphabet);
    } else {
      if |next| == |s| { NothingAboveLast(s, next, alphabet); }
      var first := Padding(|s| + 1, alphabet);
      assert Over(first, alphabet) && Shortlex(s, first);
      NothingBelowPadding(next, alphabet);
    }
  }

  /** The rollover downwards: a predecessor is shorter exactly when every character is the first one. */
  lemma {:induction false} PrevRollsOverIff(s: JsString, alphabet: JsString)
    requires Contiguous(alphabet) && Over(s, alphabet) && s != []
    ensures |PrevString(s, alphabet)| <= |s|
    ensures |PrevString(s, alphabet)| == |s| <==> CanBeLowered(s, alphabet)
  {
    PrevIsPredecessor(s, alphabet);
    if CanBeLowered(s, alphabet) {
      var t := Lower(s, alphabet);
    } else {
      if |PrevString(s, alphabet)| == |s| { NothingBelowFirst(PrevString(s, alphabet), s, alphabet); }
    }
  }

  /** The successor is also lexicographically later exactly when some character is not the last of
      the alphabet, or the string is empty, or the alphabet has only one letter. */
  lemma {:induction false} NextIsLaterIff(s: JsString, alphabet: JsString)
    requires Contiguous(alphabet) && Over(s, alphabet)
    ensures Less(s, NextString(s, alphabet)) <==> CanBeRaised(s, alphabet) || s == [] || |alphabet| == 1
  {
    NextIsSuccessor(s, alphabet);
    NextRollsOverIff(s, alphabet);
    if !CanBeRaised(s, alphabet) && |alphabet| == 1 {
      assert s + [alphabet[0]] == Padding(|s| + 1, alphabet);
      ProperPrefixIsLess(s, [alphabet[0]]);
    }
  }

  // ----- Averaging

  /** b is a followed by nothing but the alphabet's first character. */
  ghost predicate OnlyPaddingAfter(a: JsString, b: JsString, alphabet: JsString)
    requires |alphabet| >= 1
  {
    |a| <= |b| && b == a + Padding(|b| - |a|, alphabet)
  }

  lemma {:induction false} PadIsOver(s: JsString, n: nat, alphabet: JsString)
    requires |alphabet| >= 1 && Over(s, alphabet)
    ensures var p := AlphabetPad(s, n, alphabet);
            && Over(p, alphabet)
            && |p| == (if |s| >= n then |s| else n)
            && p == s + Padding(|p| - |s|, alphabet)
  {
  }

  /** Padding both to one length keeps a strict order, unless padding is all that separates them. */
  lemma {:induction false} PadKeepsOrder(a: JsString, b: JsString, n: nat, alphabet: JsString)
    requires |alphabet| >= 1 && Over(a, alphabet) && Over(b, alphabet) && n >= |a| && n >= |b|
    requires Less(a, b)
    ensures OnlyPaddingAfter(a, b, alphabet) ==> AlphabetPad(a, n, alphabet) == AlphabetPad(b, n, alphabet)
    ensures !OnlyPaddingAfter(a, b, alphabet) ==> Less(AlphabetPad(a, n, alphabet), AlphabetPad(b, n, alphabet))
  {
    var A, B := AlphabetPad(a, n, alphabet), AlphabetPad(b, n, alphabet);
    PadIsOver(a, n, alphabet);
    PadIsOver(b, n, alphabet);
    var d, e := FirstDifference(a, b, 0), FirstDifference(A, B, 0);
    if d < |a| {
      assert A[d] == a[d] && B[d] == b[d];
    } else {
      // a is a prefix of b, and from |a| on A is the smallest it can be
      assert e < n ==> e >= |a| && A[e] == alphabet[0];
      if e == n {
        assert A == B;
        assert b == B[..|b|] == a + Padding(|b| - |a|, alphabet);
      }
    }
  }

  /** The average in terms of strings: M is the lower of the two padded strings, extended by one
      character, or lies strictly between them. */
  lemma {:induction false} AverageCases(a: JsString, b: JsString, n: nat, alphabet: JsString) returns (M: JsString, ext: JsString)
    requires Contiguous(alphabet) && Over(a, alphabet) && Over(b, alphabet)
    requires n == if |a| >= |b| then |a| else |b|
    ensures AverageBetweenStrings(a, b, alphabet) == M + ext
    ensures Over(M, alphabet) && |M| == n
    ensures var A, B := AlphabetPad(a, n, alphabet), AlphabetPad(b, n, alphabet);
            && (A == B ==> M == A && ext == [alphabet[0]])
            && (Less(A, B) ==> (M == A && ext == [alphabet[0]]) || (Less(A, M) && Less(M, B) && ext == []))
            && (Less(B, A) ==> (M == B && ext == [alphabet[0]]) || (Less(B, M) && Less(M, A) && ext == []))
  {
    var A, B := AlphabetPad(a, n, alphabet), AlphabetPad(b, n, alphabet);
    PadIsOver(a, n, alphabet);
    PadIsOver(b, n, alphabet);
    M, ext := MidpointCases(A, B, alphabet);
  }

  lemma {:induction false} MidpointCases(A: JsString, B: JsString, alphabet: JsString) returns (M: JsString, ext: JsString)
    requires Contiguous(alphabet) && Over(A, alphabet) && Over(B, alphabet) && |A| == |B|
    ensures Midpoint(Value(A, alphabet), Value(B, alphabet), alphabet) == M + ext
    ensures Over(M, alphabet) && |M| == |A|
    ensures A == B ==> M == A && ext == [alphabet[0]]
    ensures Less(A, B) ==> (M == A && ext == [alphabet[0]]) || (Less(A, M) && Less(M, B) && ext == [])
    ensures Less(B, A) ==> (M == B && ext == [alphabet[0]]) || (Less(B, M) && Less(M, A) && ext == [])
  {
    ValueOrder(A, B, alphabet);
    ValueOrder(B, A, alphabet);
    LessTotal(A, B);
    if Less(B, A) {
      M, ext := OrderedMidpoint(B, A, alphabet);
      MidpointSymmetric(Value(A, alphabet), Value(B, alphabet), alphabet);
    } else {
      M, ext := OrderedMidpoint(A, B, alphabet);
    }
  }

  lemma {:induction false} OrderedMidpoint(A: JsString, B: JsString, alphabet: JsString) returns (M: JsString, ext: JsString)
    requires Contiguous(alphabet) && Over(A, alphabet) && Over(B, alphabet) && |A| == |B|
    requires Value(A, alphabet) <= Value(B, alphabet)
    ensures Midpoint(Value(A, alphabet), Value(B, alphabet), alphabet) == M + ext
    ensures Over(M, alphabet) && |M| == |A|
    ensures (M == A && ext == [alphabet[0]]) || (Less(A, M) && Less(M, B) && ext == [])
  {
    StringRoundTrip(A, alphabet);
    M, ext := MidpointString(Value(A, alphabet), Value(B, alphabet), alphabet);
    BetweenByValue(A, M, B, alphabet);
  }

  lemma {:induction false} MidpointString(x: int, y: int, alphabet: JsString) returns (M: JsString, ext: JsString)
    requires Contiguous(alphabet) && 0 <= x <= y
    ensures Midpoint(x, y, alphabet) == M + ext && Over(M, alphabet)
    ensures x <= Value(M, alphabet) <= y
    ensures if Value(M, alphabet) == x then ext == [alphabet[0]] else ext == [] && Value(M, alphabet) < y
  {
    var avg := Halve(x + y);
    M := BaseToString(avg, alphabet);
    NumberRoundTrip(avg, alphabet);
    ext := if avg == x then [alphabet[0]] else [];
    MidpointIs(x, y, M, ext, alphabet);
  }

  lemma {:induction false} MidpointSymmetric(x: int, y: int, alphabet: JsString)
    requires |alphabet| >= 1
    ensures Midpoint(x, y, alphabet) == Midpoint(y, x, alphabet)
  {
    assert x + y == y + x;
  }

  lemma {:induction false} MidpointIs(x: int, y: int, M: JsString, ext: JsString, alphabet: JsString)
    requires |alphabet| >= 1
    requires M == BaseToString(Halve(x + y), alphabet)
    requires ext == if Halve(x + y) == x || Halve(x + y) == y then [alphabet[0]] else []
    ensures Midpoint(x, y, alphabet) == M + ext
  {
    assert M + [] == M;
  }

  lemma {:induction false} BetweenByValue(A: JsString, M: JsString, B: JsString, alphabet: JsString)
    requires |alphabet| >= 1 && Over(A, alphabet) && Over(M, alphabet) && Over(B, alphabet) && |A| == |B|
    requires Value(A, alphabet) <= Value(M, alphabet) <= Value(B, alphabet)
    ensures |M| == |A|
    ensures A == B || Less(A, B)
    ensures M == A || Less(A, M)
    ensures M == B || Less(M, B)
    ensures Value(M, alphabet) == Value(A, alphabet) <==> M == A
    ensures Value(M, alphabet) == Value(B, alphabet) <==> M == B
  {
    ValueOrder(M, A, alphabet);
    ValueOrder(B, M, alphabet);
    ValueOrder(B, A, alphabet);
    LessTotal(A, B);
    LessTotal(M, A);
    LessTotal(B, M);
  }

  /** Over a contiguous alphabet the average of a < b lies strictly between them exactly when
      b is not a followed only by padding characters. */
  lemma {:induction false} AverageStrictlyBetweenIff(a: JsString, b: JsString, alphabet: JsString)
    requires Contiguous(alphabet) && Over(a, alphabet) && Over(b, alphabet)
    requires Less(a, b)
    ensures var mid := AverageBetweenStrings(a, b, alphabet);
            && Over(mid, alphabet)
            && (Less(a, mid) && Less(mid, b) <==> !OnlyPaddingAfter(a, b, alphabet))
  {
    var n := if |a| >= |b| then |a| else |b|;
    var M, ext := AverageCases(a, b, n, alphabet);
    PadKeepsOrder(a, b, n, alphabet);
    if OnlyPaddingAfter(a, b, alphabet) {
      assert M == b;
      ProperPrefixIsLess(b, [alphabet[0]]);
      LessTotal(b, b + [alphabet[0]]);
    } else {
      ExtensionIsBetween(a, b, n, M, ext, alphabet);
    }
  }

  lemma {:induction false} ExtensionIsBetween(a: JsString, b: JsString, n: nat, M: JsString, ext: JsString, alphabet: JsString)
    requires |alphabet| >= 1 && n >= |a| && n >= |b| && Over(M, alphabet) && |M| == n
    requires Less(M, AlphabetPad(b, n, alphabet))
    requires (M == AlphabetPad(a, n, alphabet) && ext != []) || Less(AlphabetPad(a, n, alphabet), M)
    ensures Less(a, M + ext) && Less(M + ext, b)
  {
    PadIsAppend(b, n, alphabet);
    LessDropsPadding(M, b, n - |b|, ext, alphabet);
    ExtensionIsAbove(a, n, M, ext, alphabet);
  }

  lemma {:induction false} ExtensionIsAbove(a: JsString, n: nat, M: JsString, ext: JsString, alphabet: JsString)
    requires |alphabet| >= 1 && n >= |a|
    requires (M == AlphabetPad(a, n, alphabet) && ext != []) || Less(AlphabetPad(a, n, alphabet), M)
    ensures Less(a, M + ext)
  {
    PadIsAppend(a, n, alphabet);
    var A, tail := AlphabetPad(a, n, alphabet), Padding(n - |a|, alphabet);
    ProperPrefixIsLess(M, ext);
    ProperPrefixIsLess(a, tail);
    if M == A {
      if tail != [] { LessTransitive(a, M, M + ext); } else { assert a == M; }
    } else {
      if tail != [] { LessTransitive(a, A, M); } else { assert a == A; }
      if ext != [] { LessTransitive(a, M, M + ext); } else { assert M + ext == M; }
    }
  }

  lemma {:induction false} PadIsAppend(s: JsString, n: nat, alphabet: JsString)
    requires |alphabet| >= 1 && n >= |s|
    ensures AlphabetPad(s, n, alphabet) == s + Padding(n - |s|, alphabet)
  {
  }

  /** What the average is: of two strings padded to one length, the string whose value is the mean of
      theirs, rounded down; if their values are equal or next to each other, the lower one with one
      more character, the alphabet's first. */
  lemma {:induction false} AverageIsMidpoint(a: JsString, b: JsString, n: nat, alphabet: JsString)
    requires Contiguous(alphabet) && Over(a, alphabet) && Over(b, alphabet)
    requires n == if |a| >= |b| then |a| else |b|
    ensures var A, B := a + Padding(n - |a|, alphabet), b + Padding(n - |b|, alphabet);
            var x, y, mid := Value(A, alphabet), Value(B, alphabet), AverageBetweenStrings(a, b, alphabet);
            if -1 <= x - y <= 1 then mid == (if x <= y then A else B) + [alphabet[0]]
            else Over(mid, alphabet) && |mid| == n && x + y - 1 <= 2 * Value(mid, alphabet) <= x + y
  {
    PadIsAppend(a, n, alphabet);
    PadIsAppend(b, n, alphabet);
    PadIsOver(a, n, alphabet);
    PadIsOver(b, n, alphabet);
    MidpointIsMean(AlphabetPad(a, n, alphabet), AlphabetPad(b, n, alphabet), alphabet);
  }

  lemma {:induction false} MidpointIsMean(A: JsString, B: JsString, alphabet: JsString)
    requires Contiguous(alphabet) && Over(A, alphabet) && Over(B, alphabet) && |A| == |B|
    ensures var x, y := Value(A, alphabet), Value(B, alphabet);
            var mid := Midpoint(x, y, alphabet);
            if -1 <= x - y <= 1 then mid == (if x <= y then A else B) + [alphabet[0]]
            else Over(mid, alphabet) && |mid| == |A| && x + y - 1 <= 2 * Value(mid, alphabet) <= x + y
  {
    var x, y := Value(A, alphabet), Value(B, alphabet);
    StringRoundTrip(A, alphabet);
    StringRoundTrip(B, alphabet);
    MeanString(x, y, alphabet);
    if x < y - 1 {
      BetweenByValue(A, Midpoint(x, y, alphabet), B, alphabet);
    } else if y < x - 1 {
      BetweenByValue(B, Midpoint(x, y, alphabet), A, alphabet);
    }
  }

  lemma {:induction false} MeanString(x: nat, y: nat, alphabet: JsString)
    requires Contiguous(alphabet)
    ensures var mid := Midpoint(x, y, alphabet);
            if -1 <= x - y <= 1 then mid == BaseToString(if x <= y then x else y, alphabet) + [alphabet[0]]
            else Over(mid, alphabet) && x + y - 1 <= 2 * Value(mid, alphabet) <= x + y
  {
    MeanOf(x, y);
    var avg := Halve(x + y);
    NumberRoundTrip(avg, alphabet);
    if -1 <= x - y <= 1 {
      MidpointIs(x, y, BaseToString(avg, alphabet), [alphabet[0]], alphabet);
    } else {
      MidpointIs(x, y, BaseToString(avg, alphabet), [], alphabet);
    }
  }

  lemma {:induction false} MeanOf(x: nat, y: nat)
    ensures 0 <= Halve(x + y) && x + y - 1 <= 2 * Halve(x + y) <= x + y
    ensures (Halve(x + y) == x || Halve(x + y) == y) <==> -1 <= x - y <= 1
    ensures -1 <= x - y <= 1 ==> Halve(x + y) == if x <= y then x else y
  {
  }

  /** Averaging the two neighbours of m gives m back exactly when m has a character other than the
      first and a character other than the last of the alphabet. */
  lemma {:induction false} AverageOfNeighboursIff(m: JsString, alphabet: JsString)
    requires Contiguous(alphabet) && Over(m, alphabet)
    ensures AverageBetweenStrings(PrevString(m, alphabet), NextString(m, alphabet), alphabet) == m
            <==> CanBeLowered(m, alphabet) && CanBeRaised(m, alphabet)
  {
    PrevIsPredecessor(m, alphabet);
    NextIsSuccessor(m, alphabet);
    NeighbourLengths(m, alphabet);
    if CanBeLowered(m, alphabet) && CanBeRaised(m, alphabet) {
      AverageOfNeighbours(m, alphabet);
    } else {
      AverageIsNotBetween(PrevString(m, alphabet), m, NextString(m, alphabet), alphabet);
    }
  }

  lemma {:induction false} NeighbourLengths(m: JsString, alphabet: JsString)
    requires Contiguous(alphabet) && Over(m, alphabet)
    ensures |PrevString(m, alphabet)| <= |NextString(m, alphabet)|
    ensures |PrevString(m, alphabet)| == |NextString(m, alphabet)| <==> CanBeLowered(m, alphabet) && CanBeRaised(m, alphabet)
  {
    NextRollsOverIff(m, alphabet);
    PrevIsPredecessor(m, alphabet);
    if m != [] { PrevRollsOverIff(m, alphabet); }
  }

  lemma {:induction false} AverageOfNeighbours(m: JsString, alphabet: JsString)
    requires Contiguous(alphabet) && Over(m, alphabet) && m != []
    requires |PrevString(m, alphabet)| == |NextString(m, alphabet)|
    ensures AverageBetweenStrings(PrevString(m, alphabet), NextString(m, alphabet), alphabet) == m
  {
    var v := Value(m, alphabet);
    StringRoundTrip(m, alphabet);
    ValueIsPositive(m, alphabet);
    NumberRoundTrip(v - 1, alphabet);
    NumberRoundTrip(v + 1, alphabet);
    assert Halve((v - 1) + (v + 1)) == v;
    MidpointIs(v - 1, v + 1, m, [], alphabet);
  }

  lemma {:induction false} ValueIsPositive(s: JsString, alphabet: JsString)
    requires |alphabet| >= 1 && Over(s, alphabet) && s != []
    ensures Value(s, alphabet) >= 1
  {
    ValueOrder([], s, alphabet);
  }

  lemma {:induction false} AverageIsNotBetween(prev: JsString, m: JsString, next: JsString, alphabet: JsString)
    requires Contiguous(alphabet) && Over(prev, alphabet) && Over(m, alphabet) && Over(next, alphabet)
    requires Shortlex(m, next) && |prev| < |next|
    requires m != [] ==> forall t :: Over(t, alphabet) && Shortlex(t, m) ==> t == prev || Shortlex(t, prev)
    ensures AverageBetweenStrings(prev, next, alphabet) != m
  {
    var M, ext := AverageCases(prev, next, |next|, alphabet);
    var A := AlphabetPad(prev, |next|, alphabet);
    PadIsOver(prev, |next|, alphabet);
    if |m| == |next| {
      // prev padded to the length of m cannot lie between prev and m
      assert !Shortlex(A, m);
      PaddedAverageDiffers(A, m, next, M, ext);
    }
  }

  lemma {:induction false} PaddedAverageDiffers(A: JsString, m: JsString, next: JsString, M: JsString, ext: JsString)
    requires |A| == |m| == |next| == |M| && !Less(A, m) && Less(m, next)
    requires A == next ==> ext != []
    requires Less(A, next) ==> (M == A && ext != []) || (Less(A, M) && Less(M, next))
    requires Less(next, A) ==> (M == next && ext != []) || (Less(next, M) && Less(M, A))
    ensures M + ext != m
  {
    LessTotal(A, next);
    LessTotal(m, next);
    if ext == [] { assert M + ext == M; }
  }

  // ----- Inputs on which the simple statements fail

  const AB: JsString := [97, 98]

  lemma {:induction false} SmallValues()
    ensures Contiguous(AB)
    ensures Value([], AB) == 0 && Value([97], AB) == 1 && Value([98], AB) == 2 && Value([97, 97], AB) == 3
    ensures BaseToString(1, AB) == [97] && BaseToString(3, AB) == [97, 97]
  {
    ValueSnoc([], 97, AB);
    ValueSnoc([], 98, AB);
    ValueSnoc([97], 97, AB);
    assert [] + [97] == [97 as CodeUnit] && [] + [98] == [98 as CodeUnit] && [97] + [97] == [97 as CodeUnit, 97];
    var q, r := LastDigit(3, AB);
  }

  /** The average of "a" and "aa" over the letters a and b is "aaa", which is after both. */
  lemma {:induction false} PaddedPairHasNothingBetween()
    ensures var a, b := [97], [97, 97];
            Less(a, b) && AverageBetweenStrings(a, b, AB) == [97, 97, 97] && !Less([97, 97, 97], b)
  {
    SmallValues();
    var a: JsString, b: JsString := [97], [97, 97];
    ProperPrefixIsLess(a, [97]);
    assert a + [97] == b && AlphabetPad(a, 2, AB) == b && AlphabetPad(b, 2, AB) == b;
    ProperPrefixIsLess(b, [97]);
    assert b + [97] == [97, 97, 97];
    LessTotal(b, b + [97]);
  }

  /** The string after "b" is "aa", which JavaScript orders before "b"; so the average of its
      neighbours "a" and "aa" is not "b". */
  lemma {:induction false} LastLetterRollsOver()
    ensures NextString([98], AB) == [97, 97] && !Less([98], [97, 97])
    ensures PrevString([98], AB) == [97] && AverageBetweenStrings([97], [97, 97], AB) != [98]
  {
    SmallValues();
    PaddedPairHasNothingBetween();
  }

  lemma {:induction false} DefaultAlphabetIsContiguous()
    ensures Contiguous(DEFAULT_ALPHABET) && |DEFAULT_ALPHABET| == 95
  {
  }
}

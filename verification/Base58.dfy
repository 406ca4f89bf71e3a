/** The base-256 to base-58 conversion that turns a 64-byte transaction signature
    into the text the payment rows and the RPC node know it by.  `EncodeBase58`
    keeps the loops of the program; what they compute is stated with positional
    notation in an arbitrary base, and `Decode` is the inverse that section 4 of
    draft-msporny-base58 describes. */
module Base58 {
  import opened Options

  newtype Byte = b: int | 0 <= b < 256

  // The alphabet, cut where its ranges begin.
  const NUMERALS := "123456789"
  const UPPER := "ABCDEFGHJKLMNPQRSTUVWXYZ"
  const LOWER := "abcdefghijkmnopqrstuvwxyz"
  const ALPHABET: string := NUMERALS + UPPER + LOWER

  ghost predicate Ascending(s: string) {
    forall i :: 0 <= i < |s| - 1 ==> s[i] < s[i + 1]
  }

  /** What the conversion needs of its alphabet: 58 distinct letters, `1` for zero. */
  ghost predicate IsAlphabet(letters: string) {
    |letters| == 58 && letters[0] == '1'
    && forall i, j :: 0 <= i < |letters| && 0 <= j < |letters| && letters[i] == letters[j] ==> i == j
  }

  lemma NumeralsAscend()
    ensures |NUMERALS| == 9 && NUMERALS[0] == '1' && NUMERALS[8] < 'A' && Ascending(NUMERALS)
  {
  }

  lemma UpperAscends()
    ensures |UPPER| == 24 && UPPER[0] == 'A' && UPPER[23] < 'a' && Ascending(UPPER)
  {
  }

  lemma LowerAscends()
    ensures |LOWER| == 25 && LOWER[0] == 'a' && Ascending(LOWER)
  {
  }

  lemma AppendAscending(s: string, t: string)
    requires Ascending(s) && Ascending(t)
    requires s != [] && t != [] && s[|s| - 1] < t[0]
    ensures Ascending(s + t)
  {
  }

  lemma {:induction false} AscendingFrom(s: string, i: nat, j: nat)
    requires Ascending(s) && i < j < |s|
    ensures s[i] < s[j]
    decreases j
  {
    if i + 1 < j {
      AscendingFrom(s, i, j - 1);
    }
    assert s[j - 1] < s[j - 1 + 1];
  }

  lemma AlphabetIsAlphabet()
    ensures IsAlphabet(ALPHABET)
  {
    NumeralsAscend();
    UpperAscends();
    LowerAscends();
    AppendAscending(NUMERALS, UPPER);
    AppendAscending(NUMERALS + UPPER, LOWER);
    AscendingIsAlphabet(ALPHABET);
  }

  lemma AscendingIsAlphabet(letters: string)
    requires |letters| == 58 && letters[0] == '1' && Ascending(letters)
    ensures IsAlphabet(letters)
  {
    forall i, j | 0 <= i < j < |letters| ensures letters[i] != letters[j] {
      AscendingFrom(letters, i, j);
    }
  }

  // ---- Positional notation, most significant digit first ----

  ghost predicate DigitsBelow(s: seq<int>, base: int) {
    forall i :: 0 <= i < |s| ==> 0 <= s[i] < base
  }

  function Value(s: seq<int>, base: int): int {
    if s == [] then 0 else Value(s[..|s| - 1], base) * base + s[|s| - 1]
  }

  function Digits(n: nat, base: int): seq<int>
    requires 2 <= base
  {
    if n == 0 then [] else Digits(n / base, base) + [n % base]
  }

  lemma MultipleBelow(k: int, base: int)
    requires 0 < base && -base < k * base < base
    ensures k == 0
  {
  }

  lemma DivMod(q: nat, r: nat, base: int)
    requires 0 <= r < base
    ensures (q * base + r) / base == q && (q * base + r) % base == r
  {
    var n := q * base + r;
    assert n == (n / base) * base + n % base;
    assert (n / base - q) * base == r - n % base;
    MultipleBelow(n / base - q, base);
  }

  lemma QuotientIsLess(n: nat, base: int)
    requires 2 <= base && 0 < n
    ensures 0 <= n / base < n && 0 <= n % base < base && n == (n / base) * base + n % base
  {
  }

  lemma ValueSnoc(s: seq<int>, digit: int, base: int)
    ensures Value(s + [digit], base) == Value(s, base) * base + digit
  {
    assert (s + [digit])[..|s|] == s;
  }

  lemma {:induction false} ValueOfDigits(n: nat, base: int)
    requires 2 <= base
    ensures Value(Digits(n, base), base) == n
    ensures DigitsBelow(Digits(n, base), base)
    ensures n > 0 ==> Digits(n, base) != [] && Digits(n, base)[0] != 0
  {
    if n > 0 {
      QuotientIsLess(n, base);
      ValueOfDigits(n / base, base);
      DigitsOfStep(n, n / base, n % base, base);
    }
  }

  lemma DigitsOfStep(n: nat, q: nat, r: nat, base: int)
    requires 2 <= base && n > 0 && q == n / base && r == n % base && n == q * base + r && r < base
    requires Value(Digits(q, base), base) == q && DigitsBelow(Digits(q, base), base)
    requires q > 0 ==> Digits(q, base) != [] && Digits(q, base)[0] != 0
    ensures Value(Digits(n, base), base) == n && DigitsBelow(Digits(n, base), base)
    ensures Digits(n, base) != [] && Digits(n, base)[0] != 0
  {
    var s := Digits(q, base);
    assert Digits(n, base) == s + [r];
    ValueSnoc(s, r, base);
    assert q == 0 ==> s == [];
  }

  lemma {:induction false} ValueNonNegative(s: seq<int>, base: int)
    requires 2 <= base && DigitsBelow(s, base)
    ensures 0 <= Value(s, base)
    ensures s != [] && s[0] != 0 ==> 0 < Value(s, base)
  {
    if s != [] {
      ValueNonNegative(s[..|s| - 1], base);
    }
  }

  /** Positional notation without leading zeros is unique. */
  lemma {:induction false} DigitsOfValue(s: seq<int>, base: int)
    requires 2 <= base && DigitsBelow(s, base)
    requires s != [] ==> s[0] != 0
    ensures 0 <= Value(s, base)
    ensures Digits(Value(s, base), base) == s
  {
    ValueNonNegative(s, base);
    if s != [] {
      var init, last := s[..|s| - 1], s[|s| - 1];
      ValueNonNegative(init, base);
      DigitsOfValue(init, base);
      DivMod(Value(init, base), last, base);
      assert s == init + [last];
    }
  }

  lemma {:induction false} LeadingZerosInsignificant(zeros: seq<int>, s: seq<int>, base: int)
    requires forall i :: 0 <= i < |zeros| ==> zeros[i] == 0
    ensures Value(zeros + s, base) == Value(s, base)
  {
    if s == [] {
      assert zeros + s == zeros;
      if zeros != [] {
        LeadingZerosInsignificant(zeros[..|zeros| - 1], [], base);
        assert zeros[..|zeros| - 1] + [] == zeros[..|zeros| - 1];
      }
    } else {
      LeadingZerosInsignificant(zeros, s[..|s| - 1], base);
      assert (zeros + s)[..|zeros + s| - 1] == zeros + s[..|s| - 1];
    }
  }

  // ---- The digit array: least significant digit first, as the program keeps it ----

  function Reversed<T>(s: seq<T>): seq<T> {
    if s == [] then [] else Reversed(s[1..]) + [s[0]]
  }

  lemma {:induction false} ReversedAt<T>(s: seq<T>)
    ensures |Reversed(s)| == |s|
    ensures forall i :: 0 <= i < |s| ==> Reversed(s)[i] == s[|s| - 1 - i]
  {
    if s != [] {
      ReversedAt(s[1..]);
    }
  }

  /** The remaining carry as further digits: the program's second inner loop. */
  function PushCarry(carry: nat): seq<int> {
    if carry == 0 then [] else [carry % 58] + PushCarry(carry / 58)
  }

  /** `256 * digits + carry`, digit by digit: the program's two inner loops. */
  function MultiplyAdd(digits: seq<int>, carry: nat): seq<int>
    requires DigitsBelow(digits, 58)
  {
    if digits == [] then PushCarry(carry)
    else
      assert digits[0] >= 0 && DigitsBelow(digits[1..], 58);
      var next := digits[0] * 256 + carry;
      [next % 58] + MultiplyAdd(digits[1..], next / 58)
  }

  /** No digit is 58 or more, and there is no leading zero digit except in `[0]`. */
  ghost predicate Canonical(digits: seq<int>) {
    DigitsBelow(digits, 58) && digits != [] && (|digits| > 1 ==> digits[|digits| - 1] != 0)
  }

  /** What a digit array denotes. */
  function Amount(digits: seq<int>): int {
    if digits == [] then 0 else digits[0] + 58 * Amount(digits[1..])
  }

  lemma {:induction false} AmountIsValue(digits: seq<int>)
    ensures Amount(digits) == Value(Reversed(digits), 58)
  {
    if digits != [] {
      var first, rest := digits[0], digits[1..];
      assert digits == [first] + rest;
      AmountIsValue(rest);
      ReverseCons(first, rest);
    }
  }

  lemma {:induction false} PushCarryAmount(carry: nat)
    ensures DigitsBelow(PushCarry(carry), 58)
    ensures Amount(PushCarry(carry)) == carry
    ensures carry > 0 ==> PushCarry(carry) != [] && PushCarry(carry)[|PushCarry(carry)| - 1] != 0
  {
    if carry > 0 {
      PushCarryAmount(carry / 58);
      assert PushCarry(carry)[1..] == PushCarry(carry / 58);
    }
  }

  lemma MultiplyAddUnfold(digits: seq<int>, index: nat, carry: nat)
    requires DigitsBelow(digits, 58) && index < |digits|
    ensures DigitsBelow(digits[index..], 58) && DigitsBelow(digits[index + 1..], 58)
    ensures var next := digits[index] * 256 + carry;
            MultiplyAdd(digits[index..], carry) == [next % 58] + MultiplyAdd(digits[index + 1..], next / 58)
  {
    assert digits[index..][1..] == digits[index + 1..];
  }

  lemma ReverseCons(digit: int, rest: seq<int>)
    ensures Value(Reversed([digit] + rest), 58) == Value(Reversed(rest), 58) * 58 + digit
  {
    var r := Reversed([digit] + rest);
    assert ([digit] + rest)[1..] == rest;
    assert r == Reversed(rest) + [digit];
    assert r[..|r| - 1] == Reversed(rest);
  }

  lemma MultiplyAddValue(digits: seq<int>, carry: nat)
    requires DigitsBelow(digits, 58)
    ensures DigitsBelow(MultiplyAdd(digits, carry), 58)
    ensures Value(Reversed(MultiplyAdd(digits, carry)), 58) == 256 * Value(Reversed(digits), 58) + carry
  {
    MultiplyAddAmount(digits, carry);
    AmountIsValue(digits);
    AmountIsValue(MultiplyAdd(digits, carry));
  }

  lemma {:induction false} MultiplyAddAmount(digits: seq<int>, carry: nat)
    requires DigitsBelow(digits, 58)
    ensures DigitsBelow(MultiplyAdd(digits, carry), 58)
    ensures Amount(MultiplyAdd(digits, carry)) == 256 * Amount(digits) + carry
  {
    if digits == [] {
      PushCarryAmount(carry);
    } else {
      var next := digits[0] * 256 + carry;
      assert DigitsBelow(digits[1..], 58);
      MultiplyAddAmount(digits[1..], next / 58);
      assert MultiplyAdd(digits, carry)[1..] == MultiplyAdd(digits[1..], next / 58);
    }
  }

  /** A nonzero top digit never disappears: it is multiplied by 256 and carried. */
  lemma {:induction false} MultiplyAddTop(digits: seq<int>, carry: nat)
    requires DigitsBelow(digits, 58) && digits != []
    requires digits[|digits| - 1] != 0
    ensures MultiplyAdd(digits, carry) != []
    ensures MultiplyAdd(digits, carry)[|MultiplyAdd(digits, carry)| - 1] != 0
  {
    var next := digits[0] * 256 + carry;
    assert DigitsBelow(digits[1..], 58);
    if |digits| == 1 {
      assert next / 58 > 0;
      PushCarryAmount(next / 58);
      assert MultiplyAdd(digits[1..], next / 58) == PushCarry(next / 58);
    } else {
      MultiplyAddTop(digits[1..], next / 58);
    }
  }

  lemma MultiplyAddCanonical(digits: seq<int>, carry: nat)
    requires Canonical(digits)
    ensures Canonical(MultiplyAdd(digits, carry))
  {
    MultiplyAddValue(digits, carry);
    if digits[|digits| - 1] != 0 {
      MultiplyAddTop(digits, carry);
    } else {
      assert digits == [0];
      assert MultiplyAdd(digits, carry) == [carry % 58] + PushCarry(carry / 58);
      PushCarryAmount(carry / 58);
    }
  }

  function Repeat<T>(x: T, n: nat): (s: seq<T>)
    ensures |s| == n && forall i :: 0 <= i < n ==> s[i] == x
  {
    seq(n, _ => x)
  }

  // ---- Encoding ----

  function Ints(value: seq<Byte>): (s: seq<int>)
    ensures |s| == |value| && DigitsBelow(s, 256)
    ensures forall i :: 0 <= i < |s| ==> s[i] == value[i] as int
  {
    seq(|value|, i requires 0 <= i < |value| => value[i] as int)
  }

  function LeadingZeros(s: seq<int>): (n: nat)
    ensures n <= |s| && (forall i :: 0 <= i < n ==> s[i] == 0) && (n < |s| ==> s[n] != 0)
  {
    if s == [] || s[0] != 0 then 0 else 1 + LeadingZeros(s[1..])
  }

  /** Canonical base-58 digits of `n`, most significant first; `[0]` for zero. */
  function Numeral(n: nat): (s: seq<int>)
    ensures s != [] && DigitsBelow(s, 58) && Value(s, 58) == n
    ensures n > 0 ==> s[0] != 0
  {
    ValueOfDigits(n, 58);
    if n == 0 then [0] else Digits(n, 58)
  }

  function Text(digits: seq<int>, letters: string): (s: string)
    requires DigitsBelow(digits, 58) && |letters| == 58
    ensures |s| == |digits|
    ensures forall i :: 0 <= i < |digits| ==> s[i] == letters[digits[i]]
  {
    seq(|digits|, i requires 0 <= i < |digits| => letters[digits[i]])
  }

  function BytesValue(value: seq<Byte>): nat {
    ValueNonNegative(Ints(value), 256);
    Value(Ints(value), 256)
  }

  /** What an encoded signature is: one `1` per leading zero byte, then the number. */
  function Encoding(value: seq<Byte>, letters: string): string
    requires |letters| == 58
  {
    Repeat('1', LeadingZeros(Ints(value))) + Text(Numeral(BytesValue(value)), letters)
  }

  lemma CanonicalIsNumeral(digits: seq<int>, n: nat)
    requires Canonical(digits) && Value(Reversed(digits), 58) == n
    ensures Reversed(digits) == Numeral(n)
  {
    ReversedAt(digits);
    var s := Reversed(digits);
    if s[0] != 0 {
      DigitsOfValue(s, 58);
      ValueNonNegative(s, 58);
    } else {
      assert digits == [0] && s == [0];
    }
  }

  lemma AppendByte(value: seq<Byte>, i: nat)
    requires i < |value|
    ensures BytesValue(value[..i + 1]) == 256 * BytesValue(value[..i]) + value[i] as int
  {
    var s := Ints(value[..i + 1]);
    assert s[..|s| - 1] == Ints(value[..i]);
  }

  /** One round of the program: the digit array times 256 plus one byte, in place,
      and then the digits the carry leaves. */
  method AddByte(before: seq<int>, byte: Byte) returns (digits: seq<int>)
    requires DigitsBelow(before, 58)
    ensures digits == MultiplyAdd(before, byte as int)
  {
    digits := before;
    var carry: nat := byte as int;
    for index := 0 to |digits|
      invariant carry <= 255
      invariant |digits| == |before| && forall j :: index <= j < |digits| ==> digits[j] == before[j]
      invariant DigitsBelow(before[index..], 58)
      invariant digits[..index] + MultiplyAdd(before[index..], carry) == MultiplyAdd(before, byte as int)
    {
      var next := digits[index] * 256 + carry;
      MultiplyAddUnfold(before, index, carry);
      ghost var done := digits[..index];
      digits := digits[index := next % 58];
      carry := next / 58;
      assert digits[..index + 1] == done + [next % 58];
    }
    assert digits[..|digits|] == digits && before[|digits|..] == [];
    while carry > 0
      invariant digits + PushCarry(carry) == MultiplyAdd(before, byte as int)
    {
      digits := digits + [carry % 58];
      carry := carry / 58;
    }
  }

  /** The program: the digit array byte by byte, then the prefix of ones, then the
      digits in reverse through the alphabet. */
  method EncodeBase58(value: seq<Byte>, letters: string) returns (text: string)
    requires |letters| == 58
    ensures text == Encoding(value, letters)
  {
    var digits := ConvertDigits(value);
    var prefix := Ones(value);
    text := prefix + Text(Reversed(digits), letters);
  }

  method ConvertDigits(value: seq<Byte>) returns (digits: seq<int>)
    ensures DigitsBelow(digits, 58) && Reversed(digits) == Numeral(BytesValue(value))
  {
    digits := [0];
    for i := 0 to |value|
      invariant Canonical(digits)
      invariant Value(Reversed(digits), 58) == BytesValue(value[..i])
    {
      MultiplyAddValue(digits, value[i] as int);
      MultiplyAddCanonical(digits, value[i] as int);
      AppendByte(value, i);
      digits := AddByte(digits, value[i]);
    }
    assert value[..|value|] == value;
    CanonicalIsNumeral(digits, BytesValue(value));
  }

  method Ones(value: seq<Byte>) returns (prefix: string)
    ensures prefix == Repeat('1', LeadingZeros(Ints(value)))
  {
    prefix := "";
    var k := 0;
    while k < |value| && value[k] == 0
      invariant 0 <= k <= |value| && prefix == Repeat('1', k)
      invariant forall j :: 0 <= j < k ==> Ints(value)[j] == 0
    {
      prefix := prefix + "1";
      k := k + 1;
    }
    assert k == LeadingZeros(Ints(value));
  }

  // ---- Decoding ----

  function IndexIn(c: char, alphabet: string): (r: Option<nat>)
    ensures r.Some? ==> r.value < |alphabet| && alphabet[r.value] == c
    ensures r.None? ==> c !in alphabet
  {
    if alphabet == "" then None
    else if alphabet[0] == c then Some(0)
    else match IndexIn(c, alphabet[1..]) case None => None case Some(i) => Some(i + 1)
  }

  function DigitsOf(text: string, letters: string): (r: Option<seq<int>>)
    requires |letters| == 58
    ensures r.Some? ==> |r.value| == |text| && DigitsBelow(r.value, 58)
    ensures r.Some? ==> forall i :: 0 <= i < |text| ==> letters[r.value[i]] == text[i]
    ensures r.None? ==> exists i :: 0 <= i < |text| && text[i] !in letters
  {
    if text == "" then Some([])
    else
      match (IndexIn(text[0], letters), DigitsOf(text[1..], letters))
      case (Some(d), Some(rest)) => Some([d] + rest)
      case (None, _) => assert text[0] !in letters; None
      case (_, None) =>
        assert exists i :: 0 <= i < |text[1..]| && text[1..][i] !in letters;
        None
  }

  /** One zero byte per leading `1`, then the minimal big-endian bytes of the number. */
  function Decode(text: string, letters: string): Option<seq<int>>
    requires |letters| == 58
  {
    match DigitsOf(text, letters)
    case None => None
    case Some(digits) =>
      ValueNonNegative(digits, 58);
      Some(Repeat(0, LeadingZeros(digits)) + Digits(Value(digits, 58), 256))
  }

  /** Reading a numeral's characters back yields its digits. */
  lemma DigitsOfText(digits: seq<int>, letters: string)
    requires IsAlphabet(letters)
    requires DigitsBelow(digits, 58)
    ensures DigitsOf(Text(digits, letters), letters) == Some(digits)
  {
    var r := DigitsOf(Text(digits, letters), letters);
    forall i | 0 <= i < |digits| ensures Text(digits, letters)[i] in letters {
      assert letters[digits[i]] in letters;
    }
    forall i | 0 <= i < |digits| ensures r.value[i] == digits[i] {
      assert letters[r.value[i]] == letters[digits[i]];
    }
    assert r.value == digits;
  }

  predicate HasNonzeroByte(value: seq<Byte>) {
    exists i :: 0 <= i < |value| && value[i] != 0
  }

  /** The digits of an encoding: a zero for each leading zero byte, then the numeral. */
  lemma EncodingDigits(value: seq<Byte>, letters: string)
    requires IsAlphabet(letters)
    ensures DigitsOf(Encoding(value, letters), letters) ==
            Some(Repeat(0, LeadingZeros(Ints(value))) + Numeral(BytesValue(value)))
  {
    PaddedDigits(LeadingZeros(Ints(value)), Numeral(BytesValue(value)), letters);
  }

  lemma PaddedDigits(n: nat, digits: seq<int>, letters: string)
    requires IsAlphabet(letters) && DigitsBelow(digits, 58)
    ensures DigitsOf(Repeat('1', n) + Text(digits, letters), letters) == Some(Repeat(0, n) + digits)
  {
    var zeros: seq<int> := Repeat(0, n);
    TextAppend(zeros, digits, letters);
    TextOfZeros(n, letters);
    DigitsOfText(zeros + digits, letters);
  }

  lemma TextAppend(a: seq<int>, b: seq<int>, letters: string)
    requires DigitsBelow(a, 58) && DigitsBelow(b, 58) && |letters| == 58
    ensures DigitsBelow(a + b, 58) && Text(a + b, letters) == Text(a, letters) + Text(b, letters)
  {
  }

  lemma TextOfZeros(n: nat, letters: string)
    requires |letters| == 58 && letters[0] == '1'
    ensures DigitsBelow(Repeat(0, n), 58) && Text(Repeat(0, n), letters) == Repeat('1', n)
  {
  }

  lemma StripLeadingZeros(s: seq<int>)
    requires DigitsBelow(s, 256)
    ensures 0 <= Value(s, 256)
    ensures Digits(Value(s, 256), 256) == s[LeadingZeros(s)..]
  {
    var z := LeadingZeros(s);
    assert s == s[..z] + s[z..];
    StripZeros(s[..z], s[z..]);
  }

  lemma StripZeros(zeros: seq<int>, rest: seq<int>)
    requires DigitsBelow(rest, 256) && (rest != [] ==> rest[0] != 0)
    requires forall i :: 0 <= i < |zeros| ==> zeros[i] == 0
    ensures 0 <= Value(zeros + rest, 256) && Digits(Value(zeros + rest, 256), 256) == rest
  {
    DigitsOfValue(rest, 256);
    LeadingZerosInsignificant(zeros, rest, 256);
  }

  lemma AllZeros(value: seq<Byte>, letters: string)
    requires IsAlphabet(letters) && !HasNonzeroByte(value)
    ensures Encoding(value, letters) == Repeat('1', |value| + 1)
    ensures Decode(Encoding(value, letters), letters) == Some(Repeat(0, |value| + 1))
  {
    ZeroBytes(value);
    EncodingDigits(value, letters);
    OneMore(|value|, letters);
    DecodeZeros(Encoding(value, letters), letters, |value|);
  }

  lemma ZeroBytes(value: seq<Byte>)
    requires !HasNonzeroByte(value)
    ensures LeadingZeros(Ints(value)) == |value| && BytesValue(value) == 0
  {
    var s := Ints(value);
    assert LeadingZeros(s) == |s|;
    LeadingZerosInsignificant(s, [], 256);
    assert s + [] == s;
  }

  lemma OneMore(n: nat, letters: string)
    requires IsAlphabet(letters)
    ensures Repeat('1', n) + Text([0], letters) == Repeat('1', n + 1)
    ensures Repeat(0, n) + [0] == Repeat(0, n + 1)
  {
    var ones: string := Repeat('1', n + 1);
    var zeros: seq<int> := Repeat(0, n + 1);
    assert Repeat('1', n) + Text([0], letters) == ones;
    assert Repeat(0, n) + [0] == zeros;
  }

  lemma DecodeZeros(text: string, letters: string, n: nat)
    requires |letters| == 58 && DigitsOf(text, letters) == Some(Repeat(0, n) + [0])
    ensures Decode(text, letters) == Some(Repeat(0, n + 1))
  {
    var zeros: seq<int> := Repeat(0, n + 1);
    assert Repeat(0, n) + [0] == zeros;
    LeadingZerosInsignificant(zeros, [], 58);
    assert zeros + [] == zeros;
    assert LeadingZeros(zeros) == n + 1;
    assert Digits(0, 256) == [] && zeros + Digits(0, 256) == zeros;
  }

  lemma SomeNonzero(value: seq<Byte>, letters: string)
    requires IsAlphabet(letters) && HasNonzeroByte(value)
    ensures Decode(Encoding(value, letters), letters) == Some(Ints(value))
  {
    SomePositive(value);
    EncodingDigits(value, letters);
    DecodeNumber(Encoding(value, letters), letters, Ints(value), BytesValue(value));
  }

  lemma DecodeNumber(text: string, letters: string, s: seq<int>, n: nat)
    requires |letters| == 58 && DigitsBelow(s, 256) && Value(s, 256) == n > 0
    requires DigitsOf(text, letters) == Some(Repeat(0, LeadingZeros(s)) + Numeral(n))
    ensures Decode(text, letters) == Some(s)
  {
    StripLeadingZeros(s);
    DecodePadded(text, letters, LeadingZeros(s), Numeral(n));
    LeadingZerosPad(s);
  }

  lemma LeadingZerosPad(s: seq<int>)
    ensures Repeat(0, LeadingZeros(s)) + s[LeadingZeros(s)..] == s
  {
  }

  lemma DecodePadded(text: string, letters: string, z: nat, digits: seq<int>)
    requires |letters| == 58 && DigitsOf(text, letters) == Some(Repeat(0, z) + digits)
    requires DigitsBelow(digits, 58) && digits != [] && digits[0] != 0
    ensures 0 <= Value(digits, 58) && Decode(text, letters) == Some(Repeat(0, z) + Digits(Value(digits, 58), 256))
  {
    ValueNonNegative(digits, 58);
    LeadingZerosInsignificant(Repeat(0, z), digits, 58);
    LeadingZerosAre(Repeat(0, z), digits);
  }

  lemma SomePositive(value: seq<Byte>)
    requires HasNonzeroByte(value)
    ensures BytesValue(value) > 0
  {
    var s := Ints(value);
    var i :| 0 <= i < |value| && value[i] != 0;
    assert s[i] != 0;
    StripLeadingZeros(s);
    assert Digits(BytesValue(value), 256) != [];
  }

  lemma {:induction false} LeadingZerosAre(zeros: seq<int>, rest: seq<int>)
    requires forall i :: 0 <= i < |zeros| ==> zeros[i] == 0
    requires rest != [] && rest[0] != 0
    ensures LeadingZeros(zeros + rest) == |zeros|
  {
    var n := LeadingZeros(zeros + rest);
    assert (zeros + rest)[|zeros|] != 0;
  }

  /** Decoding restores an input exactly when it has a nonzero byte.  An all-zero
      input of length n is written with n + 1 ones and decodes to n + 1 zero bytes. */
  lemma DecodeRestores(value: seq<Byte>, letters: string)
    requires IsAlphabet(letters)
    ensures Decode(Encoding(value, letters), letters).Some?
    ensures Decode(Encoding(value, letters), letters) == Some(Ints(value)) <==> HasNonzeroByte(value)
    ensures !HasNonzeroByte(value) ==>
              Encoding(value, letters) == Repeat('1', |value| + 1)
              && Decode(Encoding(value, letters), letters) == Some(Repeat(0, |value| + 1))
  {
    if HasNonzeroByte(value) {
      SomeNonzero(value, letters);
    } else {
      AllZeros(value, letters);
      assert |Ints(value)| == |value|;
    }
  }

  /** No two byte strings share an encoding, all-zero ones included. */
  lemma EncodingInjective(a: seq<Byte>, b: seq<Byte>, letters: string)
    requires IsAlphabet(letters)
    requires Encoding(a, letters) == Encoding(b, letters)
    ensures a == b
  {
    DecodeRestores(a, letters);
    DecodeRestores(b, letters);
    assert Ints(a) == Ints(b) ==> a == b by {
      if Ints(a) == Ints(b) {
        forall i | 0 <= i < |a| ensures a[i] == b[i] {
          assert Ints(a)[i] == Ints(b)[i];
        }
      }
    }
    if !HasNonzeroByte(a) && !HasNonzeroByte(b) {
      assert |Encoding(a, letters)| == |a| + 1 && |Encoding(b, letters)| == |b| + 1;
    }
  }
}

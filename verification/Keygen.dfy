/** Drawing KEYs by rejection sampling, and reading back what a user types. */
module Keygen {
  import opened Basics

  const KEY_CHARSET: string := "ABCDEFGHIJKLMNOPQRSTUVWXYZ0123456789"
  const KEY_LENGTH := 6

  /** The number of binary digits of `n`. */
  function BitLength(n: nat): nat {
    if n == 0 then 0 else 1 + BitLength(n / 2)
  }

  lemma {:induction false} BitLengthBounds(n: nat)
    requires n > 0
    ensures BitLength(n) > 0 && Pow2(BitLength(n) - 1) <= n < Pow2(BitLength(n))
  {
    if n > 1 {
      BitLengthBounds(n / 2);
    }
  }

  // ----- generate_key -----

  /** Samples below the limit are accepted; the limit is a multiple of the alphabet's size. */
  function Limit(n: nat): nat
    requires n > 0
  {
    var range := Pow2(BitLength(n));
    range - range % n
  }

  /** Appending one character per accepted sample; `None` if the samples run out first. */
  function Drawn(charset: string, length: nat, samples: seq<nat>, chars: string): Option<string>
    requires |charset| > 0
    decreases |samples|
  {
    if |chars| >= length then Some(chars)
    else if samples == [] then None
    else if samples[0] < Limit(|charset|) then
      Drawn(charset, length, samples[1..], chars + [charset[samples[0] % |charset|]])
    else Drawn(charset, length, samples[1..], chars)
  }

  /** `samples` are the values the random source returns, in order. */
  method GenerateKey(charset: string, length: nat, samples: seq<nat>) returns (key: Option<string>)
    requires |charset| > 0
    ensures key == Drawn(charset, length, samples, "")
  {
    var n := |charset|;
    var limit := Limit(n);
    var chars := "";
    var used := 0;
    while |chars| < length
      invariant 0 <= used <= |samples|
      invariant Drawn(charset, length, samples, "") == Drawn(charset, length, samples[used..], chars)
      decreases |samples| - used
    {
      var v := limit;
      ghost var start := used;
      while v >= limit
        invariant 0 <= used <= |samples|
        invariant v >= limit ==>
          Drawn(charset, length, samples, "") == Drawn(charset, length, samples[used..], chars)
        invariant v < limit ==>
          Drawn(charset, length, samples, "") == Drawn(charset, length, samples[used..], chars + [charset[v % n]])
        invariant start <= used && (v < limit ==> start < used)
        decreases |samples| - used, if v >= limit then 1 else 0
      {
        if used == |samples| {
          return None;
        }
        v := samples[used];
        assert samples[used..][1..] == samples[used + 1..];
        used := used + 1;
      }
      chars := chars + [charset[v % n]];
    }
    return Some(chars);
  }

  /** Where a character of the KEY pattern stands in the alphabet. */
  function PlaceOf(c: char): nat
    requires IsKeyChar(c)
  {
    if 'A' <= c <= 'Z' then c as int - 'A' as int else c as int - '0' as int + 26
  }

  lemma AlphabetAt(i: nat)
    requires i < |KEY_CHARSET|
    ensures IsKeyChar(KEY_CHARSET[i]) && PlaceOf(KEY_CHARSET[i]) == i
  {
  }

  lemma PlaceInAlphabet(c: char)
    requires IsKeyChar(c)
    ensures PlaceOf(c) < |KEY_CHARSET| && KEY_CHARSET[PlaceOf(c)] == c
  {
  }

  /** The configured alphabet is that of the KEY pattern, each character once. */
  lemma AlphabetIsComplete()
    ensures forall c :: c in KEY_CHARSET <==> IsKeyChar(c)
    ensures forall i, j :: 0 <= i < j < |KEY_CHARSET| ==> KEY_CHARSET[i] != KEY_CHARSET[j]
  {
    hide IsKeyChar, PlaceOf;
    var alphabet := KEY_CHARSET;
    forall i: nat | i < |alphabet| ensures IsKeyChar(alphabet[i]) && PlaceOf(alphabet[i]) == i {
      AlphabetAt(i);
    }
    forall c | IsKeyChar(c) ensures PlaceOf(c) < |alphabet| && alphabet[PlaceOf(c)] == c {
      PlaceInAlphabet(c);
    }
  }

  /** A key has the wanted length and only characters of the alphabet. */
  lemma {:induction false} DrawnFromCharset(charset: string, length: nat, samples: seq<nat>, chars: string)
    requires |charset| > 0 && |chars| <= length && forall c <- chars :: c in charset
    ensures Drawn(charset, length, samples, chars).Some? ==>
      var key := Drawn(charset, length, samples, chars).value;
      |key| == length && forall c <- key :: c in charset
    decreases |samples|
  {
    if |chars| < length && samples != [] {
      if samples[0] < Limit(|charset|) {
        DrawnFromCharset(charset, length, samples[1..], chars + [charset[samples[0] % |charset|]]);
      } else {
        DrawnFromCharset(charset, length, samples[1..], chars);
      }
    }
  }

  /** The accepted samples, in order. */
  function AcceptedOf(samples: seq<nat>, n: nat): seq<nat>
    requires n > 0
  {
    if samples == [] then []
    else (if samples[0] < Limit(n) then [samples[0]] else []) + AcceptedOf(samples[1..], n)
  }

  /** Character `i` of a key is chosen by the `i`-th accepted sample; a key exists when enough samples are accepted. */
  lemma {:induction false} DrawnByAcceptedSamples(charset: string, length: nat, samples: seq<nat>, chars: string)
    requires |charset| > 0 && |chars| <= length
    ensures
      var accepted := AcceptedOf(samples, |charset|);
      match Drawn(charset, length, samples, chars)
      case None => |chars| + |accepted| < length
      case Some(key) =>
        && |chars| + |accepted| >= length == |key| && chars <= key
        && forall i :: |chars| <= i < length ==> key[i] == charset[accepted[i - |chars|] % |charset|]
    decreases |samples|
  {
    hide Limit;
    if |chars| < length && samples != [] {
      var accepted := AcceptedOf(samples, |charset|);
      if samples[0] < Limit(|charset|) {
        DrawnByAcceptedSamples(charset, length, samples[1..], chars + [charset[samples[0] % |charset|]]);
        assert accepted == [samples[0]] + AcceptedOf(samples[1..], |charset|);
      } else {
        DrawnByAcceptedSamples(charset, length, samples[1..], chars);
      }
    }
  }

  /** How many of the samples below `limit` lead to the alphabet's character `r`. */
  function WaysTo(r: nat, n: nat, limit: nat): nat
    requires n > 0
  {
    if limit == 0 then 0 else WaysTo(r, n, limit - 1) + if (limit - 1) % n == r then 1 else 0
  }

  lemma {:induction false} WaysInWholeRounds(r: nat, n: nat, q: nat, rest: nat)
    requires r < n && rest < n
    ensures WaysTo(r, n, q * n + rest) == q + if r < rest then 1 else 0
    decreases q, rest
  {
    if rest > 0 {
      assert (q * n + rest - 1) % n == rest - 1 by { Remainder(q, n, rest - 1); }
      WaysInWholeRounds(r, n, q, rest - 1);
    } else if q > 0 {
      assert q * n == (q - 1) * n + (n - 1) + 1;
      assert (q * n - 1) % n == n - 1 by { Remainder(q - 1, n, n - 1); }
      WaysInWholeRounds(r, n, q - 1, n - 1);
    }
  }

  lemma Remainder(q: int, n: nat, rest: nat)
    requires rest < n
    ensures (q * n + rest) % n == rest
  {
    var x := q * n + rest;
    assert x == (x / n) * n + x % n;
    Unique(q - x / n, n, x % n - rest);
  }

  lemma Unique(d: int, n: int, e: int)
    requires n > 0 && -n < e < n && d * n == e
    ensures e == 0
  {
  }

  lemma WholeRounds(range: nat, n: nat)
    requires n > 0
    ensures range - range % n == (range / n) * n
  {
  }

  lemma ExactQuotient(q: nat, n: nat)
    requires n > 0
    ensures (q * n) / n == q && (q * n) % n == 0
  {
    Remainder(q, n, 0);
  }

  /** Sampling is fair: every character of the alphabet is reached by exactly as many accepted samples. */
  lemma EveryCharacterIsEquallyLikely(n: nat, r: nat)
    requires r < n
    ensures WaysTo(r, n, Limit(n)) == Limit(n) / n && Limit(n) % n == 0
  {
    hide WaysTo;
    var q := Pow2(BitLength(n)) / n;
    WholeRounds(Pow2(BitLength(n)), n);
    ExactQuotient(q, n);
    WaysInWholeRounds(r, n, q, 0);
  }

  lemma AtLeastOnce(q: int, n: nat, range: nat, rest: int)
    requires range == q * n + rest && 0 <= rest < n < range
    ensures q * n >= n
  {
  }

  /** At least half of all samples are accepted. */
  lemma HalfOfSamplesAreAccepted(n: nat)
    requires n > 0
    ensures Limit(n) <= Pow2(BitLength(n)) <= 2 * Limit(n)
  {
    hide Pow2, BitLength;
    BitLengthBounds(n);
    var range := Pow2(BitLength(n));
    Doubles(BitLength(n));
    WholeRounds(range, n);
    AtLeastOnce(range / n, n, range, range % n);
  }

  lemma Doubles(k: nat)
    requires k > 0
    ensures Pow2(k) == 2 * Pow2(k - 1)
  {
  }

  // ----- normalize_key -----

  predicate IsSpace(c: char) {
    var u := c as int;
    || 0x09 <= u <= 0x0d || 0x1c <= u <= 0x20 || u == 0x85 || u == 0xa0 || u == 0x1680 || 0x2000 <= u <= 0x200a
    || u == 0x2028 || u == 0x2029 || u == 0x202f || u == 0x205f || u == 0x3000
  }

  predicate IsSeparator(c: char) {
    c == '-' || IsSpace(c)
  }

  predicate IsKeyChar(c: char) {
    'A' <= c <= 'Z' || '0' <= c <= '9'
  }

  predicate IsTypedChar(c: char) {
    IsKeyChar(c) || 'a' <= c <= 'z'
  }

  /** The characters outside ASCII whose upper case lies wholly in A to Z. */
  predicate IsFolded(c: char) {
    var u := c as int;
    u == 0xdf || u == 0x131 || u == 0x17f || 0xfb00 <= u <= 0xfb06
  }

  /** Upper case, as far as it can produce a KEY character; other characters stay outside the alphabet. */
  function Upper(c: char): string {
    var u := c as int;
    if 'a' <= c <= 'z' then [c - 'a' + 'A']
    else if u == 0xdf then "SS"
    else if u == 0x131 then "I"
    else if u == 0x17f then "S"
    else if u == 0xfb00 then "FF"
    else if u == 0xfb01 then "FI"
    else if u == 0xfb02 then "FL"
    else if u == 0xfb03 then "FFI"
    else if u == 0xfb04 then "FFL"
    else if u == 0xfb05 || u == 0xfb06 then "ST"
    else [c]
  }

  function Cleaned(raw: string): string {
    if raw == "" then ""
    else (if IsSeparator(raw[0]) then "" else Upper(raw[0])) + Cleaned(raw[1..])
  }

  predicate IsKey(s: string) {
    |s| == KEY_LENGTH && forall c <- s :: IsKeyChar(c)
  }

  /** `None` is the error for an invalid format. */
  function NormalizeKey(raw: string): Option<string> {
    if IsKey(Cleaned(raw)) then Some(Cleaned(raw)) else None
  }

  function KeyDisplay(key: string): string
    requires |key| == KEY_LENGTH
  {
    key[..3] + " " + key[3..]
  }

  lemma {:induction false} CleanedConcat(a: string, b: string)
    ensures Cleaned(a + b) == Cleaned(a) + Cleaned(b)
    decreases |a|
  {
    if a == "" {
      assert a + b == b;
    } else {
      assert (a + b)[1..] == a[1..] + b;
      CleanedConcat(a[1..], b);
    }
  }

  lemma {:induction false} KeyCharsStay(s: string)
    requires forall c <- s :: IsKeyChar(c)
    ensures Cleaned(s) == s
    decreases |s|
  {
    if s != "" {
      assert s == [s[0]] + s[1..];
      KeyCharStays(s[0]);
      KeyCharsStay(s[1..]);
    }
  }

  lemma KeyCharStays(c: char)
    requires IsKeyChar(c)
    ensures !IsSeparator(c) && Upper(c) == [c]
  {
  }

  /** A displayed key reads back as itself, and so does whatever is read. */
  lemma DisplayRoundTrips(key: string)
    requires IsKey(key)
    ensures NormalizeKey(KeyDisplay(key)) == Some(key) && NormalizeKey(key) == Some(key)
  {
    hide Cleaned, IsKeyChar;
    var a, b := key[..3], key[3..];
    assert key == a + b;
    assert KeyDisplay(key) == a + (" " + b);
    CleanedConcat(a, " " + b);
    SpaceIsDropped(b);
    KeyCharsStay(a);
    KeyCharsStay(b);
    KeyCharsStay(key);
  }

  lemma SpaceIsDropped(s: string)
    ensures Cleaned(" " + s) == Cleaned(s)
  {
    assert (" " + s)[1..] == s;
  }

  /** Every generated key of the configured alphabet survives being displayed and typed. */
  lemma GeneratedKeyRoundTrips(samples: seq<nat>)
    ensures Drawn(KEY_CHARSET, KEY_LENGTH, samples, "").Some? ==>
      var key := Drawn(KEY_CHARSET, KEY_LENGTH, samples, "").value;
      IsKey(key) && NormalizeKey(KeyDisplay(key)) == Some(key)
  {
    DrawnFromCharset(KEY_CHARSET, KEY_LENGTH, samples, "");
    var drawn := Drawn(KEY_CHARSET, KEY_LENGTH, samples, "");
    if drawn.Some? {
      forall c | c in drawn.value ensures IsKeyChar(c) {
        assert c in KEY_CHARSET;
      }
      DisplayRoundTrips(drawn.value);
    }
  }

  /** The input consists of separators and of the letters and digits a KEY is made of, in either case. */
  predicate TypedPlainly(raw: string) {
    forall c <- raw :: IsSeparator(c) || IsTypedChar(c)
  }

  lemma {:induction false} CleanedIsKeyChars(raw: string)
    ensures (forall c <- Cleaned(raw) :: IsKeyChar(c)) <==>
            forall c <- raw :: IsSeparator(c) || IsTypedChar(c) || IsFolded(c)
    decreases |raw|
  {
    if raw != "" {
      CleanedIsKeyChars(raw[1..]);
      assert raw == [raw[0]] + raw[1..];
      var first := if IsSeparator(raw[0]) then "" else Upper(raw[0]);
      assert forall c :: c in Cleaned(raw) <==> c in first || c in Cleaned(raw[1..]);
      if !IsSeparator(raw[0]) {
        UpperIsKeyChars(raw[0]);
      }
    }
  }

  lemma UpperIsKeyChars(c: char)
    requires !IsSeparator(c)
    ensures (forall u <- Upper(c) :: IsKeyChar(u)) <==> IsTypedChar(c) || IsFolded(c)
  {
  }

  /** The small letter of a capital one; digits have none of their own. */
  function Small(c: char): char {
    if 'A' <= c <= 'Z' then (c as int + 32) as char else c
  }

  /** `raw` is `key` with any letters small and separators anywhere. */
  predicate IsWayToType(raw: string, key: string)
    decreases |raw|
  {
    if raw == "" then key == ""
    else
      || (IsSeparator(raw[0]) && IsWayToType(raw[1..], key))
      || (key != "" && (raw[0] == key[0] || raw[0] == Small(key[0])) && IsWayToType(raw[1..], key[1..]))
  }

  lemma {:induction false} PlainlyCleaned(raw: string, key: string)
    requires TypedPlainly(raw) && forall c <- key :: IsKeyChar(c)
    ensures Cleaned(raw) == key <==> IsWayToType(raw, key)
    decreases |raw|
  {
    hide IsSpace;
    if raw != "" {
      assert raw == [raw[0]] + raw[1..];
      assert TypedPlainly(raw[1..]) by { assert forall c <- raw[1..] :: c in raw; }
      if IsSeparator(raw[0]) {
        SeparatorIsNoKeyChar(raw[0]);
        PlainlyCleaned(raw[1..], key);
      } else {
        assert raw[0] in raw;
        UpperOfTyped(raw[0]);
        if key != "" {
          assert key == [key[0]] + key[1..];
          CapitalOf(raw[0], key[0]);
          PlainlyCleaned(raw[1..], key[1..]);
        }
      }
    }
  }

  lemma SeparatorIsNoKeyChar(c: char)
    requires IsSeparator(c)
    ensures !IsTypedChar(c)
  {
  }

  lemma UpperOfTyped(c: char)
    requires IsTypedChar(c)
    ensures |Upper(c)| == 1 && IsKeyChar(Upper(c)[0])
  {
  }

  lemma CapitalOf(c: char, k: char)
    requires IsTypedChar(c) && IsKeyChar(k)
    ensures Upper(c) == [k] <==> c == k || c == Small(k)
  {
  }

  /**
   Input of letters, digits and separators is read as a KEY exactly when it is a way to type
   that KEY: its characters in order, letters in either case, separators anywhere.
   */
  lemma PlainInputIsReadAsTyped(raw: string, key: string)
    requires TypedPlainly(raw) && IsKey(key)
    ensures NormalizeKey(raw) == Some(key) <==> IsWayToType(raw, key)
  {
    hide IsSpace, Cleaned, IsWayToType;
    PlainlyCleaned(raw, key);
  }

  /** A KEY is shown in two groups of three. */
  lemma DisplayIsInTwoGroups(key: string)
    requires |key| == KEY_LENGTH
    ensures
      var shown := KeyDisplay(key);
      |shown| == 7 && shown[3] == ' ' && forall i :: 0 <= i < 6 ==> key[i] == shown[if i < 3 then i else i + 1]
  {
  }

  /** An accepted input was typed plainly exactly when none of its characters is folded into the alphabet. */
  lemma IllegalCharactersAreMapped(raw: string)
    requires NormalizeKey(raw).Some?
    ensures TypedPlainly(raw) <==> forall c <- raw :: !IsFolded(c)
  {
    CleanedIsKeyChars(raw);
  }

  lemma CleanedFirst(c: char, rest: string)
    requires !IsSeparator(c)
    ensures Cleaned([c] + rest) == Upper(c) + Cleaned(rest)
  {
    assert ([c] + rest)[1..] == rest;
  }

  /** The white space of Unicode, by code point. */
  const SPACES := [
    0x09, 0x0a, 0x0b, 0x0c, 0x0d, 0x1c, 0x1d, 0x1e, 0x1f, 0x20, 0x85, 0xa0, 0x1680, 0x2000, 0x2001, 0x2002, 0x2003,
    0x2004, 0x2005, 0x2006, 0x2007, 0x2008, 0x2009, 0x200a, 0x2028, 0x2029, 0x202f, 0x205f, 0x3000]

  /** Ignored in a typed KEY are the hyphen and white space, and nothing else. */
  lemma SeparatorsAreThese(c: char)
    ensures IsSeparator(c) <==> c == '-' || c as int in SPACES
  {
    var u := c as int;
    assert forall i :: 0 <= i < 5 ==> SPACES[i] == 0x09 + i;
    assert forall i :: 5 <= i < 10 ==> SPACES[i] == 0x1c + i - 5;
    assert forall i :: 13 <= i < 24 ==> SPACES[i] == 0x2000 + i - 13;
    assert SPACES[10] == 0x85 && SPACES[11] == 0xa0 && SPACES[12] == 0x1680 && SPACES[24] == 0x2028;
    assert SPACES[25] == 0x2029 && SPACES[26] == 0x202f && SPACES[27] == 0x205f && SPACES[28] == 0x3000;
    if 0x09 <= u <= 0x0d {
      assert SPACES[u - 0x09] == u;
    } else if 0x1c <= u <= 0x20 {
      assert SPACES[u - 0x1c + 5] == u;
    } else if 0x2000 <= u <= 0x200a {
      assert SPACES[u - 0x2000 + 13] == u;
    }
  }

  /** What the ten folded characters become, by the upper-case mappings of Unicode. */
  lemma FoldedInto()
    ensures Upper('\U{00DF}') == "SS" && Upper('\U{0131}') == "I" && Upper('\U{017F}') == "S"
    ensures Upper('\U{FB00}') == "FF" && Upper('\U{FB01}') == "FI" && Upper('\U{FB02}') == "FL"
    ensures Upper('\U{FB03}') == "FFI" && Upper('\U{FB04}') == "FFL"
    ensures Upper('\U{FB05}') == "ST" && Upper('\U{FB06}') == "ST"
  {
  }

  /** Such an input: sharp s is silently mapped. */
  lemma SharpSIsMapped()
    ensures !TypedPlainly(['\U{00DF}'] + "A7C2") && NormalizeKey(['\U{00DF}'] + "A7C2") == Some("SSA7C2")
  {
    hide Cleaned;
    var raw := ['\U{00DF}'] + "A7C2";
    assert raw[0] == '\U{00DF}' && raw[0] in raw;
    CleanedFirst('\U{00DF}', "A7C2");
    KeyCharsStay("A7C2");
    assert "SS" + "A7C2" == "SSA7C2";
  }
}

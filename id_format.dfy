/**
 * Text formats of the identifiers handed out by the token bookkeeping:
 * Java's `%04x` conversion of a non-negative int (lower-case hex, zero
 * padded to at least four digits), the 32-character random id built from
 * eight draws of `nextInt(65535)`, and an activity id (scope id followed by
 * the `%04x` sequence number). Each format comes with its parser, and the
 * round trips are proved.
 */
module IdFormat {

  /** Number of random 16-bit words in a session or pageview id. */
  const ID_WORDS: nat := 8
  /** Exclusive bound of each word: `nextInt(65535)` yields 0 .. 65534. */
  const WORD_BOUND: nat := 65535
  /** Numbers below this have exactly four hex digits under `%04x`. */
  const WORD_LIMIT: nat := 0x10000

  predicate IsHexDigit(c: char) {
    ('0' <= c <= '9') || ('a' <= c <= 'f')
  }

  predicate IsLowerHex(s: string) {
    forall i :: 0 <= i < |s| ==> IsHexDigit(s[i])
  }

  /** A session or pageview id: exactly 32 lower-case hex characters. */
  predicate IsTokenId(s: string) {
    |s| == 4 * ID_WORDS && IsLowerHex(s)
  }

  function Digit(v: nat): (c: char)
    requires v < 16
    ensures IsHexDigit(c) && DigitValue(c) == v
  {
    if v < 10 then ('0' as int + v) as char else ('a' as int + (v - 10)) as char
  }

  function DigitValue(c: char): (v: nat)
    requires IsHexDigit(c)
    ensures v < 16
  {
    if '0' <= c <= '9' then c as int - '0' as int else c as int - 'a' as int + 10
  }

  function Pow16(k: nat): (p: nat)
    ensures p >= 1
  {
    if k == 0 then 1 else 16 * Pow16(k - 1)
  }

  /** Shortest lower-case hex spelling of `n` (Integer.toHexString for n >= 0). */
  function Hex(n: nat): (s: string)
    ensures 1 <= |s| && IsLowerHex(s)
    decreases n
  {
    if n < 16 then [Digit(n)] else Hex(n / 16) + [Digit(n % 16)]
  }

  /** Value of a hex string, most significant digit first. */
  function ParseHex(s: string): (n: nat)
    requires IsLowerHex(s)
    ensures n < Pow16(|s|)
  {
    if s == [] then 0 else ParseHex(s[..|s| - 1]) * 16 + DigitValue(s[|s| - 1])
  }

  function Zeros(k: nat): (s: string)
    ensures |s| == k && forall i :: 0 <= i < k ==> s[i] == '0'
  {
    if k == 0 then [] else Zeros(k - 1) + ['0']
  }

  /** The `%04x` conversion: `Hex(n)` left-padded with '0' to width four. */
  function Hex04(n: nat): (s: string)
    ensures IsLowerHex(s) && 4 <= |s|
    ensures n < WORD_LIMIT ==> |s| == 4
    ensures ParseHex(s) == n
    ensures |s| > 4 ==> s[0] != '0'
  {
    var h := Hex(n);
    HexParses(n);
    if |h| >= 4 then
      (if n < WORD_LIMIT then assert Pow16(4) == WORD_LIMIT; HexWidth(n, 4); h else HexLeadingDigit(n); h)
    else
      LeadingZeros(4 - |h|, h);
      Zeros(4 - |h|) + h
  }

  lemma {:induction false} HexParses(n: nat)
    ensures ParseHex(Hex(n)) == n
    decreases n
  {
    if n >= 16 {
      var s := Hex(n);
      assert s[..|s| - 1] == Hex(n / 16);
      HexParses(n / 16);
    }
  }

  /** The spelling of a positive number has no leading zero. */
  lemma {:induction false} HexLeadingDigit(n: nat)
    requires n >= 1
    ensures Hex(n)[0] != '0'
    decreases n
  {
    if n >= 16 {
      HexLeadingDigit(n / 16);
      assert Hex(n)[0] == Hex(n / 16)[0];
    }
  }

  /** A number below 16^k needs at most k hex digits. */
  lemma {:induction false} HexWidth(n: nat, k: nat)
    requires 1 <= k && n < Pow16(k)
    ensures |Hex(n)| <= k
    decreases k
  {
    if n >= 16 {
      assert n / 16 < Pow16(k - 1);
      HexWidth(n / 16, k - 1);
    }
  }

  lemma {:induction false} LeadingZeros(k: nat, s: string)
    requires IsLowerHex(s)
    ensures IsLowerHex(Zeros(k) + s) && ParseHex(Zeros(k) + s) == ParseHex(s)
    decreases |s|
  {
    var z := Zeros(k) + s;
    if s == [] {
      assert z == Zeros(k);
      AllZeros(k);
    } else {
      assert z[..|z| - 1] == Zeros(k) + s[..|s| - 1];
      LeadingZeros(k, s[..|s| - 1]);
    }
  }

  lemma {:induction false} AllZeros(k: nat)
    ensures IsLowerHex(Zeros(k)) && ParseHex(Zeros(k)) == 0
  {
    if k > 0 {
      var z := Zeros(k);
      AllZeros(k - 1);
      assert z[..k - 1] == Zeros(k - 1);
      assert ParseHex(z) == ParseHex(Zeros(k - 1)) * 16 + DigitValue('0');
    }
  }

  /** A draw of `new_id`: eight values of `nextInt(65535)`. */
  predicate IsDraw(words: seq<nat>) {
    |words| == ID_WORDS && forall i :: 0 <= i < |words| ==> words[i] < WORD_BOUND
  }

  /** `new_id`: the words' `%04x` spellings, concatenated. */
  function NewId(words: seq<nat>): (id: string)
    ensures IsLowerHex(id)
    ensures |id| >= 4 * |words|
  {
    if words == [] then "" else Hex04(words[0]) + NewId(words[1..])
  }

  /** Splits a hex string into four-digit words; the inverse of `NewId`. */
  function ParseId(s: string): (words: seq<nat>)
    requires IsLowerHex(s) && |s| % 4 == 0
    ensures |words| == |s| / 4
  {
    if s == [] then [] else [ParseHex(s[..4])] + ParseId(s[4..])
  }

  lemma {:induction false} ParseIdInvertsNewId(words: seq<nat>)
    requires forall i :: 0 <= i < |words| ==> words[i] < WORD_LIMIT
    ensures |NewId(words)| == 4 * |words| && ParseId(NewId(words)) == words
  {
    if words != [] {
      var rest := words[1..];
      ParseIdInvertsNewId(rest);
      var head, tail := Hex04(words[0]), NewId(rest);
      var id := head + tail;
      assert id[..4] == head && id[4..] == tail;
      assert words == [words[0]] + rest;
    }
  }

  /** Every id `new_id` can produce is 32 lower-case hex digits and encodes its draw. */
  lemma DrawnIdFormat(words: seq<nat>)
    requires IsDraw(words)
    ensures IsTokenId(NewId(words))
    ensures ParseId(NewId(words)) == words
  {
    ParseIdInvertsNewId(words);
  }

  /** `String.format("%s%04x", id, sn)`. */
  function ActivityId(id: string, sn: nat): (r: string)
    ensures |r| >= |id| + 4 && r[..|id|] == id
    ensures sn < WORD_LIMIT ==> |r| == |id| + 4
    ensures |r| > |id| + 4 ==> r[|id|] != '0'
    ensures IsLowerHex(r[|id|..]) && ParseHex(r[|id|..]) == sn
  {
    var r := id + Hex04(sn);
    assert r[|id|..] == Hex04(sn);
    r
  }
}

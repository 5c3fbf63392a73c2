/**
 The URL-safe base 64 alphabet (sections 3.2 and 5 of RFC 4648), with the padding removed as
 cursors do and put back before decoding.
 */
module Base64Url {
  import opened Wrappers

  // ---- Eight-bit bytes as six-bit values ----

  predicate Bytes(s: seq<nat>) {
    forall i | 0 <= i < |s| :: s[i] < 256
  }

  predicate Sextets(t: seq<nat>) {
    forall i | 0 <= i < |t| :: t[i] < 64
  }

  /** The four six-bit values of three bytes. */
  function Four(a: nat, b: nat, c: nat): (t: seq<nat>)
    requires a < 256 && b < 256 && c < 256
    ensures |t| == 4 && Sextets(t)
  {
    [a / 4, a % 4 * 16 + b / 16, b % 16 * 4 + c / 64, c % 64]
  }

  /** The three bytes of four six-bit values. */
  function Three(w: nat, x: nat, y: nat, z: nat): (s: seq<nat>)
    requires w < 64 && x < 64 && y < 64 && z < 64
    ensures |s| == 3 && Bytes(s)
  {
    [w * 4 + x / 16, x % 16 * 16 + y / 4, y % 4 * 64 + z]
  }

  lemma Packed(high: nat, low: nat, base: nat)
    requires low < base
    ensures (high * base + low) / base == high && (high * base + low) % base == low
  {
    var d := (high * base + low) / base - high;
    assert d * base == low - (high * base + low) % base;
    assert d >= 1 ==> d * base >= base;
    assert d <= -1 ==> d * base <= -1 * base;
  }

  lemma ThreeOfFour(a: nat, b: nat, c: nat)
    requires a < 256 && b < 256 && c < 256
    ensures var t := Four(a, b, c);
            Three(t[0], t[1], t[2], t[3]) == [a, b, c]
  {
    Packed(a % 4, b / 16, 16);
    Packed(b % 16, c / 64, 4);
  }

  lemma NothingPacked(a: nat, b: nat)
    requires a < 256 && b < 256
    ensures Four(a, b, 0)[3] == 0 && Four(a, 0, 0)[2] == 0
  {
  }

  function Split(s: seq<nat>): (t: seq<nat>)
    requires Bytes(s)
    ensures Sextets(t)
  {
    if s == [] then []
    else if |s| == 1 then Four(s[0], 0, 0)[..2]
    else if |s| == 2 then Four(s[0], s[1], 0)[..3]
    else Four(s[0], s[1], s[2]) + Split(s[3..])
  }

  /** Left-over bits of an incomplete group are dropped; a lone value holds no byte. */
  function Joined(t: seq<nat>): (s: seq<nat>)
    requires Sextets(t)
    ensures Bytes(s)
  {
    if |t| < 2 then []
    else if |t| == 2 then Three(t[0], t[1], 0, 0)[..1]
    else if |t| == 3 then Three(t[0], t[1], t[2], 0)[..2]
    else Three(t[0], t[1], t[2], t[3]) + Joined(t[4..])
  }

  lemma JoinedGroup(g: seq<nat>, t: seq<nat>)
    requires |g| == 4 && Sextets(g) && Sextets(t)
    ensures Sextets(g + t) && Joined(g + t) == Three(g[0], g[1], g[2], g[3]) + Joined(t)
  {
    assert (g + t)[4..] == t;
  }

  lemma {:induction false} JoinedSplit(s: seq<nat>)
    requires Bytes(s)
    ensures Joined(Split(s)) == s
    decreases |s|
  {
    if |s| == 1 {
      ThreeOfFour(s[0], 0, 0);
      NothingPacked(s[0], 0);
    } else if |s| == 2 {
      ThreeOfFour(s[0], s[1], 0);
      NothingPacked(s[0], s[1]);
    } else if |s| > 2 {
      ThreeOfFour(s[0], s[1], s[2]);
      JoinedSplit(s[3..]);
      JoinedGroup(Four(s[0], s[1], s[2]), Split(s[3..]));
      assert s == [s[0], s[1], s[2]] + s[3..];
    }
  }

  /** No split leaves a lone value at its end. */
  lemma {:induction false} SplitLength(s: seq<nat>)
    requires Bytes(s)
    ensures |Split(s)| % 4 != 1
    decreases |s|
  {
    if |s| > 2 {
      SplitLength(s[3..]);
    }
  }

  // ---- The alphabet ----

  function Symbol(v: nat): (c: char)
    requires v < 64
  {
    if v < 26 then 'A' + v as char
    else if v < 52 then 'a' + (v - 26) as char
    else if v < 62 then '0' + (v - 52) as char
    else if v == 62 then '-'
    else '_'
  }

  function SymbolValue(c: char): (v: Option<nat>)
    ensures v.Some? ==> v.value < 64
  {
    if 'A' <= c <= 'Z' then Some(c as int - 'A' as int)
    else if 'a' <= c <= 'z' then Some(c as int - 'a' as int + 26)
    else if '0' <= c <= '9' then Some(c as int - '0' as int + 52)
    else if c == '-' then Some(62)
    else if c == '_' then Some(63)
    else None
  }

  lemma SymbolRoundTrip(v: nat)
    requires v < 64
    ensures SymbolValue(Symbol(v)) == Some(v) && Symbol(v) != '='
  {
  }

  function Written(t: seq<nat>): string
    requires Sextets(t)
  {
    seq(|t|, i requires 0 <= i < |t| => Symbol(t[i]))
  }

  predicate Readable(t: string) {
    forall i | 0 <= i < |t| :: SymbolValue(t[i]).Some?
  }

  function Values(t: string): (v: seq<nat>)
    requires Readable(t)
    ensures Sextets(v)
  {
    seq(|t|, i requires 0 <= i < |t| => SymbolValue(t[i]).value)
  }

  lemma WrittenRoundTrip(t: seq<nat>)
    requires Sextets(t)
    ensures Readable(Written(t)) && Values(Written(t)) == t && '=' !in Written(t)
  {
    forall i | 0 <= i < |t| ensures SymbolValue(Written(t)[i]) == Some(t[i]) && Written(t)[i] != '=' {
      SymbolRoundTrip(t[i]);
    }
  }

  // ---- Padding ----

  function Fill(n: nat): string
    requires n < 4
  {
    if n == 0 then "" else if n == 1 then "=" else if n == 2 then "==" else "==="
  }

  function Stripped(t: string): string {
    if t != "" && t[|t| - 1] == '=' then Stripped(t[..|t| - 1]) else t
  }

  /** Fills up to a multiple of four. */
  function Padded(t: string): string {
    t + Fill((4 - |t| % 4) % 4)
  }

  function Encode(s: seq<nat>): string
    requires Bytes(s)
  {
    Padded(Written(Split(s)))
  }

  /** Needs whole groups, at most two padding characters at the end and nothing outside the alphabet. */
  function Decode(t: string): Option<seq<nat>> {
    var bare := Stripped(t);
    if |t| % 4 != 0 || |t| > |bare| + 2 || !Readable(bare) then None else Some(Joined(Values(bare)))
  }

  lemma {:induction false} StrippedFill(t: string, n: nat)
    requires n < 4 && '=' !in t
    ensures Stripped(t + Fill(n)) == t
  {
    if n == 0 {
      assert t + Fill(0) == t;
    } else {
      assert (t + Fill(n))[..|t| + n - 1] == t + Fill(n - 1);
      StrippedFill(t, n - 1);
    }
  }

  lemma PaddedShape(t: string)
    requires |t| % 4 != 1
    ensures |Padded(t)| % 4 == 0 && |Padded(t)| <= |t| + 2
  {
  }

  lemma StrippedPadded(t: string)
    requires '=' !in t
    ensures Stripped(Padded(t)) == t
  {
    StrippedFill(t, (4 - |t| % 4) % 4);
  }

  lemma DecodePadded(t: string)
    requires |t| % 4 != 1 && '=' !in t && Readable(t)
    ensures Decode(Padded(t)) == Some(Joined(Values(t)))
  {
    StrippedPadded(t);
    PaddedShape(t);
  }

  /** Removing the padding and putting it back loses nothing. */
  lemma UnpaddedRoundTrip(s: seq<nat>)
    requires Bytes(s)
    ensures Decode(Encode(s)) == Some(s)
    ensures Decode(Padded(Stripped(Encode(s)))) == Some(s)
  {
    SplitLength(s);
    WrittenRoundTrip(Split(s));
    StrippedPadded(Written(Split(s)));
    DecodePadded(Written(Split(s)));
    JoinedSplit(s);
  }

  /** Section 3.5 of RFC 4648: the bits that pad an incomplete group are zero. */
  lemma {:induction false} PadBitsAreZero(s: seq<nat>)
    requires Bytes(s)
    ensures |s| % 3 != 0 ==> Split(s) != []
    ensures |s| % 3 == 1 ==> Split(s)[|Split(s)| - 1] % 16 == 0
    ensures |s| % 3 == 2 ==> Split(s)[|Split(s)| - 1] % 4 == 0
    decreases |s|
  {
    if |s| == 1 {
      PadBits(s[0] % 4, 16);
    } else if |s| == 2 {
      PadBits(s[1] % 16, 4);
    } else if |s| > 2 {
      PadBitsAreZero(s[3..]);
    }
  }

  lemma PadBits(high: nat, base: nat)
    requires base > 0
    ensures high * base % base == 0
  {
    Packed(high, 0, base);
  }

  predicate InAlphabet(c: char) {
    'A' <= c <= 'Z' || 'a' <= c <= 'z' || '0' <= c <= '9' || c == '-' || c == '_'
  }

  lemma ReadableIff(t: string)
    ensures Readable(t) <==> forall i | 0 <= i < |t| :: InAlphabet(t[i])
  {
  }

  /** Exactly whole groups of the alphabet with at most two padding characters at the end are decoded. */
  lemma DecodableIff(t: string)
    ensures Decode(t).Some?
            <==> |t| % 4 == 0 && exists n | 0 <= n <= 2 :: IsPadded(t, n)
  {
    StrippedShape(t);
    ReadableIff(Stripped(t));
    if exists n | 0 <= n <= 2 :: IsPadded(t, n) {
      var n :| 0 <= n <= 2 && IsPadded(t, n);
      assert t == t[..|t| - n] + Fill(n);
      StrippedFill(t[..|t| - n], n);
    }
    if Decode(t).Some? {
      assert IsPadded(t, |t| - |Stripped(t)|);
    }
  }

  predicate IsPadded(t: string, n: nat) {
    && n <= |t|
    && (forall i | 0 <= i < |t| - n :: InAlphabet(t[i]))
    && (forall i | |t| - n <= i < |t| :: t[i] == '=')
  }

  lemma {:induction false} StrippedShape(t: string)
    ensures Stripped(t) <= t && forall i | |Stripped(t)| <= i < |t| :: t[i] == '='
  {
    if t != "" && t[|t| - 1] == '=' {
      StrippedShape(t[..|t| - 1]);
    }
  }
}

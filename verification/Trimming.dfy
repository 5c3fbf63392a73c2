/** Blank-trimmed text, over the ASCII characters that count as white space, and what it is in terms of its parts. */
module Trimming {
  import opened Wrappers

  predicate IsSpace(c: char) {
    9 <= c as int <= 13 || 28 <= c as int <= 32
  }

  function StripLeft(s: string): (r: string)
    ensures |r| <= |s|
    ensures r != "" ==> !IsSpace(r[0])
  {
    if s != "" && IsSpace(s[0]) then StripLeft(s[1..]) else s
  }

  function StripRight(s: string): (r: string)
    ensures |r| <= |s|
    ensures r <= s
    ensures r != "" ==> !IsSpace(r[|r| - 1])
  {
    if s != "" && IsSpace(s[|s| - 1]) then StripRight(s[..|s| - 1]) else s
  }

  function Strip(s: string): string {
    StripRight(StripLeft(s))
  }

  function OptionalText(value: Option<string>): Option<string> {
    if value.None? || Strip(value.value) == "" then None else Some(Strip(value.value))
  }

  /** Non-empty, with no white space at either end: exactly the texts that survive trimming. */
  predicate Trimmed(s: string) {
    s != "" && !IsSpace(s[0]) && !IsSpace(s[|s| - 1])
  }

  lemma TrimmedIffKept(s: string)
    ensures OptionalText(Some(s)) == Some(s) <==> Trimmed(s)
  {
    if Trimmed(s) {
      assert StripLeft(s) == s && StripRight(s) == s;
    } else if s != "" && IsSpace(s[0]) {
      assert |StripLeft(s[1..])| < |s|;
    }
  }

  lemma StripIsTrimmed(s: string)
    ensures Strip(s) == "" || (Trimmed(Strip(s)) && Strip(Strip(s)) == Strip(s))
  {
    if Strip(s) != "" {
      TrimmedIffKept(Strip(s));
    }
  }

  // ---- Normal texts ----

  /** Tab to carriage return, the four separators before the space, and the space. */
  predicate White(c: char) {
    '\t' <= c <= '\r' || 28 <= c as int <= 31 || c == ' '
  }

  predicate Blank(s: string) {
    forall i | 0 <= i < |s| :: White(s[i])
  }

  /** The text between white space, which neither starts nor ends with any; none when there is nothing else. */
  ghost predicate NormalText(raw: string, value: Option<string>) {
    match value
    case None => Blank(raw)
    case Some(v) =>
      && v != "" && !White(v[0]) && !White(v[|v| - 1])
      && exists before, after :: Blank(before) && Blank(after) && raw == before + v + after
  }

  /** The same for a text that is never absent, only empty. */
  ghost predicate NormalName(raw: string, name: string) {
    if Blank(raw) then name == "" else NormalText(raw, Some(name))
  }

  lemma {:induction false} StrippedLeft(s: string)
    ensures exists before :: Blank(before) && s == before + StripLeft(s)
  {
    if s != "" && IsSpace(s[0]) {
      StrippedLeft(s[1..]);
      var before :| Blank(before) && s[1..] == before + StripLeft(s[1..]);
      assert Blank([s[0]] + before) && s == ([s[0]] + before) + StripLeft(s);
    } else {
      assert Blank("") && s == "" + StripLeft(s);
    }
  }

  lemma {:induction false} StrippedRight(s: string)
    ensures exists after :: Blank(after) && s == StripRight(s) + after
  {
    if s != "" && IsSpace(s[|s| - 1]) {
      StrippedRight(s[..|s| - 1]);
      var after :| Blank(after) && s[..|s| - 1] == StripRight(s[..|s| - 1]) + after;
      assert Blank(after + [s[|s| - 1]]) && s == StripRight(s) + (after + [s[|s| - 1]]);
    } else {
      assert Blank("") && s == StripRight(s) + "";
    }
  }

  lemma StripIsNormal(raw: string)
    ensures NormalText(raw, OptionalText(Some(raw)))
    ensures Strip(raw) == "" <==> Blank(raw)
  {
    StrippedLeft(raw);
    StrippedRight(StripLeft(raw));
    var before :| Blank(before) && raw == before + StripLeft(raw);
    var after :| Blank(after) && StripLeft(raw) == Strip(raw) + after;
    assert raw == before + Strip(raw) + after;
    StripEnds(raw);
    if Strip(raw) != "" {
      NotBlank(raw, Strip(raw));
    }
  }

  lemma NotBlank(raw: string, v: string)
    requires NormalText(raw, Some(v))
    ensures !Blank(raw)
  {
    var before, after :| Blank(before) && Blank(after) && raw == before + v + after;
    assert raw[|before|] == v[0];
  }

  lemma StripEnds(raw: string)
    ensures Strip(raw) != "" ==> !White(Strip(raw)[0]) && !White(Strip(raw)[|Strip(raw)| - 1])
  {
    StripIsTrimmed(raw);
  }

  /** There is one normal text only. */
  lemma NormalTextUnique(raw: string, a: Option<string>, b: Option<string>)
    requires NormalText(raw, a) && NormalText(raw, b)
    ensures a == b
  {
    if a.Some? && b.Some? {
      var u, w :| Blank(u) && Blank(w) && raw == u + a.value + w;
      var x, y :| Blank(x) && Blank(y) && raw == x + b.value + y;
      assert raw[|u|] == a.value[0] && raw[|x|] == b.value[0];
      assert |u| == |x|;
      assert raw[|u| + |a.value| - 1] == a.value[|a.value| - 1];
      assert raw[|x| + |b.value| - 1] == b.value[|b.value| - 1];
      assert |a.value| == |b.value|;
      assert a.value == raw[|u|..|u| + |a.value|] == b.value;
    } else if a.Some? {
      NotBlank(raw, a.value);
    } else if b.Some? {
      NotBlank(raw, b.value);
    }
  }
}

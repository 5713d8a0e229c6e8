/** String helpers the model needs and JavaScript provides: decimal
    printing of a number (template literals), `Array.prototype.join`,
    ASCII `toUpperCase` and `String.prototype.trim`, together with
    reference definitions (decimal parsing, splitting) that serve as
    their inverses in the lemmas. */
module Text {
  import opened Types

  // ---------------------------------------------------------------------
  // Decimal numbers

  predicate IsDigit(c: char) { '0' <= c <= '9' }

  function DigitChar(d: nat): (c: char)
    requires d < 10
    ensures IsDigit(c) && c as int - '0' as int == d
  {
    ('0' as int + d) as char
  }

  /** The decimal text of `n`, without leading zeros (`${n}` for an
      array index). */
  function NatToString(n: nat): (s: string)
    ensures |s| >= 1
    ensures forall i :: 0 <= i < |s| ==> IsDigit(s[i])
    ensures n < 10 <==> |s| == 1
    ensures n > 0 ==> s[0] != '0'
    ensures |s| > 1 ==> s[0] != '0'
    decreases n
  {
    if n < 10 then [DigitChar(n)] else NatToString(n / 10) + [DigitChar(n % 10)]
  }

  function DigitValue(c: char): nat
    requires IsDigit(c)
  {
    c as int - '0' as int
  }

  function DigitsValue(s: string): nat
    requires forall i :: 0 <= i < |s| ==> IsDigit(s[i])
  {
    if |s| == 0 then 0
    else DigitsValue(s[..|s| - 1]) * 10 + DigitValue(s[|s| - 1])
  }

  /** Reads a non-empty string of decimal digits; anything else is None. */
  function ParseNat(s: string): (r: Option<nat>)
    ensures r.Some? <==> |s| > 0 && forall i :: 0 <= i < |s| ==> IsDigit(s[i])
  {
    if |s| > 0 && forall i :: 0 <= i < |s| ==> IsDigit(s[i]) then Some(DigitsValue(s)) else None
  }

  /** Printing a number and reading it back gives the number. */
  lemma {:induction false} ParseNatToString(n: nat)
    ensures ParseNat(NatToString(n)) == Some(n)
    decreases n
  {
    var s := NatToString(n);
    if n < 10 {
      assert s[..|s| - 1] == [];
      assert DigitsValue(s) == DigitValue(s[0]) == n;
    } else {
      ParseNatToString(n / 10);
      assert s[..|s| - 1] == NatToString(n / 10);
    }
  }

  /** Distinct numbers print as distinct strings. */
  lemma NatToStringInjective(m: nat, n: nat)
    ensures NatToString(m) == NatToString(n) <==> m == n
  {
    ParseNatToString(m);
    ParseNatToString(n);
  }

  // ---------------------------------------------------------------------
  // Join and split

  /** `parts.join(sep)`: the empty list joins to "". */
  function Join(sep: string, parts: seq<string>): string
    decreases |parts|
  {
    if |parts| == 0 then ""
    else if |parts| == 1 then parts[0]
    else parts[0] + sep + Join(sep, parts[1..])
  }

  /** Joining one more part puts it last, after one separator. */
  lemma {:induction false} JoinAppend(sep: string, parts: seq<string>, p: string)
    requires |parts| > 0
    ensures Join(sep, parts + [p]) == Join(sep, parts) + sep + p
    decreases |parts|
  {
    if |parts| > 1 {
      JoinAppend(sep, parts[1..], p);
      assert (parts + [p])[1..] == parts[1..] + [p];
    }
  }

  /** The total length of the parts. */
  function TotalLength(parts: seq<string>): nat
  {
    if |parts| == 0 then 0 else |parts[0]| + TotalLength(parts[1..])
  }

  /** A join is exactly as long as its parts plus one separator between
      each neighbouring pair. */
  lemma {:induction false} JoinLength(sep: string, parts: seq<string>)
    requires |parts| > 0
    ensures |Join(sep, parts)| == TotalLength(parts) + (|parts| - 1) * |sep|
    decreases |parts|
  {
    if |parts| > 1 {
      JoinLength(sep, parts[1..]);
    }
  }

  /** A character that is in neither the separator nor any part is not in
      the join. */
  lemma {:induction false} JoinAvoids(sep: string, parts: seq<string>, c: char)
    requires c !in sep
    requires forall i :: 0 <= i < |parts| ==> c !in parts[i]
    ensures c !in Join(sep, parts)
    decreases |parts|
  {
    if |parts| > 1 {
      JoinAvoids(sep, parts[1..], c);
    }
  }

  /** `s.split(c)` for a one-character separator: the pieces between the
      occurrences of `c`; a string without `c` is one piece. */
  function Split(s: string, c: char): (r: seq<string>)
    ensures |r| >= 1
  {
    if |s| == 0 then [""]
    else
      var rest := Split(s[1..], c);
      if s[0] == c then [""] + rest else [[s[0]] + rest[0]] + rest[1..]
  }

  /** A piece with no separator in it, followed by the separator, splits off
      as one piece. */
  lemma {:induction false} SplitPrefix(p: string, c: char, rest: string)
    requires c !in p
    ensures Split(p + [c] + rest, c) == [p] + Split(rest, c)
    decreases |p|
  {
    if |p| == 0 {
      assert (p + [c] + rest)[1..] == rest;
    } else {
      SplitPrefix(p[1..], c, rest);
      assert (p + [c] + rest)[1..] == p[1..] + [c] + rest;
      assert p[0] != c && [p[0]] + p[1..] == p;
    }
  }

  /** A string with no separator in it splits into itself alone. */
  lemma {:induction false} SplitNone(p: string, c: char)
    requires c !in p
    ensures Split(p, c) == [p]
    decreases |p|
  {
    if |p| > 0 {
      SplitNone(p[1..], c);
      assert [p[0]] + p[1..] == p;
    }
  }

  /** Splitting a join at its one-character separator recovers the parts,
      provided no part contains the separator. */
  lemma {:induction false} SplitJoin(parts: seq<string>, c: char)
    requires |parts| > 0
    requires forall i :: 0 <= i < |parts| ==> c !in parts[i]
    ensures Split(Join([c], parts), c) == parts
    decreases |parts|
  {
    if |parts| == 1 {
      SplitNone(parts[0], c);
    } else {
      SplitJoin(parts[1..], c);
      SplitPrefix(parts[0], c, Join([c], parts[1..]));
      assert [parts[0]] + parts[1..] == parts;
    }
  }

  /** Each part with `pad` in front of it. */
  function Padded(pad: string, parts: seq<string>): (r: seq<string>)
    ensures |r| == |parts|
    ensures forall i :: 0 <= i < |parts| ==> r[i] == pad + parts[i]
  {
    if |parts| == 0 then [] else [pad + parts[0]] + Padded(pad, parts[1..])
  }

  /** Text in front of the first part stays in front of the join. */
  lemma JoinFirstPrefix(sep: string, pre: string, p: string, rest: seq<string>)
    ensures Join(sep, [pre + p] + rest) == pre + Join(sep, [p] + rest)
  {
    if |rest| > 0 {
      assert ([pre + p] + rest)[1..] == rest == ([p] + rest)[1..];
    }
  }

  /** A separator made of one character and some padding joins like the
      character alone, with the padding moved onto every part but the first. */
  lemma {:induction false} JoinPaddedSep(c: char, pad: string, parts: seq<string>)
    requires |parts| > 0
    ensures Join([c] + pad, parts) == Join([c], [parts[0]] + Padded(pad, parts[1..]))
    decreases |parts|
  {
    if |parts| > 1 {
      var rest := parts[1..];
      JoinPaddedSep(c, pad, rest);
      assert rest[1..] == parts[2..];
      JoinFirstPrefix([c], pad, rest[0], Padded(pad, rest[1..]));
      assert Padded(pad, rest) == [pad + rest[0]] + Padded(pad, rest[1..]);
      assert ([parts[0]] + Padded(pad, rest))[1..] == Padded(pad, rest);
    }
  }

  /** Splitting a join whose separator is `c` followed by padding at `c`
      gives the first part and then every other part with the padding in
      front, provided neither the parts nor the padding contain `c`. */
  lemma SplitJoinPadded(parts: seq<string>, c: char, pad: string)
    requires |parts| > 0
    requires c !in pad
    requires forall i :: 0 <= i < |parts| ==> c !in parts[i]
    ensures Split(Join([c] + pad, parts), c) == [parts[0]] + Padded(pad, parts[1..])
  {
    JoinPaddedSep(c, pad, parts);
    var q := [parts[0]] + Padded(pad, parts[1..]);
    forall i | 0 <= i < |q| ensures c !in q[i] {
      if i > 0 {
        assert q[i] == pad + parts[i];
      }
    }
    SplitJoin(q, c);
  }

  // ---------------------------------------------------------------------
  // Upper case

  /** `toUpperCase` on the ASCII letters, the only ones role names use. */
  function UpperChar(c: char): (u: char)
  {
    if 'a' <= c <= 'z' then (c as int - 32) as char else c
  }

  function Upper(s: string): (u: string)
    ensures |u| == |s|
    ensures forall i :: 0 <= i < |s| ==> u[i] == UpperChar(s[i])
  {
    seq(|s|, i requires 0 <= i < |s| => UpperChar(s[i]))
  }

  // ---------------------------------------------------------------------
  // Trim

  /** The characters `String.prototype.trim` removes: the ECMAScript
      WhiteSpace and LineTerminator characters. */
  predicate IsWhitespace(c: char)
  {
    var n := c as int;
    (0x09 <= n <= 0x0D) || n == 0x20 || n == 0xA0 || n == 0x1680
    || (0x2000 <= n <= 0x200A) || n == 0x2028 || n == 0x2029
    || n == 0x202F || n == 0x205F || n == 0x3000 || n == 0xFEFF
  }

  predicate AllWhitespace(s: string)
  {
    forall i :: 0 <= i < |s| ==> IsWhitespace(s[i])
  }

  /** Drops leading whitespace: the result is a suffix of `s` that does not
      start with whitespace, and what was dropped is all whitespace. */
  function TrimStart(s: string): (r: string)
    ensures |r| <= |s| && r == s[|s| - |r|..]
    ensures AllWhitespace(s[..|s| - |r|])
    ensures |r| > 0 ==> !IsWhitespace(r[0])
  {
    if |s| > 0 && IsWhitespace(s[0]) then TrimStart(s[1..]) else s
  }

  /** Drops trailing whitespace: the result is a prefix of `s` that does
      not end with whitespace, and what was dropped is all whitespace. */
  function TrimEnd(s: string): (r: string)
    ensures |r| <= |s| && r == s[..|r|]
    ensures AllWhitespace(s[|r|..])
    ensures |r| > 0 ==> !IsWhitespace(r[|r| - 1])
  {
    if |s| > 0 && IsWhitespace(s[|s| - 1]) then TrimEnd(s[..|s| - 1]) else s
  }

  /** Cutting whitespace off the front of `s` and then off the back of
      what is left leaves a slice of `s` with whitespace on either side. */
  lemma WhitespaceAround(s: string, r: string, t: string)
    requires |r| <= |s| && r == s[|s| - |r|..] && AllWhitespace(s[..|s| - |r|])
    requires |t| <= |r| && t == r[..|t|] && AllWhitespace(r[|t|..])
    ensures var k := |s| - |r|;
      k + |t| <= |s| && t == s[k..k + |t|] && AllWhitespace(s[..k]) && AllWhitespace(s[k + |t|..])
  {
    var k := |s| - |r|;
    assert r[|t|..] == s[k + |t|..];
  }

  /** `String.prototype.trim`: the result is the slice of `s` that starts
      where the leading whitespace ends, with only whitespace cut off before
      and after it, and it neither starts nor ends with whitespace. */
  function Trim(s: string): (t: string)
    ensures exists k :: (0 <= k && k + |t| <= |s| && t == s[k..k + |t|]
                         && AllWhitespace(s[..k]) && AllWhitespace(s[k + |t|..]))
    ensures |t| > 0 ==> !IsWhitespace(t[0]) && !IsWhitespace(t[|t| - 1])
  {
    var r := TrimStart(s);
    var t := TrimEnd(r);
    WhitespaceAround(s, r, t);
    t
  }

  lemma TrimStartEmptyIffBlank(s: string)
    ensures TrimStart(s) == "" <==> AllWhitespace(s)
  {
    var t := TrimStart(s);
    if t == "" {
      assert s[..|s|] == s;
    } else {
      assert t[0] == s[|s| - |t|];
    }
  }

  lemma TrimEndEmptyIffBlank(s: string)
    ensures TrimEnd(s) == "" <==> AllWhitespace(s)
  {
    var t := TrimEnd(s);
    if t == "" {
      assert s[0..] == s;
    } else {
      assert t[|t| - 1] == s[|t| - 1];
    }
  }

  /** `!s.trim()`: trimming leaves nothing exactly when every character is
      whitespace (in particular for the empty string). */
  lemma TrimEmptyIffBlank(s: string)
    ensures Trim(s) == "" <==> AllWhitespace(s)
  {
    var t := TrimStart(s);
    var k := |s| - |t|;
    TrimEndEmptyIffBlank(t);
    assert s == s[..k] + t;
    assert AllWhitespace(s[..k]);
    if AllWhitespace(t) {
      assert t == "" && s == s[..k];
    }
    if AllWhitespace(s) {
      TrimStartEmptyIffBlank(s);
    }
  }
}

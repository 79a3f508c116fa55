/** String operations the planner and the executor are built from: the
    `{key}` token syntax, Rust's `str::replace` (replace every non-overlapping
    occurrence, scanning left to right), `join`, and the decimal rendering
    of integers. */
module Text {
  import opened Config

  /** The placeholder written `{key}` in a template. */
  function Token(key: string): (t: string)
    ensures |t| == |key| + 2 && t[0] == '{' && t[|t| - 1] == '}'
  {
    "{" + key + "}"
  }

  /** `p` occurs in `s` starting at position `i`. */
  predicate OccursAt(s: string, p: string, i: nat) {
    i + |p| <= |s| && s[i..i + |p|] == p
  }

  predicate Occurs(p: string, s: string) {
    exists i: nat | i <= |s| :: OccursAt(s, p, i)
  }

  /** `s.replace(p, r)`: every occurrence of `p` found by a left-to-right
      scan that resumes after each match is replaced by `r`. */
  function ReplaceAll(s: string, p: string, r: string): string
    requires |p| > 0
    decreases |s|
  {
    if |s| < |p| then s
    else if s[..|p|] == p then r + ReplaceAll(s[|p|..], p, r)
    else [s[0]] + ReplaceAll(s[1..], p, r)
  }

  /** `s.split(p)`: the pieces of `s` between the occurrences that
      `ReplaceAll` replaces. */
  function Split(s: string, p: string): (parts: seq<string>)
    requires |p| > 0
    ensures |parts| > 0
    decreases |s|
  {
    if |s| < |p| then [s]
    else if s[..|p|] == p then [""] + Split(s[|p|..], p)
    else
      var rest := Split(s[1..], p);
      [[s[0]] + rest[0]] + rest[1..]
  }

  /** `parts.join(sep)`. */
  function Join(parts: seq<string>, sep: string): string {
    if |parts| == 0 then ""
    else if |parts| == 1 then parts[0]
    else parts[0] + sep + Join(parts[1..], sep)
  }

  lemma JoinConsHead(c: char, x: string, xs: seq<string>, sep: string)
    ensures Join([[c] + x] + xs, sep) == [c] + Join([x] + xs, sep)
  {
    if |xs| > 0 {
      assert ([[c] + x] + xs)[1..] == xs;
      assert ([x] + xs)[1..] == xs;
    }
  }

  /** Joining after a piece that starts with `c` puts `c` in front. */
  lemma JoinSkipStep(c: char, rest: seq<string>, sep: string, t: string)
    requires |rest| > 0 && Join(rest, sep) == t
    ensures Join([[c] + rest[0]] + rest[1..], sep) == [c] + t
  {
    JoinConsHead(c, rest[0], rest[1..], sep);
    assert [rest[0]] + rest[1..] == rest;
  }

  /** Joining after an empty piece puts the separator in front. */
  lemma JoinMatchStep(rest: seq<string>, sep: string, t: string)
    requires |rest| > 0 && Join(rest, sep) == t
    ensures Join([""] + rest, sep) == sep + t
  {
    var xs := [""] + rest;
    assert |xs| > 1 && xs[0] == "" && xs[1..] == rest;
    assert Join(xs, sep) == "" + sep + t;
    assert "" + sep == sep;
  }

  lemma {:induction false} SplitHeadIsPrefix(s: string, p: string)
    requires |p| > 0
    ensures |Split(s, p)[0]| <= |s| && Split(s, p)[0] == s[..|Split(s, p)[0]|]
    decreases |s|
  {
    if |s| >= |p| && s[..|p|] != p {
      var h := Split(s[1..], p)[0];
      SplitHeadIsPrefix(s[1..], p);
      assert Split(s, p)[0] == [s[0]] + h;
      assert [s[0]] + h == s[..|h| + 1] by {
        assert h == s[1..|h| + 1];
      }
    }
  }

  /** Splitting at the occurrences of `p` and joining the pieces back with
      `p` gives the original string. */
  lemma {:induction false} SplitJoinRoundTrip(s: string, p: string)
    requires |p| > 0
    ensures Join(Split(s, p), p) == s
    decreases |s|
  {
    if |s| < |p| {
    } else if s[..|p|] == p {
      SplitJoinRoundTrip(s[|p|..], p);
      JoinMatchStep(Split(s[|p|..], p), p, s[|p|..]);
      assert s == s[..|p|] + s[|p|..];
    } else {
      SplitJoinRoundTrip(s[1..], p);
      JoinSkipStep(s[0], Split(s[1..], p), p, s[1..]);
      assert s == [s[0]] + s[1..];
    }
  }

  /** An occurrence in `[c] + x` either starts at the front or lies in `x`. */
  lemma NotOccursCons(c: char, x: string, p: string)
    requires |p| > 0 && !Occurs(p, x) && !OccursAt([c] + x, p, 0)
    ensures !Occurs(p, [c] + x)
  {
    var cx := [c] + x;
    forall j: nat | j <= |cx| ensures !OccursAt(cx, p, j) {
      if 0 < j && j + |p| <= |cx| {
        assert cx[j..j + |p|] == x[j - 1..j - 1 + |p|];
        assert !OccursAt(x, p, j - 1);
      }
    }
  }

  /** No piece of the split contains `p`: every occurrence was cut out. */
  lemma {:induction false} SplitPartsFree(s: string, p: string)
    requires |p| > 0
    ensures forall i :: 0 <= i < |Split(s, p)| ==> !Occurs(p, Split(s, p)[i])
    decreases |s|
  {
    var parts := Split(s, p);
    if |s| < |p| {
      assert parts == [s];
    } else if s[..|p|] == p {
      SplitPartsFree(s[|p|..], p);
      var rest := Split(s[|p|..], p);
      assert parts == [""] + rest;
      forall i | 0 <= i < |parts| ensures !Occurs(p, parts[i]) {
        if i > 0 {
          assert parts[i] == rest[i - 1];
        }
      }
    } else {
      SplitPartsFree(s[1..], p);
      SplitHeadIsPrefix(s[1..], p);
      var rest := Split(s[1..], p);
      var head := [s[0]] + rest[0];
      assert parts == [head] + rest[1..];
      assert head == s[..|head|];
      if |p| <= |head| {
        assert head[..|p|] == s[..|p|];
      }
      NotOccursCons(s[0], rest[0], p);
      forall i | 0 <= i < |parts| ensures !Occurs(p, parts[i]) {
        if i > 0 {
          assert parts[i] == rest[i];
        }
      }
    }
  }

  /** Each piece followed by `p` is a prefix of the input when more pieces
      follow, which is what makes the cut the left-most one. */
  lemma {:induction false} SplitHeadCut(s: string, p: string)
    requires |p| > 0 && |Split(s, p)| > 1
    ensures |Split(s, p)[0] + p| <= |s| && Split(s, p)[0] + p == s[..|Split(s, p)[0] + p|]
    decreases |s|
  {
    if |s| < |p| {
    } else if s[..|p|] == p {
      assert Split(s, p)[0] + p == p;
    } else {
      var h := Split(s[1..], p)[0];
      assert |Split(s[1..], p)| > 1;
      SplitHeadCut(s[1..], p);
      assert Split(s, p)[0] == [s[0]] + h;
      HeadPrefixCons(s, h, p);
    }
  }

  lemma HeadPrefixCons(s: string, h: string, p: string)
    requires |s| > 0 && |h + p| <= |s| - 1 && h + p == s[1..][..|h + p|]
    ensures |[s[0]] + h + p| <= |s| && [s[0]] + h + p == s[..|[s[0]] + h + p|]
  {
    ConsPrefix(s, h + p);
    assert [s[0]] + h + p == [s[0]] + (h + p);
  }

  lemma ConsPrefix(s: string, y: string)
    requires |s| > 0 && |y| < |s| && y == s[1..][..|y|]
    ensures [s[0]] + y == s[..|y| + 1]
  {
  }

  /** A piece `[c] + x` cut in front of a separator, with the input not
      starting with `p`, holds no occurrence of `p` running into that
      separator when `x` holds none. */
  lemma LeftmostStep(c: char, x: string, p: string, s: string)
    requires |p| > 0 && |s| >= |p| && s[..|p|] != p
    requires |[c] + x + p| <= |s| && [c] + x + p == s[..|[c] + x + p|]
    requires forall j :: 0 <= j < |x| ==> !OccursAt(x + p, p, j)
    ensures forall j :: 0 <= j < |[c] + x| ==> !OccursAt([c] + x + p, p, j)
  {
    var hp := [c] + x + p;
    forall j | 0 <= j < |[c] + x| ensures !OccursAt(hp, p, j) {
      if j == 0 {
        assert hp[..|p|] == s[..|p|];
      } else if j + |p| <= |hp| {
        assert hp[j..j + |p|] == (x + p)[j - 1..j - 1 + |p|];
        assert !OccursAt(x + p, p, j - 1);
      }
    }
  }

  /** The first piece is cut at the left-most occurrence: none starts inside
      it and runs into the separator after it. */
  lemma {:induction false} SplitLeftmostHead(s: string, p: string)
    requires |p| > 0 && |Split(s, p)| > 1
    ensures forall j :: 0 <= j < |Split(s, p)[0]| ==> !OccursAt(Split(s, p)[0] + p, p, j)
    decreases |s|
  {
    if |s| >= |p| && s[..|p|] != p {
      var rest := Split(s[1..], p);
      assert Split(s, p)[0] == [s[0]] + rest[0] && |rest| > 1;
      SplitLeftmostHead(s[1..], p);
      SplitHeadCut(s[1..], p);
      ConsPrefix(s, rest[0] + p);
      assert [s[0]] + rest[0] + p == [s[0]] + (rest[0] + p);
      LeftmostStep(s[0], rest[0], p, s);
    }
  }

  /** The occurrences that are cut are the left-most ones: no occurrence of
      `p` starts inside a piece and runs into the separator that follows it. */
  lemma {:induction false} SplitLeftmost(s: string, p: string)
    requires |p| > 0
    ensures forall i, j :: 0 <= i < |Split(s, p)| - 1 && 0 <= j < |Split(s, p)[i]| ==>
      !OccursAt(Split(s, p)[i] + p, p, j)
    decreases |s|
  {
    var parts := Split(s, p);
    if |s| < |p| {
    } else if s[..|p|] == p {
      SplitLeftmost(s[|p|..], p);
      var rest := Split(s[|p|..], p);
      assert parts == [""] + rest;
      forall i, j | 0 <= i < |parts| - 1 && 0 <= j < |parts[i]|
        ensures !OccursAt(parts[i] + p, p, j)
      {
        assert parts[i] == rest[i - 1];
      }
    } else {
      SplitLeftmost(s[1..], p);
      var rest := Split(s[1..], p);
      assert parts == [[s[0]] + rest[0]] + rest[1..];
      if |parts| > 1 {
        SplitLeftmostHead(s, p);
      }
      forall i, j | 0 < i < |parts| - 1 && 0 <= j < |parts[i]|
        ensures !OccursAt(parts[i] + p, p, j)
      {
        assert parts[i] == rest[i];
      }
    }
  }

  /** Replacing is splitting at the occurrences and joining with the
      replacement: the text between occurrences is kept as it was. */
  lemma {:induction false} ReplaceAllIsSplitJoin(s: string, p: string, r: string)
    requires |p| > 0
    ensures ReplaceAll(s, p, r) == Join(Split(s, p), r)
    decreases |s|
  {
    if |s| < |p| {
    } else if s[..|p|] == p {
      var rest := Split(s[|p|..], p);
      ReplaceAllIsSplitJoin(s[|p|..], p, r);
      assert ([""] + rest)[1..] == rest;
    } else {
      var rest := Split(s[1..], p);
      ReplaceAllIsSplitJoin(s[1..], p, r);
      JoinConsHead(s[0], rest[0], rest[1..], r);
      assert [rest[0]] + rest[1..] == rest;
    }
  }

  /** A string in which `p` does not occur is left unchanged. */
  lemma {:induction false} ReplaceAllAbsent(s: string, p: string, r: string)
    requires |p| > 0 && !Occurs(p, s)
    ensures ReplaceAll(s, p, r) == s
    decreases |s|
  {
    if |s| < |p| {
    } else if s[..|p|] == p {
      assert OccursAt(s, p, 0);
      assert false;
    } else {
      forall j: nat ensures !OccursAt(s[1..], p, j) {
        if OccursAt(s[1..], p, j) {
          assert s[1..][j..j + |p|] == s[j + 1..j + 1 + |p|];
          assert OccursAt(s, p, j + 1);
        }
      }
      ReplaceAllAbsent(s[1..], p, r);
      assert s == [s[0]] + s[1..];
    }
  }

  lemma {:induction false} SplitWithoutSeparator(x: string, c: char)
    requires c !in x
    ensures Split(x, [c]) == [x]
    decreases |x|
  {
    if |x| > 0 {
      SplitWithoutSeparator(x[1..], c);
      assert [x[0]] + x[1..] == x;
    }
  }

  lemma {:induction false} SplitAtFirstSeparator(x: string, c: char, y: string)
    requires c !in x
    ensures Split(x + [c] + y, [c]) == [x] + Split(y, [c])
    decreases |x|
  {
    var s := x + [c] + y;
    if |x| == 0 {
      assert s[..1] == [c] && s[1..] == y;
    } else {
      assert x[0] in x && s[0] == x[0];
      assert s[..1] != [c];
      assert s[1..] == x[1..] + [c] + y;
      SplitAtFirstSeparator(x[1..], c, y);
      assert [x[0]] + x[1..] == x;
    }
  }

  /** Splitting at a single character undoes joining with it, when no part
      holds that character. */
  lemma {:induction false} JoinSplitSingle(parts: seq<string>, c: char)
    requires |parts| > 0 && forall i :: 0 <= i < |parts| ==> c !in parts[i]
    ensures Split(Join(parts, [c]), [c]) == parts
    decreases |parts|
  {
    if |parts| == 1 {
      SplitWithoutSeparator(parts[0], c);
    } else {
      JoinSplitSingle(parts[1..], c);
      SplitAtFirstSeparator(parts[0], c, Join(parts[1..], [c]));
      assert [parts[0]] + parts[1..] == parts;
    }
  }

  // ----- decimal text of integers (Rust's `i64::to_string`) -----

  function DigitChar(d: nat): (c: char)
    requires d < 10
    ensures '0' <= c <= '9'
  {
    (48 + d) as char
  }

  function DigitValue(c: char): nat
    requires '0' <= c <= '9'
  {
    c as nat - 48
  }

  predicate IsDigits(s: string) {
    |s| > 0 && forall i :: 0 <= i < |s| ==> '0' <= s[i] <= '9'
  }

  /** Digits of a natural number, most significant first, no leading zero. */
  function NatText(n: nat): (s: string)
    decreases n
  {
    if n < 10 then [DigitChar(n)] else NatText(n / 10) + [DigitChar(n % 10)]
  }

  /** `i.to_string()`: a minus sign for negative numbers, then the digits. */
  function DecimalText(i: int): string {
    if i < 0 then "-" + NatText(-i) else NatText(i)
  }

  function DigitsValue(s: string): nat
    requires forall i :: 0 <= i < |s| ==> '0' <= s[i] <= '9'
  {
    if |s| == 0 then 0 else DigitsValue(s[..|s| - 1]) * 10 + DigitValue(s[|s| - 1])
  }

  /** Reads decimal text back: an optional minus sign and at least one digit. */
  function ParseDecimal(s: string): Option<int> {
    if |s| > 0 && s[0] == '-' then
      if IsDigits(s[1..]) then Some(0 - DigitsValue(s[1..]) as int) else None
    else if IsDigits(s) then Some(DigitsValue(s)) else None
  }

  lemma {:induction false} NatTextRoundTrip(n: nat)
    ensures IsDigits(NatText(n)) && DigitsValue(NatText(n)) == n
    decreases n
  {
    if n >= 10 {
      NatTextRoundTrip(n / 10);
      var s := NatText(n);
      assert s[..|s| - 1] == NatText(n / 10);
    }
  }

  /** Canonical decimal text: an optional minus sign, then digits with no
      leading zero, and no minus sign before a lone zero. */
  predicate CanonicalDecimal(s: string) {
    && |s| > 0
    && var d := if s[0] == '-' then s[1..] else s;
       && IsDigits(d)
       && (d[0] == '0' ==> d == "0")
       && (s[0] == '-' ==> d != "0")
  }

  lemma {:induction false} NatTextCanonical(n: nat)
    ensures |NatText(n)| > 0
    ensures NatText(n)[0] == '0' <==> n == 0
    ensures n == 0 ==> NatText(n) == "0"
    decreases n
  {
    if n >= 10 {
      NatTextCanonical(n / 10);
      assert NatText(n)[0] == NatText(n / 10)[0];
    }
  }

  /** `to_string` of an integer is canonical: a minus sign exactly when the
      integer is negative, and no leading zero. */
  lemma DecimalTextCanonical(i: int)
    ensures CanonicalDecimal(DecimalText(i))
    ensures DecimalText(i)[0] == '-' <==> i < 0
  {
    var n: nat := if i < 0 then -i else i;
    var d := NatText(n);
    NatTextCanonical(n);
    NatTextRoundTrip(n);
    assert '0' <= d[0] <= '9';
    if i < 0 {
      var s := DecimalText(i);
      assert s == "-" + d && s[0] == '-' && s[1..] == d;
      assert d[0] != '0';
    } else {
      assert DecimalText(i) == d;
    }
  }

  /** The decimal text of an integer reads back as that integer. */
  lemma DecimalTextRoundTrip(i: int)
    ensures ParseDecimal(DecimalText(i)) == Some(i)
  {
    if i < 0 {
      NatTextRoundTrip(-i);
      assert DecimalText(i)[1..] == NatText(-i);
    } else {
      NatTextRoundTrip(i);
    }
  }
}

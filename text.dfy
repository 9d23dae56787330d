/** String operations the scraper borrows from Python's `str` and `re`:
    whitespace and digit classes, lower-casing, substring tests, literal
    replacement, and the whitespace collapse `re.sub(r"\s+", " ", s).strip()`. */
module Text {

  /** Python's `str.isspace()`; the same class is what `\s` matches in a `str`
      pattern and what `str.strip()` removes. */
  predicate IsSpace(c: char) {
    var n := c as int;
    (9 <= n <= 13) || (28 <= n <= 32) || n == 0x85 || n == 0xA0 || n == 0x1680
    || (0x2000 <= n <= 0x200A) || n == 0x2028 || n == 0x2029 || n == 0x202F
    || n == 0x205F || n == 0x3000
  }

  /** An ASCII decimal digit. */
  predicate IsDigit(c: char) {
    '0' <= c <= '9'
  }

  /** ASCII lower-casing of one character. */
  function LowerChar(c: char): char {
    if 'A' <= c <= 'Z' then (c as int + 32) as char else c
  }

  /** `s.lower()`, for the ASCII letters. */
  function Lower(s: string): (r: string)
    ensures |r| == |s|
    ensures forall i :: 0 <= i < |s| ==> r[i] == LowerChar(s[i])
  {
    seq(|s|, i requires 0 <= i < |s| => LowerChar(s[i]))
  }

  /** Lower-casing twice is lower-casing once. */
  lemma LowerIdempotent(s: string)
    ensures Lower(Lower(s)) == Lower(s)
  {
    forall i | 0 <= i < |s|
      ensures LowerChar(LowerChar(s[i])) == LowerChar(s[i])
    {
    }
  }

  /** No upper-case ASCII letter survives lower-casing. */
  lemma LowerHasNoUpper(s: string)
    ensures forall i | 0 <= i < |Lower(s)| :: !('A' <= Lower(s)[i] <= 'Z')
  {
  }

  /** `s.startswith(p)`. */
  predicate StartsWith(s: string, p: string) {
    |p| <= |s| && s[..|p|] == p
  }

  /** `sub in s`. */
  predicate Contains(s: string, sub: string)
    decreases |s|
  {
    StartsWith(s, sub) || (s != [] && Contains(s[1..], sub))
  }

  lemma {:induction false} ContainsAt(s: string, sub: string, i: nat)
    requires i + |sub| <= |s| && s[i..i + |sub|] == sub
    ensures Contains(s, sub)
    decreases i
  {
    if i > 0 {
      assert s[1..][i - 1..i - 1 + |sub|] == s[i..i + |sub|];
      ContainsAt(s[1..], sub, i - 1);
    } else {
      assert s[..|sub|] == sub;
    }
  }

  /** A substring that occurs must be no longer than the string. */
  lemma {:induction false} ContainsBound(s: string, sub: string)
    requires Contains(s, sub)
    ensures |sub| <= |s|
    decreases |s|
  {
    if !StartsWith(s, sub) {
      ContainsBound(s[1..], sub);
    }
  }

  /** A pattern holding a character that `s` lacks does not occur in `s`. */
  lemma {:induction false} ContainsNeedsChar(s: string, sub: string, k: nat)
    requires k < |sub| && sub[k] !in s
    ensures !Contains(s, sub)
    decreases |s|
  {
    if StartsWith(s, sub) {
      assert false;
    }
    if s != [] {
      assert forall c | c in s[1..] :: c in s;
      ContainsNeedsChar(s[1..], sub, k);
    }
  }

  /** `s.replace(pat, rep)`: left-to-right, non-overlapping occurrences. */
  function Replace(s: string, pat: string, rep: string): string
    requires pat != []
    decreases |s|
  {
    if |s| < |pat| then s
    else if s[..|pat|] == pat then rep + Replace(s[|pat|..], pat, rep)
    else [s[0]] + Replace(s[1..], pat, rep)
  }

  /** Replacing a pattern that does not occur changes nothing. */
  lemma {:induction false} ReplaceAbsent(s: string, pat: string, rep: string)
    requires pat != [] && !Contains(s, pat)
    ensures Replace(s, pat, rep) == s
    decreases |s|
  {
    if |s| >= |pat| {
      assert !StartsWith(s, pat);
      ReplaceAbsent(s[1..], pat, rep);
      assert [s[0]] + s[1..] == s;
    }
  }

  /** `len(re.sub(r"\D", "", s))`: the number of digits in `s`. */
  function DigitCount(s: string): (n: nat)
    ensures n <= |s|
  {
    if s == [] then 0 else (if IsDigit(s[0]) then 1 else 0) + DigitCount(s[1..])
  }

  /** Digits are counted piece by piece. */
  lemma {:induction false} DigitCountAppend(a: string, b: string)
    ensures DigitCount(a + b) == DigitCount(a) + DigitCount(b)
    decreases |a|
  {
    if a != [] {
      assert (a + b)[0] == a[0];
      assert (a + b)[1..] == a[1..] + b;
      DigitCountAppend(a[1..], b);
    } else {
      assert a + b == b;
    }
  }

  // ---------------------------------------------------------------------
  // Whitespace collapse

  /** The non-whitespace characters of `s`, in order: what a whitespace
      rewrite must keep. */
  function Ink(s: string): string {
    if s == [] then [] else (if IsSpace(s[0]) then [] else [s[0]]) + Ink(s[1..])
  }

  lemma {:induction false} InkAppend(a: string, b: string)
    ensures Ink(a + b) == Ink(a) + Ink(b)
    decreases |a|
  {
    if a != [] {
      assert (a + b)[0] == a[0];
      assert (a + b)[1..] == a[1..] + b;
      InkAppend(a[1..], b);
    } else {
      assert a + b == b;
    }
  }

  /** `s` with its leading whitespace removed (`lstrip()`). */
  function DropSpaces(s: string): (r: string)
    ensures |r| <= |s|
    decreases |s|
  {
    if s != [] && IsSpace(s[0]) then DropSpaces(s[1..]) else s
  }

  /** `lstrip()` removes a whitespace prefix and nothing more. */
  lemma {:induction false} DropSpacesShape(s: string)
    ensures var r := DropSpaces(s);
      |r| <= |s| && r == s[|s| - |r|..]
      && (r == [] || !IsSpace(r[0]))
      && forall i :: 0 <= i < |s| - |r| ==> IsSpace(s[i])
    decreases |s|
  {
    if s != [] && IsSpace(s[0]) {
      DropSpacesShape(s[1..]);
    }
  }

  /** `s` with its trailing whitespace removed (`rstrip()`). */
  function TrimEnd(s: string): (r: string)
    ensures |r| <= |s|
    decreases |s|
  {
    if s != [] && IsSpace(s[|s| - 1]) then TrimEnd(s[..|s| - 1]) else s
  }

  /** `rstrip()` removes a whitespace suffix and nothing more. */
  lemma {:induction false} TrimEndShape(s: string)
    ensures var r := TrimEnd(s);
      |r| <= |s| && r == s[..|r|]
      && (r == [] || !IsSpace(r[|r| - 1]))
      && forall i :: |r| <= i < |s| ==> IsSpace(s[i])
    decreases |s|
  {
    if s != [] && IsSpace(s[|s| - 1]) {
      TrimEndShape(s[..|s| - 1]);
    }
  }

  /** `re.sub(r"\s+", " ", s)`: every maximal run of whitespace becomes one space. */
  function Squeeze(s: string): string
    decreases |s|
  {
    if s == [] then []
    else if IsSpace(s[0]) then [' '] + Squeeze(DropSpaces(s[1..]))
    else [s[0]] + Squeeze(s[1..])
  }

  /** `re.sub(r"\s+", " ", s).strip()`. */
  function Collapse(s: string): string {
    TrimEnd(DropSpaces(Squeeze(s)))
  }

  /** Every whitespace character is a plain space, and none starts or ends the
      string or follows another one. */
  ghost predicate SingleSpaced(t: string) {
    (forall i | 0 <= i < |t| && IsSpace(t[i]) :: t[i] == ' ')
    && (forall i, j | 0 <= i < j < |t| && j == i + 1 :: !(IsSpace(t[i]) && IsSpace(t[j])))
  }

  ghost predicate Collapsed(t: string) {
    SingleSpaced(t) && (t == [] || (!IsSpace(t[0]) && !IsSpace(t[|t| - 1])))
  }

  lemma {:induction false} SqueezeSingleSpaced(s: string)
    ensures SingleSpaced(Squeeze(s))
    ensures s != [] && !IsSpace(s[0]) ==> Squeeze(s) != [] && Squeeze(s)[0] == s[0]
    ensures s == [] <==> Squeeze(s) == []
    decreases |s|
  {
    if s != [] {
      if IsSpace(s[0]) {
        var d := DropSpaces(s[1..]);
        DropSpacesShape(s[1..]);
        SqueezeSingleSpaced(d);
        var t := Squeeze(s);
        assert t == [' '] + Squeeze(d);
        forall i | 0 <= i < |t| && IsSpace(t[i])
          ensures t[i] == ' ' && (i + 1 < |t| ==> !IsSpace(t[i + 1]))
        {
          if i > 0 {
            assert t[i] == Squeeze(d)[i - 1];
          }
        }
      } else {
        SqueezeSingleSpaced(s[1..]);
        var t := Squeeze(s);
        assert t == [s[0]] + Squeeze(s[1..]);
        forall i | 0 <= i < |t| && IsSpace(t[i])
          ensures t[i] == ' ' && (i + 1 < |t| ==> !IsSpace(t[i + 1]))
        {
          assert i > 0;
          assert t[i] == Squeeze(s[1..])[i - 1];
        }
      }
    }
  }

  lemma {:induction false} InkDropSpaces(s: string)
    ensures Ink(DropSpaces(s)) == Ink(s)
    decreases |s|
  {
    if s != [] && IsSpace(s[0]) {
      InkDropSpaces(s[1..]);
    }
  }

  lemma {:induction false} InkTrimEnd(s: string)
    ensures Ink(TrimEnd(s)) == Ink(s)
    decreases |s|
  {
    if s != [] && IsSpace(s[|s| - 1]) {
      var p := s[..|s| - 1];
      InkTrimEnd(p);
      assert s == p + [s[|s| - 1]];
      InkAppend(p, [s[|s| - 1]]);
      assert Ink([s[|s| - 1]]) == [];
    }
  }

  lemma {:induction false} InkSqueeze(s: string)
    ensures Ink(Squeeze(s)) == Ink(s)
    decreases |s|
  {
    if s != [] {
      if IsSpace(s[0]) {
        var d := DropSpaces(s[1..]);
        InkSqueeze(d);
        InkDropSpaces(s[1..]);
        InkAppend([' '], Squeeze(d));
        assert Ink([' ']) == [];
      } else {
        InkSqueeze(s[1..]);
        InkAppend([s[0]], Squeeze(s[1..]));
        assert Ink([s[0]]) == [s[0]];
      }
    }
  }

  /** The collapse leaves no leading, trailing or repeated whitespace and no
      whitespace other than ' ', and keeps every other character in order. */
  lemma {:induction false} CollapseShape(s: string)
    ensures Collapsed(Collapse(s))
    ensures Ink(Collapse(s)) == Ink(s)
  {
    var q := Squeeze(s);
    SqueezeSingleSpaced(s);
    var d := DropSpaces(q);
    var t := TrimEnd(d);
    DropSpacesShape(q);
    TrimEndShape(d);
    assert d == q[|q| - |d|..];
    forall i | 0 <= i < |t| && IsSpace(t[i])
      ensures t[i] == ' ' && (i + 1 < |t| ==> !IsSpace(t[i + 1]))
    {
      assert t[i] == d[i] == q[i + |q| - |d|];
      if i + 1 < |t| {
        assert t[i + 1] == q[i + 1 + |q| - |d|];
      }
    }
    if t != [] {
      assert t[0] == d[0];
    }
    InkSqueeze(s);
    InkDropSpaces(q);
    InkTrimEnd(d);
  }

  /** A collapsed string has characters other than whitespace unless it is empty. */
  lemma {:induction false} CollapsedEmpty(t: string)
    requires Collapsed(t)
    ensures t == [] <==> Ink(t) == []
  {
    if t != [] {
      assert !IsSpace(t[0]);
      assert Ink(t) == [t[0]] + Ink(t[1..]);
    }
  }

  lemma SingleSpacedTail(t: string)
    requires t != [] && SingleSpaced(t)
    ensures SingleSpaced(t[1..])
  {
    var u := t[1..];
    forall i | 0 <= i < |u| && IsSpace(u[i])
      ensures u[i] == ' ' && (i + 1 < |u| ==> !IsSpace(u[i + 1]))
    {
      assert u[i] == t[i + 1];
    }
  }

  /** A single-spaced string has no run of whitespace to squeeze. */
  lemma {:induction false} SqueezeFixed(t: string)
    requires SingleSpaced(t)
    ensures Squeeze(t) == t
    decreases |t|
  {
    if t != [] {
      var u := t[1..];
      SingleSpacedTail(t);
      SqueezeFixed(u);
      if IsSpace(t[0]) {
        assert u == [] || !IsSpace(u[0]);
        assert DropSpaces(u) == u;
        assert t[0] == ' ';
      }
      assert [t[0]] + u == t;
    }
  }

  /** Collapsing is idempotent: a collapsed string is its own collapse. */
  lemma {:induction false} CollapseFixed(t: string)
    requires Collapsed(t)
    ensures Collapse(t) == t
  {
    SqueezeFixed(t);
  }

  // ---------------------------------------------------------------------
  // The collapse as split and join

  /** The longest prefix of `s` without whitespace. */
  function WordAt(s: string): (w: string)
    ensures |w| <= |s| && w == s[..|w|]
    ensures forall i | 0 <= i < |w| :: !IsSpace(w[i])
    ensures |w| < |s| ==> IsSpace(s[|w|])
    decreases |s|
  {
    if s == [] || IsSpace(s[0]) then [] else [s[0]] + WordAt(s[1..])
  }

  /** `s.split()`: the maximal runs of characters other than whitespace. */
  function Words(s: string): seq<string>
    decreases |s|
  {
    if s == [] then []
    else if IsSpace(s[0]) then Words(s[1..])
    else
      var w := WordAt(s);
      [w] + Words(s[|w|..])
  }

  /** `" ".join(ws)`. */
  function JoinWords(ws: seq<string>): string
    decreases |ws|
  {
    if ws == [] then []
    else if |ws| == 1 then ws[0]
    else ws[0] + " " + JoinWords(ws[1..])
  }

  lemma {:induction false} WordsDropSpaces(s: string)
    ensures Words(DropSpaces(s)) == Words(s)
    decreases |s|
  {
    if s != [] && IsSpace(s[0]) {
      WordsDropSpaces(s[1..]);
    }
  }

  /** Leading whitespace may be stripped before or after the substitution. */
  lemma DropSpacesSqueeze(s: string)
    ensures DropSpaces(Squeeze(s)) == Squeeze(DropSpaces(s))
  {
    var d := DropSpaces(s);
    DropSpacesShape(s);
    SqueezeSingleSpaced(d);
    var q := Squeeze(d);
    assert DropSpaces(q) == q;
    if s != [] && IsSpace(s[0]) {
      assert DropSpaces(s[1..]) == d;
      assert Squeeze(s) == [' '] + q;
      assert ([' '] + q)[1..] == q;
    }
  }

  /** The substitution copies a leading word unchanged. */
  lemma {:induction false} SqueezeWord(s: string)
    requires s != [] && !IsSpace(s[0])
    ensures Squeeze(s) == WordAt(s) + Squeeze(s[|WordAt(s)|..])
    decreases |s|
  {
    var t := s[1..];
    assert Squeeze(s) == [s[0]] + Squeeze(t);
    var wt := WordAt(t);
    assert WordAt(s) == [s[0]] + wt;
    if t != [] && !IsSpace(t[0]) {
      SqueezeWord(t);
      assert s[|WordAt(s)|..] == t[|wt|..];
      assert [s[0]] + (wt + Squeeze(t[|wt|..])) == ([s[0]] + wt) + Squeeze(t[|wt|..]);
    } else {
      assert wt == [];
      assert s[|WordAt(s)|..] == t;
    }
  }

  /** Trailing whitespace of `x + y` lies in `y` when `y` has ink. */
  lemma {:induction false} TrimEndAppend(x: string, y: string)
    requires TrimEnd(y) != []
    ensures TrimEnd(x + y) == x + TrimEnd(y)
    decreases |y|
  {
    var xy := x + y;
    assert xy[|xy| - 1] == y[|y| - 1];
    if IsSpace(y[|y| - 1]) {
      assert xy[..|xy| - 1] == x + y[..|y| - 1];
      TrimEndAppend(x, y[..|y| - 1]);
    }
  }

  /** For a string without leading whitespace, the substitution followed by
      `rstrip` joins its words with single spaces. */
  lemma {:induction false} SqueezedJoin(u: string)
    requires u == [] || !IsSpace(u[0])
    ensures TrimEnd(Squeeze(u)) == JoinWords(Words(u))
    decreases |u|
  {
    if u != [] {
      var w := WordAt(u);
      var r := u[|w|..];
      SqueezeWord(u);
      assert Words(u) == [w] + Words(r);
      if r == [] {
        assert Squeeze(u) == w;
        assert Words(u) == [w];
        TrimEndWord(w);
      } else {
        assert IsSpace(r[0]) by { assert r[0] == u[|w|]; }
        var d := DropSpaces(r[1..]);
        DropSpacesShape(r[1..]);
        assert Squeeze(r) == [' '] + Squeeze(d);
        assert Squeeze(u) == w + " " + Squeeze(d);
        WordsDropSpaces(r[1..]);
        assert Words(r) == Words(d);
        if d == [] {
          assert Squeeze(u) == w + " ";
          assert Words(u) == [w];
          TrimEndWordSpace(w);
        } else {
          SqueezedJoin(d);
          JoinAfterWord(w, Squeeze(d), Words(d));
        }
      }
    }
  }

  lemma TrimEndWord(w: string)
    requires w != [] && !IsSpace(w[|w| - 1])
    ensures TrimEnd(w) == w == JoinWords([w])
  {
  }

  lemma TrimEndWordSpace(w: string)
    requires w != [] && !IsSpace(w[|w| - 1])
    ensures TrimEnd(w + " ") == w == JoinWords([w])
  {
    assert (w + " ")[..|w|] == w;
  }

  lemma JoinAfterWord(w: string, q: string, ws: seq<string>)
    requires q != [] && !IsSpace(q[0]) && ws != []
    requires TrimEnd(q) == JoinWords(ws)
    ensures TrimEnd(w + " " + q) == JoinWords([w] + ws)
  {
    TrimEndShape(q);
    assert TrimEnd(q) != [];
    TrimEndAppend(w + " ", q);
    assert ([w] + ws)[1..] == ws;
  }

  /** `re.sub(r"\s+", " ", s).strip()` is `" ".join(s.split())`: every run of
      whitespace between two words becomes exactly one space. */
  lemma CollapseSplitJoin(s: string)
    ensures Collapse(s) == JoinWords(Words(s))
  {
    DropSpacesSqueeze(s);
    DropSpacesShape(s);
    SqueezedJoin(DropSpaces(s));
    WordsDropSpaces(s);
  }
}

/**
  * The JavaScript string built-ins the connector relies on: `startsWith`,
  * `endsWith`, `trim`, `split` and `join` on a one-character separator,
  * a global literal `replace`, and the decimal `toString` of an integer.
  * A string is a sequence of characters; UTF-16 code units are not modelled.
  */
module JsStrings {
  import opened Wrappers

  /** JavaScript truthiness of an optional string: present and not empty. */
  predicate Truthy(s: Option<string>) {
    s.Some? && s.value != ""
  }

  /** The code points `String.prototype.trim` removes: ECMAScript WhiteSpace and LineTerminator. */
  predicate IsWhitespace(c: char) {
    || c == '\t' || c == '\n' || c == '\U{B}' || c == '\U{C}' || c == '\r' || c == ' '
    || c == '\U{A0}' || c == '\U{1680}' || ('\U{2000}' <= c <= '\U{200A}')
    || c == '\U{2028}' || c == '\U{2029}' || c == '\U{202F}' || c == '\U{205F}'
    || c == '\U{3000}' || c == '\U{FEFF}'
  }

  predicate StartsWith(s: string, prefix: string) {
    |prefix| <= |s| && s[..|prefix|] == prefix
  }

  predicate EndsWith(s: string, suffix: string) {
    |suffix| <= |s| && s[|s| - |suffix|..] == suffix
  }

  /** Text added after a string keeps every prefix the string had. */
  lemma StartsWithAppend(s: string, prefix: string, tail: string)
    requires StartsWith(s, prefix)
    ensures StartsWith(s + tail, prefix)
  {
    assert (s + tail)[..|prefix|] == s[..|prefix|];
  }

  /** `s.trimStart()`: drops the leading whitespace. */
  function TrimStart(s: string): string {
    if |s| > 0 && IsWhitespace(s[0]) then TrimStart(s[1..]) else s
  }

  /** `s.trimEnd()`: drops the trailing whitespace. */
  function TrimEnd(s: string): string {
    if |s| > 0 && IsWhitespace(s[|s| - 1]) then TrimEnd(s[..|s| - 1]) else s
  }

  /** `trimStart` keeps a suffix, drops only whitespace, and leaves no leading whitespace. */
  lemma {:induction false} TrimStartShape(s: string)
    ensures var r := TrimStart(s);
      && |r| <= |s| && r == s[|s| - |r|..]
      && AllWhitespace(s[..|s| - |r|])
      && (r == [] || !IsWhitespace(r[0]))
    decreases |s|
  {
    if |s| > 0 && IsWhitespace(s[0]) {
      TrimStartShape(s[1..]);
      var r := TrimStart(s[1..]);
      assert s[..|s| - |r|] == [s[0]] + s[1..][..|s[1..]| - |r|];
    }
  }

  /** `trimEnd` keeps a prefix, drops only whitespace, and leaves no trailing whitespace. */
  lemma {:induction false} TrimEndShape(s: string)
    ensures var r := TrimEnd(s);
      && |r| <= |s| && r == s[..|r|]
      && AllWhitespace(s[|r|..])
      && (r == [] || !IsWhitespace(r[|r| - 1]))
    decreases |s|
  {
    if |s| > 0 && IsWhitespace(s[|s| - 1]) {
      TrimEndShape(s[..|s| - 1]);
      var r := TrimEnd(s[..|s| - 1]);
      assert s[|r|..] == s[..|s| - 1][|r|..] + [s[|s| - 1]];
    }
  }

  /** `s.trim()`: no longer than `s`, and neither starting nor ending with whitespace. */
  function Trim(s: string): (r: string)
    ensures |r| <= |s|
    ensures r == [] || (!IsWhitespace(r[0]) && !IsWhitespace(r[|r| - 1]))
  {
    TrimStartShape(s);
    TrimEndShape(TrimStart(s));
    TrimEnd(TrimStart(s))
  }

  predicate AllWhitespace(s: string) {
    forall i :: 0 <= i < |s| ==> IsWhitespace(s[i])
  }

  /** Leading whitespace in front of text that does not start with whitespace is exactly what `trimStart` drops. */
  lemma {:induction false} TrimStartDrops(w: string, s: string)
    requires AllWhitespace(w)
    requires s == [] || !IsWhitespace(s[0])
    ensures TrimStart(w + s) == s
    decreases |w|
  {
    if |w| > 0 {
      assert (w + s)[0] == w[0];
      assert (w + s)[1..] == w[1..] + s;
      TrimStartDrops(w[1..], s);
    } else {
      assert w + s == s;
    }
  }

  /** Trailing whitespace after text that does not end with whitespace is exactly what `trimEnd` drops. */
  lemma {:induction false} TrimEndDrops(s: string, w: string)
    requires AllWhitespace(w)
    requires s == [] || !IsWhitespace(s[|s| - 1])
    ensures TrimEnd(s + w) == s
    decreases |w|
  {
    if |w| > 0 {
      var w' := w[..|w| - 1];
      assert (s + w)[|s + w| - 1] == w[|w| - 1];
      assert (s + w)[..|s + w| - 1] == s + w';
      TrimEndDrops(s, w');
    } else {
      assert s + w == s;
    }
  }

  /** `trim` removes exactly the surrounding whitespace and keeps the text between. */
  lemma TrimAround(w1: string, t: string, w2: string)
    requires AllWhitespace(w1) && AllWhitespace(w2)
    requires t == [] || (!IsWhitespace(t[0]) && !IsWhitespace(t[|t| - 1]))
    ensures Trim(w1 + t + w2) == t
  {
    if t == [] {
      assert w1 + t + w2 == (w1 + w2) + [];
      TrimStartDrops(w1 + w2, []);
    } else {
      assert w1 + t + w2 == w1 + (t + w2);
      TrimStartDrops(w1, t + w2);
      TrimEndDrops(t, w2);
    }
  }

  /** `s.split(sep)` for a one-character separator: always at least one piece. */
  function Split(s: string, sep: char): (r: seq<string>)
    ensures |r| >= 1
  {
    if |s| == 0 then [""]
    else
      var rest := Split(s[1..], sep);
      if s[0] == sep then [""] + rest
      else [[s[0]] + rest[0]] + rest[1..]
  }

  /** No piece of a split holds the separator. */
  lemma {:induction false} SplitPiecesFree(s: string, sep: char)
    ensures forall k :: 0 <= k < |Split(s, sep)| ==> sep !in Split(s, sep)[k]
  {
    if |s| > 0 {
      SplitPiecesFree(s[1..], sep);
      var rest := Split(s[1..], sep);
      var r := Split(s, sep);
      forall k | 0 <= k < |r| ensures sep !in r[k] {
        if s[0] == sep {
          if k > 0 {
            assert r[k] == rest[k - 1];
          }
        } else if k > 0 {
          assert r[k] == rest[k];
        } else {
          assert r[0] == [s[0]] + rest[0];
        }
      }
    }
  }

  /** `pieces.join(sep)` for a one-character separator: it begins with the first piece. */
  function Join(pieces: seq<string>, sep: char): (r: string)
    ensures |pieces| >= 1 ==> StartsWith(r, pieces[0])
  {
    if |pieces| == 0 then ""
    else if |pieces| == 1 then pieces[0]
    else pieces[0] + [sep] + Join(pieces[1..], sep)
  }

  /** Joining what `split` produced gives the original string back. */
  lemma {:induction false} JoinSplit(s: string, sep: char)
    ensures Join(Split(s, sep), sep) == s
  {
    if |s| > 0 {
      var rest := Split(s[1..], sep);
      JoinSplit(s[1..], sep);
      if s[0] == sep {
        assert Split(s, sep) == [""] + rest;
        assert Join(Split(s, sep), sep) == "" + [sep] + Join(rest, sep);
        assert s == [s[0]] + s[1..];
      } else {
        var pieces := Split(s, sep);
        assert pieces == [[s[0]] + rest[0]] + rest[1..];
        if |rest| == 1 {
          assert Join(pieces, sep) == [s[0]] + rest[0];
        } else {
          assert pieces[1..] == rest[1..];
          assert Join(rest, sep) == rest[0] + [sep] + Join(rest[1..], sep);
          assert Join(pieces, sep) == [s[0]] + rest[0] + [sep] + Join(rest[1..], sep);
        }
        assert s == [s[0]] + s[1..];
      }
    }
  }

  /** Splitting at a separator occurrence splits the two sides independently. */
  lemma {:induction false} SplitAround(a: string, b: string, sep: char)
    ensures Split(a + [sep] + b, sep) == Split(a, sep) + Split(b, sep)
    decreases |a|
  {
    if |a| == 0 {
      assert a + [sep] + b == [sep] + b;
      SplitCons(sep, b, sep);
    } else {
      var t := a[1..] + [sep] + b;
      assert a + [sep] + b == [a[0]] + t;
      assert a == [a[0]] + a[1..];
      SplitCons(a[0], t, sep);
      SplitCons(a[0], a[1..], sep);
      SplitAround(a[1..], b, sep);
      var restA, restB := Split(a[1..], sep), Split(b, sep);
      if a[0] != sep {
        PieceAppend([a[0]], restA, restB);
      } else {
        assert [""] + (restA + restB) == ([""] + restA) + restB;
      }
    }
  }

  /** How `split` treats a first character `c` in front of `t`. */
  lemma SplitCons(c: char, t: string, sep: char)
    ensures Split([c] + t, sep) ==
      var rest := Split(t, sep);
      if c == sep then [""] + rest else [[c] + rest[0]] + rest[1..]
  {
    assert ([c] + t)[1..] == t;
  }

  /** Extending the first piece of `p + q` only touches `p`'s first piece. */
  lemma PieceAppend(x: string, p: seq<string>, q: seq<string>)
    requires |p| >= 1
    ensures [x + (p + q)[0]] + (p + q)[1..] == ([x + p[0]] + p[1..]) + q
  {
    assert (p + q)[1..] == p[1..] + q;
  }

  /** Splitting a join of separator-free pieces gives the pieces back. */
  lemma {:induction false} SplitJoin(pieces: seq<string>, sep: char)
    requires |pieces| >= 1
    requires forall k :: 0 <= k < |pieces| ==> sep !in pieces[k]
    ensures Split(Join(pieces, sep), sep) == pieces
  {
    if |pieces| == 1 {
      SplitFree(pieces[0], sep);
    } else {
      SplitJoin(pieces[1..], sep);
      SplitAround(pieces[0], Join(pieces[1..], sep), sep);
      SplitFree(pieces[0], sep);
      assert pieces == [pieces[0]] + pieces[1..];
    }
  }

  /** A string without the separator splits into itself alone. */
  lemma {:induction false} SplitFree(s: string, sep: char)
    requires sep !in s
    ensures Split(s, sep) == [s]
  {
    if |s| > 0 {
      assert sep !in s[1..] by {
        forall k | 0 <= k < |s[1..]| ensures s[1..][k] != sep { assert s[1..][k] == s[k + 1]; }
      }
      SplitFree(s[1..], sep);
      assert s == [s[0]] + s[1..];
    }
  }

  /** Splitting text that ends in the separator leaves an empty last piece. */
  lemma SplitTrailing(a: string, sep: char)
    ensures Split(a + [sep], sep) == Split(a, sep) + [""]
  {
    SplitAround(a, "", sep);
    assert a + [sep] + "" == a + [sep];
  }

  /**
    * `s.replace(new RegExp(<pattern>, 'g'), rep)` for a pattern that matches
    * exactly the literal `pat`: a left-to-right scan that replaces every
    * non-overlapping occurrence and rescans only the text after a replacement.
    */
  function ReplaceAll(s: string, pat: string, rep: string): (r: string)
    requires |pat| > 0
    ensures |rep| == |pat| ==> |r| == |s|
    decreases |s|
  {
    if |s| < |pat| then s
    else if s[..|pat|] == pat then rep + ReplaceAll(s[|pat|..], pat, rep)
    else [s[0]] + ReplaceAll(s[1..], pat, rep)
  }

  /** Text without `pat`'s first character holds no occurrence and is kept as it is. */
  lemma {:induction false} ReplaceAllUnchanged(s: string, pat: string, rep: string)
    requires |pat| > 0 && pat[0] !in s
    ensures ReplaceAll(s, pat, rep) == s
  {
    if |s| > 0 {
      assert pat[0] !in s[1..] by {
        forall k | 0 <= k < |s[1..]| ensures s[1..][k] != pat[0] { assert s[1..][k] == s[k + 1]; }
      }
      ReplaceAllUnchanged(s[1..], pat, rep);
      assert s == [s[0]] + s[1..];
      ReplaceAllSkip(s[0], s[1..], pat, rep);
    }
  }

  /**
    * A prefix in which no occurrence of `pat` can start (it lacks `pat`'s
    * first character) is copied, the occurrence right after it is replaced,
    * and scanning resumes after the occurrence.
    */
  lemma {:induction false} ReplaceAllAt(x: string, pat: string, y: string, rep: string)
    requires |pat| > 0 && pat[0] !in x
    ensures ReplaceAll(x + pat + y, pat, rep) == x + rep + ReplaceAll(y, pat, rep)
    decreases |x|
  {
    if |x| == 0 {
      assert x + pat + y == pat + y;
      ReplaceAllHead(pat, y, rep);
    } else {
      var x' := x[1..];
      assert pat[0] !in x' by {
        forall k | 0 <= k < |x'| ensures x'[k] != pat[0] { assert x'[k] == x[k + 1]; }
      }
      var t := x' + pat + y;
      assert x == [x[0]] + x';
      calc {
        ReplaceAll(x + pat + y, pat, rep);
        { assert x + pat + y == [x[0]] + t; }
        ReplaceAll([x[0]] + t, pat, rep);
        { ReplaceAllSkip(x[0], t, pat, rep); }
        [x[0]] + ReplaceAll(t, pat, rep);
        { ReplaceAllAt(x', pat, y, rep); }
        [x[0]] + (x' + rep + ReplaceAll(y, pat, rep));
        x + rep + ReplaceAll(y, pat, rep);
      }
    }
  }

  /** An occurrence at the front is replaced and scanning resumes after it. */
  lemma ReplaceAllHead(pat: string, y: string, rep: string)
    requires |pat| > 0
    ensures ReplaceAll(pat + y, pat, rep) == rep + ReplaceAll(y, pat, rep)
  {
    var s := pat + y;
    assert s[..|pat|] == pat && s[|pat|..] == y;
  }

  /** A character that cannot begin `pat` is copied and scanning moves on by one. */
  lemma ReplaceAllSkip(c: char, t: string, pat: string, rep: string)
    requires |pat| > 0 && c != pat[0]
    ensures ReplaceAll([c] + t, pat, rep) == [c] + ReplaceAll(t, pat, rep)
  {
    var s := [c] + t;
    if |s| >= |pat| {
      assert s[..|pat|][0] == c;
    }
    assert s[1..] == t;
  }

  /** Decimal digits of a natural number, most significant first, as `Number.prototype.toString`. */
  function NatToString(n: nat): (r: string)
    ensures |r| >= 1 && '0' <= r[0] <= '9'
  {
    if n < 10 then [Digit(n)] else NatToString(n / 10) + [Digit(n % 10)]
  }

  function Digit(d: nat): (c: char)
    requires d < 10
    ensures '0' <= c <= '9'
  {
    ('0' as int + d) as char
  }

  /** `String(i)` of an integer: a minus sign before the digits of a negative value. */
  function IntToString(i: int): (r: string)
    ensures |r| >= 1 && (r[0] == '-' <==> i < 0)
  {
    if i < 0 then "-" + NatToString(-i) else NatToString(i)
  }

  /** The text of a natural number is a non-empty run of digits with no leading zero unless it is zero. */
  lemma {:induction false} NatToStringDigits(n: nat)
    ensures var r := NatToString(n);
      && |r| >= 1
      && (forall k :: 0 <= k < |r| ==> '0' <= r[k] <= '9')
      && (r[0] == '0' ==> n == 0)
  {
    if n >= 10 {
      NatToStringDigits(n / 10);
    }
  }

  /** The text of an integer is one line: a minus sign exactly for a negative value, then digits. */
  lemma IntToStringText(i: int)
    ensures var r := IntToString(i);
      && |r| >= 1 && '\n' !in r
      && (r[0] == '-' <==> i < 0)
      && forall k :: (if i < 0 then 1 else 0) <= k < |r| ==> '0' <= r[k] <= '9'
  {
    NatToStringDigits(if i < 0 then -i else i);
  }
}

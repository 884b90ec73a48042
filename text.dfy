/**
 * Ruby's `String#squeeze(' ')`: every run of spaces becomes one space.
 * `SqueezeCollapse` and `SqueezeFixes` together determine it: collapsing
 * one doubled space never changes the result, and a string without doubled
 * spaces is its own result.
 */
module Text {
  /** `n` spaces, as an escaped line break followed by indentation leaves them in a literal. */
  function Spaces(n: nat): (s: string)
    ensures |s| == n && forall i :: 0 <= i < n ==> s[i] == ' '
  {
    if n == 0 then "" else " " + Spaces(n - 1)
  }

  /** No two spaces in a row. */
  predicate NoDoubleSpace(s: string) {
    forall i :: 0 <= i < |s| - 1 ==> !(s[i] == ' ' && s[i + 1] == ' ')
  }

  /** The string with every space removed. */
  function Unspaced(s: string): (t: string)
    ensures |t| <= |s|
  {
    if |s| == 0 then ""
    else if s[0] == ' ' then Unspaced(s[1..])
    else [s[0]] + Unspaced(s[1..])
  }

  /** `s.squeeze(' ')` */
  function Squeeze(s: string): (t: string)
    ensures |t| <= |s|
    ensures |s| > 0 ==> |t| > 0 && t[0] == s[0]
  {
    if |s| <= 1 then s
    else if s[0] == ' ' && s[1] == ' ' then Squeeze(s[1..])
    else [s[0]] + Squeeze(s[1..])
  }

  /** The result never holds two spaces in a row. */
  lemma {:induction false} SqueezeNoDoubleSpace(s: string)
    ensures NoDoubleSpace(Squeeze(s))
  {
    if |s| > 1 {
      SqueezeNoDoubleSpace(s[1..]);
      if !(s[0] == ' ' && s[1] == ' ') {
        var t := Squeeze(s[1..]);
        assert Squeeze(s) == [s[0]] + t;
        forall i | 0 <= i < |Squeeze(s)| - 1
          ensures !(Squeeze(s)[i] == ' ' && Squeeze(s)[i + 1] == ' ')
        {
          if i > 0 {
            assert Squeeze(s)[i] == t[i - 1] && Squeeze(s)[i + 1] == t[i];
          }
        }
      }
    }
  }

  /** Squeezing changes only spaces: every other character stays, in order. */
  lemma {:induction false} SqueezeKeepsText(s: string)
    ensures Unspaced(Squeeze(s)) == Unspaced(s)
  {
    if |s| > 1 {
      SqueezeKeepsText(s[1..]);
      if s[0] == ' ' && s[1] == ' ' {
        assert Unspaced(s) == Unspaced(s[1..]);
      } else {
        var t := Squeeze(s[1..]);
        assert ([s[0]] + t)[1..] == t;
      }
    }
  }

  /** A string without double spaces is left as it is; so squeezing twice is squeezing once. */
  lemma {:induction false} SqueezeFixes(s: string)
    requires NoDoubleSpace(s)
    ensures Squeeze(s) == s
  {
    if |s| > 1 {
      assert NoDoubleSpace(s[1..]) by {
        forall i | 0 <= i < |s[1..]| - 1
          ensures !(s[1..][i] == ' ' && s[1..][i + 1] == ' ')
        {
          assert s[1..][i] == s[i + 1] && s[1..][i + 1] == s[i + 2];
        }
      }
      SqueezeFixes(s[1..]);
      assert !(s[0] == ' ' && s[1] == ' ');
      assert [s[0]] + s[1..] == s;
    }
  }

  lemma SqueezeIdempotent(s: string)
    ensures Squeeze(Squeeze(s)) == Squeeze(s)
  {
    SqueezeNoDoubleSpace(s);
    SqueezeFixes(Squeeze(s));
  }

  /** Collapsing any doubled space leaves the result unchanged. */
  lemma {:induction false} SqueezeCollapse(x: string, y: string)
    ensures Squeeze(x + "  " + y) == Squeeze(x + " " + y)
  {
    var s, t := x + "  " + y, x + " " + y;
    if |x| == 0 {
      assert s == " " + t && s[1..] == t;
    } else {
      SqueezeCollapse(x[1..], y);
      assert s[0] == t[0] && s[1] == t[1];
      assert s[1..] == x[1..] + "  " + y && t[1..] == x[1..] + " " + y;
    }
  }

  /** A run of one or more spaces between `x` and `y` squeezes as a single space does. */
  lemma {:induction false} SqueezeRun(x: string, n: nat, y: string)
    requires n >= 1
    ensures Squeeze(x + Spaces(n) + y) == Squeeze(x + " " + y)
  {
    if n > 1 {
      assert x + Spaces(n) + y == x + "  " + (Spaces(n - 2) + y) by {
        assert Spaces(n) == "  " + Spaces(n - 2);
      }
      assert x + Spaces(n - 1) + y == x + " " + (Spaces(n - 2) + y) by {
        assert Spaces(n - 1) == " " + Spaces(n - 2);
      }
      SqueezeCollapse(x, Spaces(n - 2) + y);
      SqueezeRun(x, n - 1, y);
    } else {
      assert Spaces(n) == " ";
    }
  }

  /** Squeezing splits after a character that is not a space. */
  lemma {:induction false} SqueezeAppend(a: string, b: string)
    requires |a| > 0 && a[|a| - 1] != ' '
    ensures Squeeze(a + b) == Squeeze(a) + Squeeze(b)
  {
    if |a| == 1 {
      if |b| > 0 {
        assert (a + b)[1..] == b;
      }
    } else {
      SqueezeAppend(a[1..], b);
      assert (a + b)[1..] == a[1..] + b;
    }
  }

  /** A text line, then a run of spaces, then more text starting with a non-space: the line stays
      as it is and the run becomes one space. */
  lemma SqueezeLineThenRun(line: string, n: nat, rest: string)
    requires NoDoubleSpace(line) && |line| > 0 && line[|line| - 1] != ' '
    requires n >= 1 && |rest| > 0 && rest[0] != ' '
    ensures Squeeze(line + (Spaces(n) + rest)) == line + (" " + Squeeze(rest))
  {
    SqueezeAppend(line, Spaces(n) + rest);
    SqueezeFixes(line);
    SqueezeLead(n, rest);
  }

  /** A run of spaces before a non-space squeezes to one space. */
  lemma {:induction false} SqueezeLead(n: nat, rest: string)
    requires n >= 1 && |rest| > 0 && rest[0] != ' '
    ensures Squeeze(Spaces(n) + rest) == " " + Squeeze(rest)
  {
    var s := Spaces(n) + rest;
    assert s[1..] == Spaces(n - 1) + rest;
    if n > 1 {
      SqueezeLead(n - 1, rest);
    }
  }

  /** Two strings without doubled spaces joined where at most one side has a space have none either. */
  lemma NoDoubleSpaceJoin(a: string, b: string)
    requires NoDoubleSpace(a) && NoDoubleSpace(b)
    requires |a| == 0 || |b| == 0 || a[|a| - 1] != ' ' || b[0] != ' '
    ensures NoDoubleSpace(a + b)
  {
    forall i | 0 <= i < |a + b| - 1
      ensures !((a + b)[i] == ' ' && (a + b)[i + 1] == ' ')
    {
      if i + 1 < |a| {
        assert (a + b)[i] == a[i] && (a + b)[i + 1] == a[i + 1];
      } else if i >= |a| {
        assert (a + b)[i] == b[i - |a|] && (a + b)[i + 1] == b[i + 1 - |a|];
      }
    }
  }

  /** A line of text as a literal holds it: not empty, no space at either end, no two spaces in a row. */
  predicate Line(s: string) {
    |s| > 0 && s[0] != ' ' && s[|s| - 1] != ' ' && NoDoubleSpace(s)
  }

  /** The lines with `sep` between each two. */
  function Join(lines: seq<string>, sep: string): (s: string)
    ensures |lines| > 0 && |lines[0]| > 0 ==> |s| > 0 && s[0] == lines[0][0]
  {
    if |lines| == 0 then ""
    else if |lines| == 1 then lines[0]
    else lines[0] + (sep + Join(lines[1..], sep))
  }

  /** Lines separated by runs of spaces squeeze to the lines separated by single spaces. */
  lemma {:induction false} SqueezeJoin(lines: seq<string>, n: nat)
    requires n >= 1 && forall i :: 0 <= i < |lines| ==> Line(lines[i])
    ensures Squeeze(Join(lines, Spaces(n))) == Join(lines, " ")
  {
    if |lines| == 1 {
      SqueezeFixes(lines[0]);
    } else if |lines| > 1 {
      assert Line(lines[0]) && Line(lines[1]);
      SqueezeJoin(lines[1..], n);
      SqueezeLineThenRun(lines[0], n, Join(lines[1..], Spaces(n)));
    }
  }
}

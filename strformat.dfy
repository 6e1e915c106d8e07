/**
 * The part of Python's `str.format` that mite uses: each `{}` in the
 * template is replaced, left to right, by the next argument (already
 * rendered with `str`); every other character is copied.  Surplus
 * arguments are ignored, as in Python; too few arguments raise an
 * `IndexError` in Python, so the model requires enough of them.
 */
module StrFormat {

  /** No character of `s` can open a replacement field. */
  predicate NoBrace(s: string) {
    forall i :: 0 <= i < |s| ==> s[i] != '{'
  }

  /** The number of `{}` replacement fields in a template. */
  function Holes(t: string): nat
  {
    if |t| < 2 then 0
    else if t[0] == '{' && t[1] == '}' then 1 + Holes(t[2..])
    else Holes(t[1..])
  }

  function Format(t: string, args: seq<string>): (r: string)
    requires Holes(t) <= |args|
  {
    if |t| == 0 then ""
    else if |t| >= 2 && t[0] == '{' && t[1] == '}' then args[0] + Format(t[2..], args[1..])
    else [t[0]] + Format(t[1..], args)
  }

  /** A template without `{` has no replacement fields. */
  lemma {:induction false} NoBraceNoHoles(s: string)
    requires NoBrace(s)
    ensures Holes(s) == 0
    decreases |s|
  {
    if |s| >= 2 {
      assert s[0] != '{';
      assert NoBrace(s[1..]) by {
        forall i | 0 <= i < |s[1..]| ensures s[1..][i] != '{' {
          assert s[1..][i] == s[i + 1];
        }
      }
      NoBraceNoHoles(s[1..]);
    }
  }

  /** Literal text in front of the rest of a template is copied verbatim. */
  lemma {:induction false} FormatLiteral(lit: string, rest: string, args: seq<string>)
    requires NoBrace(lit) && Holes(rest) <= |args|
    ensures Holes(lit + rest) == Holes(rest)
    ensures Format(lit + rest, args) == lit + Format(rest, args)
    decreases |lit|
  {
    if lit != [] {
      var t := lit + rest;
      assert t[0] == lit[0] != '{';
      assert t[1..] == lit[1..] + rest;
      assert NoBrace(lit[1..]) by {
        forall i | 0 <= i < |lit[1..]| ensures lit[1..][i] != '{' {
          assert lit[1..][i] == lit[i + 1];
        }
      }
      FormatLiteral(lit[1..], rest, args);
      if |t| < 2 {
        assert rest == [] && t[1..] == [];
        assert Holes(t) == 0 == Holes(rest);
      } else {
        assert Holes(t) == Holes(t[1..]);
      }
      assert Format(t, args) == [lit[0]] + Format(t[1..], args);
      assert [lit[0]] + (lit[1..] + Format(rest, args)) == lit + Format(rest, args);
    } else {
      assert lit + rest == rest;
    }
  }

  /** A leading `{}` consumes exactly the first argument. */
  lemma FormatHole(a: string, rest: string, args: seq<string>)
    requires Holes(rest) <= |args|
    ensures Holes("{}" + rest) == Holes(rest) + 1
    ensures Format("{}" + rest, [a] + args) == a + Format(rest, args)
  {
    assert ("{}" + rest)[2..] == rest;
    assert ([a] + args)[1..] == args;
  }

  /** A template with one field, `pre{}post`, yields `pre`, the argument, `post`. */
  lemma FormatOne(pre: string, post: string, a: string)
    requires NoBrace(pre) && NoBrace(post)
    ensures Holes(pre + ("{}" + post)) == 1
    ensures Format(pre + ("{}" + post), [a]) == pre + (a + post)
  {
    NoBraceNoHoles(post);
    FormatLiteral(post, "", []);
    assert post + "" == post;
    FormatHole(a, post, []);
    assert [a] + [] == [a];
    FormatLiteral(pre, "{}" + post, [a]);
  }

  /** A template with two fields, `p0{}p1{}p2`. */
  lemma FormatTwo(p0: string, p1: string, p2: string, a: string, b: string)
    requires NoBrace(p0) && NoBrace(p1) && NoBrace(p2)
    ensures Holes(p0 + ("{}" + (p1 + ("{}" + p2)))) == 2
    ensures Format(p0 + ("{}" + (p1 + ("{}" + p2))), [a, b]) == p0 + (a + (p1 + (b + p2)))
  {
    var tail := p1 + ("{}" + p2);
    FormatOne(p1, p2, b);
    FormatHole(a, tail, [b]);
    assert [a] + [b] == [a, b];
    FormatLiteral(p0, "{}" + tail, [a, b]);
  }

  /** A template with three fields, `p0{}p1{}p2{}p3`. */
  lemma FormatThree(p0: string, p1: string, p2: string, p3: string, a: string, b: string, c: string)
    requires NoBrace(p0) && NoBrace(p1) && NoBrace(p2) && NoBrace(p3)
    ensures Holes(p0 + ("{}" + (p1 + ("{}" + (p2 + ("{}" + p3)))))) == 3
    ensures Format(p0 + ("{}" + (p1 + ("{}" + (p2 + ("{}" + p3))))), [a, b, c])
         == p0 + (a + (p1 + (b + (p2 + (c + p3)))))
  {
    var tail := p1 + ("{}" + (p2 + ("{}" + p3)));
    var args := [a, b, c];
    FormatTwo(p1, p2, p3, b, c);
    assert [a] + [b, c] == args;
    FormatHole(a, tail, [b, c]);
    assert Format("{}" + tail, args) == a + (p1 + (b + (p2 + (c + p3))));
    FormatLiteral(p0, "{}" + tail, args);
  }
}

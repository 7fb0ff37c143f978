/**
 * The test-id slug of the theme switcher's options:
 * `name.toLowerCase().replace(/\s+/g, '-')`. The string is lower-cased, then
 * every maximal run of whitespace becomes one '-'.
 */
module TestIds {

  /** A character matched by the JavaScript class `\s` (ECMAScript WhiteSpace
      and LineTerminator). */
  predicate IsSpace(c: char)
    ensures IsSpace(c) ==> c != '-' && !IsUpper(c)
  {
    var n := c as int;
    || n == 0x09 || n == 0x0A || n == 0x0B || n == 0x0C || n == 0x0D
    || n == 0x20 || n == 0xA0 || n == 0x1680
    || (0x2000 <= n <= 0x200A)
    || n == 0x2028 || n == 0x2029 || n == 0x202F || n == 0x205F
    || n == 0x3000 || n == 0xFEFF
  }

  predicate IsUpper(c: char) {
    'A' <= c <= 'Z'
  }

  predicate NoSpace(s: string) {
    forall i :: 0 <= i < |s| ==> !IsSpace(s[i])
  }

  predicate NoUpper(s: string) {
    forall i :: 0 <= i < |s| ==> !IsUpper(s[i])
  }

  /** `toLowerCase` on one character; ASCII letters only. */
  function LowerChar(c: char): (d: char)
    ensures !IsUpper(d)
    ensures IsSpace(d) <==> IsSpace(c)
    ensures !IsUpper(c) ==> d == c
    ensures IsUpper(c) ==> d as int == c as int + 32
  {
    if IsUpper(c) then (c as int + 32) as char else c
  }

  /** `toLowerCase` on a string: character by character, length kept. */
  function Lower(s: string): (t: string)
    ensures |t| == |s|
    ensures forall i :: 0 <= i < |s| ==> t[i] == LowerChar(s[i])
  {
    if |s| == 0 then [] else [LowerChar(s[0])] + Lower(s[1..])
  }

  /** The input with its leading whitespace run removed. */
  function DropSpaces(s: string): (t: string)
    ensures |t| <= |s|
    ensures t == s[|s| - |t|..]
    ensures |t| > 0 ==> !IsSpace(t[0])
    ensures forall i :: 0 <= i < |s| - |t| ==> IsSpace(s[i])
  {
    if |s| > 0 && IsSpace(s[0]) then DropSpaces(s[1..]) else s
  }

  /** `replace(/\s+/g, '-')`: each maximal whitespace run becomes one '-'. */
  function Collapse(s: string): (t: string)
    ensures |t| <= |s|
    ensures |t| == 0 <==> |s| == 0
    decreases |s|
  {
    if |s| == 0 then []
    else if IsSpace(s[0]) then "-" + Collapse(DropSpaces(s[1..]))
    else [s[0]] + Collapse(s[1..])
  }

  /** The slug: lower-case, then collapse whitespace runs. */
  function Slug(s: string): (t: string)
    ensures NoSpace(t) && NoUpper(t)
  {
    CollapseClean(Lower(s));
    Collapse(Lower(s))
  }

  /** Collapsing leaves no whitespace and introduces no upper-case letter. */
  lemma CollapseClean(s: string)
    ensures NoSpace(Collapse(s))
    ensures NoUpper(s) ==> NoUpper(Collapse(s))
  {
    CollapseNoSpace(s);
    if NoUpper(s) {
      CollapseNoUpper(s);
    }
  }

  /** Collapsing leaves no whitespace: every run became a '-'. */
  lemma {:induction false} CollapseNoSpace(s: string)
    ensures NoSpace(Collapse(s))
    decreases |s|
  {
    if |s| > 0 {
      var t := Collapse(s);
      if IsSpace(s[0]) {
        var c := Collapse(DropSpaces(s[1..]));
        CollapseNoSpace(DropSpaces(s[1..]));
        assert t == "-" + c;
        forall i | 0 <= i < |t| ensures !IsSpace(t[i]) {
          if i > 0 {
            assert t[i] == c[i - 1];
          }
        }
      } else {
        var c := Collapse(s[1..]);
        CollapseNoSpace(s[1..]);
        assert t == [s[0]] + c;
        forall i | 0 <= i < |t| ensures !IsSpace(t[i]) {
          if i > 0 {
            assert t[i] == c[i - 1];
          }
        }
      }
    }
  }

  /** Collapsing introduces no upper-case letter: it only keeps characters
      of its input or writes '-'. */
  lemma {:induction false} CollapseNoUpper(s: string)
    requires NoUpper(s)
    ensures NoUpper(Collapse(s))
    decreases |s|
  {
    if |s| > 0 {
      var t := Collapse(s);
      if IsSpace(s[0]) {
        var d := DropSpaces(s[1..]);
        forall i | 0 <= i < |d| ensures !IsUpper(d[i]) {
          assert d[i] == s[1..][|s[1..]| - |d| + i];
        }
        CollapseNoUpper(d);
        var c := Collapse(d);
        assert t == "-" + c;
        forall i | 0 <= i < |t| ensures !IsUpper(t[i]) {
          if i > 0 {
            assert t[i] == c[i - 1];
          }
        }
      } else {
        var r := s[1..];
        forall i | 0 <= i < |r| ensures !IsUpper(r[i]) {
          assert r[i] == s[i + 1];
        }
        CollapseNoUpper(r);
        var c := Collapse(r);
        assert t == [s[0]] + c;
        forall i | 0 <= i < |t| ensures !IsUpper(t[i]) {
          if i > 0 {
            assert t[i] == c[i - 1];
          }
        }
      }
    }
  }

  /** Lower-casing a string without upper-case letters changes nothing. */
  lemma {:induction false} LowerOfLower(s: string)
    requires NoUpper(s)
    ensures Lower(s) == s
  {
    if |s| > 0 {
      LowerOfLower(s[1..]);
    }
  }

  /** Collapsing a string without whitespace changes nothing. */
  lemma {:induction false} CollapseOfSpaceless(s: string)
    requires NoSpace(s)
    ensures Collapse(s) == s
  {
    if |s| > 0 {
      CollapseOfSpaceless(s[1..]);
    }
  }

  /** Slugging a slug gives the same slug. */
  lemma {:induction false} SlugIdempotent(s: string)
    ensures Slug(Slug(s)) == Slug(s)
  {
    var t := Slug(s);
    LowerOfLower(t);
    CollapseOfSpaceless(t);
  }

  /** On a string without whitespace the slug is just the lower-casing. */
  lemma {:induction false} SlugOfSpaceless(s: string)
    requires NoSpace(s)
    ensures Slug(s) == Lower(s)
  {
    assert NoSpace(Lower(s));
    CollapseOfSpaceless(Lower(s));
  }

  /** Removing leading whitespace from `y + x` leaves `x` untouched once `y`
      has a non-whitespace character (at `k`). */
  lemma {:induction false} DropSpacesAppend(y: string, x: string, k: nat)
    requires k < |y| && !IsSpace(y[k])
    ensures DropSpaces(y + x) == DropSpaces(y) + x
  {
    if IsSpace(y[0]) {
      assert (y + x)[1..] == y[1..] + x;
      assert y[1..][k - 1] == y[k];
      DropSpacesAppend(y[1..], x, k - 1);
    }
  }

  /** Collapsing distributes over a split after a non-whitespace character. */
  lemma {:induction false} CollapseAppend(u: string, x: string)
    requires |u| == 0 || !IsSpace(u[|u| - 1])
    ensures Collapse(u + x) == Collapse(u) + Collapse(x)
    decreases |u|
  {
    if |u| == 0 {
      assert u + x == x;
    } else if IsSpace(u[0]) {
      var y := u[1..];
      assert (u + x)[1..] == y + x;
      assert |u| > 1 && y[|y| - 1] == u[|u| - 1];
      DropSpacesAppend(y, x, |y| - 1);
      DropSpacesKeepsLast(y);
      var d := DropSpaces(y);
      CollapseAppend(d, x);
      ConcatAssociative("-", Collapse(d), Collapse(x));
    } else {
      assert (u + x)[1..] == u[1..] + x;
      CollapseAppend(u[1..], x);
      ConcatAssociative([u[0]], Collapse(u[1..]), Collapse(x));
    }
  }

  /** Leading whitespace removal stops before a final non-whitespace
      character. */
  lemma DropSpacesKeepsLast(y: string)
    requires |y| > 0 && !IsSpace(y[|y| - 1])
    ensures var d := DropSpaces(y); |d| > 0 && d[|d| - 1] == y[|y| - 1]
  {
  }

  /** A whitespace run that is the whole of a string's front collapses to a
      single '-' before the rest. */
  lemma {:induction false} CollapseLeadingRun(w: string, v: string)
    requires |w| > 0 && forall i :: 0 <= i < |w| ==> IsSpace(w[i])
    requires |v| == 0 || !IsSpace(v[0])
    ensures Collapse(w + v) == "-" + Collapse(v)
  {
    var s := w + v;
    assert s[1..] == w[1..] + v;
    DropAll(w[1..], v);
  }

  lemma {:induction false} DropAll(w: string, v: string)
    requires forall i :: 0 <= i < |w| ==> IsSpace(w[i])
    requires |v| == 0 || !IsSpace(v[0])
    ensures DropSpaces(w + v) == v
  {
    if |w| == 0 {
      assert w + v == v;
    } else {
      assert (w + v)[1..] == w[1..] + v;
      DropAll(w[1..], v);
    }
  }

  /** Every maximal whitespace run, between text that does not end and text
      that does not start with whitespace, becomes exactly one '-'. */
  lemma {:induction false} SpaceRunBecomesDash(u: string, w: string, v: string)
    requires |u| == 0 || !IsSpace(u[|u| - 1])
    requires |w| > 0 && forall i :: 0 <= i < |w| ==> IsSpace(w[i])
    requires |v| == 0 || !IsSpace(v[0])
    ensures Collapse(u + w + v) == Collapse(u) + "-" + Collapse(v)
  {
    var rest := w + v;
    assert u + w + v == u + rest;
    CollapseAppend(u, rest);
    CollapseLeadingRun(w, v);
    ConcatAssociative(Collapse(u), "-", Collapse(v));
  }

  lemma ConcatAssociative(a: string, b: string, c: string)
    ensures a + (b + c) == a + b + c
  {
  }

  /** The slug's first character is the lower-cased first character when
      that is not whitespace. */
  lemma {:induction false} SlugHead(s: string)
    requires |s| > 0 && !IsSpace(s[0])
    ensures |Slug(s)| > 0 && Slug(s)[0] == LowerChar(s[0])
  {
    var l := Lower(s);
    assert l[0] == LowerChar(s[0]);
  }

  /** Lower-casing works character by character, so it distributes over
      concatenation. */
  lemma LowerAppend(a: string, b: string)
    ensures Lower(a + b) == Lower(a) + Lower(b)
  {
    var l, r := Lower(a + b), Lower(a) + Lower(b);
    assert |l| == |r|;
    forall i | 0 <= i < |l|
      ensures l[i] == r[i]
    {
      if i < |a| {
        assert (a + b)[i] == a[i];
      } else {
        assert (a + b)[i] == b[i - |a|];
      }
    }
  }

  /** Two words around one space, as in the theme names ("Warm Beige" gives
      "warm-beige"): the slug joins the lower-cased words with '-'. */
  lemma {:induction false} TwoWordSlug(a: string, b: string)
    requires |a| > 0 && |b| > 0 && NoSpace(a) && NoSpace(b)
    ensures Slug(a + " " + b) == Lower(a) + "-" + Lower(b)
  {
    var la, lb := Lower(a), Lower(b);
    LowerAppend(a + " ", b);
    LowerAppend(a, " ");
    assert Lower(" ") == " ";
    assert Lower(a + " " + b) == la + " " + lb;
    assert NoSpace(la) && NoSpace(lb);
    assert !IsSpace(la[|la| - 1]) && !IsSpace(lb[0]);
    SpaceRunBecomesDash(la, " ", lb);
    CollapseOfSpaceless(la);
    CollapseOfSpaceless(lb);
  }

  /** Lower-casing `a` gives `l` when the two agree character by character. */
  lemma LowerWord(a: string, l: string)
    requires |a| == |l|
    requires forall i :: 0 <= i < |a| ==> LowerChar(a[i]) == l[i]
    ensures Lower(a) == l
  {
  }

  /** The first theme's test id: "Warm Beige" gives "warm-beige". */
  lemma WarmBeigeSlug()
    ensures Slug("Warm Beige") == "warm-beige"
  {
    WarmBeigeSplit();
    TwoWordSlug("Warm", "Beige");
    WarmBeigeWords();
    assert "warm-beige" == "warm" + "-" + "beige";
  }

  lemma WarmBeigeSplit()
    ensures "Warm Beige" == "Warm" + " " + "Beige"
    ensures NoSpace("Warm") && NoSpace("Beige")
  {
  }

  lemma WarmBeigeWords()
    ensures Lower("Warm") == "warm" && Lower("Beige") == "beige"
  {
    LowerWord("Warm", "warm");
    LowerWord("Beige", "beige");
  }

}

/**
 * The handful of Python built-ins the generator relies on, with their
 * Python meaning spelled out: substring tests (`t in s`), `str.replace`,
 * negative-end slicing (`s[:-k]`), `str.split(c)[0]`, `Path.name`,
 * `str.strip()`, `int(str)` and list indexing with negative indices.
 */
module Py {

  datatype Option<T> = None | Some(value: T)

  /**
   * Concatenation is associative. Stated once so that proofs about logs
   * that grow by pieces need not rediscover it: the solver pays dearly
   * for each such step it finds by itself.
   */
  lemma ConcatAssoc<T>(a: seq<T>, b: seq<T>, c: seq<T>)
    ensures a + b + c == a + (b + c)
  {
  }

  /** `s.startswith(p)` */
  predicate StartsWith(s: string, p: string)
  {
    |p| <= |s| && s[..|p|] == p
  }

  /** Python's `t in s` on strings (the empty string is in every string). */
  predicate Contains(s: string, t: string)
    decreases |s|
  {
    StartsWith(s, t) || (|s| > 0 && Contains(s[1..], t))
  }

  /** `t` occurs in `s` starting at position `i`. */
  predicate OccursAt(s: string, t: string, i: int)
  {
    0 <= i && i + |t| <= |s| && s[i..i + |t|] == t
  }

  /** `Contains` agrees with the positional definition of a substring. */
  lemma {:induction false} ContainsAt(s: string, t: string)
    ensures Contains(s, t) <==> exists i :: OccursAt(s, t, i)
    decreases |s|
  {
    if StartsWith(s, t) {
      assert OccursAt(s, t, 0);
    } else if |s| > 0 {
      ContainsAt(s[1..], t);
      if Contains(s[1..], t) {
        var i :| OccursAt(s[1..], t, i);
        assert s[i + 1..i + 1 + |t|] == s[1..][i..i + |t|];
        assert OccursAt(s, t, i + 1);
      }
      if exists i :: OccursAt(s, t, i) {
        var i :| OccursAt(s, t, i);
        assert i != 0;
        assert s[1..][i - 1..i - 1 + |t|] == s[i..i + |t|];
        assert OccursAt(s[1..], t, i - 1);
      }
    }
  }

  /** A substring of a substring of `s` is a substring of `s`. */
  lemma ContainsTransitive(s: string, t: string, u: string)
    requires Contains(s, t) && Contains(t, u)
    ensures Contains(s, u)
  {
    ContainsAt(s, t);
    ContainsAt(t, u);
    var i :| OccursAt(s, t, i);
    var j :| OccursAt(t, u, j);
    forall k | 0 <= k < |u| ensures s[i + j + k] == u[k] {
      assert u[k] == t[j..j + |u|][k] == t[j + k];
      assert t[j + k] == s[i..i + |t|][j + k];
    }
    assert s[i + j..i + j + |u|] == u;
    assert OccursAt(s, u, i + j);
    ContainsAt(s, u);
  }

  /**
   * `s.replace(pat, rep)` for a non-empty pattern: occurrences are found
   * left to right and never overlap.
   */
  function Replace(s: string, pat: string, rep: string): string
    requires |pat| > 0
    decreases |s|
  {
    if |s| < |pat| then s
    else if s[..|pat|] == pat then rep + Replace(s[|pat|..], pat, rep)
    else [s[0]] + Replace(s[1..], pat, rep)
  }

  /** A string without an occurrence of the pattern is left as it is. */
  lemma {:induction false} ReplaceAbsent(s: string, pat: string, rep: string)
    requires |pat| > 0
    requires !Contains(s, pat)
    ensures Replace(s, pat, rep) == s
    decreases |s|
  {
    if |s| >= |pat| {
      assert s[..|pat|] != pat;
      ReplaceAbsent(s[1..], pat, rep);
    }
  }

  /**
   * Replacing distributes over a concatenation whose right part starts with
   * a character that cannot belong to an occurrence of the pattern.
   */
  lemma {:induction false} ReplaceSplit(x: string, y: string, pat: string, rep: string)
    requires |pat| > 0 && |y| > 0 && y[0] !in pat
    ensures Replace(x + y, pat, rep) == Replace(x, pat, rep) + Replace(y, pat, rep)
    decreases |x|
  {
    var s := x + y;
    var ry := Replace(y, pat, rep);
    if x == [] {
      assert s == y;
    } else if |s| < |pat| {
      assert Replace(x, pat, rep) == x && ry == y;
    } else if |x| < |pat| {
      // an occurrence at the front would have to contain y[0]
      assert s[..|pat|] != pat by {
        assert s[..|pat|][|x|] == y[0];
      }
      assert s[0] == x[0] && s[1..] == x[1..] + y;
      assert Replace(s, pat, rep) == [x[0]] + Replace(x[1..] + y, pat, rep);
      ReplaceSplit(x[1..], y, pat, rep);
      assert Replace(x, pat, rep) == x && Replace(x[1..], pat, rep) == x[1..];
      assert [x[0]] + x[1..] == x;
      ConcatAssoc([x[0]], x[1..], ry);
    } else if x[..|pat|] == pat {
      assert s[..|pat|] == pat && s[|pat|..] == x[|pat|..] + y;
      assert Replace(s, pat, rep) == rep + Replace(x[|pat|..] + y, pat, rep);
      ReplaceSplit(x[|pat|..], y, pat, rep);
      assert Replace(x, pat, rep) == rep + Replace(x[|pat|..], pat, rep);
      ConcatAssoc(rep, Replace(x[|pat|..], pat, rep), ry);
    } else {
      assert s[..|pat|] == x[..|pat|];
      assert s[0] == x[0] && s[1..] == x[1..] + y;
      assert Replace(s, pat, rep) == [x[0]] + Replace(x[1..] + y, pat, rep);
      ReplaceSplit(x[1..], y, pat, rep);
      assert Replace(x, pat, rep) == [x[0]] + Replace(x[1..], pat, rep);
      ConcatAssoc([x[0]], Replace(x[1..], pat, rep), ry);
    }
  }

  /** `s[:-k]`: everything but the last `k` characters, `""` when shorter. */
  function DropLast(s: string, k: nat): string
  {
    if |s| >= k then s[..|s| - k] else ""
  }

  /** `s.split(c)[0]`: the text before the first `c`, all of `s` without one. */
  function BeforeFirst(s: string, c: char): (r: string)
  {
    if s == [] then ""
    else if s[0] == c then ""
    else [s[0]] + BeforeFirst(s[1..], c)
  }

  lemma {:induction false} BeforeFirstOf(a: string, c: char, b: string)
    requires c !in a
    ensures BeforeFirst(a + [c] + b, c) == a
  {
    if a != [] {
      assert (a + [c] + b)[1..] == a[1..] + [c] + b;
      BeforeFirstOf(a[1..], c, b);
    }
  }

  /** `Path(s).name` for a relative path without trailing or doubled slashes. */
  function LastSegment(s: string): (r: string)
  {
    if '/' !in s then s else LastSegment(s[1..])
  }

  lemma {:induction false} LastSegmentOf(a: string, b: string)
    requires '/' !in b
    ensures LastSegment(a + "/" + b) == b
  {
    if a == [] {
      assert (a + "/" + b)[1..] == b;
    } else {
      assert (a + "/" + b)[1..] == a[1..] + "/" + b;
      LastSegmentOf(a[1..], b);
    }
  }

  /**
   * The characters `str.isspace()` accepts, which `str.strip()` removes:
   * tab to carriage return, the four information separators 0x1C-0x1F,
   * space, and the Unicode spaces and line separators.
   */
  predicate IsSpace(c: char)
  {
    var n := c as int;
    || 9 <= n <= 13 || 28 <= n <= 32
    || n == 0x85 || n == 0xA0 || n == 0x1680
    || 0x2000 <= n <= 0x200A || n == 0x2028 || n == 0x2029
    || n == 0x202F || n == 0x205F || n == 0x3000
  }

  /**
   * The white space `int()` skips around a number: ASCII tab to carriage
   * return and space, and every non-ASCII space, but not the information
   * separators 0x1C-0x1F.
   */
  predicate IsIntSpace(c: char)
  {
    IsSpace(c) && !(28 <= c as int <= 31)
  }

  /** The white space removed at the ends: that of `str.strip()`, or that of `int()`. */
  predicate Removed(c: char, forInt: bool)
  {
    if forInt then IsIntSpace(c) else IsSpace(c)
  }

  /** `s` without its leading white space. */
  function StripLeft(s: string, forInt: bool): string
  {
    if s != [] && Removed(s[0], forInt) then StripLeft(s[1..], forInt) else s
  }

  /** Only white space goes from the front, and what is left does not start with it. */
  lemma {:induction false} StripLeftRemoves(s: string, forInt: bool)
    ensures var r := StripLeft(s, forInt);
      && |r| <= |s| && r == s[|s| - |r|..]
      && (r == [] || !Removed(r[0], forInt))
      && (forall i :: 0 <= i < |s| - |r| ==> Removed(s[i], forInt))
  {
    if s != [] && Removed(s[0], forInt) {
      StripLeftRemoves(s[1..], forInt);
      assert forall i :: 1 <= i < |s| ==> s[i] == s[1..][i - 1];
    }
  }

  /** `s` without its trailing white space. */
  function StripRight(s: string, forInt: bool): string
  {
    if s != [] && Removed(s[|s| - 1], forInt) then StripRight(s[..|s| - 1], forInt) else s
  }

  /** Only white space goes from the back, and what is left does not end with it. */
  lemma {:induction false} StripRightRemoves(s: string, forInt: bool)
    ensures var r := StripRight(s, forInt);
      && |r| <= |s| && r == s[..|r|]
      && (r == [] || !Removed(r[|r| - 1], forInt))
      && (forall i :: |r| <= i < |s| ==> Removed(s[i], forInt))
  {
    if s != [] && Removed(s[|s| - 1], forInt) {
      StripRightRemoves(s[..|s| - 1], forInt);
    }
  }

  /** Both ends of `s` stripped. */
  function StripBoth(s: string, forInt: bool): string
  {
    StripLeft(StripRight(s, forInt), forInt)
  }

  /** What stripping both ends leaves neither starts nor ends with white space. */
  lemma StripBothEnds(s: string, forInt: bool)
    ensures var r := StripBoth(s, forInt);
      r == [] || (!Removed(r[0], forInt) && !Removed(r[|r| - 1], forInt))
  {
    var right := StripRight(s, forInt);
    var r := StripLeft(right, forInt);
    StripRightRemoves(s, forInt);
    StripLeftRemoves(right, forInt);
    if r != [] {
      assert r[|r| - 1] == right[|right| - 1];
    }
  }

  /** Every character of `s` that is not white space is kept. */
  lemma StripBothKeeps(s: string, forInt: bool)
    ensures forall i :: 0 <= i < |s| && !Removed(s[i], forInt) ==> s[i] in StripBoth(s, forInt)
  {
    var right := StripRight(s, forInt);
    var r := StripLeft(right, forInt);
    StripRightRemoves(s, forInt);
    StripLeftRemoves(right, forInt);
    forall i | 0 <= i < |s| && !Removed(s[i], forInt) ensures s[i] in r {
      assert s[i] == right[i];
      assert right[i] == r[i - (|right| - |r|)];
    }
  }

  /** `s.strip()` */
  function Strip(s: string): string
  {
    StripBoth(s, false)
  }

  /** The text `int(s)` reads: `s` without the white space `int()` skips. */
  function IntStrip(s: string): string
  {
    StripBoth(s, true)
  }

  /** Trailing white space after a non-blank end is stripped, and nothing more. */
  lemma {:induction false} StripRightPadded(x: string, post: string, forInt: bool)
    requires forall i :: 0 <= i < |post| ==> Removed(post[i], forInt)
    requires x == [] || !Removed(x[|x| - 1], forInt)
    ensures StripRight(x + post, forInt) == (if x == [] then [] else x)
    decreases |x| + |post|
  {
    if post != [] {
      assert (x + post)[..|x + post| - 1] == x + post[..|post| - 1];
      StripRightPadded(x, post[..|post| - 1], forInt);
    } else if x != [] {
      assert x + post == x;
    } else {
      assert x + post == [];
    }
  }

  /** Leading white space before a non-blank start is stripped, and nothing more. */
  lemma {:induction false} StripLeftPadded(pre: string, y: string, forInt: bool)
    requires forall i :: 0 <= i < |pre| ==> Removed(pre[i], forInt)
    requires y == [] || !Removed(y[0], forInt)
    ensures StripLeft(pre + y, forInt) == y
  {
    if pre != [] {
      assert (pre + y)[1..] == pre[1..] + y;
      StripLeftPadded(pre[1..], y, forInt);
    } else {
      assert pre + y == y;
    }
  }

  /** Stripping `pre + core + post` leaves `core` when only white space surrounds it. */
  lemma StripPadded(pre: string, core: string, post: string, forInt: bool)
    requires forall i :: 0 <= i < |pre| ==> Removed(pre[i], forInt)
    requires forall i :: 0 <= i < |post| ==> Removed(post[i], forInt)
    requires core == [] || (!Removed(core[0], forInt) && !Removed(core[|core| - 1], forInt))
    ensures StripBoth(pre + core + post, forInt) == core
  {
    if core != [] {
      var x := pre + core;
      assert x[|x| - 1] == core[|core| - 1];
      StripRightPadded(x, post, forInt);
      StripLeftPadded(pre, core, forInt);
    } else {
      var x := pre + core + post;
      assert x == [] + (pre + post) by { assert core == []; }
      assert forall i :: 0 <= i < |pre + post| ==> Removed((pre + post)[i], forInt) by {
        forall i | 0 <= i < |pre + post| ensures Removed((pre + post)[i], forInt) {
          if i < |pre| { assert (pre + post)[i] == pre[i]; } else { assert (pre + post)[i] == post[i - |pre|]; }
        }
      }
      StripRightPadded([], pre + post, forInt);
    }
  }

  predicate IsDigit(c: char)
  {
    '0' <= c <= '9'
  }

  predicate AllDigits(s: string)
  {
    forall i :: 0 <= i < |s| ==> IsDigit(s[i])
  }

  /** The value of a string of decimal digits, most significant first. */
  function DigitsValue(s: string): nat
    requires AllDigits(s)
  {
    if s == [] then 0
    else 10 * DigitsValue(s[..|s| - 1]) + (s[|s| - 1] as int - '0' as int)
  }

  /**
   * The most digits `int()` converts from a decimal string: the default of
   * `sys.get_int_max_str_digits()` (CPython 3.11, and 3.10.7 on).
   */
  const MaxStrDigits := 4300

  /**
   * `int(s)` on a string: `None` is the `ValueError` Python raises.
   * Surrounding white space (as `int()` skips it) and one sign are accepted;
   * any other character, an information separator 0x1C-0x1F included,
   * makes it fail, and so do more than `MaxStrDigits` digits.
   */
  function ParseInt(s: string): Option<int>
  {
    var t := IntStrip(s);
    if t == [] then None
    else if t[0] == '-' || t[0] == '+' then
      var ds := t[1..];
      if ds != [] && AllDigits(ds) && |ds| <= MaxStrDigits then
        var v: int := DigitsValue(ds);
        Some(if t[0] == '-' then -v else v)
      else None
    else if AllDigits(t) && |t| <= MaxStrDigits then Some(DigitsValue(t))
    else None
  }

  /** An information separator 0x1C-0x1F anywhere in the text makes `int()` fail. */
  lemma ParseIntRejectsSeparator(s: string, i: nat)
    requires i < |s| && 28 <= s[i] as int <= 31
    ensures ParseInt(s).None?
  {
    var t := IntStrip(s);
    StripBothKeeps(s, true);
    assert s[i] in t;
    if t != [] && (t[0] == '-' || t[0] == '+') && |t| > 1 {
      assert s[i] in t[1..] by {
        var k :| 0 <= k < |t| && t[k] == s[i];
        assert k > 0;
        assert t[1..][k - 1] == s[i];
      }
    }
  }

  /** The decimal numeral of `n`, as `str(n)` prints it. */
  function Decimal(n: nat): (r: string)
  {
    if n < 10 then [('0' as int + n) as char]
    else Decimal(n / 10) + [('0' as int + n % 10) as char]
  }

  lemma {:induction false} DecimalDigits(n: nat)
    ensures |Decimal(n)| > 0 && AllDigits(Decimal(n)) && DigitsValue(Decimal(n)) == n
  {
    if n >= 10 {
      DecimalDigits(n / 10);
      var s := Decimal(n);
      assert s[..|s| - 1] == Decimal(n / 10);
    }
  }

  /** A numeral has no white space at either end, of either kind. */
  lemma DecimalEnds(n: nat)
    ensures |Decimal(n)| > 0
    ensures !IsSpace(Decimal(n)[0]) && !IsSpace(Decimal(n)[|Decimal(n)| - 1])
  {
    DecimalDigits(n);
  }

  /**
   * Reading back a printed natural number gives that number, unless it has
   * more digits than `int()` converts.
   */
  lemma ParseDecimal(n: nat)
    ensures ParseInt(Decimal(n)) == if |Decimal(n)| <= MaxStrDigits then Some(n) else None
  {
    var d := Decimal(n);
    assert "" + d + "" == d;
    ParseIntPadded(n, "", "");
  }

  /**
   * `int()` reads a numeral with the white space it skips around it, or
   * raises when the numeral is longer than `MaxStrDigits`.
   */
  lemma ParseIntPadded(n: nat, pre: string, post: string)
    requires forall i :: 0 <= i < |pre| ==> IsIntSpace(pre[i])
    requires forall i :: 0 <= i < |post| ==> IsIntSpace(post[i])
    ensures ParseInt(pre + Decimal(n) + post) == if |Decimal(n)| <= MaxStrDigits then Some(n) else None
  {
    DecimalDigits(n);
    DecimalEnds(n);
    StripPadded(pre, Decimal(n), post, true);
  }

  /** `s.strip()` of a numeral with any white space around it is that numeral. */
  lemma StripDecimal(n: nat, pre: string, post: string)
    requires forall i :: 0 <= i < |pre| ==> IsSpace(pre[i])
    requires forall i :: 0 <= i < |post| ==> IsSpace(post[i])
    ensures Strip(pre + Decimal(n) + post) == Decimal(n)
  {
    DecimalEnds(n);
    StripPadded(pre, Decimal(n), post, false);
  }

  /** `xs[i]` on a Python list; `None` is the `IndexError`. */
  function PyIndex<T>(xs: seq<T>, i: int): Option<T>
  {
    if 0 <= i < |xs| then Some(xs[i])
    else if -|xs| <= i < 0 then Some(xs[|xs| + i])
    else None
  }
}

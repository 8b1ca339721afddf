/** The string operations of Python that the workflow relies on: `str.lower`,
    the substring test `sub in s`, `str(n)` for a natural number,
    `os.path.basename` and `"\n".join`. */
module Text {

  predicate IsUpper(c: char) { 'A' <= c <= 'Z' }

  predicate IsDigit(c: char) { '0' <= c <= '9' }

  /** Lower-cases one character (ASCII letters only). */
  function LowerChar(c: char): char
  {
    if IsUpper(c) then (c as int + 32) as char else c
  }

  /** `s.lower()`, restricted to the ASCII letters. */
  function Lower(s: string): (r: string)
    ensures |r| == |s|
  {
    if s == [] then [] else [LowerChar(s[0])] + Lower(s[1..])
  }

  lemma {:induction false} LowerAt(s: string, i: nat)
    requires i < |s|
    ensures Lower(s)[i] == LowerChar(s[i])
  {
    if i > 0 {
      LowerAt(s[1..], i - 1);
    }
  }

  /** Lower-casing twice is lower-casing once. */
  lemma {:induction false} LowerIdempotent(s: string)
    ensures Lower(Lower(s)) == Lower(s)
  {
    if s != [] {
      LowerIdempotent(s[1..]);
      assert Lower(s)[1..] == Lower(s[1..]);
    }
  }

  /** A character that is not an upper-case letter survives lower-casing
      in place: every position of `s` holding it holds it in `Lower(s)` too. */
  lemma LowerKeeps(s: string, c: char)
    requires !IsUpper(c) && c in s
    ensures forall i :: 0 <= i < |s| && s[i] == c ==> Lower(s)[i] == c
    ensures c in Lower(s)
  {
    forall i | 0 <= i < |s| && s[i] == c
      ensures Lower(s)[i] == c
    {
      LowerAt(s, i);
    }
    var i :| 0 <= i < |s| && s[i] == c;
    assert Lower(s)[i] == c;
  }

  predicate IsPrefix(p: string, s: string)
  {
    |p| <= |s| && s[..|p|] == p
  }

  predicate IsSuffix(p: string, s: string)
  {
    |p| <= |s| && s[|s| - |p|..] == p
  }

  /** `sub` occurs in `s` starting at index `i`. */
  predicate OccursAt(s: string, sub: string, i: int)
  {
    0 <= i && i + |sub| <= |s| && s[i..i + |sub|] == sub
  }

  /** Python's `sub in s` for strings. */
  predicate Contains(s: string, sub: string)
  {
    exists i | 0 <= i <= |s| - |sub| :: OccursAt(s, sub, i)
  }

  /** A non-empty pattern whose first character does not occur in `s`
      is not a substring of `s`. */
  lemma NotContainsWithoutFirstChar(s: string, sub: string)
    requires sub != [] && sub[0] !in s
    ensures !Contains(s, sub)
  {
  }

  function DigitChar(d: nat): (c: char)
    requires d < 10
    ensures IsDigit(c)
  {
    ('0' as int + d) as char
  }

  function DigitValue(c: char): (d: nat)
    requires IsDigit(c)
    ensures d < 10 && DigitChar(d) == c
  {
    c as int - '0' as int
  }

  predicate AllDigits(s: string)
  {
    forall i :: 0 <= i < |s| ==> IsDigit(s[i])
  }

  /** `str(n)`: the decimal digits of `n`, most significant first. */
  function DecimalString(n: nat): (r: string)
    ensures |r| >= 1 && AllDigits(r)
  {
    if n < 10 then [DigitChar(n)] else DecimalString(n / 10) + [DigitChar(n % 10)]
  }

  /** Reads decimal digits back as a number; the inverse of `DecimalString`. */
  function ParseDecimal(s: string): nat
    requires AllDigits(s)
  {
    if s == [] then 0 else 10 * ParseDecimal(s[..|s| - 1]) + DigitValue(s[|s| - 1])
  }

  lemma {:induction false} DecimalRoundTrip(n: nat)
    ensures ParseDecimal(DecimalString(n)) == n
  {
    var r := DecimalString(n);
    if n >= 10 {
      DecimalRoundTrip(n / 10);
      assert r[..|r| - 1] == DecimalString(n / 10);
      assert DigitValue(r[|r| - 1]) == n % 10;
    }
  }

  /** The numbers `random.randint(1000, 9999)` can return print as four digits. */
  lemma FourDigits(n: nat)
    requires 1000 <= n <= 9999
    ensures |DecimalString(n)| == 4
  {
    assert |DecimalString(n / 1000)| == 1;
    assert |DecimalString(n / 100)| == 1 + |DecimalString(n / 100 / 10)|;
    assert n / 100 / 10 == n / 1000;
    assert |DecimalString(n / 10)| == 1 + |DecimalString(n / 10 / 10)|;
    assert n / 10 / 10 == n / 100;
  }

  /** `os.path.basename(p)`: the part of `p` after its last '/'. */
  function Basename(p: string): (r: string)
    ensures '/' !in r && IsSuffix(r, p)
  {
    if p == [] then []
    else if p[|p| - 1] == '/' then []
    else Basename(p[..|p| - 1]) + [p[|p| - 1]]
  }

  /** The base name of `dir/name` is `name` when `name` holds no '/'. */
  lemma {:induction false} BasenameOfJoin(dir: string, name: string)
    requires '/' !in name
    ensures Basename(dir + "/" + name) == name
  {
    if name != [] {
      var p := dir + "/" + name;
      var init := name[..|name| - 1];
      assert p[..|p| - 1] == dir + "/" + init;
      assert p[|p| - 1] == name[|name| - 1];
      BasenameOfJoin(dir, init);
      assert init + [name[|name| - 1]] == name;
    } else {
      assert dir + "/" + name == dir + "/";
    }
  }

  /** A path with no '/' is its own base name. */
  lemma {:induction false} BasenameOfPlain(p: string)
    requires '/' !in p
    ensures Basename(p) == p
  {
    if p != [] {
      var init := p[..|p| - 1];
      assert '/' !in init by {
        forall i | 0 <= i < |init| ensures init[i] != '/' {
          assert init[i] == p[i];
        }
      }
      BasenameOfPlain(init);
      assert init + [p[|p| - 1]] == p;
    }
  }

  function TotalLength(lines: seq<string>): nat
  {
    if lines == [] then 0 else TotalLength(lines[..|lines| - 1]) + |lines[|lines| - 1]|
  }

  /** `"\n".join(lines)`. */
  function JoinLines(lines: seq<string>): (r: string)
    ensures lines == [] ==> r == []
    ensures lines != [] ==> |r| == TotalLength(lines) + |lines| - 1
  {
    if lines == [] then []
    else if |lines| == 1 then lines[0]
    else JoinLines(lines[..|lines| - 1]) + "\n" + lines[|lines| - 1]
  }

  /** The position of the last '\n' in `s`, or -1 when there is none. */
  function LastNewline(s: string): (k: int)
    ensures -1 <= k < |s|
    ensures k >= 0 ==> s[k] == '\n'
    ensures k == -1 ==> '\n' !in s
  {
    if s == [] then -1
    else if s[|s| - 1] == '\n' then |s| - 1
    else
      assert s == s[..|s| - 1] + [s[|s| - 1]];
      LastNewline(s[..|s| - 1])
  }

  /** `s.split("\n")`: the pieces between the '\n' characters, so there is
      always at least one piece. */
  function Split(s: string): (r: seq<string>)
    ensures |r| >= 1
    decreases |s|
  {
    var k := LastNewline(s);
    if k < 0 then [s] else Split(s[..k]) + [s[k + 1..]]
  }

  /** The last '\n' of `a + "\n" + b`, for `b` without one, is the one
      between them. */
  lemma {:induction false} LastNewlineOfJoin(a: string, b: string)
    requires '\n' !in b
    ensures LastNewline(a + "\n" + b) == |a|
    decreases |b|
  {
    var s := a + "\n" + b;
    if b != [] {
      var b' := b[..|b| - 1];
      assert s[|s| - 1] == b[|b| - 1];
      assert s[..|s| - 1] == a + "\n" + b';
      assert '\n' !in b' by {
        forall j | 0 <= j < |b'| ensures b'[j] != '\n' {
          assert b'[j] == b[j];
        }
      }
      LastNewlineOfJoin(a, b');
    } else {
      assert s[|s| - 1] == '\n';
    }
  }

  /** Splitting `a + "\n" + b`, for `b` without a '\n', splits `a` and
      adds `b` as the last piece. */
  lemma SplitOfJoin(a: string, b: string)
    requires '\n' !in b
    ensures Split(a + "\n" + b) == Split(a) + [b]
  {
    var s := a + "\n" + b;
    LastNewlineOfJoin(a, b);
    assert s[..|a|] == a;
    assert s[|a| + 1..] == b;
  }

  /** Splitting the joined lines on '\n' gives the lines back, when none of
      them contains a '\n' itself: the join keeps every line, in order. */
  lemma {:induction false} SplitJoin(lines: seq<string>)
    requires |lines| >= 1
    requires forall i :: 0 <= i < |lines| ==> '\n' !in lines[i]
    ensures Split(JoinLines(lines)) == lines
  {
    if |lines| > 1 {
      var init := lines[..|lines| - 1];
      var last := lines[|lines| - 1];
      assert JoinLines(lines) == JoinLines(init) + "\n" + last;
      SplitOfJoin(JoinLines(init), last);
      assert forall i :: 0 <= i < |init| ==> init[i] == lines[i];
      SplitJoin(init);
      assert init + [last] == lines;
    }
  }

  /** Where line `i` starts in the joined text: after the lines before it
      and one separator per earlier line. */
  function LineStart(lines: seq<string>, i: nat): nat
    requires i <= |lines|
  {
    TotalLength(lines[..i]) + i
  }

  /** `"\n".join(lines)` holds line `i` unchanged at `LineStart(lines, i)`,
      followed by a '\n' unless it is the last line, whatever characters
      the lines contain. */
  lemma {:induction false} JoinLinesAt(lines: seq<string>, i: nat)
    requires i < |lines|
    ensures LineStart(lines, i) + |lines[i]| <= |JoinLines(lines)|
    ensures JoinLines(lines)[LineStart(lines, i)..LineStart(lines, i) + |lines[i]|] == lines[i]
    ensures i + 1 < |lines| ==> LineStart(lines, i) + |lines[i]| < |JoinLines(lines)| &&
                                JoinLines(lines)[LineStart(lines, i) + |lines[i]|] == '\n'
  {
    if |lines| > 1 {
      var init := lines[..|lines| - 1];
      var last := lines[|lines| - 1];
      var j := JoinLines(init);
      assert JoinLines(lines) == j + "\n" + last;
      if i == |lines| - 1 {
        assert lines[..i] == init;
        assert LineStart(lines, i) == |j| + 1;
        assert JoinLines(lines)[|j| + 1..] == last;
      } else {
        assert lines[..i] == init[..i];
        assert init[i] == lines[i];
        JoinLinesAt(init, i);
        assert JoinLines(lines)[..|j|] == j;
        if i + 1 < |init| {
          assert init[..i + 1] == lines[..i + 1];
        } else {
          assert init[..i] == init[..|init| - 1];
          assert LineStart(lines, i) + |lines[i]| == |j| by {
            assert init[..i + 1] == init;
          }
        }
      }
    }
  }
}

/**
 * The JavaScript string operations the launcher's core relies on, stated over
 * `seq<char>`: `trim`, `startsWith`, `split`, the count of a regular-expression
 * literal's global matches, `indexOf`, decimal formatting of numbers in template
 * literals, `parseInt` and the `/\/+$/` replacement.
 */
module Text {
  import opened Wrappers

  /** The characters `String.prototype.trim` removes (ECMAScript WhiteSpace and LineTerminator). */
  predicate IsSpace(c: char) {
    || c == ' ' || c == '\t' || c == '\n' || c == '\r' || c == '\U{000B}' || c == '\U{000C}'
    || c == '\U{00A0}' || c == '\U{FEFF}' || c == '\U{1680}' || ('\U{2000}' <= c <= '\U{200A}')
    || c == '\U{2028}' || c == '\U{2029}' || c == '\U{202F}' || c == '\U{205F}' || c == '\U{3000}'
  }

  /** `s` with its leading white space removed. */
  function TrimStart(s: string): (r: string)
    ensures |r| <= |s| && r == s[|s| - |r|..]
    ensures r == [] || !IsSpace(r[0])
    ensures forall i :: 0 <= i < |s| - |r| ==> IsSpace(s[i])
  {
    if s != [] && IsSpace(s[0]) then TrimStart(s[1..]) else s
  }

  /** `s` with its trailing white space removed. */
  function TrimEnd(s: string): (r: string)
    ensures |r| <= |s| && r == s[..|r|]
    ensures r == [] || !IsSpace(r[|r| - 1])
    ensures forall i :: |r| <= i < |s| ==> IsSpace(s[i])
  {
    if s != [] && IsSpace(s[|s| - 1]) then TrimEnd(s[..|s| - 1]) else s
  }

  /** `String.prototype.trim`. */
  function Trim(s: string): (r: string)
    ensures |r| <= |s|
    ensures r == [] || (!IsSpace(r[0]) && !IsSpace(r[|r| - 1]))
  {
    TrimEnd(TrimStart(s))
  }

  predicate AllSpace(s: string) {
    forall i :: 0 <= i < |s| ==> IsSpace(s[i])
  }

  /** Leading white space in front of a text that does not start with any is what `TrimStart` removes. */
  lemma {:induction false} TrimStartPadded(pre: string, rest: string)
    requires AllSpace(pre)
    requires rest == [] || !IsSpace(rest[0])
    ensures TrimStart(pre + rest) == rest
    decreases |pre|
  {
    if pre == [] {
      assert pre + rest == rest;
    } else {
      assert (pre + rest)[0] == pre[0];
      assert (pre + rest)[1..] == pre[1..] + rest;
      TrimStartPadded(pre[1..], rest);
    }
  }

  /** Trailing white space after a text that does not end with any is what `TrimEnd` removes. */
  lemma {:induction false} TrimEndPadded(rest: string, post: string)
    requires AllSpace(post)
    requires rest == [] || !IsSpace(rest[|rest| - 1])
    ensures TrimEnd(rest + post) == rest
    decreases |post|
  {
    if post == [] {
      assert rest + post == rest;
    } else {
      var s := rest + post;
      assert s[|s| - 1] == post[|post| - 1];
      assert s[..|s| - 1] == rest + post[..|post| - 1];
      TrimEndPadded(rest, post[..|post| - 1]);
    }
  }

  /** Trimming removes exactly the white-space padding around a core that has none at its ends. */
  lemma TrimPadded(pre: string, core: string, post: string)
    requires AllSpace(pre) && AllSpace(post)
    requires core == [] || (!IsSpace(core[0]) && !IsSpace(core[|core| - 1]))
    ensures Trim(pre + core + post) == core
  {
    if core == [] {
      assert AllSpace(pre + post) by {
        forall i | 0 <= i < |pre + post| ensures IsSpace((pre + post)[i]) {
          if i < |pre| { assert (pre + post)[i] == pre[i]; } else { assert (pre + post)[i] == post[i - |pre|]; }
        }
      }
      assert pre + core + post == (pre + post) + [];
      TrimStartPadded(pre + post, []);
    } else {
      assert pre + core + post == pre + (core + post);
      assert (core + post)[0] == core[0];
      TrimStartPadded(pre, core + post);
      TrimEndPadded(core, post);
    }
  }

  /** Trimming twice is trimming once. */
  lemma TrimIdempotent(s: string)
    ensures Trim(Trim(s)) == Trim(s)
  {
    TrimPadded([], Trim(s), []);
    assert [] + Trim(s) + [] == Trim(s);
  }

  /** A string without space at either end is already trimmed. */
  lemma TrimIdempotentOnCore(line: string)
    requires line != [] && !IsSpace(line[0]) && !IsSpace(line[|line| - 1])
    ensures Trim(line) == line
  {
    TrimPadded("", line, "");
    assert "" + line + "" == line;
  }

  /** `s.startsWith(p)`. */
  predicate StartsWith(s: string, p: string) {
    |p| <= |s| && s[..|p|] == p
  }

  /** `s.endsWith(p)`. */
  predicate EndsWith(s: string, p: string) {
    |p| <= |s| && s[|s| - |p|..] == p
  }

  /** `pat` occurs in `t` at index `i`. */
  predicate OccursAt(t: string, pat: string, i: int) {
    0 <= i && i + |pat| <= |t| && t[i..i + |pat|] == pat
  }

  /** `t.indexOf(pat)`: the first index at which `pat` occurs, if any. */
  function IndexOf(t: string, pat: string): (r: Option<nat>)
    requires |pat| > 0
    ensures r.Some? ==> OccursAt(t, pat, r.value) && forall j :: 0 <= j < r.value ==> !OccursAt(t, pat, j)
    ensures r.None? ==> forall j :: !OccursAt(t, pat, j)
    decreases |t|
  {
    if |t| < |pat| then None
    else if t[..|pat|] == pat then Some(0)
    else
      var rest := IndexOf(t[1..], pat);
      OccursShift(t, pat);
      assert !OccursAt(t, pat, 0);
      assert forall j :: 1 <= j ==> (OccursAt(t, pat, j) <==> OccursAt(t[1..], pat, j - 1));
      match rest
      case None => None
      case Some(k) => Some(k + 1)
  }

  /** An occurrence in `t[1..]` is an occurrence in `t` one position later. */
  lemma OccursShift(t: string, pat: string)
    requires |t| > 0
    ensures forall j :: 0 <= j ==> (OccursAt(t[1..], pat, j) <==> OccursAt(t, pat, j + 1))
  {
    forall j | 0 <= j ensures OccursAt(t[1..], pat, j) <==> OccursAt(t, pat, j + 1) {
      if 0 <= j && j + |pat| <= |t| - 1 {
        assert t[1..][j..j + |pat|] == t[j + 1..j + 1 + |pat|];
      }
    }
  }

  /** An occurrence at or after `d` is an occurrence in `t[d..]`. */
  lemma OccursInSuffix(t: string, pat: string, d: nat, j: int)
    requires d <= j && OccursAt(t, pat, j)
    ensures OccursAt(t[d..], pat, j - d)
  {
    assert t[d..][j - d..j - d + |pat|] == t[j..j + |pat|];
  }

  /** An occurrence in a prefix of `t` is an occurrence in `t`. */
  lemma OccursInPrefix(t: string, pat: string, n: nat, j: int)
    requires n <= |t| && OccursAt(t[..n], pat, j)
    ensures OccursAt(t, pat, j) && j + |pat| <= n
  {
    assert t[..n][j..j + |pat|] == t[j..j + |pat|];
  }

  /**
   * `(s.match(/pat/g) || []).length` for a literal pattern: the number of
   * non-overlapping matches found scanning left to right.
   */
  function CountOf(s: string, pat: string): (n: nat)
    requires |pat| > 0
    ensures n * |pat| <= |s|
    ensures n > 0 <==> exists i :: OccursAt(s, pat, i)
    decreases |s|
  {
    if |s| < |pat| then
      assert forall i :: !OccursAt(s, pat, i);
      0
    else if s[..|pat|] == pat then
      assert OccursAt(s, pat, 0);
      1 + CountOf(s[|pat|..], pat)
    else
      OccursShift(s, pat);
      assert !OccursAt(s, pat, 0);
      assert forall i :: OccursAt(s, pat, i) ==> OccursAt(s[1..], pat, i - 1);
      CountOf(s[1..], pat)
  }

  /** Every position at which `pat` occurs, overlapping occurrences included. */
  function Occurrences(s: string, pat: string): nat
    requires |pat| > 0
    decreases |s|
  {
    if |s| < |pat| then 0
    else (if OccursAt(s, pat, 0) then 1 else 0) + Occurrences(s[1..], pat)
  }

  /** No proper suffix of `pat` is also a prefix of it, so two occurrences never overlap. */
  predicate Unbordered(pat: string) {
    forall k :: 0 < k < |pat| ==> pat[k..] != pat[..|pat| - k]
  }

  /** Two overlapping occurrences of `pat` make a border of it. */
  lemma OverlapBorder(s: string, pat: string, i: int, j: int)
    requires OccursAt(s, pat, i) && i < j < i + |pat|
    ensures OccursAt(s, pat, j) ==> pat[j - i..] == pat[..|pat| - (j - i)]
  {
    if OccursAt(s, pat, j) {
      assert pat[j - i..] == s[j..i + |pat|];
      assert pat[..|pat| - (j - i)] == s[j..i + |pat|];
    }
  }

  /** Positions where `pat` does not occur add nothing to the occurrence count. */
  lemma {:induction false} SkipUnmatched(s: string, pat: string, a: nat, b: nat)
    requires |pat| > 0 && a <= b <= |s|
    requires forall d :: a <= d < b ==> !OccursAt(s, pat, d)
    ensures Occurrences(s[a..], pat) == Occurrences(s[b..], pat)
    decreases b - a
  {
    if a < b {
      assert s[a..][1..] == s[a + 1..];
      if |s[a..]| >= |pat| {
        assert !OccursAt(s, pat, a);
        assert s[a..][0..|pat|] == s[a..a + |pat|];
      }
      SkipUnmatched(s, pat, a + 1, b);
    }
  }

  /**
   * For a pattern whose occurrences cannot overlap, the left-to-right match
   * count is the number of positions at which the pattern occurs.
   */
  lemma {:induction false} CountOfOccurrences(s: string, pat: string)
    requires |pat| > 0 && Unbordered(pat)
    ensures CountOf(s, pat) == Occurrences(s, pat)
    decreases |s|
  {
    if |s| >= |pat| {
      if s[..|pat|] == pat {
        assert OccursAt(s, pat, 0);
        forall d | 0 < d < |pat| ensures !OccursAt(s, pat, d) {
          OverlapBorder(s, pat, 0, d);
        }
        SkipUnmatched(s, pat, 1, |pat|);
        CountOfOccurrences(s[|pat|..], pat);
      } else {
        assert !OccursAt(s, pat, 0);
        CountOfOccurrences(s[1..], pat);
      }
    }
  }

  /** `text.split(sep)` for a one-character separator. */
  function Split(s: string, sep: char): (r: seq<string>)
    ensures |r| >= 1
    ensures forall i :: 0 <= i < |r| ==> sep !in r[i]
    decreases |s|
  {
    if s == [] then [""]
    else
      var t := Split(s[1..], sep);
      if s[0] == sep then [""] + t else [[s[0]] + t[0]] + t[1..]
  }

  /** `parts.join(sep)`. */
  function Join(parts: seq<string>, sep: char): string
    requires |parts| >= 1
  {
    if |parts| == 1 then parts[0] else parts[0] + [sep] + Join(parts[1..], sep)
  }

  /** Splitting and joining again gives back the text. */
  lemma {:induction false} JoinSplit(s: string, sep: char)
    ensures Join(Split(s, sep), sep) == s
    decreases |s|
  {
    if s != [] {
      var t := Split(s[1..], sep);
      JoinSplit(s[1..], sep);
      if s[0] == sep {
        assert Split(s, sep)[1..] == t;
      } else if |t| == 1 {
        assert Split(s, sep) == [[s[0]] + t[0]];
      } else {
        var r := Split(s, sep);
        assert r[1..] == t[1..];
        assert Join(t, sep) == t[0] + [sep] + Join(t[1..], sep);
        assert Join(r, sep) == [s[0]] + t[0] + [sep] + Join(t[1..], sep);
        assert [s[0]] + s[1..] == s;
      }
    }
  }

  /** The pieces of a concatenation when the last piece of `a` joins the first piece of `b`. */
  function Fuse(a: seq<string>, b: seq<string>): seq<string>
    requires |a| >= 1 && |b| >= 1
  {
    a[..|a| - 1] + [a[|a| - 1] + b[0]] + b[1..]
  }

  lemma FuseConsPiece(p: string, a: seq<string>, b: seq<string>)
    requires |a| >= 1 && |b| >= 1
    ensures Fuse([p] + a, b) == [p] + Fuse(a, b)
  {
    assert ([p] + a)[..|a|] == [p] + a[..|a| - 1];
  }

  lemma FuseExtendHead(c: char, a: seq<string>, b: seq<string>)
    requires |a| >= 1 && |b| >= 1
    ensures var f := Fuse(a, b);
      Fuse([[c] + a[0]] + a[1..], b) == [[c] + f[0]] + f[1..]
  {
    var f := Fuse(a, b);
    var a' := [[c] + a[0]] + a[1..];
    if |a| == 1 {
      assert a' == [[c] + a[0]];
      assert f[0] == a[0] + b[0];
      assert f[1..] == b[1..];
      assert ([c] + a[0]) + b[0] == [c] + (a[0] + b[0]);
    } else {
      assert f[0] == a[0];
      assert a'[..|a'| - 1] == [[c] + a[0]] + a[1..|a| - 1];
      assert f[1..] == a[1..|a| - 1] + [a[|a| - 1] + b[0]] + b[1..];
      assert a'[|a'| - 1] == a[|a| - 1];
      calc {
        Fuse(a', b);
        ([[c] + a[0]] + a[1..|a| - 1]) + [a[|a| - 1] + b[0]] + b[1..];
        [[c] + a[0]] + (a[1..|a| - 1] + [a[|a| - 1] + b[0]] + b[1..]);
      }
    }
  }

  /** Joining separator-free parts and splitting again gives back the parts. */
  lemma {:induction false} SplitJoin(parts: seq<string>, sep: char)
    requires |parts| >= 1
    requires forall i :: 0 <= i < |parts| ==> sep !in parts[i]
    ensures Split(Join(parts, sep), sep) == parts
    decreases |parts|
  {
    NoSeparatorSplit(parts[0], sep);
    if |parts| > 1 {
      var rest := parts[1..];
      var j := Join(rest, sep);
      SplitJoin(rest, sep);
      var tail := [sep] + j;
      SepHeadSplit(j, sep);
      SplitAppend(parts[0], tail, sep);
      assert Join(parts, sep) == parts[0] + tail;
      FuseSingle(parts[0], rest);
    }
  }

  lemma SepHeadSplit(j: string, sep: char)
    ensures Split([sep] + j, sep) == [""] + Split(j, sep)
  {
    var tail := [sep] + j;
    assert tail[0] == sep && tail[1..] == j;
  }

  lemma FuseSingle(p: string, rest: seq<string>)
    ensures Fuse([p], [""] + rest) == [p] + rest
  {
    assert p + "" == p;
  }

  /** Text without the separator splits into itself alone. */
  lemma {:induction false} NoSeparatorSplit(s: string, sep: char)
    requires sep !in s
    ensures Split(s, sep) == [s]
    decreases |s|
  {
    if s != [] {
      assert sep !in s[1..];
      NoSeparatorSplit(s[1..], sep);
      assert [s[0]] + s[1..] == s;
    }
  }

  /**
   * Splitting a concatenation: the last piece of `x` joins the first piece
   * of `y`; all other pieces are those of `x` and of `y`.
   */
  lemma {:induction false} SplitAppend(x: string, y: string, sep: char)
    ensures Split(x + y, sep) == Fuse(Split(x, sep), Split(y, sep))
    decreases |x|
  {
    var sy := Split(y, sep);
    if x == [] {
      assert x + y == y;
      assert "" + sy[0] == sy[0];
      assert [sy[0]] + sy[1..] == sy;
    } else {
      var xy := x + y;
      assert xy[0] == x[0] && xy[1..] == x[1..] + y;
      SplitAppend(x[1..], y, sep);
      var sx' := Split(x[1..], sep);
      if x[0] == sep {
        FuseConsPiece("", sx', sy);
      } else {
        FuseExtendHead(x[0], sx', sy);
      }
    }
  }

  /** The decimal digit character for `d`. */
  function DigitChar(d: nat): (c: char)
    requires d < 10
    ensures '0' <= c <= '9' && (c as int) - ('0' as int) == d
  {
    (('0' as int) + d) as char
  }

  /** A number in a template literal (`${n}`) for a non-negative integer: its decimal form. */
  function NatToString(n: nat): (r: string)
    ensures |r| >= 1 && forall i :: 0 <= i < |r| ==> '0' <= r[i] <= '9'
    ensures r[0] == '0' ==> n == 0 && |r| == 1
    decreases n
  {
    if n < 10 then [DigitChar(n)] else NatToString(n / 10) + [DigitChar(n % 10)]
  }

  /** The value of `c` as a digit of base `radix` (10 or 16), if it is one. */
  function DigitOf(c: char, radix: nat): (r: Option<nat>)
    ensures r.Some? ==> r.value < radix
  {
    if '0' <= c <= '9' && (c as int) - ('0' as int) < radix then Some((c as int) - ('0' as int))
    else if radix == 16 && 'a' <= c <= 'f' then Some((c as int) - ('a' as int) + 10)
    else if radix == 16 && 'A' <= c <= 'F' then Some((c as int) - ('A' as int) + 10)
    else None
  }

  /** The longest prefix of `s` made of digits of base `radix`. */
  function DigitPrefix(s: string, radix: nat): (r: string)
    ensures |r| <= |s| && r == s[..|r|]
    ensures forall i :: 0 <= i < |r| ==> DigitOf(r[i], radix).Some?
    ensures |r| < |s| ==> DigitOf(s[|r|], radix).None?
  {
    if s != [] && DigitOf(s[0], radix).Some? then [s[0]] + DigitPrefix(s[1..], radix) else []
  }

  /** The number a string of base-`radix` digits denotes. */
  function DigitsValue(ds: string, radix: nat): nat
    requires forall i :: 0 <= i < |ds| ==> DigitOf(ds[i], radix).Some?
  {
    if ds == [] then 0
    else DigitsValue(ds[..|ds| - 1], radix) * radix + DigitOf(ds[|ds| - 1], radix).value
  }

  /**
   * `parseInt(s)` with no radix: leading white space, an optional sign, an
   * optional `0x`/`0X` prefix selecting base 16, then the longest run of digits.
   * `None` stands for `NaN` (no digits).
   */
  function ParseInt(s: string): Option<int> {
    var t := TrimStart(s);
    var negative := |t| > 0 && t[0] == '-';
    var u := if |t| > 0 && (t[0] == '-' || t[0] == '+') then t[1..] else t;
    var hex := |u| >= 2 && u[0] == '0' && (u[1] == 'x' || u[1] == 'X');
    var radix := if hex then 16 else 10;
    var ds := DigitPrefix(if hex then u[2..] else u, radix);
    if ds == [] then None
    else
      var v: int := DigitsValue(ds, radix);
      Some(if negative then -v else v)
  }

  /** Decimal formatting and its value agree. */
  lemma {:induction false} NatToStringValue(n: nat)
    ensures forall i :: 0 <= i < |NatToString(n)| ==> DigitOf(NatToString(n)[i], 10).Some?
    ensures DigitsValue(NatToString(n), 10) == n
    decreases n
  {
    var r := NatToString(n);
    forall i | 0 <= i < |r| ensures DigitOf(r[i], 10).Some? { }
    if n >= 10 {
      NatToStringValue(n / 10);
      assert r[..|r| - 1] == NatToString(n / 10);
    }
  }

  /** `parseInt` reads back every number written in decimal. */
  lemma ParseIntNatToString(n: nat)
    ensures ParseInt(NatToString(n)) == Some(n)
  {
    NatToStringValue(n);
    ParseIntDigits(NatToString(n));
  }

  /** A plain run of decimal digits, not starting with `0x`, parses to its value. */
  lemma ParseIntDigits(s: string)
    requires |s| >= 1 && forall i :: 0 <= i < |s| ==> '0' <= s[i] <= '9'
    requires s[0] == '0' ==> |s| == 1
    ensures forall i :: 0 <= i < |s| ==> DigitOf(s[i], 10).Some?
    ensures ParseInt(s) == Some(DigitsValue(s, 10))
  {
    assert forall i :: 0 <= i < |s| ==> DigitOf(s[i], 10).Some?;
    assert !IsSpace(s[0]) by { assert '0' <= s[0] <= '9'; }
    assert TrimStart(s) == s;
    DigitPrefixAll(s, 10);
  }

  lemma {:induction false} DigitPrefixAll(s: string, radix: nat)
    requires forall i :: 0 <= i < |s| ==> DigitOf(s[i], radix).Some?
    ensures DigitPrefix(s, radix) == s
    decreases |s|
  {
    if s != [] {
      DigitPrefixAll(s[1..], radix);
      assert [s[0]] + s[1..] == s;
    }
  }

  /** `s.replace(/c+$/, '')`: `s` with the whole trailing run of `c` removed. */
  function StripTrailing(s: string, c: char): (r: string)
    ensures |r| <= |s| && r == s[..|r|]
    ensures r == [] || r[|r| - 1] != c
    ensures forall i :: |r| <= i < |s| ==> s[i] == c
  {
    if s != [] && s[|s| - 1] == c then StripTrailing(s[..|s| - 1], c) else s
  }

  /** Removing a trailing run twice is removing it once. */
  lemma StripTrailingIdempotent(s: string, c: char)
    ensures StripTrailing(StripTrailing(s, c), c) == StripTrailing(s, c)
  {
  }
}

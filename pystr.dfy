// Python string and posix-path semantics used throughout the driver:
// substring search, `str.replace`, `str.split`, `str.strip`, `str.join`,
// `str.lower` (ASCII), `str.isdigit` (ASCII), `int()` on decimal text,
// and `os.path.join` / `split` / `dirname` / `basename`.

module PyStr {

  // ---------------------------------------------------------------
  // Prefixes, suffixes and substring search
  // ---------------------------------------------------------------

  predicate StartsWith(s: string, p: string)
  {
    |p| <= |s| && s[..|p|] == p
  }

  predicate EndsWith(s: string, p: string)
  {
    |p| <= |s| && s[|s| - |p|..] == p
  }

  /** `sub` occurs in `s` starting at index `i`. */
  predicate OccursAt(s: string, sub: string, i: int)
  {
    0 <= i && i + |sub| <= |s| && s[i..i + |sub|] == sub
  }

  /** Index of the first occurrence of `sub` in `s` at or after `from`, or -1 (Python `str.find`). */
  function FindFrom(s: string, sub: string, from: nat): (r: int)
    requires from <= |s|
    ensures r == -1 || (from <= r && OccursAt(s, sub, r))
    decreases |s| - from
  {
    if from + |sub| > |s| then -1
    else if s[from..from + |sub|] == sub then from
    else FindFrom(s, sub, from + 1)
  }

  /** `FindFrom` returns the first occurrence at or after `from`, and -1 only when there is none. */
  lemma {:induction false} FindFromFirst(s: string, sub: string, from: nat, j: int)
    requires from <= |s|
    requires from <= j && OccursAt(s, sub, j)
    ensures FindFrom(s, sub, from) != -1 && FindFrom(s, sub, from) <= j
    decreases |s| - from
  {
    if from + |sub| <= |s| && s[from..from + |sub|] != sub {
      FindFromFirst(s, sub, from + 1, j);
    }
  }

  function Find(s: string, sub: string): (r: int)
    ensures r == -1 || OccursAt(s, sub, r)
  {
    FindFrom(s, sub, 0)
  }

  lemma FindFirst(s: string, sub: string, j: int)
    requires OccursAt(s, sub, j)
    ensures Find(s, sub) != -1 && Find(s, sub) <= j
  {
    FindFromFirst(s, sub, 0, j);
  }

  /** Python's `sub in s`. */
  predicate Contains(s: string, sub: string)
  {
    Find(s, sub) != -1
  }

  lemma ContainsIff(s: string, sub: string)
    ensures Contains(s, sub) <==> exists i :: OccursAt(s, sub, i)
  {
    if exists i :: OccursAt(s, sub, i) {
      var i :| OccursAt(s, sub, i);
      FindFirst(s, sub, i);
    }
  }

  lemma OccursInPrefix(s: string, sub: string, i: nat, j: int)
    requires i <= |s|
    requires OccursAt(s[..i], sub, j)
    ensures OccursAt(s, sub, j)
  {
    assert s[j..j + |sub|] == s[..i][j..j + |sub|];
  }

  // ---------------------------------------------------------------
  // join and split on a non-empty separator
  // ---------------------------------------------------------------

  /** Python's `sep.join(xs)`. */
  function Join(sep: string, xs: seq<string>): (r: string)
    ensures |xs| == 1 ==> r == xs[0]
    ensures xs == [] ==> r == ""
  {
    if |xs| == 0 then ""
    else if |xs| == 1 then xs[0]
    else xs[0] + sep + Join(sep, xs[1..])
  }

  /** An occurrence splits its string into the text before it, itself and the text after it. */
  lemma Reassemble(s: string, sub: string, i: int)
    requires OccursAt(s, sub, i)
    ensures s == s[..i] + sub + s[i + |sub|..]
  {
    assert s == s[..i] + s[i..i + |sub|] + s[i + |sub|..];
  }

  lemma JoinCons(sep: string, x: string, xs: seq<string>)
    requires xs != []
    ensures Join(sep, [x] + xs) == x + sep + Join(sep, xs)
  {
    assert ([x] + xs)[1..] == xs;
  }

  lemma JoinAppend(sep: string, xs: seq<string>, y: string)
    requires xs != []
    ensures Join(sep, xs + [y]) == Join(sep, xs) + sep + y
    decreases |xs|
  {
    if |xs| == 1 {
      assert xs + [y] == [xs[0], y];
    } else {
      assert (xs + [y])[1..] == xs[1..] + [y];
      JoinAppend(sep, xs[1..], y);
    }
  }

  /** Joining two non-empty lists is joining each and putting one separator between. */
  lemma {:induction false} JoinConcat(sep: string, xs: seq<string>, ys: seq<string>)
    requires xs != [] && ys != []
    ensures Join(sep, xs + ys) == Join(sep, xs) + sep + Join(sep, ys)
    decreases |xs|
  {
    if |xs| == 1 {
      assert xs + ys == [xs[0]] + ys;
      JoinCons(sep, xs[0], ys);
    } else {
      assert xs + ys == [xs[0]] + (xs[1..] + ys);
      JoinCons(sep, xs[0], xs[1..] + ys);
      JoinConcat(sep, xs[1..], ys);
      assert xs == [xs[0]] + xs[1..];
      JoinCons(sep, xs[0], xs[1..]);
    }
  }

  /** A string cannot start with two prefixes that differ at a place both cover. */
  lemma DiffersAt(s: string, p: string, q: string, k: nat)
    requires StartsWith(s, q) && k < |p| && k < |q| && p[k] != q[k]
    ensures !StartsWith(s, p)
  {
    assert s[k] == q[k] by {
      assert s[..|q|][k] == s[k];
    }
  }

  lemma StartsWithConcat(a: string, b: string)
    ensures StartsWith(a + b, a)
  {
    assert (a + b)[..|a|] == a;
  }

  lemma EndsWithConcat(a: string, b: string)
    ensures EndsWith(a + b, b)
  {
    assert (a + b)[|a + b| - |b|..] == b;
  }

  /** Python's `"".join(xs)`. */
  function Concat(xs: seq<string>): string
  {
    if |xs| == 0 then "" else xs[0] + Concat(xs[1..])
  }

  lemma ConcatAppend(xs: seq<string>, ys: seq<string>)
    ensures Concat(xs + ys) == Concat(xs) + Concat(ys)
    decreases |xs|
  {
    if |xs| == 0 {
      assert xs + ys == ys;
    } else {
      assert (xs + ys)[1..] == xs[1..] + ys;
      ConcatAppend(xs[1..], ys);
    }
  }

  /** Python's `s.split(sep)` for a non-empty separator. */
  function Split(s: string, sep: string): (r: seq<string>)
    requires sep != ""
    ensures |r| >= 1
    decreases |s|
  {
    var i := Find(s, sep);
    if i == -1 then [s]
    else [s[..i]] + Split(s[i + |sep|..], sep)
  }

  /** No piece of a split contains the separator. */
  lemma {:induction false} SplitPiecesFree(s: string, sep: string)
    requires sep != ""
    ensures forall k :: 0 <= k < |Split(s, sep)| ==> !Contains(Split(s, sep)[k], sep)
    decreases |s|
  {
    var i := Find(s, sep);
    if i != -1 {
      if Contains(s[..i], sep) {
        var j := Find(s[..i], sep);
        OccursInPrefix(s, sep, i, j);
        FindFirst(s, sep, j);
      }
      SplitPiecesFree(s[i + |sep|..], sep);
    }
  }

  /** Joining the pieces of a split with the separator gives the text back. */
  lemma {:induction false} JoinSplit(s: string, sep: string)
    requires sep != ""
    ensures Join(sep, Split(s, sep)) == s
    decreases |s|
  {
    var i := Find(s, sep);
    if i != -1 {
      var head, rest := s[..i], s[i + |sep|..];
      var parts := Split(rest, sep);
      assert Split(s, sep) == [head] + parts;
      JoinSplit(rest, sep);
      JoinCons(sep, head, parts);
      Reassemble(s, sep, i);
    }
  }

  // ---------------------------------------------------------------
  // str.replace
  // ---------------------------------------------------------------

  /**
   * Python's `s.replace(pat, rep, count)` for a non-empty `pat` and
   * `count >= 0`: occurrences are found left to right without overlap.
   */
  function ReplaceCount(s: string, pat: string, rep: string, count: nat): string
    requires pat != ""
    decreases |s|
  {
    var i := Find(s, pat);
    if count == 0 || i == -1 then s
    else s[..i] + rep + ReplaceCount(s[i + |pat|..], pat, rep, count - 1)
  }

  /** Python's `s.replace(pat, rep)` for a non-empty `pat`. */
  function ReplaceAll(s: string, pat: string, rep: string): string
    requires pat != ""
    decreases |s|
  {
    var i := Find(s, pat);
    if i == -1 then s
    else s[..i] + rep + ReplaceAll(s[i + |pat|..], pat, rep)
  }

  /** Replacing every occurrence is splitting on `pat` and joining with `rep`. */
  lemma {:induction false} ReplaceAllIsJoinSplit(s: string, pat: string, rep: string)
    requires pat != ""
    ensures ReplaceAll(s, pat, rep) == Join(rep, Split(s, pat))
    decreases |s|
  {
    var i := Find(s, pat);
    if i != -1 {
      var rest := s[i + |pat|..];
      ReplaceAllIsJoinSplit(rest, pat, rep);
      JoinCons(rep, s[..i], Split(rest, pat));
    }
  }

  /** A non-empty sequence is its head in front of its tail. */
  lemma HeadTail<T>(s: seq<T>)
    requires |s| > 0
    ensures [s[0]] + s[1..] == s
  {
  }

  /** Appending one element, then a sequence, is appending both at once. */
  lemma SnocAssoc<T>(a: seq<T>, x: T, b: seq<T>)
    ensures (a + [x]) + b == a + ([x] + b)
  {
  }

  /** Two extensions in a row: what the second adds follows what the first added. */
  lemma ExtendTwice<T>(t0: seq<T>, es: seq<T>, t1: seq<T>, t2: seq<T>)
    requires t1 == t0 + es && |t1| <= |t2| && t2[..|t1|] == t1
    ensures |t0| <= |t2| && t2[..|t0|] == t0 && t2[|t0|..] == es + t2[|t1|..]
  {
    assert t2 == t1 + t2[|t1|..];
  }

  lemma SeqAssoc(x: string, a: string, p: string, b: string)
    ensures x + (a + p + b) == x + a + p + b
  {
    assert x + (a + p + b) == x + (a + p) + b;
    assert x + (a + p) == x + a + p;
  }

  lemma {:induction false} ReplaceCountAbsent(s: string, pat: string, rep: string, count: nat)
    requires pat != ""
    requires !Contains(s, pat)
    ensures ReplaceCount(s, pat, rep, count) == s
    ensures ReplaceAll(s, pat, rep) == s
  {
  }

  // ---------------------------------------------------------------
  // Whitespace: strip and split()
  // ---------------------------------------------------------------

  /** ASCII characters for which Python's `str.isspace` holds. */
  predicate IsSpace(c: char)
  {
    c == ' ' || c == '\t' || c == '\n' || c == '\r' || c == '\U{000B}' || c == '\U{000C}'
    || c == '\U{001C}' || c == '\U{001D}' || c == '\U{001E}' || c == '\U{001F}'
  }

  /** The index of the first non-space character at or after `i`, or `|s|`. */
  function SkipSpace(s: string, i: nat): (n: nat)
    requires i <= |s|
    ensures i <= n <= |s|
    ensures forall k :: i <= k < n ==> IsSpace(s[k])
    ensures n < |s| ==> !IsSpace(s[n])
    decreases |s| - i
  {
    if i == |s| || !IsSpace(s[i]) then i else SkipSpace(s, i + 1)
  }

  /** The index just after the last non-space character at or after `lo`, or `lo`. */
  function TrimEnd(s: string, lo: nat, e: nat): (n: nat)
    requires lo <= e <= |s|
    requires forall k :: e <= k < |s| ==> IsSpace(s[k])
    ensures lo <= n <= e
    ensures forall k :: n <= k < |s| ==> IsSpace(s[k])
    ensures n > lo ==> !IsSpace(s[n - 1])
    decreases e
  {
    if e == lo || !IsSpace(s[e - 1]) then e else TrimEnd(s, lo, e - 1)
  }

  /** Python's `s.strip()`: the text between the leading and the trailing whitespace. */
  function Strip(s: string): (r: string)
    ensures r == "" || (!IsSpace(r[0]) && !IsSpace(r[|r| - 1]))
    ensures StripStart(s) + |r| <= |s| && r == s[StripStart(s)..StripStart(s) + |r|]
    ensures forall k :: 0 <= k < StripStart(s) ==> IsSpace(s[k])
    ensures forall k :: StripStart(s) + |r| <= k < |s| ==> IsSpace(s[k])
  {
    var lo := SkipSpace(s, 0);
    s[lo..TrimEnd(s, lo, |s|)]
  }

  /** Text without surrounding whitespace is its own `strip()`. */
  lemma StripClean(s: string)
    requires s == "" || (!IsSpace(s[0]) && !IsSpace(s[|s| - 1]))
    ensures Strip(s) == s
  {
    if s != "" {
      assert SkipSpace(s, 0) == 0;
      assert TrimEnd(s, 0, |s|) == |s|;
    }
  }

  /** `strip()` keeps a leading run of non-space characters. */
  lemma StripKeepsHead(p: string, rest: string)
    requires |p| > 0 && forall k :: 0 <= k < |p| ==> !IsSpace(p[k])
    ensures StartsWith(Strip(p + rest), p)
  {
    var s := p + rest;
    assert s[0] == p[0];
    assert SkipSpace(s, 0) == 0;
    var n := TrimEnd(s, 0, |s|);
    assert s[|p| - 1] == p[|p| - 1];
    assert n >= |p|;
    assert Strip(s)[..|p|] == s[..|p|];
  }

  /** Where the text kept by `strip()` begins. */
  function StripStart(s: string): (n: nat)
    ensures n <= |s|
  {
    SkipSpace(s, 0)
  }

  /** Where the run of non-space characters that ends just before `e` begins. */
  function WordStart(s: string, e: nat): (n: nat)
    requires e <= |s|
    ensures n <= e
    ensures forall k :: n <= k < e ==> !IsSpace(s[k])
    ensures n > 0 ==> IsSpace(s[n - 1])
    decreases e
  {
    if e == 0 || IsSpace(s[e - 1]) then e else WordStart(s, e - 1)
  }

  /**
   * `s.split()[-1]`: the last maximal run of non-space characters, which
   * ends where the trailing whitespace begins ("" when `s` is all space,
   * where Python raises IndexError instead).
   */
  function LastWord(s: string): (r: string)
    ensures r == "" <==> forall k :: 0 <= k < |s| ==> IsSpace(s[k])
    ensures forall k :: 0 <= k < |r| ==> !IsSpace(r[k])
    ensures |r| <= TrimEnd(s, 0, |s|) && r == s[TrimEnd(s, 0, |s|) - |r|..TrimEnd(s, 0, |s|)]
    ensures |r| < TrimEnd(s, 0, |s|) ==> IsSpace(s[TrimEnd(s, 0, |s|) - |r| - 1])
  {
    var e := TrimEnd(s, 0, |s|);
    s[WordStart(s, e)..e]
  }

  /** Where the run of non-space characters that starts at `i` ends. */
  function WordEnd(s: string, i: nat): (n: nat)
    requires i <= |s|
    ensures i <= n <= |s|
    ensures forall k :: i <= k < n ==> !IsSpace(s[k])
    ensures n < |s| ==> IsSpace(s[n])
    decreases |s| - i
  {
    if i == |s| || IsSpace(s[i]) then i else WordEnd(s, i + 1)
  }

  /**
   * `s.split()[0]`: the first maximal run of non-space characters; None
   * when `s` is all space, where Python raises IndexError.
   */
  function FirstWord(s: string): (r: Option<string>)
    ensures r.None? <==> forall k :: 0 <= k < |s| ==> IsSpace(s[k])
    ensures r.Some? ==> r.value != "" && forall k :: 0 <= k < |r.value| ==> !IsSpace(r.value[k])
  {
    var i := SkipSpace(s, 0);
    if i == |s| then None else Some(s[i..WordEnd(s, i)])
  }

  /** A word followed by whitespace is the first word, whatever comes after it. */
  lemma FirstWordOf(w: string, sep: string, rest: string)
    requires w != "" && forall k :: 0 <= k < |w| ==> !IsSpace(w[k])
    requires sep != "" && IsSpace(sep[0])
    ensures FirstWord(w + sep + rest) == Some(w)
  {
    var s := w + sep + rest;
    assert s[0] == w[0];
    assert SkipSpace(s, 0) == 0;
    assert s[|w|] == sep[0];
    assert forall k :: 0 <= k < |w| ==> s[k] == w[k];
    assert WordEnd(s, 0) == |w|;
    assert s[0..|w|] == w;
  }

  /** `s.split()`: the maximal runs of non-space characters, in order. */
  function Words(s: string): (r: seq<string>)
    ensures forall i :: 0 <= i < |r| ==> r[i] != "" && forall k :: 0 <= k < |r[i]| ==> !IsSpace(r[i][k])
    decreases |s|
  {
    var i := SkipSpace(s, 0);
    if i == |s| then [] else
      var e := WordEnd(s, i);
      [s[i..e]] + Words(s[e..])
  }

  /** Words separated by single spaces come back from `split()` one by one. */
  lemma {:induction false} WordsOf(w: string, rest: string)
    requires w != "" && forall k :: 0 <= k < |w| ==> !IsSpace(w[k])
    ensures Words(w + " " + rest) == [w] + Words(" " + rest)
  {
    var s := w + " " + rest;
    assert s[0] == w[0];
    assert SkipSpace(s, 0) == 0;
    assert forall k :: 0 <= k < |w| ==> s[k] == w[k];
    assert s[|w|] == ' ';
    assert WordEnd(s, 0) == |w|;
    assert s[0..|w|] == w;
    assert s[|w|..] == " " + rest;
  }

  /** Python truthiness of an optional text value: present and non-empty. */
  predicate HasText(x: Option<string>)
  {
    x.Some? && x.value != ""
  }

  /** The characters at which Python's `str.splitlines` ends a line. */
  predicate IsLineBreak(c: char)
  {
    c == '\n' || c == '\r' || c == '\U{000B}' || c == '\U{000C}' || c == '\U{001C}' || c == '\U{001D}'
    || c == '\U{001E}' || c == '\U{0085}' || c == '\U{2028}' || c == '\U{2029}'
  }

  /** The index of the first line break at or after `i`, or `|s|`. */
  function LineEnd(s: string, i: nat): (n: nat)
    requires i <= |s|
    ensures i <= n <= |s|
    ensures forall k :: i <= k < n ==> !IsLineBreak(s[k])
    ensures n < |s| ==> IsLineBreak(s[n])
    decreases |s| - i
  {
    if i == |s| || IsLineBreak(s[i]) then i else LineEnd(s, i + 1)
  }

  /**
   * `s.splitlines()`: the text cut at every line break, "\r\n" counting as
   * one; a final break does not start an empty last line.
   */
  function SplitLines(s: string): (r: seq<string>)
    ensures forall i, k :: 0 <= i < |r| && 0 <= k < |r[i]| ==> !IsLineBreak(r[i][k])
    ensures s == "" <==> r == []
    decreases |s|
  {
    if s == [] then []
    else
      var e := LineEnd(s, 0);
      if e == |s| then [s]
      else
        var next := if s[e] == '\r' && e + 1 < |s| && s[e + 1] == '\n' then e + 2 else e + 1;
        [s[..e]] + SplitLines(s[next..])
  }

  /** Lines joined by "\n" come back from `splitlines` unchanged, whatever follows the last break. */
  lemma {:induction false} SplitLinesOf(line: string, rest: string)
    requires forall k :: 0 <= k < |line| ==> !IsLineBreak(line[k])
    ensures SplitLines(line + "\n" + rest) == [line] + SplitLines(rest)
  {
    var s := line + "\n" + rest;
    assert forall k :: 0 <= k < |line| ==> s[k] == line[k];
    assert s[|line|] == '\n';
    assert LineEnd(s, 0) == |line|;
    assert s[..|line|] == line;
    assert s[|line| + 1..] == rest;
  }

  function Last<T>(xs: seq<T>): T
    requires xs != []
  {
    xs[|xs| - 1]
  }

  // ---------------------------------------------------------------
  // Case and digits (ASCII)
  // ---------------------------------------------------------------

  function LowerChar(c: char): char
  {
    if 'A' <= c <= 'Z' then (c as int + 32) as char else c
  }

  function UpperChar(c: char): char
  {
    if 'a' <= c <= 'z' then (c as int - 32) as char else c
  }

  /** Python's `s.lower()` restricted to ASCII letters. */
  function Lower(s: string): (r: string)
    ensures |r| == |s|
    ensures forall i :: 0 <= i < |s| ==> r[i] == LowerChar(s[i])
  {
    seq(|s|, i requires 0 <= i < |s| => LowerChar(s[i]))
  }

  /** A string without upper-case letters is its own lower case. */
  lemma LowerOfLower(s: string)
    requires forall i :: 0 <= i < |s| ==> !('A' <= s[i] <= 'Z')
    ensures Lower(s) == s
  {
  }

  /** Python's `s.upper()` restricted to ASCII letters. */
  function Upper(s: string): (r: string)
    ensures |r| == |s|
    ensures forall i :: 0 <= i < |s| ==> r[i] == UpperChar(s[i])
  {
    seq(|s|, i requires 0 <= i < |s| => UpperChar(s[i]))
  }

  predicate IsDigit(c: char)
  {
    '0' <= c <= '9'
  }

  /** Python's `s.isdigit()` for ASCII text: non-empty and all digits. */
  predicate IsDigits(s: string)
  {
    |s| > 0 && forall i :: 0 <= i < |s| ==> IsDigit(s[i])
  }

  function DigitValue(c: char): nat
    requires IsDigit(c)
  {
    c as int - '0' as int
  }

  /** The value of a string of decimal digits. */
  function DigitsValue(s: string): nat
    requires forall i :: 0 <= i < |s| ==> IsDigit(s[i])
  {
    if |s| == 0 then 0 else DigitsValue(s[..|s| - 1]) * 10 + DigitValue(s[|s| - 1])
  }

  function DigitChar(d: nat): (c: char)
    requires d < 10
    ensures IsDigit(c) && DigitValue(c) == d
  {
    ('0' as int + d) as char
  }

  /** `str(n)` for a natural number. */
  function NatToString(n: nat): (r: string)
    ensures IsDigits(r)
    ensures DigitsValue(r) == n
    decreases n
  {
    if n < 10 then [DigitChar(n)]
    else
      var r := NatToString(n / 10) + [DigitChar(n % 10)];
      assert r[..|r| - 1] == NatToString(n / 10);
      r
  }

  /** `str(i)` for an integer. */
  function IntToString(i: int): string
  {
    if i < 0 then "-" + NatToString(-i) else NatToString(i)
  }

  /**
   * Python's `int(s)` on text: optional surrounding whitespace, optional
   * sign, then one or more ASCII digits; anything else is a ValueError
   * (None here).
   */
  function ParseInt(s: string): Option<int>
  {
    var t := Strip(s);
    if |t| > 0 && (t[0] == '-' || t[0] == '+') && IsDigits(t[1..]) then
      Some(if t[0] == '-' then -(DigitsValue(t[1..]) as int) else DigitsValue(t[1..]) as int)
    else if IsDigits(t) then Some(DigitsValue(t) as int)
    else None
  }

  /** `int(str(n)) == n`. */
  lemma ParseIntNatToString(n: nat)
    ensures ParseInt(NatToString(n)) == Some(n as int)
  {
    var t := NatToString(n);
    assert Strip(t) == t by {
      assert !IsSpace(t[0]) && !IsSpace(t[|t| - 1]);
    }
  }

  datatype Option<T> = None | Some(value: T)

  // ---------------------------------------------------------------
  // posixpath
  // ---------------------------------------------------------------

  /** `os.path.join(a, b)` on posix. */
  function PathJoin(a: string, b: string): string
  {
    if StartsWith(b, "/") then b
    else if a == "" || EndsWith(a, "/") then a + b
    else a + "/" + b
  }

  /** An absolute second part replaces the first; otherwise the second part ends the result. */
  lemma PathJoinEnds(a: string, b: string)
    ensures StartsWith(b, "/") ==> PathJoin(a, b) == b
    ensures EndsWith(PathJoin(a, b), b)
  {
  }

  /** Index just after the last "/" of `p`, or 0. */
  function AfterLastSlash(p: string): (i: nat)
    ensures i <= |p|
    ensures i > 0 ==> p[i - 1] == '/'
    ensures forall k :: i <= k < |p| ==> p[k] != '/'
  {
    if |p| == 0 then 0
    else if p[|p| - 1] == '/' then |p|
    else AfterLastSlash(p[..|p| - 1])
  }

  /** `os.path.split(p)[1]` / `os.path.basename(p)`: the text after the last "/". */
  function BaseName(p: string): (r: string)
    ensures '/' !in r
    ensures EndsWith(p, r)
    ensures EndsWith(p, "/") ==> r == ""
    ensures '/' !in p ==> r == p
  {
    p[AfterLastSlash(p)..]
  }

  function RStripSlash(s: string): (r: string)
    ensures r == "" || r[|r| - 1] != '/'
    ensures StartsWith(s, r)
  {
    if |s| == 0 || s[|s| - 1] != '/' then s else RStripSlash(s[..|s| - 1])
  }

  /**
   * `os.path.expanduser(p)` with `home` as the home directory: a leading "~"
   * alone or before "/" becomes `home` without its trailing slashes ("/" if
   * nothing is left); every other path is returned as it is.
   */
  function ExpandUser(p: string, home: string): (r: string)
    ensures !StartsWith(p, "~") ==> r == p
  {
    if p == "~" || StartsWith(p, "~/") then
      var e := RStripSlash(home) + p[1..];
      if e == "" then "/" else e
    else p
  }

  /** A path under "~/" keeps everything after the "~" and starts with the home directory. */
  lemma ExpandUserHome(p: string, home: string)
    requires StartsWith(p, "~/")
    ensures ExpandUser(p, home) == RStripSlash(home) + p[1..]
    ensures StartsWith(ExpandUser(p, home), RStripSlash(home)) && EndsWith(ExpandUser(p, home), p[1..])
  {
    assert p[1] == '/';
    StartsWithConcat(RStripSlash(home), p[1..]);
    EndsWithConcat(RStripSlash(home), p[1..]);
  }

  /** `os.path.dirname(p)`: the text before the last "/", trailing slashes removed unless all slashes. */
  function DirName(p: string): (r: string)
    ensures '/' !in p ==> r == ""
    ensures StartsWith(p, r)
  {
    var head := p[..AfterLastSlash(p)];
    var stripped := RStripSlash(head);
    if stripped == "" then head else stripped
  }
}

// Building blocks of job-script text: a file written line by line, and the
// scheduler directives produced from the entries of a queue dictionary.

module JobText {
  import opened PyStr
  import opened PyDict
  import opened Json

  /** A queue dictionary: scheduler options in insertion order. */
  type Queue = Dict<string, Value>

  /** The text of a file written by one `write(line + "\n")` per line. */
  function Unlines(xs: seq<string>): (r: string)
    ensures xs == [] <==> r == ""
    ensures xs != [] ==> EndsWith(r, Last(xs) + "\n")
  {
    if |xs| == 0 then ""
    else
      var r := xs[0] + "\n" + Unlines(xs[1..]);
      assert xs[1..] != [] ==> Last(xs[1..]) == Last(xs);
      r
  }

  lemma {:induction false} UnlinesAppend(xs: seq<string>, ys: seq<string>)
    ensures Unlines(xs + ys) == Unlines(xs) + Unlines(ys)
    decreases |xs|
  {
    if |xs| == 0 {
      assert xs + ys == ys;
    } else {
      assert (xs + ys)[1..] == xs[1..] + ys;
      UnlinesAppend(xs[1..], ys);
    }
  }

  /** Writing one more line. */
  lemma UnlinesSnoc(xs: seq<string>, x: string)
    ensures Unlines(xs + [x]) == Unlines(xs) + x + "\n"
  {
    UnlinesAppend(xs, [x]);
    assert Unlines([x]) == x + "\n" + Unlines([]);
  }

  /** The loop `for cmd in commands: script += f"{cmd}\n"`. */
  method LinesText(commands: seq<string>) returns (text: string)
    ensures text == Unlines(commands)
  {
    text := "";
    var i := 0;
    while i < |commands|
      invariant 0 <= i <= |commands|
      invariant text == Unlines(commands[..i])
    {
      assert commands[..i + 1] == commands[..i] + [commands[i]];
      UnlinesSnoc(commands[..i], commands[i]);
      text := text + commands[i] + "\n";
      i := i + 1;
    }
    assert commands[..i] == commands;
  }

  /** The text ends with the text of its last lines. */
  lemma UnlinesSuffix(xs: seq<string>, ys: seq<string>)
    ensures EndsWith(Unlines(xs + ys), Unlines(ys))
  {
    UnlinesAppend(xs, ys);
    EndsWithConcat(Unlines(xs), Unlines(ys));
  }

  /** The text starts with the given lines. */
  lemma UnlinesPrefix(xs: seq<string>, ys: seq<string>)
    ensures StartsWith(Unlines(xs + ys), Unlines(xs))
  {
    UnlinesAppend(xs, ys);
  }

  /** A queue entry becomes a directive when its key is not skipped and its value is truthy. */
  predicate IsDirective(e: (string, Value), skip: set<string>)
  {
    e.0 !in skip && Truthy(e.1)
  }

  /** The entries that become directives, in queue order. */
  function Kept(q: Queue, skip: set<string>): (r: Queue)
    ensures |r| <= |q|
    ensures forall i :: 0 <= i < |r| ==> IsDirective(r[i], skip) && r[i] in q
  {
    if |q| == 0 then []
    else (if IsDirective(q[0], skip) then [q[0]] else []) + Kept(q[1..], skip)
  }

  /** No line contains a newline. */
  predicate SingleLines(xs: seq<string>)
  {
    forall i :: 0 <= i < |xs| ==> '\n' !in xs[i]
  }

  /** The first newline of `a + "\n" + b` is the one after `a` when `a` has none. */
  lemma FindNewline(a: string, b: string)
    requires '\n' !in a
    ensures Find(a + "\n" + b, "\n") == |a|
  {
    var s := a + "\n" + b;
    assert s[|a|..|a| + 1] == "\n";
    FindFirst(s, "\n", |a|);
    var r := Find(s, "\n");
    assert s[r..r + 1][0] == s[r];
    assert forall k :: 0 <= k < |a| ==> s[k] == a[k];
  }

  /** Reading a file written line by line back with `split("\n")` gives the lines and a final empty piece. */
  lemma {:induction false} SplitUnlines(xs: seq<string>)
    requires SingleLines(xs)
    ensures Split(Unlines(xs), "\n") == xs + [""]
    decreases |xs|
  {
    if xs != [] {
      var rest := Unlines(xs[1..]);
      var s := xs[0] + "\n" + rest;
      FindNewline(xs[0], rest);
      assert s[..|xs[0]|] == xs[0];
      assert s[|xs[0]| + 1..] == rest;
      SplitUnlines(xs[1..]);
      assert xs + [""] == [xs[0]] + (xs[1..] + [""]);
    }
  }

  /** The lines between a first and a last block are the matching pieces of the split text. */
  lemma SplitMiddle(d: seq<string>, c: seq<string>, e: seq<string>)
    requires SingleLines(d) && SingleLines(c) && SingleLines(e)
    ensures var pieces := Split(Unlines(d + c + e), "\n");
      |pieces| == |d| + |c| + |e| + 1 && pieces[|d|..|d| + |c|] == c
  {
    var lines := d + c + e;
    assert SingleLines(lines) by {
      forall i | 0 <= i < |lines|
        ensures '\n' !in lines[i]
      {
        if i < |d| {
          assert lines[i] == d[i];
        } else if i < |d| + |c| {
          assert lines[i] == c[i - |d|];
        } else {
          assert lines[i] == e[i - |d| - |c|];
        }
      }
    }
    SplitUnlines(lines);
    assert (lines + [""])[|d|..|d| + |c|] == c;
  }

  /** Filtering distributes over concatenation, so queue order is kept. */
  lemma {:induction false} KeptAppend(q1: Queue, q2: Queue, skip: set<string>)
    ensures Kept(q1 + q2, skip) == Kept(q1, skip) + Kept(q2, skip)
    decreases |q1|
  {
    if |q1| == 0 {
      assert q1 + q2 == q2;
    } else {
      assert (q1 + q2)[1..] == q1[1..] + q2;
      KeptAppend(q1[1..], q2, skip);
    }
  }

  /** Every entry that qualifies is kept, and nothing else is. */
  lemma {:induction false} KeptExactly(q: Queue, skip: set<string>, e: (string, Value))
    ensures e in Kept(q, skip) <==> e in q && IsDirective(e, skip)
    decreases |q|
  {
    if |q| > 0 {
      KeptExactly(q[1..], skip, e);
      assert q == [q[0]] + q[1..];
    }
  }

  /** One step of the loop over the queue items. */
  lemma KeptStep(q: Queue, i: nat, skip: set<string>)
    requires i < |q|
    ensures Kept(q[..i + 1], skip) ==
      Kept(q[..i], skip) + (if IsDirective(q[i], skip) then [q[i]] else [])
  {
    assert q[..i + 1] == q[..i] + [q[i]];
    KeptAppend(q[..i], [q[i]], skip);
    assert Kept([q[i]], skip) == (if IsDirective(q[i], skip) then [q[i]] else []) + Kept([], skip);
  }

  /** `head + key + "=" + str(value)`. */
  function DirectiveLine(e: (string, Value), head: string): string
  {
    head + e.0 + "=" + Show(e.1)
  }

  /** One directive line per entry. */
  function Render(es: Queue, head: string): (r: seq<string>)
    ensures |r| == |es|
    ensures forall i :: 0 <= i < |es| ==> r[i] == DirectiveLine(es[i], head)
  {
    seq(|es|, i requires 0 <= i < |es| => DirectiveLine(es[i], head))
  }

  lemma RenderAppend(a: Queue, b: Queue, head: string)
    ensures Render(a + b, head) == Render(a, head) + Render(b, head)
  {
  }

  /** The directive lines a queue produces. */
  function Directives(q: Queue, skip: set<string>, head: string): seq<string>
  {
    Render(Kept(q, skip), head)
  }

  /** The text written by the directive loop after `i` entries, extended by entry `i`. */
  lemma DirectiveStep(q: Queue, i: nat, skip: set<string>, head: string)
    requires i < |q|
    ensures Unlines(Directives(q[..i + 1], skip, head)) ==
      Unlines(Directives(q[..i], skip, head)) +
      (if IsDirective(q[i], skip) then DirectiveLine(q[i], head) + "\n" else "")
  {
    KeptStep(q, i, skip);
    var k := if IsDirective(q[i], skip) then [q[i]] else [];
    RenderAppend(Kept(q[..i], skip), k, head);
    UnlinesAppend(Render(Kept(q[..i], skip), head), Render(k, head));
    if IsDirective(q[i], skip) {
      assert Unlines(Render(k, head)) == DirectiveLine(q[i], head) + "\n" + Unlines([]);
    }
  }

  /** The loop `for key, value in queue.items(): if <kept>: write(head + key + "=" + str(value) + "\n")`. */
  method WriteDirectives(q: Queue, skip: set<string>, head: string) returns (text: string)
    ensures text == Unlines(Directives(q, skip, head))
  {
    text := "";
    var i := 0;
    while i < |q|
      invariant 0 <= i <= |q|
      invariant text == Unlines(Directives(q[..i], skip, head))
    {
      DirectiveStep(q, i, skip, head);
      if q[i].0 !in skip && Truthy(q[i].1) {
        var line := head + q[i].0 + "=" + Show(q[i].1);
        text := text + (line + "\n");
      }
      i := i + 1;
    }
    assert q[..i] == q;
  }

  /** The text before the first "=" of a line, and the text after it. */
  function SplitAtEq(line: string): (r: (string, string))
    ensures '=' in line ==> line == r.0 + "=" + r.1 && '=' !in r.0
  {
    if line == [] then ("", "")
    else if line[0] == '=' then ("", line[1..])
    else
      var rest := SplitAtEq(line[1..]);
      assert '=' in line ==> '=' in line[1..];
      ([line[0]] + rest.0, rest.1)
  }

  lemma {:induction false} SplitAtEqOf(k: string, v: string)
    requires '=' !in k
    ensures SplitAtEq(k + "=" + v) == (k, v)
    decreases |k|
  {
    if k == [] {
      assert k + "=" + v == "=" + v;
    } else {
      assert (k + "=" + v)[1..] == k[1..] + "=" + v;
      SplitAtEqOf(k[1..], v);
      assert [k[0]] + k[1..] == k;
    }
  }

  /**
   * A reader of the job file recovers each option: after the directive head,
   * the text up to the first "=" is the queue key (when the key has no "="),
   * and the rest is `str(value)`.
   */
  lemma DirectiveRoundTrip(q: Queue, skip: set<string>, head: string, i: nat)
    requires i < |Kept(q, skip)|
    requires '=' !in Kept(q, skip)[i].0
    ensures var line := Directives(q, skip, head)[i];
      StartsWith(line, head) &&
      SplitAtEq(line[|head|..]) == (Kept(q, skip)[i].0, Show(Kept(q, skip)[i].1))
  {
    var e := Kept(q, skip)[i];
    var line := Directives(q, skip, head)[i];
    assert line == DirectiveLine(e, head);
    assert line == head + (e.0 + "=" + Show(e.1));
    assert line[|head|..] == e.0 + "=" + Show(e.1);
    SplitAtEqOf(e.0, Show(e.1));
  }
}

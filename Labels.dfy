/**
 * The label file of `edge_coco_ssd.load_coco_ssd_model`: the file is read
 * with `readlines()`, every line is matched against `\s*(\d+)(.+)`, and the
 * pairs `(int(digits), text.strip())` are folded into a dictionary in which
 * a later line with the same id replaces an earlier one.
 */
module Labels {
  import opened Wrappers
  import opened Strings
  import opened Conversions

  /** Why the labels could not be loaded. */
  datatype LabelError =
    | CannotRead          // the file cannot be opened or decoded
    | NoMatch(line: nat)  // this line (0-based) does not match the pattern

  // ---- readlines ----

  function Concat(lines: seq<string>): string {
    if lines == [] then [] else lines[0] + Concat(lines[1..])
  }

  /** A line as `readlines` yields it: not empty, and a line feed only as its last character. */
  predicate IsLine(l: string) {
    |l| > 0 && forall i :: 0 <= i < |l| - 1 ==> l[i] != '\n'
  }

  /** `f.readlines()`: the text cut after every line feed; the last line may lack one. */
  function SplitLines(text: string): seq<string>
    decreases |text|
  {
    if text == [] then []
    else
      var k := IndexOf(text, '\n');
      var n := if k < |text| then k + 1 else k;
      [text[..n]] + SplitLines(text[n..])
  }

  /** The lines put together are the text. */
  lemma {:induction false} SplitLinesConcat(text: string)
    ensures Concat(SplitLines(text)) == text
    decreases |text|
  {
    if text != [] {
      var k := IndexOf(text, '\n');
      var n := if k < |text| then k + 1 else k;
      var rest := SplitLines(text[n..]);
      var lines := SplitLines(text);
      assert lines == [text[..n]] + rest;
      assert lines[0] == text[..n] && lines[1..] == rest;
      SplitLinesConcat(text[n..]);
      assert Concat(lines) == text[..n] + Concat(rest);
      assert text == text[..n] + text[n..];
    }
  }

  /** Each piece is a line, and every line but the last ends with a line feed. */
  lemma {:induction false} SplitLinesShape(text: string)
    ensures forall i :: 0 <= i < |SplitLines(text)| ==> IsLine(SplitLines(text)[i])
    ensures forall i :: 0 <= i < |SplitLines(text)| - 1 ==>
      IsLine(SplitLines(text)[i]) && SplitLines(text)[i][|SplitLines(text)[i]| - 1] == '\n'
    decreases |text|
  {
    if text != [] {
      var k := IndexOf(text, '\n');
      var n := if k < |text| then k + 1 else k;
      var rest := SplitLines(text[n..]);
      SplitLinesShape(text[n..]);
      var lines := SplitLines(text);
      assert lines == [text[..n]] + rest;
      assert IsLine(text[..n]);
      assert |lines| > 1 ==> k < |text|;
      assert forall i :: 1 <= i < |lines| ==> lines[i] == rest[i - 1];
    }
  }

  /** Text that ends in a line feed is cut independently of what follows it. */
  lemma {:induction false} SplitLinesAppend(x: string, y: string)
    requires |x| > 0 ==> x[|x| - 1] == '\n'
    ensures SplitLines(x + y) == SplitLines(x) + SplitLines(y)
    decreases |x|
  {
    if x != [] {
      var k := IndexOf(x, '\n');
      var xy := x + y;
      assert xy[..|x|] == x;
      assert IndexOf(xy, '\n') == k by {
        IndexOfPrefix(x, y, '\n');
      }
      var n := k + 1;
      assert xy[..n] == x[..n];
      assert xy[n..] == x[n..] + y;
      SplitLinesAppend(x[n..], y);
    } else {
      assert x + y == y;
    }
  }

  lemma IndexOfPrefix(x: string, y: string, c: char)
    requires IndexOf(x, c) < |x|
    ensures IndexOf(x + y, c) == IndexOf(x, c)
    decreases |x|
  {
    if x[0] != c {
      assert (x + y)[1..] == x[1..] + y;
      IndexOfPrefix(x[1..], y, c);
    }
  }

  /** A line feed at the start of a line is a line of its own. */
  lemma BlankLineIsALine(before: string, after: string)
    requires |before| > 0 ==> before[|before| - 1] == '\n'
    ensures var lines := SplitLines(before + "\n" + after);
      |SplitLines(before)| < |lines| && lines[|SplitLines(before)|] == "\n"
  {
    var tail := "\n" + after;
    assert before + "\n" + after == before + tail;
    SplitLinesAppend(before, tail);
    SplitLinesOfBlank(after);
  }

  lemma SplitLinesOfBlank(after: string)
    ensures SplitLines("\n" + after)[0] == "\n"
  {
    var tail := "\n" + after;
    assert IndexOf(tail, '\n') == 0;
    assert tail[..1] == "\n";
  }

  /** The pattern read declaratively: `line[..a]` is whitespace (`\s*`),
      `line[a..b]` a non-empty digit group (`(\d+)`) and `line[b..c]` a
      non-empty group without line feed (`(.+)`); `re.match` ignores the rest. */
  ghost predicate Matches(line: string, a: nat, b: nat, c: nat) {
    && a < b < c <= |line|
    && (forall j :: 0 <= j < a ==> IsSpace(line[j]))
    && (forall j :: a <= j < b ==> IsDigit(line[j]))
    && (forall j :: b <= j < c ==> line[j] != '\n')
  }

  /** The group boundaries `(a, b, c)` that the backtracking matcher settles on
      first, or None where `p.match` returns None. */
  function MatchSpan(line: string): Option<(nat, nat, nat)> {
    var a := SkipSpaces(line, 0);
    var b := SkipDigits(line, a);
    if b == a then None
    else if b < |line| && line[b] != '\n' then Some((a, b, LineEnd(line, b)))
    else if b - a >= 2 then
      // the digit run ends the line: `\d+` gives its last digit back to `.+`
      Some((a, b - 1, b))
    else None
  }

  /** The span found is a match, and `.+` runs on to a line feed or the end. */
  lemma MatchSpanSound(line: string)
    requires MatchSpan(line).Some?
    ensures var (a, b, c) := MatchSpan(line).value;
      Matches(line, a, b, c) && (c == |line| || line[c] == '\n')
  {
  }

  /** `p.match` fails exactly when the line has no match at all. */
  lemma MatchSpanComplete(line: string)
    ensures MatchSpan(line).Some? <==> exists a, b, c :: Matches(line, a, b, c)
  {
    if MatchSpan(line).Some? {
      var (a, b, c) := MatchSpan(line).value;
      assert Matches(line, a, b, c);
    } else if exists a, b, c :: Matches(line, a, b, c) {
      var a, b, c :| Matches(line, a, b, c);
      MatchBoundaries(line, a, b, c);
      assert false;
    }
  }

  /** Any match starts its digit group where the leading whitespace ends,
      and ends it within the digit run there. */
  lemma MatchBoundaries(line: string, a: nat, b: nat, c: nat)
    requires Matches(line, a, b, c)
    ensures a == SkipSpaces(line, 0)
    ensures b <= SkipDigits(line, a)
  {
  }

  /** The span found is the one backtracking tries first: among all matches it
      has the longest digit group, and for that group the longest text. */
  lemma MatchSpanGreedy(line: string, a: nat, b: nat, c: nat)
    requires Matches(line, a, b, c)
    ensures MatchSpan(line).Some?
    ensures MatchSpan(line).value.0 == a
    ensures b <= MatchSpan(line).value.1
    ensures b == MatchSpan(line).value.1 ==> c <= MatchSpan(line).value.2
  {
    MatchSpanComplete(line);
    MatchBoundaries(line, a, b, c);
  }

  /** The groups `(digits, text)` of `p.match(line)`, or None. */
  function MatchLine(line: string): (g: Option<(string, string)>)
    ensures g.Some? ==> |g.value.0| > 0 && AllDigits(g.value.0) && |g.value.1| > 0 && NoNewline(g.value.1)
  {
    match MatchSpan(line)
    case None => None
    case Some((a, b, c)) =>
      MatchSpanSound(line);
      Some((line[a..b], line[b..c]))
  }

  /** Examples of what the pattern does with typical and edge-case lines. */
  lemma MatchLineExamples()
    ensures MatchLine("  0  person\n") == Some(("0", "  person"))
    ensures MatchLine("12\n") == Some(("1", "2"))
    ensures MatchLine("7\n") == None
    ensures MatchLine("\n") == None
    ensures MatchLine("cat 3\n") == None
  {
    var l := "  0  person\n";
    assert SkipSpaces(l, 2) == 2;
    assert SkipSpaces(l, 0) == 2;
    assert SkipDigits(l, 3) == 3;
    assert SkipDigits(l, 2) == 3;
    assert LineEnd(l, 11) == 11;
    assert LineEnd(l, 3) == 11;
    assert SkipDigits("12\n", 0) == 2;
    assert SkipDigits("7\n", 0) == 1;
    assert SkipSpaces("\n", 0) == 1;
    assert l[2..3] == "0" && l[3..11] == "  person";
    assert "12\n"[0..1] == "1" && "12\n"[1..2] == "2";
  }

  // ---- the dictionary comprehension ----

  /** `(int(num), text.strip())` for a line that matches. */
  function Entry(line: string): Option<(int, string)> {
    var g := MatchLine(line);
    if g.None? then None else Some((DigitsValue(g.value.0), Strip(g.value.1)))
  }

  /** The generator over `f.readlines()`: one pair per line, None where the line does not match. */
  function Entries(lines: seq<string>): (es: seq<Option<(int, string)>>)
    ensures |es| == |lines|
    ensures forall i :: 0 <= i < |lines| ==> es[i] == Entry(lines[i])
  {
    seq(|lines|, i requires 0 <= i < |lines| => Entry(lines[i]))
  }

  /** Consuming the generator: all values in order, or the index of the first
      None, where `.groups()` is called on None and raises. */
  function Collect<T>(opts: seq<Option<T>>): (r: Result<seq<T>, nat>)
    ensures r.Success? ==> |r.value| == |opts| && forall i :: 0 <= i < |opts| ==> opts[i] == Some(r.value[i])
    ensures r.Failure? ==>
      r.error < |opts| && opts[r.error].None? &&
      forall i :: 0 <= i < r.error ==> opts[i].Some?
  {
    if opts == [] then Success([])
    else if opts[0].None? then Failure(0)
    else
      var rest := opts[1..];
      var tail := Collect(rest);
      if tail.Failure? then Failure(tail.error + 1)
      else
        var r := [opts[0].value] + tail.value;
        assert forall i :: 1 <= i < |opts| ==> opts[i] == rest[i - 1] && r[i] == tail.value[i - 1];
        Success(r)
  }

  /** The dictionary comprehension over the pairs: each pair in order
      assigns its text to its id. */
  function ToMap(entries: seq<(int, string)>): map<int, string> {
    if entries == [] then map[]
    else ToMap(entries[..|entries| - 1])[entries[|entries| - 1].0 := entries[|entries| - 1].1]
  }

  /** The dictionary has at most one entry per pair, and its keys are exactly
      the pairs' ids. */
  lemma {:induction false} ToMapKeys(entries: seq<(int, string)>)
    ensures |ToMap(entries)| <= |entries|
    ensures forall id :: id in ToMap(entries) <==> exists i :: 0 <= i < |entries| && entries[i].0 == id
  {
    if entries != [] {
      var last := |entries| - 1;
      var prefix := entries[..last];
      ToMapKeys(prefix);
      var m := ToMap(prefix);
      assert forall i :: 0 <= i < last ==> prefix[i] == entries[i];
      assert ToMap(entries).Keys == m.Keys + {entries[last].0};
      assert |m.Keys + {entries[last].0}| <= |m.Keys| + 1;
    }
  }

  /** A later pair with the same id wins: each id maps to the text of the
      last pair that carries it. */
  lemma {:induction false} ToMapLastWins(entries: seq<(int, string)>, i: nat)
    requires i < |entries|
    requires forall j :: i < j < |entries| ==> entries[j].0 != entries[i].0
    ensures entries[i].0 in ToMap(entries) && ToMap(entries)[entries[i].0] == entries[i].1
  {
    var last := |entries| - 1;
    if i < last {
      var prefix := entries[..last];
      assert forall j :: 0 <= j < last ==> prefix[j] == entries[j];
      ToMapLastWins(prefix, i);
    }
  }

  /** The comprehension over the generator's pairs. */
  function ParseEntries(es: seq<Option<(int, string)>>): Result<map<int, string>, nat> {
    match Collect(es)
    case Failure(i) => Failure(i)
    case Success(pairs) => Success(ToMap(pairs))
  }

  /** `{int(num): text.strip() for num, text in lines}`; a line that does not
      match ends the whole load at that line. */
  function ParseLabels(lines: seq<string>): Result<map<int, string>, nat> {
    ParseEntries(Entries(lines))
  }

  /** No pair after pair `i` carries pair `i`'s id. */
  ghost predicate LastWithId(es: seq<Option<(int, string)>>, i: nat)
    requires i < |es| && es[i].Some?
  {
    forall j :: i < j < |es| ==> es[j].None? || es[j].value.0 != es[i].value.0
  }

  /** The comprehension succeeds exactly when every line matches; otherwise it
      reports the first line that does not. The dictionary has at most one
      entry per line, holds exactly the ids of the lines, and each id maps to
      the text of the last line that carries it. */
  lemma ParseEntriesContents(es: seq<Option<(int, string)>>)
    ensures ParseEntries(es).Success? <==> forall i :: 0 <= i < |es| ==> es[i].Some?
    ensures ParseEntries(es).Failure? ==>
      var k := ParseEntries(es).error;
      k < |es| && es[k].None? && forall i :: 0 <= i < k ==> es[i].Some?
    ensures ParseEntries(es).Success? ==>
      var m := ParseEntries(es).value;
      && |m| <= |es|
      && (forall id :: id in m <==> exists i :: 0 <= i < |es| && es[i].Some? && es[i].value.0 == id)
      && (forall i :: 0 <= i < |es| && es[i].Some? && LastWithId(es, i) ==>
            es[i].value.0 in m && m[es[i].value.0] == es[i].value.1)
  {
    var r := Collect(es);
    if r.Success? {
      var pairs := r.value;
      var m := ToMap(pairs);
      ToMapKeys(pairs);
      forall id | id in m
        ensures exists i :: 0 <= i < |es| && es[i].Some? && es[i].value.0 == id
      {
        var i :| 0 <= i < |pairs| && pairs[i].0 == id;
        assert es[i] == Some(pairs[i]);
      }
      forall id | exists i :: 0 <= i < |es| && es[i].Some? && es[i].value.0 == id
        ensures id in m
      {
        var i :| 0 <= i < |es| && es[i].Some? && es[i].value.0 == id;
        assert pairs[i].0 == id;
      }
      forall i | 0 <= i < |es| && es[i].Some? && LastWithId(es, i)
        ensures es[i].value.0 in m && m[es[i].value.0] == es[i].value.1
      {
        assert forall j :: i < j < |pairs| ==> es[j] == Some(pairs[j]);
        ToMapLastWins(pairs, i);
      }
    } else {
      assert !forall i :: 0 <= i < |es| ==> es[i].Some?;
    }
  }

  /** `load_coco_ssd_model`'s label step on the decoded file contents (None if it cannot be read). */
  function LoadLabels(file: Option<string>): (r: Result<map<int, string>, LabelError>)
    ensures file.None? ==> r == Failure(CannotRead)
    ensures file.Some? && r.Success? ==> ParseLabels(SplitLines(file.value)) == Success(r.value)
    ensures file.Some? && r.Failure? ==>
      r.error.NoMatch? && ParseLabels(SplitLines(file.value)) == Failure(r.error.line)
  {
    match file
    case None => Failure(CannotRead)
    case Some(text) =>
      match ParseLabels(SplitLines(text))
      case Success(m) => Success(m)
      case Failure(i) => Failure(NoMatch(i))
  }

  /** A blank line anywhere aborts the load. */
  lemma BlankLineAborts(before: string, after: string)
    requires |before| > 0 ==> before[|before| - 1] == '\n'
    ensures LoadLabels(Some(before + "\n" + after)).Failure?
  {
    var text := before + "\n" + after;
    var lines := SplitLines(text);
    BlankLineIsALine(before, after);
    var k := |SplitLines(before)|;
    assert MatchSpan("\n").None?;
    var es := Entries(lines);
    assert es[k].None?;
    ParseEntriesContents(es);
  }
}

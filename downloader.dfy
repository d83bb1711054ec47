/**
 * The record reader of the downloader example. It hands a mapper one record
 * per split: the key is the split's first line number and the value is the
 * split's lines, each followed by '\n'. The file is a sequence of lines, none
 * of which contains '\n'; the split's start and length count lines.
 */
module Downloader {

  /** No line contains '\n', the terminator the value puts after each line. */
  predicate NoNewlines(lines: seq<string>)
  {
    forall k :: 0 <= k < |lines| ==> '\n' !in lines[k]
  }

  /** `line + '\n'` for every line, concatenated in order. */
  function JoinLines(lines: seq<string>): string
  {
    if |lines| == 0 then "" else JoinLines(lines[..|lines| - 1]) + lines[|lines| - 1] + "\n"
  }

  /** The index of the first line kept: the skip loop stops after `start` lines or at the end of the file. */
  function FirstKept(lineCount: nat, start: int): (s: nat)
    ensures s <= lineCount
  {
    if start <= 0 then 0 else if start < lineCount then start else lineCount
  }

  /** One past the last line kept: at most `numLines` lines after the first kept one, and not past the end. */
  function EndKept(lineCount: nat, start: int, numLines: int): (e: nat)
    ensures FirstKept(lineCount, start) <= e <= lineCount
  {
    var s := FirstKept(lineCount, start);
    if numLines <= 0 then s else if s + numLines < lineCount then s + numLines else lineCount
  }

  /** The lines of the split. */
  function SelectedLines(file: seq<string>, start: int, numLines: int): seq<string>
  {
    file[FirstKept(|file|, start)..EndKept(|file|, start, numLines)]
  }

  /** Java's `(int)` cast of a `long`: keep the low 32 bits, read as two's complement. */
  function ToInt32(x: int): (r: int)
    ensures -0x8000_0000 <= r < 0x8000_0000
    ensures (x - r) % 0x1_0000_0000 == 0
    ensures -0x8000_0000 <= x < 0x8000_0000 ==> r == x
  {
    var m := x % 0x1_0000_0000;
    if m >= 0x8000_0000 then m - 0x1_0000_0000 else m
  }

  class DownloaderRecordReader {
    var singletonEmit: bool
    var urls: string
    var startLine: int

    constructor ()
      ensures !singletonEmit && urls == "" && startLine == 0
    {
      singletonEmit := false;
      urls := "";
      startLine := 0;
    }

    /**
     * `initialize`: remember the start line, read past that many lines (or to
     * the end of the file), then append up to `splitLength` further lines,
     * each followed by '\n'. `pos` is the number of lines the reader has
     * returned so far; `pos < |file|` is `readLine() != null`.
     */
    method Initialize(file: seq<string>, splitStart: int, splitLength: int)
      modifies this
      ensures startLine == splitStart && !singletonEmit
      ensures urls == JoinLines(SelectedLines(file, splitStart, splitLength))
    {
      startLine := splitStart;
      var numLines := splitLength;
      singletonEmit := false;
      var pos := 0;
      var i := 0;
      while i < startLine && pos < |file|
        invariant startLine == splitStart && !singletonEmit
        invariant 0 <= i == pos <= |file|
        invariant splitStart <= 0 ==> i == 0
        invariant i <= splitStart || i == 0
      {
        pos := pos + 1;
        i := i + 1;
      }
      var first := pos;
      assert first == FirstKept(|file|, splitStart);
      urls := "";
      i := 0;
      while i < numLines && pos < |file|
        invariant startLine == splitStart && !singletonEmit
        invariant 0 <= i && pos == first + i <= |file|
        invariant i <= numLines || i == 0
        invariant urls == JoinLines(file[first..pos])
      {
        var line := file[pos];
        pos := pos + 1;
        assert file[first..pos][..pos - first - 1] == file[first..pos - 1];
        urls := urls + line + "\n";
        i := i + 1;
      }
      assert pos == EndKept(|file|, splitStart, splitLength);
    }

    /** `getProgress`: 0 until the record has been handed out, 1 from then on. */
    function GetProgress(): (p: real)
      reads this
      ensures p == 1.0 <==> singletonEmit
      ensures p == 0.0 <==> !singletonEmit
    {
      if singletonEmit then 1.0 else 0.0
    }

    /** `getCurrentKey`: the start line, narrowed to a Java `int`. */
    function GetCurrentKey(): (key: int)
      reads this
      ensures -0x8000_0000 <= key < 0x8000_0000
      ensures -0x8000_0000 <= startLine < 0x8000_0000 ==> key == startLine
    {
      ToInt32(startLine)
    }

    /** `getCurrentValue`: the joined lines of the split. */
    function GetCurrentValue(): (value: string)
      reads this
      ensures value == urls
    {
      urls
    }

    /** `nextKeyValue`: true exactly once, on the first call after `initialize`. */
    method NextKeyValue() returns (hasNext: bool)
      modifies this`singletonEmit
      ensures hasNext == !old(singletonEmit) && singletonEmit
    {
      if singletonEmit == false {
        singletonEmit := true;
        hasNext := true;
      } else {
        hasNext := false;
      }
    }
  }

  /**
   * The calls a framework makes on a fresh reader for one split: progress is 0,
   * the first `nextKeyValue` yields the one record, the second yields
   * nothing, and progress is then 1.
   */
  method ReadOneSplit(file: seq<string>, splitStart: int, splitLength: int)
    returns (before: real, first: bool, key: int, value: string, second: bool, after: real)
    ensures before == 0.0 && first && !second && after == 1.0
    ensures key == ToInt32(splitStart) && value == JoinLines(SelectedLines(file, splitStart, splitLength))
  {
    var reader := new DownloaderRecordReader();
    reader.Initialize(file, splitStart, splitLength);
    before := reader.GetProgress();
    first := reader.NextKeyValue();
    key := reader.GetCurrentKey();
    value := reader.GetCurrentValue();
    second := reader.NextKeyValue();
    after := reader.GetProgress();
  }

  // ---------------------------------------------------------------------------
  // Properties of the joined lines

  /** A start at or past the end of the file leaves no line, so the value is empty. */
  lemma StartPastEnd(file: seq<string>, start: int, numLines: int)
    requires start >= |file|
    ensures SelectedLines(file, start, numLines) == [] && JoinLines(SelectedLines(file, start, numLines)) == ""
  {
  }

  /** The split keeps `min(numLines, max(0, L - max(start, 0)))` lines, none when `numLines <= 0`, and they are the file's lines from the start on. */
  lemma SelectedCount(file: seq<string>, start: int, numLines: int)
    ensures |SelectedLines(file, start, numLines)|
         == if numLines <= 0 then 0
            else if start <= 0 then (if numLines < |file| then numLines else |file|)
            else if start >= |file| then 0
            else if numLines < |file| - start then numLines else |file| - start
    ensures forall k :: 0 <= k < |SelectedLines(file, start, numLines)| ==>
              SelectedLines(file, start, numLines)[k] == file[FirstKept(|file|, start) + k]
  {
  }

  /** The number of occurrences of `c` in `s`. */
  function Count(s: string, c: char): nat
  {
    if |s| == 0 then 0 else Count(s[..|s| - 1], c) + (if s[|s| - 1] == c then 1 else 0)
  }

  lemma {:induction false} CountAppend(a: string, b: string, c: char)
    ensures Count(a + b, c) == Count(a, c) + Count(b, c)
  {
    if |b| > 0 {
      assert (a + b)[..|a + b| - 1] == a + b[..|b| - 1];
      CountAppend(a, b[..|b| - 1], c);
    } else {
      assert a + b == a;
    }
  }

  lemma {:induction false} CountAbsent(s: string, c: char)
    requires c !in s
    ensures Count(s, c) == 0
  {
    if |s| > 0 {
      CountAbsent(s[..|s| - 1], c);
    }
  }

  /** The value holds exactly one '\n' per line, and each line ends with one. */
  lemma {:induction false} JoinLinesNewlines(lines: seq<string>)
    requires NoNewlines(lines)
    ensures Count(JoinLines(lines), '\n') == |lines|
    ensures |lines| > 0 ==> JoinLines(lines)[|JoinLines(lines)| - 1] == '\n'
  {
    if |lines| > 0 {
      var front := lines[..|lines| - 1];
      var last := lines[|lines| - 1];
      var body := JoinLines(front) + last;
      assert JoinLines(lines) == body + "\n";
      assert (body + "\n")[..|body|] == body;
      assert Count(JoinLines(lines), '\n') == Count(body, '\n') + 1;
      assert NoNewlines(front);
      JoinLinesNewlines(front);
      CountAppend(JoinLines(front), last, '\n');
      CountAbsent(last, '\n');
    }
  }

  /** The index of the first '\n' in `s`, or `|s|` when there is none. */
  function IndexOfNewline(s: string): (k: nat)
    ensures k <= |s| && '\n' !in s[..k] && (k < |s| ==> s[k] == '\n')
  {
    if |s| == 0 then 0
    else if s[0] == '\n' then 0
    else
      var k := IndexOfNewline(s[1..]);
      assert s[..k + 1] == [s[0]] + s[1..][..k];
      k + 1
  }

  /**
   * How a consumer of the value reads it back line by line, splitting at
   * '\n' only (`BufferedReader.readLine` also ends a line at '\r'): each
   * '\n' ends a line, and text after the last '\n' is one more line.
   */
  function ReadLines(s: string): seq<string>
    decreases |s|
  {
    if |s| == 0 then []
    else
      var k := IndexOfNewline(s);
      if k == |s| then [s] else [s[..k]] + ReadLines(s[k + 1..])
  }

  lemma {:induction false} IndexOfNewlineAfterLine(line: string, rest: string)
    requires '\n' !in line
    ensures IndexOfNewline(line + "\n" + rest) == |line|
  {
    var s := line + "\n" + rest;
    if |line| > 0 {
      assert s[0] == line[0];
      assert s[1..] == line[1..] + "\n" + rest;
      IndexOfNewlineAfterLine(line[1..], rest);
    }
  }

  lemma {:induction false} JoinLinesCons(line: string, rest: seq<string>)
    ensures JoinLines([line] + rest) == line + "\n" + JoinLines(rest)
  {
    if |rest| > 0 {
      var front := rest[..|rest| - 1];
      assert ([line] + rest)[..|rest|] == [line] + front;
      JoinLinesCons(line, front);
    } else {
      assert [line] + rest == [line];
      var none: seq<string> := [];
      assert [line][..0] == none;
    }
  }

  /** Reading the value back line by line gives exactly the lines of the split. */
  lemma {:induction false} ReadJoinedLines(lines: seq<string>)
    requires NoNewlines(lines)
    ensures ReadLines(JoinLines(lines)) == lines
  {
    if |lines| > 0 {
      var line, rest := lines[0], lines[1..];
      assert lines == [line] + rest;
      assert NoNewlines(rest);
      JoinLinesCons(line, rest);
      var s := JoinLines(lines);
      IndexOfNewlineAfterLine(line, JoinLines(rest));
      assert s[..|line|] == line;
      assert s[|line| + 1..] == JoinLines(rest);
      ReadJoinedLines(rest);
    }
  }
}

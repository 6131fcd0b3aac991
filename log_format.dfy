/** The text of log records and how the log file is cut into lines when it is read back. */
module LogFormat {

  /** The text writeToLog appends: the command, one space, then the payload. */
  function LogEntry(cmd: string, payload: string): string {
    cmd + " " + payload
  }

  /** The record Put writes: its payload is "key value\n", formatted before writeToLog is called. */
  function PutRecord(key: string, value: string): string {
    LogEntry("PUT", key + " " + value + "\n")
  }

  /** The record Delete writes: the key alone, with no line terminator. */
  function DeleteRecord(key: string): string {
    LogEntry("DELETE", key)
  }

  /** True when the text ends exactly at a line boundary: empty, or ending in '\n'. */
  predicate AtLineBoundary(s: string) {
    s == [] || s[|s| - 1] == '\n'
  }

  /** Removes one trailing carriage return, as the line scanner does with every line. */
  function DropCR(line: string): (r: string)
    ensures r <= line
    ensures |r| < |line| <==> |line| > 0 && line[|line| - 1] == '\r'
    ensures |line| - 1 <= |r|
  {
    if |line| > 0 && line[|line| - 1] == '\r' then line[..|line| - 1] else line
  }

  /** The position of the first '\n' in s, or |s| when there is none. */
  function LineEnd(s: string): (i: nat)
    ensures i <= |s|
    ensures forall j :: 0 <= j < i ==> s[j] != '\n'
    ensures i < |s| ==> s[i] == '\n'
  {
    if s == [] || s[0] == '\n' then 0 else 1 + LineEnd(s[1..])
  }

  /** The lines a line scanner yields for the file contents s: the text is split at every '\n',
      a trailing '\r' is dropped from each line, and a last line without '\n' is still yielded
      unless it is empty. */
  function Lines(s: string): seq<string>
    decreases |s|
  {
    if s == [] then []
    else
      var i := LineEnd(s);
      if i < |s| then [DropCR(s[..i])] + Lines(s[i + 1..])
      else [DropCR(s)]
  }

  /** A line followed by its terminator is read back as that line (less a trailing '\r'). */
  lemma LinesOfLine(x: string, rest: string)
    requires '\n' !in x
    ensures Lines(x + "\n" + rest) == [DropCR(x)] + Lines(rest)
  {
    var s := x + "\n" + rest;
    assert s[|x|] == '\n';
    var i := LineEnd(s);
    assert i == |x|;
    assert s[..i] == x;
    assert s[i + 1..] == rest;
  }

  /** Text without '\n' at the end of the file is read back as a last line of its own. */
  lemma LastLine(x: string)
    requires x != [] && '\n' !in x
    ensures Lines(x) == [DropCR(x)]
  {
    assert LineEnd(x) == |x|;
  }

  /** Text that ends at a line boundary splits into a first line, its '\n', and a rest that
      again ends at a line boundary. */
  lemma FirstLine(a: string) returns (x: string, tail: string)
    requires a != [] && AtLineBoundary(a)
    ensures a == x + "\n" + tail && '\n' !in x && AtLineBoundary(tail) && |tail| < |a|
  {
    var i := LineEnd(a);
    x, tail := a[..i], a[i + 1..];
    assert a == x + "\n" + tail;
    assert forall j :: 0 <= j < |x| ==> x[j] == a[j];
    if tail != [] {
      assert tail[|tail| - 1] == a[|a| - 1];
    }
  }

  /** Appending to a line and its rest appends to the rest. */
  lemma LineThenRest(x: string, tail: string, b: string)
    ensures x + "\n" + tail + b == x + "\n" + (tail + b)
  {
  }

  /** Text that ends at a line boundary is read back independently of what follows it. */
  lemma {:induction false} LinesAppend(a: string, b: string)
    requires AtLineBoundary(a)
    ensures Lines(a + b) == Lines(a) + Lines(b)
    decreases |a|
  {
    if a == [] {
      assert a + b == b;
    } else {
      var x, tail := FirstLine(a);
      calc {
        Lines(a + b);
      == { LineThenRest(x, tail, b); LinesOfLine(x, tail + b); }
        [DropCR(x)] + Lines(tail + b);
      == { LinesAppend(tail, b); }
        [DropCR(x)] + (Lines(tail) + Lines(b));
      ==
        [DropCR(x)] + Lines(tail) + Lines(b);
      == { LinesOfLine(x, tail); }
        Lines(a) + Lines(b);
      }
    }
  }
}

/** How replay splits one log line into fields and decides what the line asks for. */
module LineParse {
  import opened Outcomes

  /** Splits s at its first space into the text before it and the text after it. */
  function Cut(s: string): (r: Option<(string, string)>)
    ensures r.None? <==> ' ' !in s
    ensures r.Some? ==> ' ' !in r.value.0 && s == r.value.0 + " " + r.value.1
  {
    if s == [] then None
    else if s[0] == ' ' then Some(([], s[1..]))
    else
      match Cut(s[1..])
      case None => None
      case Some((before, after)) => Some(([s[0]] + before, after))
  }

  /** strings.SplitN(s, " ", 3): at most three fields; the first two end at the first two spaces
      and the third keeps everything after the second space, spaces included. */
  function SplitN3(s: string): (parts: seq<string>)
    ensures 1 <= |parts| <= 3
    ensures |parts| == 1 ==> parts[0] == s
    ensures |parts| == 2 ==> s == parts[0] + " " + parts[1]
    ensures |parts| == 3 ==> s == parts[0] + " " + parts[1] + " " + parts[2]
    ensures forall i :: 0 <= i < |parts| - 1 ==> ' ' !in parts[i]
    ensures |parts| < 3 ==> ' ' !in parts[|parts| - 1]
  {
    match Cut(s)
    case None => [s]
    case Some((first, rest)) =>
      match Cut(rest)
      case None => [first, rest]
      case Some((second, tail)) =>
        JoinFields(first, second, tail);
        [first, second, tail]
  }

  /** Joining three fields with spaces does not depend on how the joins are grouped. */
  lemma JoinFields(a: string, b: string, c: string)
    ensures a + " " + (b + " " + c) == a + " " + b + " " + c
  {
  }

  /** What one replayed line does to the map. */
  datatype Action =
    | Skip
    | ReplayPut(key: string, value: string)
    | ReplayDelete(key: string)
    | IndexPanic   // a PUT line with no third field: parts[2] is out of range

  /** True when line starts with the fields of p, the last of them complete. */
  predicate StartsWithFields(line: string, p: string) {
    |p| <= |line| && line[..|p|] == p && (|p| == |line| || line[|p|] == ' ')
  }

  /** The decision the replay loop takes for one line. */
  function ParseLine(line: string): Action {
    var parts := SplitN3(line);
    if |parts| < 2 then Skip
    else
      var op := parts[0];
      var key := parts[1];
      if op == "PUT" then
        if |parts| < 3 then IndexPanic else ReplayPut(key, parts[2])
      else if op == "DELETE" then ReplayDelete(key)
      else Skip
  }

  /** The PUT operation and its separator spell the prefix of every PUT line. */
  lemma PutWithSpace()
    ensures "PUT" + " " == "PUT "
  {
  }

  /** The DELETE operation and its separator spell the prefix of every DELETE line. */
  lemma DeleteWithSpace()
    ensures "DELETE" + " " == "DELETE "
  {
  }

  /** A line without a space is skipped. */
  lemma SpacelessLineSkipped(line: string)
    requires ' ' !in line
    ensures ParseLine(line) == Skip
  {
  }

  /** A replayed PUT comes from a line that is exactly PUT, the key and the value, each
      separated by one space. */
  lemma ParsedPut(line: string)
    requires ParseLine(line).ReplayPut?
    ensures ' ' !in ParseLine(line).key
    ensures line == "PUT " + ParseLine(line).key + " " + ParseLine(line).value
  {
    PutWithSpace();
  }

  /** A panicking line is PUT, one space and a key with no space after it: the value field
      is missing. */
  lemma ParsedPanic(line: string)
    requires ParseLine(line).IndexPanic?
    ensures |line| >= 4 && line[..4] == "PUT " && ' ' !in line[4..]
  {
    PutWithSpace();
    var parts := SplitN3(line);
    assert line == "PUT " + parts[1];
  }

  /** A replayed DELETE comes from a line that starts with DELETE, one space and the key, the
      key ending at the end of the line or at a space. */
  lemma ParsedDelete(line: string)
    requires ParseLine(line).ReplayDelete?
    ensures ' ' !in ParseLine(line).key
    ensures StartsWithFields(line, "DELETE " + ParseLine(line).key)
  {
    DeleteWithSpace();
    DeleteFields(line, SplitN3(line));
  }

  /** The decision for one line, stated on its fields, for the replay loop that computes them. */
  lemma ParseLineByFields(line: string)
    ensures var parts := SplitN3(line);
      if |parts| < 2 then ParseLine(line) == Skip
      else if parts[0] == "PUT" then
        ParseLine(line) == if |parts| < 3 then IndexPanic else ReplayPut(parts[1], parts[2])
      else if parts[0] == "DELETE" then ParseLine(line) == ReplayDelete(parts[1])
      else ParseLine(line) == Skip
  {
  }

  /** The fields of a DELETE line begin it: the operation, a space and the key. */
  lemma DeleteFields(line: string, parts: seq<string>)
    requires parts == SplitN3(line) && |parts| >= 2 && parts[0] == "DELETE"
    ensures StartsWithFields(line, "DELETE " + parts[1])
  {
    DeleteWithSpace();
    var p := "DELETE " + parts[1];
    if |parts| == 3 {
      assert line == p + (" " + parts[2]);
    }
  }

  /** The first space of a + " " + b is the one after a. */
  lemma {:induction false} CutAt(a: string, b: string)
    requires ' ' !in a
    ensures Cut(a + " " + b) == Some((a, b))
  {
    if a == [] {
      assert a + " " + b == " " + b;
    } else {
      assert (a + " " + b)[1..] == a[1..] + " " + b;
      CutAt(a[1..], b);
      assert [a[0]] + a[1..] == a;
    }
  }

  /** A line with two spaces after space-free fields a and b splits into a, b and the rest c. */
  lemma SplitThree(a: string, b: string, c: string)
    requires ' ' !in a && ' ' !in b
    ensures SplitN3(a + " " + b + " " + c) == [a, b, c]
  {
    assert a + " " + b + " " + c == a + " " + (b + " " + c);
    CutAt(a, b + " " + c);
    CutAt(b, c);
  }

  /** A line with one space between space-free fields a and b splits into a and b. */
  lemma SplitTwo(a: string, b: string)
    requires ' ' !in a && ' ' !in b
    ensures SplitN3(a + " " + b) == [a, b]
  {
    CutAt(a, b);
  }

  /** The first field of a line with a space is the text before that space. */
  lemma SplitFirst(op: string, rest: string)
    requires ' ' !in op
    ensures |SplitN3(op + " " + rest)| >= 2 && SplitN3(op + " " + rest)[0] == op
  {
    CutAt(op, rest);
  }

  /** A PUT line yields the key and everything after the second space as the value. */
  lemma PutLineParses(key: string, value: string)
    requires ' ' !in key
    ensures ParseLine("PUT " + key + " " + value) == ReplayPut(key, value)
  {
    assert "PUT " + key + " " + value == "PUT" + " " + key + " " + value;
    SplitThree("PUT", key, value);
  }

  /** A PUT line without a value field makes replay index past the end of the fields. */
  lemma PutLineWithoutValuePanics(key: string)
    requires ' ' !in key
    ensures ParseLine("PUT " + key) == IndexPanic
  {
    assert "PUT " + key == "PUT" + " " + key;
    SplitTwo("PUT", key);
  }

  /** A DELETE line deletes its second field, whether or not more text follows. */
  lemma DeleteLineParses(key: string, rest: string)
    requires ' ' !in key
    ensures ParseLine("DELETE " + key) == ReplayDelete(key)
    ensures ParseLine("DELETE " + key + " " + rest) == ReplayDelete(key)
  {
    assert "DELETE " + key == "DELETE" + " " + key;
    SplitTwo("DELETE", key);
    assert "DELETE " + key + " " + rest == "DELETE" + " " + key + " " + rest;
    SplitThree("DELETE", key, rest);
  }

  /** A line whose first field is neither PUT nor DELETE is ignored. */
  lemma UnknownOpSkipped(op: string, rest: string)
    requires ' ' !in op && op != "PUT" && op != "DELETE"
    ensures ParseLine(op + " " + rest) == Skip
  {
    SplitFirst(op, rest);
  }
}

/** Replay: rebuilding the map by folding the log's lines into it, and what that fold
    recovers from logs the store writes. */
module LogReplay {
  import opened Outcomes
  import opened LogFormat
  import opened LineParse

  /** The effect of one line's action on the map, as putReplay and deleteReplay apply it. */
  function Apply(m: map<string, string>, a: Action): Result<map<string, string>> {
    match a
    case Skip => Ok(m)
    case ReplayPut(k, v) => Ok(m[k := v])
    case ReplayDelete(k) => Ok(m - {k})
    case IndexPanic => Err(IndexOutOfRange)
  }

  /** Folds the lines into m from first to last; stops at the first line that panics. */
  function Replay(lines: seq<string>, m: map<string, string>): (r: Result<map<string, string>>)
    ensures r.Err? ==> r.error == IndexOutOfRange
    decreases |lines|
  {
    if lines == [] then Ok(m)
    else
      match Apply(m, ParseLine(lines[0]))
      case Err(e) => Err(e)
      case Ok(next) => Replay(lines[1..], next)
  }

  /** The fold of Replay read by position: the lines from index i on, folded into m. */
  function ReplayFrom(lines: seq<string>, i: nat, m: map<string, string>): Result<map<string, string>>
    requires i <= |lines|
    decreases |lines| - i
  {
    if i == |lines| then Ok(m)
    else
      match Apply(m, ParseLine(lines[i]))
      case Err(e) => Err(e)
      case Ok(next) => ReplayFrom(lines, i + 1, next)
  }

  /** Folding by position from index i is replaying the lines from i on. */
  lemma {:induction false} ReplayFromIsReplay(lines: seq<string>, i: nat, m: map<string, string>)
    requires i <= |lines|
    ensures ReplayFrom(lines, i, m) == Replay(lines[i..], m)
    decreases |lines| - i
  {
    if i < |lines| {
      assert lines[i..][0] == lines[i];
      assert lines[i..][1..] == lines[i + 1..];
      match Apply(m, ParseLine(lines[i]))
      case Err(e) =>
      case Ok(next) => ReplayFromIsReplay(lines, i + 1, next);
    }
  }

  /** Replaying two runs of lines is replaying the first, then the second from where it left off. */
  lemma {:induction false} ReplayAppend(l1: seq<string>, l2: seq<string>, m: map<string, string>)
    ensures Replay(l1 + l2, m) == match Replay(l1, m)
                                 case Ok(m1) => Replay(l2, m1)
                                 case Err(e) => Err(e)
    decreases |l1|
  {
    if l1 != [] {
      assert (l1 + l2)[0] == l1[0];
      assert (l1 + l2)[1..] == l1[1..] + l2;
      match Apply(m, ParseLine(l1[0]))
      case Err(e) =>
      case Ok(next) => ReplayAppend(l1[1..], l2, next);
    } else {
      assert l1 + l2 == l2;
    }
  }

  /** Replay fails exactly when some line is a PUT line without a value. */
  lemma {:induction false} ReplayFailsIffPanicLine(lines: seq<string>, m: map<string, string>)
    ensures Replay(lines, m).Err? <==> exists i :: 0 <= i < |lines| && ParseLine(lines[i]).IndexPanic?
    decreases |lines|
  {
    if lines != [] {
      match Apply(m, ParseLine(lines[0]))
      case Err(e) =>
        assert ParseLine(lines[0]).IndexPanic?;
      case Ok(next) =>
        ReplayFailsIffPanicLine(lines[1..], next);
        if exists i :: 0 <= i < |lines| && ParseLine(lines[i]).IndexPanic? {
          var i :| 0 <= i < |lines| && ParseLine(lines[i]).IndexPanic?;
          assert i != 0;
          assert ParseLine(lines[1..][i - 1]).IndexPanic?;
        }
        if exists j :: 0 <= j < |lines[1..]| && ParseLine(lines[1..][j]).IndexPanic? {
          var j :| 0 <= j < |lines[1..]| && ParseLine(lines[1..][j]).IndexPanic?;
          assert ParseLine(lines[j + 1]).IndexPanic?;
        }
    }
  }

  /** Keys and values that survive the log format: a key without spaces or line breaks, and a
      value without line breaks that does not end in a carriage return. */
  predicate PutRoundTrips(key: string, value: string) {
    ' ' !in key && '\n' !in key && '\n' !in value && !(|value| > 0 && value[|value| - 1] == '\r')
  }

  /** Keys whose DELETE record, as the last record of the log, is read back as written. */
  predicate DeleteRoundTrips(key: string) {
    ' ' !in key && '\n' !in key && !(|key| > 0 && key[|key| - 1] == '\r')
  }

  /** Replaying a single line applies its action. */
  lemma ReplayOne(line: string, m: map<string, string>)
    ensures Replay([line], m) == Apply(m, ParseLine(line))
  {
    match Apply(m, ParseLine(line))
    case Err(e) =>
    case Ok(n) => assert Replay([line], m) == Replay([], n);
  }

  /** A complete line appended to a log that ends at a line boundary is replayed after the
      log's own lines. */
  lemma AppendLineReplays(file: string, m0: map<string, string>, m: map<string, string>, line: string,
                          a: Action, s: string)
    requires AtLineBoundary(file) && Replay(Lines(file), m0) == Ok(m)
    requires '\n' !in line && DropCR(line) == line && ParseLine(line) == a
    requires s == file + (line + "\n")
    ensures AtLineBoundary(s)
    ensures Replay(Lines(s), m0) == Apply(m, a)
  {
    var rec := line + "\n";
    assert Lines(rec) == [line] by {
      assert rec == line + "\n" + "";
      LinesOfLine(line, "");
    }
    assert AtLineBoundary(file + rec);
    LinesAppend(file, rec);
    ReplayAppend(Lines(file), [line], m0);
    ReplayOne(line, m);
  }

  /** A last line without terminator appended to a log that ends at a line boundary is replayed
      after the log's own lines. */
  lemma AppendLastLineReplays(file: string, m0: map<string, string>, m: map<string, string>, line: string)
    requires AtLineBoundary(file) && Replay(Lines(file), m0) == Ok(m)
    requires line != [] && '\n' !in line && DropCR(line) == line
    ensures Replay(Lines(file + line), m0) == Apply(m, ParseLine(line))
  {
    LastLine(line);
    LinesAppend(file, line);
    ReplayAppend(Lines(file), [line], m0);
    ReplayOne(line, m);
  }

  /** A PUT record is its line plus a terminator, and that line is read back unchanged and
      replays as the Put it records. */
  lemma PutRecordLine(key: string, value: string)
    requires PutRoundTrips(key, value)
    ensures PutRecord(key, value) == "PUT " + key + " " + value + "\n"
    ensures '\n' !in "PUT " + key + " " + value
    ensures DropCR("PUT " + key + " " + value) == "PUT " + key + " " + value
    ensures ParseLine("PUT " + key + " " + value) == ReplayPut(key, value)
  {
    var x := "PUT " + key + " " + value;
    assert x[|x| - 1] != '\r' by {
      if value != [] { assert x[|x| - 1] == value[|value| - 1]; }
    }
    PutLineParses(key, value);
  }

  /** A PUT record on its own ends at a line boundary and is read back as its one line. */
  lemma PutRecordLines(key: string, value: string)
    requires PutRoundTrips(key, value)
    ensures AtLineBoundary(PutRecord(key, value))
    ensures Lines(PutRecord(key, value)) == ["PUT " + key + " " + value]
  {
    var line := "PUT " + key + " " + value;
    PutRecordLine(key, value);
    assert PutRecord(key, value) == line + "\n" + "";
    LinesOfLine(line, "");
  }

  /** Appending a PUT record to a log that ends at a line boundary replays as that Put. */
  lemma PutRecordReplays(file: string, m0: map<string, string>, m: map<string, string>, key: string, value: string)
    requires AtLineBoundary(file) && Replay(Lines(file), m0) == Ok(m)
    requires PutRoundTrips(key, value)
    ensures AtLineBoundary(file + PutRecord(key, value))
    ensures Replay(Lines(file + PutRecord(key, value)), m0) == Ok(m[key := value])
  {
    var line := "PUT " + key + " " + value;
    PutRecordLine(key, value);
    AppendLineReplays(file, m0, m, line, ReplayPut(key, value), file + PutRecord(key, value));
  }

  /** A DELETE record is a line without terminator that is read back unchanged and replays as
      the Delete it records. */
  lemma DeleteRecordLine(key: string)
    requires DeleteRoundTrips(key)
    ensures DeleteRecord(key) == "DELETE " + key
    ensures '\n' !in DeleteRecord(key)
    ensures DropCR(DeleteRecord(key)) == DeleteRecord(key)
    ensures ParseLine(DeleteRecord(key)) == ReplayDelete(key)
  {
    var line := DeleteRecord(key);
    assert line == "DELETE " + key;
    assert DropCR(line) == line by {
      if key != [] { assert line[|line| - 1] == key[|key| - 1]; }
    }
    assert ParseLine(line) == ReplayDelete(key) by {
      DeleteLineParses(key, "");
    }
  }

  /** Appending a DELETE record as the last record of a log that ends at a line boundary
      replays as that Delete. */
  lemma DeleteRecordReplays(file: string, m0: map<string, string>, m: map<string, string>, key: string)
    requires AtLineBoundary(file) && Replay(Lines(file), m0) == Ok(m)
    requires DeleteRoundTrips(key)
    ensures Replay(Lines(file + DeleteRecord(key)), m0) == Ok(m - {key})
  {
    DeleteRecordLine(key);
    AppendLastLineReplays(file, m0, m, DeleteRecord(key));
  }

  /** The log text a sequence of successful Put calls appends. */
  function PutsLog(puts: seq<(string, string)>): string
    decreases |puts|
  {
    if puts == [] then [] else PutRecord(puts[0].0, puts[0].1) + PutsLog(puts[1..])
  }

  /** The map a sequence of Put calls leaves, starting from m. */
  function ApplyPuts(m: map<string, string>, puts: seq<(string, string)>): map<string, string>
    decreases |puts|
  {
    if puts == [] then m else ApplyPuts(m[puts[0].0 := puts[0].1], puts[1..])
  }

  /** The lines a run of Put records is read back as, one per Put. */
  function PutLines(puts: seq<(string, string)>): seq<string>
    decreases |puts|
  {
    if puts == [] then [] else ["PUT " + puts[0].0 + " " + puts[0].1] + PutLines(puts[1..])
  }

  /** Every Put in the run has a key and value that survive the format. */
  predicate AllRoundTrip(puts: seq<(string, string)>) {
    forall i :: 0 <= i < |puts| ==> PutRoundTrips(puts[i].0, puts[i].1)
  }

  /** The records of a run of Puts end at a line boundary and are read back one line per Put. */
  lemma {:induction false} PutsLogLines(puts: seq<(string, string)>)
    requires AllRoundTrip(puts)
    ensures AtLineBoundary(PutsLog(puts))
    ensures Lines(PutsLog(puts)) == PutLines(puts)
    decreases |puts|
  {
    if puts != [] {
      var k, v := puts[0].0, puts[0].1;
      var rec, rest := PutRecord(k, v), PutsLog(puts[1..]);
      var line := "PUT " + k + " " + v;
      assert AllRoundTrip(puts[1..]) by {
        forall i | 0 <= i < |puts[1..]| ensures PutRoundTrips(puts[1..][i].0, puts[1..][i].1) {
          assert puts[1..][i] == puts[i + 1];
        }
      }
      PutsLogLines(puts[1..]);
      assert PutRoundTrips(k, v);
      PutRecordLines(k, v);
      assert AtLineBoundary(rec + rest) by {
        if rest != [] { assert (rec + rest)[|rec + rest| - 1] == rest[|rest| - 1]; }
        else { assert rec + rest == rec; }
      }
      calc {
        Lines(PutsLog(puts));
        Lines(rec + rest);
      == { LinesAppend(rec, rest); }
        Lines(rec) + Lines(rest);
        [line] + PutLines(puts[1..]);
        PutLines(puts);
      }
    }
  }

  /** Replaying the lines of a run of Puts applies those Puts in order. */
  lemma {:induction false} PutLinesReplay(puts: seq<(string, string)>, m: map<string, string>)
    requires forall i :: 0 <= i < |puts| ==> ' ' !in puts[i].0
    ensures Replay(PutLines(puts), m) == Ok(ApplyPuts(m, puts))
    decreases |puts|
  {
    if puts != [] {
      var k, v := puts[0].0, puts[0].1;
      assert ' ' !in k;
      PutLineParses(k, v);
      assert forall i :: 0 <= i < |puts[1..]| ==> puts[1..][i] == puts[i + 1];
      PutLinesReplay(puts[1..], m[k := v]);
      assert PutLines(puts)[1..] == PutLines(puts[1..]);
    }
  }

  /** Round trip: a log that ends at a line boundary and replays to m, extended by the records of
      a run of Put calls whose keys and values survive the format, replays to the map those Puts
      leave. */
  lemma PutsRoundTrip(file: string, m0: map<string, string>, m: map<string, string>,
                      puts: seq<(string, string)>)
    requires AtLineBoundary(file) && Replay(Lines(file), m0) == Ok(m)
    requires AllRoundTrip(puts)
    ensures AtLineBoundary(file + PutsLog(puts))
    ensures Replay(Lines(file + PutsLog(puts)), m0) == Ok(ApplyPuts(m, puts))
  {
    var log := PutsLog(puts);
    PutsLogLines(puts);
    assert AtLineBoundary(file + log) by {
      if log != [] { assert (file + log)[|file + log| - 1] == log[|log| - 1]; }
      else { assert file + log == file; }
    }
    LinesAppend(file, log);
    ReplayAppend(Lines(file), PutLines(puts), m0);
    assert forall i :: 0 <= i < |puts| ==> ' ' !in puts[i].0 by {
      forall i | 0 <= i < |puts| ensures ' ' !in puts[i].0 {
        assert PutRoundTrips(puts[i].0, puts[i].1);
      }
    }
    PutLinesReplay(puts, m);
  }

  /** A log written only by Put calls, replayed into the empty map, gives the map those Puts
      built live from the empty map. */
  lemma PutsFromEmptyRoundTrip(puts: seq<(string, string)>)
    requires AllRoundTrip(puts)
    ensures Replay(Lines(PutsLog(puts)), map[]) == Ok(ApplyPuts(map[], puts))
  {
    assert [] + PutsLog(puts) == PutsLog(puts);
    PutsRoundTrip([], map[], map[], puts);
  }
}

/** What the log format as written does to keys, values and records that do not fit it. */
module Quirks {
  import opened Outcomes
  import opened LogFormat
  import opened LineParse
  import opened LogReplay
  import opened KvStore

  /** The line that a DELETE record and the PUT record after it are read back as. */
  lemma FusedLine(key: string, nextKey: string, value: string) returns (fused: string)
    requires ' ' !in key && '\n' !in key && PutRoundTrips(nextKey, value)
    ensures DeleteRecord(key) + PutRecord(nextKey, value) == fused + "\n"
    ensures '\n' !in fused && DropCR(fused) == fused
    ensures ParseLine(fused) == ReplayDelete(key + "PUT")
  {
    var tail := nextKey + " " + value;
    fused := "DELETE " + (key + "PUT") + " " + tail;
    FusedText(key, nextKey, value, tail, fused);
    FusedLineParses(key, tail, fused);
  }

  /** The text of a DELETE record followed by a PUT record is the fused line plus one '\n'. */
  lemma FusedText(key: string, nextKey: string, value: string, tail: string, fused: string)
    requires PutRoundTrips(nextKey, value) && '\n' !in key
    requires tail == nextKey + " " + value && fused == "DELETE " + (key + "PUT") + " " + tail
    ensures DeleteRecord(key) + PutRecord(nextKey, value) == fused + "\n"
    ensures '\n' !in fused && DropCR(fused) == fused
  {
    assert PutRecord(nextKey, value) == "PUT " + tail + "\n" by {
      PutWithSpace();
      assert PutRecord(nextKey, value) == "PUT " + (tail + "\n");
    }
    assert DeleteRecord(key) == "DELETE " + key by {
      DeleteWithSpace();
    }
    assert "DELETE " + key + ("PUT " + tail + "\n") == fused + "\n" by {
      assert "PUT " == "PUT" + " ";
    }
    assert fused[|fused| - 1] == tail[|tail| - 1];
  }

  /** The fused line is a DELETE line whose key is the deleted key followed by "PUT". */
  lemma FusedLineParses(key: string, tail: string, fused: string)
    requires ' ' !in key && fused == "DELETE " + (key + "PUT") + " " + tail
    ensures ParseLine(fused) == ReplayDelete(key + "PUT")
  {
    assert ' ' !in key + "PUT";
    DeleteLineParses(key + "PUT", tail);
  }

  /** A DELETE record has no line terminator, so the next record is fused onto its line: replay
      then deletes the key followed by "PUT" and never applies the Put, where the live store
      deleted the key and then set the Put's key. */
  lemma DeleteFusesWithNextRecord(file: string, m0: map<string, string>, m: map<string, string>,
                                  key: string, nextKey: string, value: string)
    requires AtLineBoundary(file) && Replay(Lines(file), m0) == Ok(m)
    requires ' ' !in key && '\n' !in key && PutRoundTrips(nextKey, value)
    ensures Replay(Lines(file + DeleteRecord(key) + PutRecord(nextKey, value)), m0) == Ok(m - {key + "PUT"})
  {
    var fused := FusedLine(key, nextKey, value);
    var s := file + DeleteRecord(key) + PutRecord(nextKey, value);
    assert s == file + (fused + "\n");
    AppendLineReplays(file, m0, m, fused, ReplayDelete(key + "PUT"), s);
  }

  /** So a log to which Delete and then Put appended records no longer replays to the live map:
      a key the Put added is missing after replay. */
  lemma DeleteThenPutDisagreesWithLiveStore(file: string, m0: map<string, string>, m: map<string, string>,
                                            key: string, nextKey: string, value: string)
    requires AtLineBoundary(file) && Replay(Lines(file), m0) == Ok(m)
    requires ' ' !in key && '\n' !in key && PutRoundTrips(nextKey, value) && nextKey !in m
    ensures Replay(Lines(file + DeleteRecord(key) + PutRecord(nextKey, value)), m0) != Ok((m - {key})[nextKey := value])
  {
    DeleteFusesWithNextRecord(file, m0, m, key, nextKey, value);
    assert nextKey !in m - {key + "PUT"};
  }

  /** The line scanner drops a carriage return that ends a line, so a value ending in '\r' is
      read back without it. */
  lemma TrailingCarriageReturnDropped(key: string, value: string, m: map<string, string>)
    requires ' ' !in key && '\n' !in key && '\n' !in value
    ensures Replay(Lines(PutRecord(key, value + "\r")), m) == Ok(m[key := value])
  {
    var x := "PUT " + key + " " + (value + "\r");
    var line := "PUT " + key + " " + value;
    assert Lines(PutRecord(key, value + "\r")) == [line] by {
      assert PutRecord(key, value + "\r") == x + "\n" + "";
      assert '\n' !in x;
      LinesOfLine(x, "");
      assert DropCR(x) == line;
    }
    assert ParseLine(line) == ReplayPut(key, value) by {
      PutLineParses(key, value);
    }
    ReplayOne(line, m);
  }

  /** A key with a space is read back as the text before that space, with the rest of the key
      moved into the value. */
  lemma KeyWithSpaceSplits(a: string, b: string, value: string, m: map<string, string>)
    requires ' ' !in a && PutRoundTrips(a + b, value)
    ensures Replay(Lines(PutRecord(a + " " + b, value)), m) == Ok(m[a := b + " " + value])
  {
    var v := b + " " + value;
    assert PutRecord(a + " " + b, value) == PutRecord(a, v);
    assert PutRoundTrips(a, v) by {
      assert forall j :: 0 <= j < |a| ==> (a + b)[j] == a[j];
      assert forall j :: 0 <= j < |b| ==> (a + b)[|a| + j] == b[j];
      if value != [] { assert v[|v| - 1] == value[|value| - 1]; }
    }
    assert Replay(Lines([]), m) == Ok(m);
    PutRecordReplays([], m, m, a, v);
    assert [] + PutRecord(a, v) == PutRecord(a, v);
  }

  /** A line break in a value ends the record early, and replay reads the text after it as a
      record of its own: here a DELETE of another key. */
  lemma ValueLineBreakInjectsRecord(key: string, value: string, victim: string, m: map<string, string>)
    requires PutRoundTrips(key, value) && DeleteRoundTrips(victim)
    ensures Replay(Lines(PutRecord(key, value + "\n" + DeleteRecord(victim))), m) == Ok(m[key := value] - {victim})
  {
    var x := "PUT " + key + " " + value;
    var del := DeleteRecord(victim);
    assert PutRecord(key, value + "\n" + del) == (x + "\n") + (del + "\n");
    PutRecordLine(key, value);
    assert Replay(Lines([]), m) == Ok(m);
    AppendLineReplays([], m, m, x, ReplayPut(key, value), x + "\n");
    DeleteRecordLine(victim);
    AppendLineReplays(x + "\n", m, m[key := value], del, ReplayDelete(victim),
                      PutRecord(key, value + "\n" + del));
  }

  /** A line break in a key can leave a PUT line without a value, and replaying the log then
      panics on the out-of-range field. */
  lemma KeyLineBreakPanics(key: string, value: string, m: map<string, string>)
    requires ' ' !in key && '\n' !in key && !(|key| > 0 && key[|key| - 1] == '\r')
    ensures Replay(Lines(PutRecord(key + "\nPUT", value)), m) == Err(IndexOutOfRange)
  {
    var x := "PUT " + key;
    var rest := "PUT " + value + "\n";
    assert Lines(PutRecord(key + "\nPUT", value)) == [x] + Lines(rest) by {
      assert PutRecord(key + "\nPUT", value) == x + "\n" + rest;
      LinesOfLine(x, rest);
      assert DropCR(x) == x by {
        if key != [] { assert x[|x| - 1] == key[|key| - 1]; }
      }
    }
    PutLineWithoutValuePanics(key);
  }

  /** A Put whose write stops after "PUT " or inside the key leaves a last line with no value
      field. The write error is not reported, the live map still gets the key, and replaying the
      log panics: the store no longer reopens. */
  lemma PartialPutWritePanics(file: string, m0: map<string, string>, m: map<string, string>,
                              key: string, value: string, n: nat)
    requires AtLineBoundary(file) && Replay(Lines(file), m0) == Ok(m)
    requires ' ' !in key && '\n' !in key && '\r' !in key
    requires 4 <= n <= 4 + |key|
    ensures Replay(Lines(file + Appended(PutRecord(key, value), WriteFails(n))), m0) == Err(IndexOutOfRange)
  {
    var part := key[..n - 4];
    var line := "PUT " + part;
    assert Appended(PutRecord(key, value), WriteFails(n)) == line by {
      assert PutRecord(key, value) == "PUT " + (key + " " + value + "\n");
    }
    assert DropCR(line) == line by {
      assert line[|line| - 1] == ' ' || line[|line| - 1] in key;
    }
    AppendLastLineReplays(file, m0, m, line);
    PutLineWithoutValuePanics(part);
  }
}

# buckDB key-value store, modelled in Dafny

buckDB is a small key-value store written in Go. A `KVStore` keeps a map from string key to
string value in memory and mirrors every change in an append-only log file. `Put` appends a
`PUT key value` record and sets the key. `Delete` checks that the key is present, appends a
`DELETE key` record and removes the key. `Get` reads the map alone. `NewKVStore` opens
(creating) the log and replays it line by line into an empty map. Replay uses the apply-only
helpers `putReplay` and `deleteReplay`, which never write to the log.

The model follows the code as written, including its log format:
- The payload of a PUT is written as `key value\n`.
- A DELETE record has no line terminator.
- Replay cuts each line with `strings.SplitN(line, " ", 3)`.
- A failed write is only printed; `writeToLog` still returns no error.

Modules:
- `Outcomes` (outcomes.dfy): `Option`, `Result` and the `Error` kinds (not found, I/O error,
  index out of range).
- `LogFormat` (log_format.dfy): the text of the records, and `Lines`. `Lines` cuts file contents
  the way a default `bufio.Scanner` does: split at `'\n'`, drop one trailing `'\r'` from each line,
  and yield a final unterminated line when it is not empty.
- `LineParse` (line_parse.dfy): `SplitN3`, which is `strings.SplitN(s, " ", 3)`, and `ParseLine`.
  `ParseLine` is the decision the replay loop takes for one line: skip it, put, delete, or index
  past the fields on a `PUT key` line with no value (a Go panic, modelled as the error
  `IndexOutOfRange`).
- `LogReplay` (replay.dfy): replay as a pure fold of the lines into a map, and the round-trip
  lemmas. For keys and values that fit the format, they prove two things. A log that ends at a
  line boundary and is extended by any run of Puts replays to the map those Puts leave. One
  DELETE record as the last record of such a log replays as that Delete. They promise nothing
  for records after a DELETE record: `Quirks` shows that such a log no longer replays to the map
  the store holds.
- `Quirks` (quirks.dfy): what the format as written does to records that do not fit it. Proved
  examples:
  - a Put after a Delete fuses with the DELETE line, because the DELETE record has no newline;
  - a trailing `'\r'` in a value is lost;
  - a space in a key moves part of the key into the value;
  - a line break in a value injects a record;
  - a line break in a key makes replay panic;
  - a Put whose write stops partway into the key leaves a PUT line with no value, so replay
    panics, although the Put reported no error.
- `KvStore` (kv_store.dfy): the `KVStore` class. Its fields are the map and the log file's
  contents. Its methods mirror `writeToLog`, `NewKVStore`, `loadFromLog`, `Put`, `putReplay`,
  `Get`, `Delete` and `deleteReplay`, each with the state it leaves. Take a log that replays to
  the map and ends at a line boundary. A fully written `Put` of a fitting key and value keeps
  both properties. A fully written `Delete` of a fitting key keeps the first one only: afterwards
  the log no longer ends at a line boundary.
- `Scenario` (scenario.dfy): a client. It opens an empty log, makes two Puts, deletes one key,
  reads both keys, and reopens the log. Every step is checked against the class contracts only.

In the `KVStore` class:
- The file system is the field `logFile`. `logFile` is the file's contents, to which writes
  append.
- How an attempted write turns out is a parameter `io: IoOutcome`: written; open failed, so
  nothing is written; or write failed after some characters.
- Whether the two opens in `NewKVStore` and `loadFromLog` fail is a pair of boolean parameters.

## Model

| member | source | states |
|---|---|---|
| LogFormat.LogEntry | main.go:26 | no contract: the text `cmd value`; specified through PutRecordLine and DeleteRecordLine |
| LogFormat.PutRecord | main.go:87-88 | no contract: the PUT record; PutRecordLine, PutRecordLines and PutRecordReplays state its text, how it is scanned and how it replays |
| LogFormat.DeleteRecord | main.go:116 | no contract: the DELETE record; DeleteRecordLine and DeleteRecordReplays state its text, how it is scanned and how it replays, and Quirks.FusedLine shows what follows it |
| LogFormat.Lines | main.go:62-64 | no contract: the scanner's lines; specified by LinesOfLine, LastLine and LinesAppend |
| LogFormat.DropCR | main.go:62-64 | the scanned line is the raw line less at most one character, and is shorter exactly when the raw line ends in a carriage return |
| LogFormat.LinesOfLine | main.go:62-64 | text without a line break followed by `'\n'` is scanned as that one line, then the lines of the rest |
| LogFormat.LastLine | main.go:62-64 | a non-empty unterminated tail without line breaks is scanned as one last line |
| LogFormat.LinesAppend | main.go:62-64 | text that ends at a line boundary is scanned the same whatever follows it: the lines of a + b are the lines of a, then those of b |
| LineParse.Cut | main.go:65 | no result exactly when the text has no space; otherwise a space-free first part, one space, and the rest, which make up the text |
| LineParse.SplitN3 | main.go:65 | one to three fields that rejoin with single spaces into the line; every field but the last is space-free, and so is the last when there are fewer than three |
| LineParse.CutAt | main.go:65 | the text before the first space of a + " " + b is a when a has no space |
| LineParse.SplitThree | main.go:65 | a line of two space-free fields and a rest splits into exactly those three fields |
| LineParse.SplitTwo | main.go:65 | a line of two space-free fields splits into exactly those two fields |
| LineParse.SplitFirst | main.go:65-71 | a line with a space after a space-free first field has at least two fields, the first being that field |
| LineParse.ParseLine | main.go:65-77 | no contract: the loop's decision for one line; specified by SpacelessLineSkipped, ParsedPut, ParsedPanic and ParsedDelete one way, and by PutLineParses, PutLineWithoutValuePanics, DeleteLineParses and UnknownOpSkipped the other way |
| LineParse.SpacelessLineSkipped | main.go:65-68 | a line without a space yields fewer than two fields and is skipped |
| LineParse.ParsedPut | main.go:65-74 | a line replayed as a Put is exactly `PUT`, a space-free key, one space and the value |
| LineParse.ParsedPanic | main.go:70-74 | a line whose replay indexes past the fields is `PUT `, then a key with no space after it |
| LineParse.ParsedDelete | main.go:70-76 | a line replayed as a Delete starts with `DELETE`, one space and a space-free key that ends the line or is followed by a space |
| LineParse.PutLineParses | main.go:65-74 | conversely, `PUT key value` with a space-free key is replayed as a Put of that key and value, spaces in the value included |
| LineParse.PutLineWithoutValuePanics | main.go:70-74 | `PUT key` with no value field makes replay index past the fields |
| LineParse.DeleteLineParses | main.go:65-76 | for a key without spaces, `DELETE key`, alone or followed by a space and any text, is replayed as a Delete of key |
| LineParse.UnknownOpSkipped | main.go:70-77 | a line whose first field is neither PUT nor DELETE changes nothing |
| LogReplay.Apply | main.go:73-77 | no contract: what putReplay (main.go:92-96) and deleteReplay (main.go:122-131) do to the map for one parsed line, or the panic; KVStore.ReplayLine is proved to compute it |
| LogReplay.Replay | main.go:53-81 | replay of the lines fails only by indexing past the fields |
| LogReplay.ReplayFromIsReplay | main.go:63-79 | the replay loop's fold from line i on is replay of the lines from i on |
| LogReplay.ReplayFrom | main.go:63-79 | no contract: the loop's fold by line index; ReplayFromIsReplay ties it to Replay, and it is LoadFromLog's loop invariant |
| LogReplay.ReplayAppend | main.go:63-79 | replaying two runs of lines is replaying the first, then the second from the map the first leaves; a failure in the first is final |
| LogReplay.ReplayFailsIffPanicLine | main.go:63-79 | replay fails if and only if some line is a PUT line without a value |
| LogReplay.ReplayOne | main.go:63-77 | replaying a single line applies that line's action |
| LogReplay.AppendLineReplays | main.go:62-77 | a line without line breaks or a trailing carriage return, appended with its `'\n'` to a log that replays and ends at a line boundary, is replayed after the log's own lines, and the log again ends at a line boundary |
| LogReplay.AppendLastLineReplays | main.go:62-77 | a non-empty unterminated last line without line breaks or a trailing carriage return, appended to such a log, is replayed after the log's own lines |
| LogReplay.PutRecordLine | main.go:87-88 | for a key without spaces or line breaks and a value without line breaks that does not end in a carriage return, the PUT record is `PUT key value` plus a line break, that line has no break or trailing carriage return, and it replays as a Put of key and value |
| LogReplay.PutRecordLines | main.go:87-88 | for a key and value that fit the format (as in PutRecordLine), a PUT record alone ends at a line boundary and is scanned as its one line |
| LogReplay.PutRecordReplays | main.go:84-90 | round trip: for a key and value that fit the format, a PUT record appended to a log that replays to m and ends at a line boundary replays to m with the key set to the value, and the log again ends at a line boundary |
| LogReplay.DeleteRecordLine | main.go:116 | for a key without spaces or line breaks that does not end in a carriage return, the DELETE record is `DELETE key` with no line break, is scanned unchanged, and replays as a Delete of key |
| LogReplay.DeleteRecordReplays | main.go:108-120 | round trip: for a key without spaces or line breaks that does not end in a carriage return, a DELETE record appended as the last record of a log that replays to m and ends at a line boundary replays to m without the key |
| LogReplay.PutsLogLines | main.go:84-90 | when every key and value of the run fits the format, the records of a run of Puts end at a line boundary and are scanned as one line per Put |
| LogReplay.PutLinesReplay | main.go:63-79 | when no key of the run has a space, replaying those lines applies the Puts in order |
| LogReplay.ApplyPuts | main.go:89 | no contract: the map a run of live Puts leaves; PutLinesReplay, PutsRoundTrip and PutsFromEmptyRoundTrip equate replay with it |
| LogReplay.PutsLog | main.go:87-88 | no contract: the text a run of Puts appends; PutsLogLines and PutsRoundTrip specify it |
| LogReplay.PutsRoundTrip | main.go:84-90 | round trip: a log that replays to m and ends at a line boundary, extended by a run of Puts whose keys and values all fit the format, replays to the map those Puts leave from m and again ends at a line boundary |
| LogReplay.PutsFromEmptyRoundTrip | main.go:35-51 | reopening a log written only by Puts whose keys and values all fit the format rebuilds the map those Puts built live |
| Quirks.FusedLine | main.go:116 | for a key without spaces or line breaks and a next Put whose key and value fit the format, the DELETE record and the PUT record after it are scanned as one line, replayed as a Delete of the key followed by `PUT` |
| Quirks.DeleteFusesWithNextRecord | main.go:84-120 | under the same conditions, a log that replays to m and ends at a line boundary, extended by a Delete and then a Put, replays to m without the key followed by `PUT`: the Delete and the Put are both lost |
| Quirks.DeleteThenPutDisagreesWithLiveStore | main.go:84-120 | under the same conditions, when the Put's key was absent from m before, that log does not replay to the map the store holds live after the two calls |
| Quirks.TrailingCarriageReturnDropped | main.go:62-64 | for a key without spaces or line breaks and a value without line breaks, a value ending in a carriage return reopens without it |
| Quirks.KeyWithSpaceSplits | main.go:65-74 | a key made of two parts without spaces or line breaks joined by one space, with a value that fits the format, reopens as the first part, with the second part and a space joined onto the front of the value |
| Quirks.ValueLineBreakInjectsRecord | main.go:62-77 | for a key and value that fit the format and a victim key that fits a DELETE record, a value with a line break followed by `DELETE victim` replays as the Put of the text before the break and then the Delete of the victim |
| Quirks.KeyLineBreakPanics | main.go:73-74 | for a key without spaces or line breaks that does not end in a carriage return, the key followed by a line break and `PUT` leaves a PUT line with no value, and reopening the log panics |
| Quirks.PartialPutWritePanics | main.go:19-32 | a Put whose write fails after `PUT ` or partway into a key without spaces, line breaks or carriage returns (an error writeToLog does not return) leaves a last line with no value field; a log that replayed and ended at a line boundary before then panics on replay |
| KvStore.Appended | main.go:19-32 | what a write leaves at the end of the file: a prefix of the content; all of it when written, none when the open fails, and as many characters as were written when the write stops |
| KvStore.KVStore.Init | main.go:40-44 | a store over the given file with an empty map |
| KvStore.KVStore.NewKVStore | main.go:35-51 | an open failure is an I/O error and no store; otherwise a fresh store whose map is the replay of the whole file, or an index error when replay panics |
| KvStore.KVStore.LoadFromLog | main.go:53-81 | a read-open failure is an I/O error and leaves the map; otherwise the map becomes the replay of the file's lines, or the index error comes back |
| KvStore.KVStore.ReplayLine | main.go:64-77 | one pass of the loop: the map afterwards is the line's action applied to the map before, and panicking is reported |
| KvStore.KVStore.WriteToLog | main.go:19-32 | the file gains what the write leaves of `cmd value`; only an open failure is an error, and a failed write returns no error |
| KvStore.KVStore.Put | main.go:84-90 | the map sets the key whatever became of the write; the file gains what the write left of the PUT record; if the log replayed to the map and ended at a line boundary, a fully written Put of a key and value that fit the format keeps both |
| KvStore.KVStore.PutReplay | main.go:92-96 | sets the key and leaves the file unchanged |
| KvStore.KVStore.Get | main.go:98-106 | the key's value and no error when present; the empty string and not found when absent |
| KvStore.KVStore.Delete | main.go:108-120 | an absent key is not found and changes neither map nor file; a present key is removed after the file gains what the write left of the DELETE record; if the log replayed to the map and ended at a line boundary, a fully written Delete of a key that fits the format keeps it replaying to the map |
| KvStore.KVStore.DeleteReplay | main.go:122-131 | removes the key, leaves the file; an absent key is reported not found and leaves the map as it was |
| Scenario.OpenEmpty | main.go:35-51 | a store opened over an empty log has the empty map and a log that replays to it |
| Scenario.PutNameAndRole | main.go:84-90 | two Puts set both keys and keep the log replaying to the map |
| Scenario.DeleteRole | main.go:108-120 | deleting a present key removes it and the log still replays to the map |
| Scenario.PutPutDelete | main.go:133-154 | after Put name, Put role and Delete role, the map is exactly name to Drew, Get name gives Drew, Get role is not found, and the log replays to the map |
| Scenario.ReopenAfterDelete | main.go:35-51 | reopening the log that PutPutDelete left gives a store in which Get name gives Drew and Get role is not found |

## Left out

- The `sync.RWMutex` and every question of concurrency: the methods are modelled as atomic
  steps.
- `os.OpenFile` flags and permissions, and the reopening of the file on every write. The file
  is a string that writes append to. Open and write failures are inputs.
- The `log` file handle opened in `NewKVStore` is never used or closed by the code. The model
  leaves it out.
- Scanner failures: `scanner.Err()` is never consulted, and a line longer than the scanner's
  buffer (64 KiB) ends the scan without an error. The model scans the whole file and does not
  bound line length.
- `fmt.Println` of a failed write: the message is output only, and the model drops it.
- `main` is program entry with hard-coded paths and output. `Scenario.PutPutDelete` replays its
  calls, with the two Puts its comments show, against an empty log.
- The panic on a `PUT key` line is modelled as `LoadFromLog` and `NewKVStore` returning the
  error `IndexOutOfRange` without a store, not as the process stopping.
- KvStore.KVStore.Put: the log-replays-to-map invariant is stated only for a fully written
  record of a key without spaces or line breaks and a value without line breaks that does not
  end in a carriage return. For other inputs the code's format does not round-trip, as the
  `Quirks` lemmas show.
- KvStore.KVStore.Delete: the same invariant is stated only for a key that fits the format. It
  cannot be carried past a following Put, because the DELETE record does not end its line
  (`Quirks.DeleteFusesWithNextRecord`).
- Go strings are bytes, and the model's strings are sequences of characters. `WriteFails(n)`
  keeps n characters, while `WriteString` can stop in the middle of a multi-byte UTF-8
  character. Keys and values that are not valid UTF-8 have no counterpart in the model.
  Splitting at spaces, line breaks and carriage returns is the same either way.
- The loop body of `loadFromLog` is written as the method `ReplayLine`, which the loop calls
  once per line.

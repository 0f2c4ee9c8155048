/** The metadata log and its rotation (io_iii/metadata_logging.py). Characters stand for the bytes
    of the file. */
module MetadataLog {
  import opened Values
  import opened ContentSafety

  const ROTATION_MAX_ENTRIES := 200
  const ROTATION_MAX_BYTES := 100000

  predicate IsBreak(c: char) {
    c == '\n' || c == '\r'
  }

  predicate IsBlankByte(c: char) {
    c in {' ', '\t', '\n', '\r', '\U{000B}', '\U{000C}'}
  }

  predicate Blank(line: string) {
    forall i | 0 <= i < |line| :: IsBlankByte(line[i])
  }

  /** The first line break from `from` on, or the end. */
  function NextBreak(s: string, from: nat): (i: nat)
    requires from <= |s|
    ensures from <= i <= |s|
    ensures forall j | from <= j < i :: !IsBreak(s[j])
    ensures i < |s| ==> IsBreak(s[i])
    decreases |s| - from
  {
    if from == |s| || IsBreak(s[from]) then from else NextBreak(s, from + 1)
  }

  /** `bytes.splitlines`: a carriage return and a line feed together end one line. */
  function SplitLines(s: string): seq<string>
    decreases |s|
  {
    if s == "" then []
    else
      var i := NextBreak(s, 0);
      if i == |s| then [s]
      else if s[i] == '\r' && i + 1 < |s| && s[i + 1] == '\n' then [s[..i]] + SplitLines(s[i + 2..])
      else [s[..i]] + SplitLines(s[i + 1..])
  }

  function DropBlank(lines: seq<string>): seq<string> {
    if lines == [] then []
    else (if Blank(lines[0]) then [] else [lines[0]]) + DropBlank(lines[1..])
  }

  function LinesOf(file: string): seq<string> {
    DropBlank(SplitLines(file))
  }

  /** `xs[-n:]`. */
  function Last<T>(xs: seq<T>, n: nat): seq<T> {
    if |xs| <= n then xs else xs[|xs| - n..]
  }

  /** Each record on a line of its own. */
  function Joined(lines: seq<string>): string {
    if lines == [] then "" else Joined(lines[..|lines| - 1]) + lines[|lines| - 1] + "\n"
  }

  /** What `_rotate_if_needed` leaves of a file. */
  function Rotated(file: string): string {
    var lines := LinesOf(file);
    if |file| <= ROTATION_MAX_BYTES && |lines| <= ROTATION_MAX_ENTRIES then file
    else
      var keep := Last(lines, ROTATION_MAX_ENTRIES);
      if keep == [] then "\n" else Joined(keep)
  }

  /** One call: its record, what json.dumps makes of the completed record, and the values drawn. */
  datatype Attempt = Attempt(record: map<Key, Value>, timestampMs: int, requestId: string)

  /** json.dumps: None when it raises. */
  type Dumps = Value -> Option<string>

  function SetDefault(m: map<Key, Value>, name: string, v: Value): map<Key, Value> {
    if Name(name) in m then m else m[Name(name) := v]
  }

  function PayloadOf(a: Attempt): Value {
    var p := SetDefault(a.record, "schema", Str("io-iii-metadata-jsonl"));
    var p := SetDefault(p, "schema_version", Str("v1.0"));
    var p := SetDefault(p, "timestamp_ms", Int(a.timestampMs));
    Dict(SetDefault(p, "request_id", Str(a.requestId)))
  }

  datatype Outcome = Disabled | Refused | Unserialisable | Written(line: string)

  function OutcomeOf(a: Attempt, enabled: bool, dumps: Dumps): Outcome {
    if !enabled then Disabled
    else if HasForbiddenKey(PayloadOf(a)) then Refused
    else match dumps(PayloadOf(a))
      case None => Unserialisable
      case Some(line) => Written(line)
  }

  predicate HasForbiddenKey(v: Value) {
    !Clean(v, METADATA_FORBIDDEN_KEYS)
  }

  /** The file after one call: rotation comes before the guard, and opening the file before the dump. */
  function FileAfter(file: Option<string>, o: Outcome): Option<string> {
    var rotated := if file.Some? then Some(Rotated(file.value)) else None;
    match o
    case Disabled => file
    case Refused => rotated
    case Unserialisable => Some(rotated.GetOrElse(""))
    case Written(line) => Some(rotated.GetOrElse("") + line + "\n")
  }

  class Log {
    var file: Option<string>

    constructor ()
      ensures file == None
    {
      file := None;
    }

    /** `_rotate_if_needed`. */
    method RotateIfNeeded()
      modifies this
      ensures file == if old(file).Some? then Some(Rotated(old(file).value)) else None
    {
      if file.None? {
        return;
      }
      var keep: seq<string>;
      if |file.value| <= ROTATION_MAX_BYTES {
        var lines := LinesOf(file.value);
        if |lines| <= ROTATION_MAX_ENTRIES {
          return;
        }
        keep := Last(lines, ROTATION_MAX_ENTRIES);
      } else {
        var lines := LinesOf(file.value);
        keep := Last(lines, ROTATION_MAX_ENTRIES);
      }
      var text := JoinLines(keep);
      file := Some(text);
    }

    /** `append_metadata`. */
    method Append(a: Attempt, enabled: bool, dumps: Dumps) returns (outcome: Outcome)
      modifies this
      ensures outcome == OutcomeOf(a, enabled, dumps)
      ensures file == FileAfter(old(file), outcome)
    {
      hide Rotated, Clean;
      if !enabled {
        return Disabled;
      }
      RotateIfNeeded();
      var payload := a.record;
      payload := SetDefault(payload, "schema", Str("io-iii-metadata-jsonl"));
      payload := SetDefault(payload, "schema_version", Str("v1.0"));
      payload := SetDefault(payload, "timestamp_ms", Int(a.timestampMs));
      payload := SetDefault(payload, "request_id", Str(a.requestId));
      var admitted := AssertNoForbiddenKeys(Dict(payload), METADATA_FORBIDDEN_KEYS);
      if !admitted {
        return Refused;
      }
      if file.None? {
        file := Some("");
      }
      match dumps(Dict(payload)) {
        case None => outcome := Unserialisable;
        case Some(line) =>
          file := Some(file.value + line + "\n");
          outcome := Written(line);
      }
    }
  }

  /** `b"\n".join(keep) + b"\n"`. */
  method JoinLines(keep: seq<string>) returns (text: string)
    ensures text == if keep == [] then "\n" else Joined(keep)
  {
    text := "";
    for i := 0 to |keep|
      invariant i > 0 ==> text + "\n" == Joined(keep[..i])
      invariant i == 0 ==> text == ""
    {
      assert keep[..i + 1][..i] == keep[..i];
      text := if i == 0 then keep[0] else text + "\n" + keep[i];
    }
    assert keep[..|keep|] == keep;
    text := text + "\n";
  }

  // ---- Reading back what was written ------------------------------------------------------

  /** What json.dumps yields for a record: not blank, and with every line break escaped. */
  predicate OneLine(line: string) {
    !Blank(line) && forall i | 0 <= i < |line| :: !IsBreak(line[i])
  }

  lemma {:induction false} NextBreakIs(s: string, from: nat, i: nat)
    requires from <= i < |s| && IsBreak(s[i])
    requires forall j | from <= j < i :: !IsBreak(s[j])
    ensures NextBreak(s, from) == i
  {
  }

  lemma {:induction false} JoinedFront(first: string, rest: seq<string>)
    ensures Joined([first] + rest) == first + "\n" + Joined(rest)
    decreases |rest|
  {
    var all := [first] + rest;
    if rest == [] {
      assert all[..0] == [];
    } else {
      assert all[..|all| - 1] == [first] + rest[..|rest| - 1];
      JoinedFront(first, rest[..|rest| - 1]);
    }
  }

  lemma {:induction false} LinesOfJoined(lines: seq<string>)
    requires forall i | 0 <= i < |lines| :: OneLine(lines[i])
    ensures LinesOf(Joined(lines)) == lines
    decreases |lines|
  {
    if lines != [] {
      var first, rest := lines[0], lines[1..];
      var text := Joined(lines);
      assert lines == [first] + rest;
      JoinedFront(first, rest);
      NextBreakIs(text, 0, |first|);
      assert text[..|first|] == first;
      assert text[|first| + 1..] == Joined(rest);
      assert SplitLines(text) == [first] + SplitLines(Joined(rest));
      LinesOfJoined(rest);
    }
  }

  /** Lines hold no line break of either kind, and the blank ones are dropped. */
  lemma {:induction false} LinesAreWhole(file: string)
    ensures forall line | line in SplitLines(file) :: '\n' !in line && '\r' !in line
    decreases |file|
  {
    if file != "" {
      var i := NextBreak(file, 0);
      assert '\n' !in file[..i] && '\r' !in file[..i];
      if i < |file| {
        LinesAreWhole(file[i + 1..]);
        if i + 1 < |file| {
          LinesAreWhole(file[i + 2..]);
        }
      }
    }
  }

  lemma {:induction false} BlanksAreDropped(lines: seq<string>)
    ensures forall line :: line in DropBlank(lines) <==>
                           && line in lines
                           && exists c :: c in line && c !in {' ', '\t', '\n', '\r', '\U{000B}', '\U{000C}'}
    decreases |lines|
  {
    if lines != [] {
      BlanksAreDropped(lines[1..]);
      assert lines == [lines[0]] + lines[1..];
      assert Blank(lines[0]) <==> forall c | c in lines[0] :: IsBlankByte(c);
    }
  }

  /** A carriage return and a line feed together end one line. */
  lemma CarriageReturns()
    ensures SplitLines("a\r\nb\rc\n") == ["a", "b", "c"]
  {
    var s := "a\r\nb\rc\n";
    NextBreakIs(s, 0, 1);
    assert s[..1] == "a" && s[3..] == "b\rc\n";
    NextBreakIs("b\rc\n", 0, 1);
    assert "b\rc\n"[..1] == "b" && "b\rc\n"[2..] == "c\n";
    NextBreakIs("c\n", 0, 1);
    assert "c\n"[..1] == "c" && "c\n"[2..] == "";
  }

  // ---- What the log holds --------------------------------------------------------------------

  /** The file holds exactly these records, one to a line. */
  ghost predicate Holds(file: Option<string>, records: seq<string>) {
    && file.GetOrElse("") == Joined(records)
    && forall i | 0 <= i < |records| :: OneLine(records[i])
  }

  /** Rotation keeps the last two hundred records, whatever the size of the file. */
  lemma RotationKeepsLast(file: Option<string>, records: seq<string>)
    requires Holds(file, records)
    ensures Holds(if file.Some? then Some(Rotated(file.value)) else None, Last(records, ROTATION_MAX_ENTRIES))
  {
    LinesOfJoined(records);
    if records == [] {
      assert file.GetOrElse("") == "";
    }
  }

  /** The code documents that rotation drops records when the log exceeds 200 entries or 100 KB. It drops
      some exactly when there are more than 200, and what it leaves exceeds 100 KB exactly when the last
      200 records do. */
  lemma RotationDropsIff(file: string, records: seq<string>)
    requires Holds(Some(file), records)
    ensures LinesOf(Rotated(file)) == records <==> |records| <= ROTATION_MAX_ENTRIES
    ensures |Rotated(file)| > ROTATION_MAX_BYTES <==> |Joined(Last(records, ROTATION_MAX_ENTRIES))| > ROTATION_MAX_BYTES
  {
    hide Rotated, LinesOf, OneLine, Joined;
    RotationKeepsLast(Some(file), records);
    LinesOfJoined(Last(records, ROTATION_MAX_ENTRIES));
  }

  /** A log over the size limit that rotation leaves alone: one long record. */
  lemma OversizeStays(line: string)
    requires OneLine(line) && |line| >= ROTATION_MAX_BYTES
    ensures |line + "\n"| > ROTATION_MAX_BYTES && Rotated(line + "\n") == line + "\n"
  {
    hide Rotated, OneLine;
    assert Joined([line]) == line + "\n" by {
      assert [line][..0] == [] && Joined([]) == "" && "" + line == line;
    }
    RotationKeepsLast(Some(line + "\n"), [line]);
  }

  lemma OneCall(file: Option<string>, records: seq<string>, o: Outcome)
    requires Holds(file, records)
    requires o.Written? ==> OneLine(o.line)
    ensures Holds(FileAfter(file, o),
              match o
              case Disabled => records
              case Written(line) => Last(records, ROTATION_MAX_ENTRIES) + [line]
              case _ => Last(records, ROTATION_MAX_ENTRIES))
  {
    hide Rotated, OneLine;
    RotationKeepsLast(file, records);
    if o.Written? {
      var kept := Last(records, ROTATION_MAX_ENTRIES);
      assert (kept + [o.line])[..|kept|] == kept;
    }
  }

  // ---- Any sequence of calls ---------------------------------------------------------------------

  function FileOf(outcomes: seq<Outcome>): Option<string> {
    if outcomes == [] then None else FileAfter(FileOf(outcomes[..|outcomes| - 1]), outcomes[|outcomes| - 1])
  }

  /** The records of the accepted calls. */
  function Accepted(outcomes: seq<Outcome>): seq<string> {
    if outcomes == [] then []
    else
      var o := outcomes[|outcomes| - 1];
      Accepted(outcomes[..|outcomes| - 1]) + if o.Written? then [o.line] else []
  }

  /** How many records the log keeps: one more than the limit until the next call that gets past the switch. */
  function Room(outcomes: seq<Outcome>): nat {
    if outcomes == [] then ROTATION_MAX_ENTRIES
    else
      match outcomes[|outcomes| - 1]
      case Disabled => Room(outcomes[..|outcomes| - 1])
      case Written(_) => ROTATION_MAX_ENTRIES + 1
      case _ => ROTATION_MAX_ENTRIES
  }

  lemma {:induction false} RoomIsBounded(outcomes: seq<Outcome>)
    ensures ROTATION_MAX_ENTRIES <= Room(outcomes) <= ROTATION_MAX_ENTRIES + 1
    decreases |outcomes|
  {
    if outcomes != [] {
      RoomIsBounded(outcomes[..|outcomes| - 1]);
    }
  }

  lemma LastOfLast<T>(xs: seq<T>, n: nat, m: nat)
    requires m <= n
    ensures Last(Last(xs, n), m) == Last(xs, m)
  {
    var kept := Last(xs, n);
    if |xs| > n {
      assert kept[|kept| - m..] == xs[|xs| - m..];
    }
  }

  lemma LastAndOne<T>(xs: seq<T>, m: nat, x: T)
    ensures Last(xs, m) + [x] == Last(xs + [x], m + 1)
  {
    if |xs| > m {
      var all := xs + [x];
      assert all[|all| - (m + 1)..] == xs[|xs| - m..] + [x];
    }
  }

  /** Starting with no file, whatever was accepted or refused in between: the log holds the last
      accepted records in order, 201 of them right after an accepted call and 200 once a later call
      was refused, or all of them while there are fewer. */
  lemma {:induction false} LogHoldsTheLastRecords(outcomes: seq<Outcome>)
    requires forall i | 0 <= i < |outcomes| && outcomes[i].Written? :: OneLine(outcomes[i].line)
    ensures Holds(FileOf(outcomes), Last(Accepted(outcomes), Room(outcomes)))
    decreases |outcomes|
  {
    if outcomes != [] {
      hide Holds, FileAfter, OneLine, Last;
      var before, o := outcomes[..|outcomes| - 1], outcomes[|outcomes| - 1];
      LogHoldsTheLastRecords(before);
      RoomIsBounded(before);
      OneMoreCall(FileOf(before), Accepted(before), Room(before), o);
      assert Accepted(before) + [] == Accepted(before);
    }
  }

  lemma OneMoreCall(file: Option<string>, accepted: seq<string>, room: nat, o: Outcome)
    requires Holds(file, Last(accepted, room)) && room >= ROTATION_MAX_ENTRIES
    requires o.Written? ==> OneLine(o.line)
    ensures Holds(FileAfter(file, o),
              match o
              case Disabled => Last(accepted, room)
              case Written(line) => Last(accepted + [line], ROTATION_MAX_ENTRIES + 1)
              case _ => Last(accepted, ROTATION_MAX_ENTRIES))
  {
    hide Holds, FileAfter, OneLine, Last;
    OneCall(file, Last(accepted, room), o);
    LastOfLast(accepted, room, ROTATION_MAX_ENTRIES);
    if o.Written? {
      LastAndOne(accepted, ROTATION_MAX_ENTRIES, o.line);
    }
  }

  /** The log holds more than 200 records exactly if more were accepted and no call was refused since. */
  lemma ExceedsLimitIff(outcomes: seq<Outcome>)
    ensures |Last(Accepted(outcomes), Room(outcomes))| > ROTATION_MAX_ENTRIES <==>
            |Accepted(outcomes)| > ROTATION_MAX_ENTRIES && Room(outcomes) > ROTATION_MAX_ENTRIES
  {
    RoomIsBounded(outcomes);
  }

  /** A refused call can only drop the oldest record of a log of 201. */
  lemma RefusalDropsAtMostTheOldest(outcomes: seq<Outcome>, refusal: Outcome)
    requires forall i | 0 <= i < |outcomes| && outcomes[i].Written? :: OneLine(outcomes[i].line)
    requires !refusal.Written?
    ensures var held := Last(Accepted(outcomes), Room(outcomes));
            var file := FileOf(outcomes + [refusal]);
            if refusal.Disabled? || |held| <= ROTATION_MAX_ENTRIES then Holds(file, held) else
              |held| == ROTATION_MAX_ENTRIES + 1 && Holds(file, held[1..])
  {
    LogHoldsTheLastRecords(outcomes);
    RoomIsBounded(outcomes);
    OneCall(FileOf(outcomes), Last(Accepted(outcomes), Room(outcomes)), refusal);
    assert (outcomes + [refusal])[..|outcomes|] == outcomes;
  }

  // ---- What may be written -----------------------------------------------------------------------

  lemma DefaultIsClean(m: map<Key, Value>, name: string, v: Value)
    requires name !in METADATA_FORBIDDEN_KEYS && Clean(v, METADATA_FORBIDDEN_KEYS)
    ensures Clean(Dict(SetDefault(m, name, v)), METADATA_FORBIDDEN_KEYS) <==> Clean(Dict(m), METADATA_FORBIDDEN_KEYS)
  {
    var all := SetDefault(m, name, v);
    assert forall k | k in m :: k in all && all[k] == m[k];
  }

  /** The payload is the record with the four default fields it lacks. */
  lemma PayloadHolds(a: Attempt)
    ensures var p := PayloadOf(a);
            && p.Dict?
            && p.entries.Keys ==
                 a.record.Keys + {Name("schema"), Name("schema_version"), Name("timestamp_ms"), Name("request_id")}
            && (forall k | k in a.record :: p.entries[k] == a.record[k])
            && (Name("schema") !in a.record ==> p.Get("schema") == Str("io-iii-metadata-jsonl"))
            && (Name("schema_version") !in a.record ==> p.Get("schema_version") == Str("v1.0"))
            && (Name("timestamp_ms") !in a.record ==> p.Get("timestamp_ms") == Int(a.timestampMs))
            && (Name("request_id") !in a.record ==> p.Get("request_id") == Str(a.requestId))
  {
  }

  /** The default fields never offend. */
  lemma PayloadOffendsIff(a: Attempt)
    ensures HasForbidden(PayloadOf(a), METADATA_FORBIDDEN_KEYS) <==>
            HasForbidden(Dict(a.record), METADATA_FORBIDDEN_KEYS)
  {
    hide Clean, HasForbidden, SetDefault;
    CleanIffNoForbiddenKey(PayloadOf(a), METADATA_FORBIDDEN_KEYS);
    CleanIffNoForbiddenKey(Dict(a.record), METADATA_FORBIDDEN_KEYS);
    ScalarsAreClean();
    var p := SetDefault(a.record, "schema", Str("io-iii-metadata-jsonl"));
    DefaultIsClean(a.record, "schema", Str("io-iii-metadata-jsonl"));
    DefaultIsClean(p, "schema_version", Str("v1.0"));
    p := SetDefault(p, "schema_version", Str("v1.0"));
    DefaultIsClean(p, "timestamp_ms", Int(a.timestampMs));
    p := SetDefault(p, "timestamp_ms", Int(a.timestampMs));
    DefaultIsClean(p, "request_id", Str(a.requestId));
  }

  lemma ScalarsAreClean()
    ensures forall t: string :: Clean(Str(t), METADATA_FORBIDDEN_KEYS)
    ensures forall n: int :: Clean(Int(n), METADATA_FORBIDDEN_KEYS)
  {
  }

  /** A call writes nothing while logging is disabled, is refused exactly if a forbidden key occurs
      anywhere in its record, and otherwise writes what json.dumps makes of the payload, if anything. */
  lemma OutcomeIff(a: Attempt, enabled: bool, dumps: Dumps)
    ensures var o := OutcomeOf(a, enabled, dumps);
            var offends := HasForbidden(Dict(a.record), METADATA_FORBIDDEN_KEYS);
            && (o.Disabled? <==> !enabled)
            && (o.Refused? <==> enabled && offends)
            && (o.Written? <==> enabled && !offends && dumps(PayloadOf(a)).Some?)
            && (o.Written? ==> dumps(PayloadOf(a)) == Some(o.line))
  {
    hide Clean, HasForbidden, PayloadOf;
    PayloadOffendsIff(a);
    CleanIffNoForbiddenKey(PayloadOf(a), METADATA_FORBIDDEN_KEYS);
  }

  /** A call with the switch as it stands. */
  datatype Call = Call(attempt: Attempt, enabled: bool)

  function OutcomesOf(calls: seq<Call>, dumps: Dumps): (outcomes: seq<Outcome>)
    ensures |outcomes| == |calls|
  {
    seq(|calls|, i requires 0 <= i < |calls| => OutcomeOf(calls[i].attempt, calls[i].enabled, dumps))
  }

  /** A line is the dump of a value with no forbidden key anywhere that holds all entries of a call's record. */
  ghost predicate ComesFrom(line: string, c: Call, dumps: Dumps) {
    && c.enabled
    && exists v: Value ::
         && dumps(v) == Some(line) && v.Dict? && !HasForbidden(v, METADATA_FORBIDDEN_KEYS)
         && forall k | k in c.attempt.record :: k in v.entries && v.entries[k] == c.attempt.record[k]
  }

  lemma {:induction false} AcceptedComeFrom(calls: seq<Call>, dumps: Dumps, j: nat) returns (i: nat)
    requires j < |Accepted(OutcomesOf(calls, dumps))|
    ensures i < |calls| && ComesFrom(Accepted(OutcomesOf(calls, dumps))[j], calls[i], dumps)
    decreases |calls|
  {
    hide OutcomeOf, HasForbidden, PayloadOf;
    var n := |calls| - 1;
    var front := OutcomesOf(calls[..n], dumps);
    assert OutcomesOf(calls, dumps)[..n] == front;
    if j < |Accepted(front)| {
      i := AcceptedComeFrom(calls[..n], dumps, j);
    } else {
      i := n;
      OutcomeIff(calls[n].attempt, calls[n].enabled, dumps);
      PayloadOffendsIff(calls[n].attempt);
      PayloadHolds(calls[n].attempt);
    }
  }

  lemma OutcomesAreLines(calls: seq<Call>, dumps: Dumps)
    requires forall v, line | dumps(v) == Some(line) :: OneLine(line)
    ensures var o := OutcomesOf(calls, dumps); forall i | 0 <= i < |o| && o[i].Written? :: OneLine(o[i].line)
  {
    hide OneLine, Clean, PayloadOf;
  }

  /** Whatever is logged, starting with no file: every line of the log is the dump of a value without any
      forbidden key that holds the record of some call made while logging was enabled. */
  lemma EveryLineIsClean(calls: seq<Call>, dumps: Dumps)
    requires forall v, line | dumps(v) == Some(line) :: OneLine(line)
    ensures forall line | line in LinesOf(FileOf(OutcomesOf(calls, dumps)).GetOrElse("")) ::
              exists i :: 0 <= i < |calls| && ComesFrom(line, calls[i], dumps)
  {
    hide OneLine, LinesOf, FileOf, OutcomesOf, Accepted, ComesFrom, Joined;
    var outcomes := OutcomesOf(calls, dumps);
    OutcomesAreLines(calls, dumps);
    LogHoldsTheLastRecords(outcomes);
    var held := Last(Accepted(outcomes), Room(outcomes));
    LinesOfJoined(held);
    forall line | line in held
      ensures exists i :: 0 <= i < |calls| && ComesFrom(line, calls[i], dumps)
    {
      assert line in Accepted(outcomes);
      var j: nat :| j < |Accepted(outcomes)| && Accepted(outcomes)[j] == line;
      var i := AcceptedComeFrom(calls, dumps, j);
    }
  }
}

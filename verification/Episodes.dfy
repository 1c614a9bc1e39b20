/** The episode record codec of src/agent_runtime/memory/models.py. */
module Episodes {
  import opened Wrappers
  import opened Text

  datatype EpisodeRecord = EpisodeRecord(
    episodeId: string,
    runId: string,
    taskSummary: string,
    outcome: string,
    keyDecisions: seq<string>,
    errorMessages: seq<string>,
    stepCount: int,
    recordedAt: string)

  datatype MemoryRecord = MemoryRecord(
    memoryId: string,
    namespace: string,
    key: string,
    memoryType: string,
    content: string,
    importance: real,
    updatedAt: string,
    metadata: map<string, string>)

  /** `int()` refuses its argument. */
  datatype DecodeError = ValueError

  const EPISODIC := "episodic"

  const BAR := '|'

  // ----- Strings -----

  /** `s.split("|")`. */
  function Split(s: string): (parts: seq<string>)
    ensures parts != []
  {
    if s == "" then [""]
    else
      var rest := Split(s[1..]);
      if s[0] == BAR then [""] + rest else [[s[0]] + rest[0]] + rest[1..]
  }

  /** `str(n)`. */
  function IntToString(n: int): string {
    if n < 0 then "-" + Decimal(-n) else Decimal(n)
  }

  predicate IsDigit(c: char) {
    '0' <= c <= '9'
  }

  function DigitsValue(s: string): Option<nat> {
    if s == "" then Some(0)
    else
      var last := s[|s| - 1];
      var front := DigitsValue(s[..|s| - 1]);
      if front.None? || !IsDigit(last) then None else Some(front.value * 10 + (last as int - '0' as int))
  }

  /** `int(s)`: white space around an optional sign and at least one digit. */
  function StringToInt(s: string): Option<int> {
    var t := Strip(s);
    if t == "" then None
    else
      var signed := t[0] == '-' || t[0] == '+';
      var digits := if signed then t[1..] else t;
      if digits == "" || DigitsValue(digits).None? then None
      else
        var value: int := DigitsValue(digits).value;
        Some(if t[0] == '-' then -value else value)
  }

  // ----- The codec -----

  function Importance(errors: nat): real {
    var r := 1.0 - errors as real * 0.2;
    if r < 0.1 then 0.1 else r
  }

  /** `now` is the time stamp that a new memory record is given. */
  function ToMemoryRecord(e: EpisodeRecord, namespace: string, now: string): MemoryRecord {
    MemoryRecord(
      e.episodeId, namespace, "episode_" + e.runId, EPISODIC, e.taskSummary, Importance(|e.errorMessages|), now,
      map["episode_id" := e.episodeId,
          "run_id" := e.runId,
          "outcome" := e.outcome,
          "step_count" := IntToString(e.stepCount),
          "decisions" := Join(e.keyDecisions, "|"),
          "errors" := Join(e.errorMessages, "|")])
  }

  function Field(meta: map<string, string>, key: string, default: string): string {
    if key in meta then meta[key] else default
  }

  /** An absent and an empty field both decode to no entries. */
  function ListField(meta: map<string, string>, key: string): seq<string> {
    if Field(meta, key, "") == "" then [] else Split(Field(meta, key, ""))
  }

  /** Every field has a default, but a step count that is there has to be a number. */
  function FromMemoryRecord(record: MemoryRecord): (r: Result<EpisodeRecord, DecodeError>)
    ensures r.Failure? <==> "step_count" in record.metadata && StringToInt(record.metadata["step_count"]).None?
    ensures record.metadata == map[] ==>
              r == Success(EpisodeRecord(record.memoryId, "", record.content, "unknown", [], [], 0, record.updatedAt))
  {
    var meta := record.metadata;
    var steps := if "step_count" in meta then StringToInt(meta["step_count"]) else Some(0);
    if steps.None? then Failure(ValueError)
    else
      Success(EpisodeRecord(
        Field(meta, "episode_id", record.memoryId),
        Field(meta, "run_id", ""),
        record.content,
        Field(meta, "outcome", "unknown"),
        ListField(meta, "decisions"),
        ListField(meta, "errors"),
        steps.value,
        record.updatedAt))
  }

  // ----- Joining and splitting -----

  predicate BarFree(s: string) {
    BAR !in s
  }

  predicate AllBarFree(parts: seq<string>) {
    forall i | 0 <= i < |parts| :: BarFree(parts[i])
  }

  lemma {:induction false} SplitBarFree(s: string)
    requires BarFree(s)
    ensures Split(s) == [s]
  {
    if s != "" {
      SplitBarFree(s[1..]);
      assert [s[0]] + s[1..] == s;
    }
  }

  lemma {:induction false} SplitAtBar(part: string, rest: string)
    requires BarFree(part)
    ensures Split(part + [BAR] + rest) == [part] + Split(rest)
  {
    var s := part + [BAR] + rest;
    if part == "" {
      assert s[1..] == rest;
    } else {
      SplitAtBar(part[1..], rest);
      assert s[1..] == part[1..] + [BAR] + rest;
      assert [part[0]] + part[1..] == part;
    }
  }

  /** Splitting undoes joining for parts without the separator. */
  lemma {:induction false} SplitJoin(parts: seq<string>)
    requires parts != [] && AllBarFree(parts)
    ensures Split(Join(parts, "|")) == parts
  {
    if |parts| == 1 {
      SplitBarFree(parts[0]);
    } else {
      SplitJoin(parts[1..]);
      SplitAtBar(parts[0], Join(parts[1..], "|"));
      assert "|" == [BAR];
      assert [parts[0]] + parts[1..] == parts;
    }
  }

  /** What splitting yields never contains the separator, and is the single empty string only for the empty string. */
  lemma {:induction false} SplitIsBarFree(s: string)
    ensures AllBarFree(Split(s))
    ensures Split(s) == [""] <==> s == ""
  {
    if s != "" {
      SplitIsBarFree(s[1..]);
    }
  }

  lemma JoinIsEmpty(parts: seq<string>)
    ensures Join(parts, "|") == "" <==> parts == [] || parts == [""]
  {
  }

  function Recoded(parts: seq<string>): seq<string> {
    if Join(parts, "|") == "" then [] else Split(Join(parts, "|"))
  }

  /** A list of strings survives the trip exactly when no string contains the separator and the list is not the single
      empty string. */
  lemma RecodedIff(parts: seq<string>)
    ensures Recoded(parts) == parts <==> AllBarFree(parts) && parts != [""]
  {
    JoinIsEmpty(parts);
    SplitIsBarFree(Join(parts, "|"));
    if parts != [] && AllBarFree(parts) {
      SplitJoin(parts);
    }
  }

  /** What has made the trip once makes it unharmed from then on. */
  lemma RecodedTwice(parts: seq<string>)
    ensures Recoded(Recoded(parts)) == Recoded(parts)
  {
    SplitIsBarFree(Join(parts, "|"));
    RecodedIff(Recoded(parts));
  }

  // ----- Numbers -----

  lemma {:induction false} DigitsOfDecimal(n: nat)
    ensures DigitsValue(Decimal(n)) == Some(n)
  {
    if n < 10 {
      assert Decimal(n)[..0] == "";
    } else {
      DigitsOfDecimal(n / 10);
      var s := Decimal(n);
      assert s[..|s| - 1] == Decimal(n / 10);
    }
  }

  lemma {:induction false} StripOfInk(s: string)
    requires forall c | c in s :: !IsSpace(c)
    ensures Strip(s) == s
  {
  }

  /** Parsing undoes printing, for negative numbers too. */
  lemma NumberRoundTrip(n: int)
    ensures StringToInt(IntToString(n)) == Some(n)
  {
    hide Decimal, Strip;
    var s := IntToString(n);
    StripOfInk(s);
    if n < 0 {
      DigitsOfDecimal(-n);
      assert s[1..] == Decimal(-n);
    } else {
      DigitsOfDecimal(n);
      assert s[0] in Decimal(n);
    }
  }

  // ----- Episodes -----

  lemma ListFieldIs(meta: map<string, string>, key: string, parts: seq<string>)
    requires key in meta && meta[key] == Join(parts, "|")
    ensures ListField(meta, key) == Recoded(parts)
  {
  }

  lemma Decoded(e: EpisodeRecord, namespace: string, now: string)
    ensures FromMemoryRecord(ToMemoryRecord(e, namespace, now)) ==
            Success(e.(keyDecisions := Recoded(e.keyDecisions), errorMessages := Recoded(e.errorMessages),
                       recordedAt := now))
  {
    hide Recoded, Split, Join, StringToInt, IntToString;
    NumberRoundTrip(e.stepCount);
    var meta := ToMemoryRecord(e, namespace, now).metadata;
    ListFieldIs(meta, "decisions", e.keyDecisions);
    ListFieldIs(meta, "errors", e.errorMessages);
  }

  /** Every error costs a fifth of the importance, down to a tenth. */
  lemma ImportanceIs(errors: nat)
    ensures errors <= 4 ==> 5.0 * Importance(errors) == 5.0 - errors as real
    ensures errors >= 5 ==> Importance(errors) == 0.1
    ensures 0.1 <= Importance(errors) <= 1.0 && Importance(errors + 1) <= Importance(errors)
  {
  }

  /** What the memory store is given of an episode, field by field. */
  lemma StoredFields(e: EpisodeRecord, namespace: string, now: string)
    ensures var m := ToMemoryRecord(e, namespace, now);
            && m.memoryId == e.episodeId && m.namespace == namespace && m.key == "episode_" + e.runId
            && m.memoryType == "episodic" && m.content == e.taskSummary && m.updatedAt == now
            && 5.0 * m.importance == (if |e.errorMessages| <= 4 then 5.0 - |e.errorMessages| as real else 0.5)
            && m.metadata.Keys == {"episode_id", "run_id", "outcome", "step_count", "decisions", "errors"}
            && m.metadata["episode_id"] == e.episodeId && m.metadata["run_id"] == e.runId
            && m.metadata["outcome"] == e.outcome && StringToInt(m.metadata["step_count"]) == Some(e.stepCount)
            && (AllBarFree(e.keyDecisions) && e.keyDecisions != [] ==> Split(m.metadata["decisions"]) == e.keyDecisions)
            && (AllBarFree(e.errorMessages) && e.errorMessages != [] ==> Split(m.metadata["errors"]) == e.errorMessages)
  {
    hide Importance, StringToInt, IntToString, Split, Join, AllBarFree;
    ImportanceIs(|e.errorMessages|);
    NumberRoundTrip(e.stepCount);
    if AllBarFree(e.keyDecisions) && e.keyDecisions != [] {
      SplitJoin(e.keyDecisions);
    }
    if AllBarFree(e.errorMessages) && e.errorMessages != [] {
      SplitJoin(e.errorMessages);
    }
  }

  predicate Storable(parts: seq<string>) {
    AllBarFree(parts) && parts != [""]
  }

  /** Every field but the time stamp survives storage exactly when both lists are storable. */
  lemma EpisodeRoundTripIff(e: EpisodeRecord, namespace: string, now: string)
    ensures FromMemoryRecord(ToMemoryRecord(e, namespace, now)) == Success(e.(recordedAt := now)) <==>
            Storable(e.keyDecisions) && Storable(e.errorMessages)
  {
    hide FromMemoryRecord, ToMemoryRecord, Recoded;
    Decoded(e, namespace, now);
    RecodedIff(e.keyDecisions);
    RecodedIff(e.errorMessages);
  }

  /** Storing is a normalisation: a decoded episode can be stored again without any further loss. */
  lemma StoringNormalises(e: EpisodeRecord, first: EpisodeRecord, namespace: string, now: string, later: string)
    requires FromMemoryRecord(ToMemoryRecord(e, namespace, now)) == Success(first)
    ensures FromMemoryRecord(ToMemoryRecord(first, namespace, later)) == Success(first.(recordedAt := later))
  {
    hide FromMemoryRecord, ToMemoryRecord, Recoded;
    Decoded(e, namespace, now);
    RecodedTwice(e.keyDecisions);
    RecodedTwice(e.errorMessages);
    Decoded(first, namespace, later);
  }
}

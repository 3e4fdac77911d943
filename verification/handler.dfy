/**
 `processImage`: the batch outcome reported to the invoking platform. All or
 nothing: one failed record fails the batch and hands the whole original batch
 back for redelivery; otherwise a one-line summary is logged and the callback
 gets no error.
 */
module Handler {
  import opened Wrappers
  import opened Strings
  import opened Profile
  import opened Output
  import opened Item
  import opened Batch

  /** What the handler does, in order: log an error, log a line, or invoke the
      callback with an optional error and an optional `{records}` payload. */
  datatype Effect =
    | LogError(failure: ItemError)
    | LogInfo(line: string)
    | Callback(error: Option<ItemError>, records: Option<seq<Event>>)

  predicate AnyFailed(results: seq<ItemResult>) {
    exists i :: 0 <= i < |results| && results[i].Failed?
  }

  /** `first` is a rejection `Promise.all` may surface: when some record failed,
      it names one of the failed records. The source surfaces the lowest-index
      validation failure when there is one, and otherwise the collaborator
      failure that settles first; the model admits any failed record. */
  predicate Surfaces(results: seq<ItemResult>, first: nat) {
    AnyFailed(results) ==> first < |results| && results[first].Failed?
  }

  /** `Completed processing ${n} event${n === 1 ? '' : 's'}`. */
  function CompletionLine(n: nat): (line: string)
    ensures |line| > |CompletionPrefix| && line[..|CompletionPrefix|] == CompletionPrefix
    ensures line[|line| - 1] == 's' <==> n != 1
  {
    "Completed processing " + NatToString(n) + " event" + (if n == 1 then "" else "s")
  }

  const CompletionPrefix: string := "Completed processing "

  /** The completion line reads back as the count it reports, written in plain
      decimal (digits only, no leading zero), followed by the word "event",
      pluralised for every count but 1 (0 included). */
  lemma CompletionLineReadsBack(n: nat)
    ensures var line := CompletionLine(n);
      var tail := if n == 1 then " event" else " events";
      && |line| > |CompletionPrefix| + |tail|
      && line[..|CompletionPrefix|] == CompletionPrefix
      && line[|line| - |tail|..] == tail
      && ParseNat(line[|CompletionPrefix|..|line| - |tail|]) == n
    ensures var line := CompletionLine(n);
      var tail := if n == 1 then " event" else " events";
      var digits := line[|CompletionPrefix|..|line| - |tail|];
      && (forall i :: 0 <= i < |digits| ==> '0' <= digits[i] <= '9')
      && (|digits| > 1 ==> digits[0] != '0')
  {
    var line := CompletionLine(n);
    var tail := if n == 1 then " event" else " events";
    var digits := NatToString(n);
    assert line == CompletionPrefix + digits + tail;
    assert line[|CompletionPrefix|..|line| - |tail|] == digits;
    ParseNatToString(n);
  }

  /** The completion lines for 0, 1 and 2 records. */
  lemma CompletionLineExamples()
    ensures CompletionLine(0) == "Completed processing 0 events"
    ensures CompletionLine(1) == "Completed processing 1 event"
    ensures CompletionLine(2) == "Completed processing 2 events"
  {
  }

  /** How many times a trace invokes the callback. */
  function CallbackCount(trace: seq<Effect>): nat
  {
    if |trace| == 0 then 0
    else (if trace[0].Callback? then 1 else 0) + CallbackCount(trace[1..])
  }

  /** `processImage` given every record's result and the rejection that
      `Promise.all` surfaced. */
  function ProcessImage(records: seq<Event>, results: seq<ItemResult>, first: nat): (trace: seq<Effect>)
    requires |results| == |records|
    requires Surfaces(results, first)
    ensures CallbackCount(trace) == 1
    ensures |trace| > 0 && trace[|trace| - 1].Callback?
    ensures trace[|trace| - 1].error.Some? <==> AnyFailed(results)
    ensures AnyFailed(results) ==>
      && trace[|trace| - 1].records == Some(records)
      && exists i :: 0 <= i < |results| && results[i] == Failed(trace[|trace| - 1].error.value)
    ensures !AnyFailed(results) ==> trace[|trace| - 1] == Callback(None, None)
    ensures (exists k :: 0 <= k < |trace| && trace[k] == LogInfo(CompletionLine(|records|))) <==> !AnyFailed(results)
  {
    if AnyFailed(results) then
      var e := results[first].error;
      var trace := [LogError(e), Callback(Some(e), Some(records))];
      assert CallbackCount(trace[1..]) == 1;
      trace
    else
      var trace := [LogInfo(CompletionLine(|records|)), Callback(None, None)];
      assert CallbackCount(trace[1..]) == 1;
      trace
  }

  /** Batch preconditions of a whole invocation: heights can be computed for
      every fetched source under the shared profile. */
  predicate Runnable(cfg: Config, st: ProfileState, records: seq<Event>, ios: seq<Io>) {
    && DefaultDirectory in cfg.output
    && |ios| == |records|
    && AllSizeable(Replay(cfg, st, Keys(records)), ios)
  }

  /** A record fails exactly when its event is not a valid object creation or
      one of its collaborators (read, decode, resize, stream metadata) fails. */
  predicate RecordFails(ev: Event, io: Io) {
    !IsObjectCreated(ev.eventName) || ev.key == "" || io.fetched.Err? || io.formats.Err?
  }

  /** `first` is a rejection `Promise.all` may surface, stated on the records:
      when some record fails, it names one that does. */
  predicate SurfacesRecord(records: seq<Event>, ios: seq<Io>, first: nat)
    requires |ios| == |records|
  {
    (exists i :: 0 <= i < |records| && RecordFails(records[i], ios[i])) ==>
      first < |records| && RecordFails(records[first], ios[first])
  }

  /** Under any profile, a record's result is a failure exactly when the record
      fails by the reference definition. */
  lemma OutcomeFailsIff(cfg: Config, st: ProfileState, ev: Event, io: Io, makeKey: KeyMaker)
    requires SizeableUnder(st, io)
    ensures Outcome(cfg, st, ev, io, makeKey).Failed? <==> RecordFails(ev, io)
  {
  }

  /** The batch as written fails exactly the records that fail by the reference
      definition; upload outcomes play no part. */
  lemma BatchFailures(cfg: Config, st: ProfileState, records: seq<Event>, ios: seq<Io>, makeKey: KeyMaker)
    requires Runnable(cfg, st, records, ios)
    ensures var results := ProcessBatch(cfg, st, records, ios, makeKey).1;
      forall i :: 0 <= i < |records| ==> (results[i].Failed? <==> RecordFails(records[i], ios[i]))
  {
    var shared := Replay(cfg, st, Keys(records));
    var results := ProcessBatch(cfg, st, records, ios, makeKey).1;
    forall i | 0 <= i < |records|
      ensures results[i].Failed? <==> RecordFails(records[i], ios[i])
    {
      assert results[i] == Outcome(cfg, shared, records[i], ios[i], makeKey);
      OutcomeFailsIff(cfg, shared, records[i], ios[i], makeKey);
    }
  }

  /** One invocation as written: the profile it leaves behind for the next one,
      and what it logs and reports. */
  function Invoke(cfg: Config, st: ProfileState, records: seq<Event>, ios: seq<Io>, makeKey: KeyMaker, first: nat)
    : (out: (ProfileState, seq<Effect>))
    requires Runnable(cfg, st, records, ios)
    requires SurfacesRecord(records, ios, first)
    ensures out.0 == Replay(cfg, st, Keys(records))
    ensures CallbackCount(out.1) == 1
    ensures |out.1| > 0 && out.1[|out.1| - 1].Callback?
    ensures out.1[|out.1| - 1].error.Some? ==> out.1[|out.1| - 1].records == Some(records)
  {
    BatchFailures(cfg, st, records, ios, makeKey);
    var (next, results) := ProcessBatch(cfg, st, records, ios, makeKey);
    (next, ProcessImage(records, results, first))
  }

  /** The invocation succeeds exactly when no record fails; upload outcomes play
      no part, since uploads are never awaited. */
  lemma InvokeSucceedsIffNoRecordFails(
    cfg: Config, st: ProfileState, records: seq<Event>, ios: seq<Io>, makeKey: KeyMaker, first: nat)
    requires Runnable(cfg, st, records, ios)
    requires SurfacesRecord(records, ios, first)
    ensures var trace := Invoke(cfg, st, records, ios, makeKey, first).1;
      (trace[|trace| - 1] == Callback(None, None)) <==>
      (forall i :: 0 <= i < |records| ==> !RecordFails(records[i], ios[i]))
  {
    BatchFailures(cfg, st, records, ios, makeKey);
  }

  /** An empty batch succeeds: the profile is untouched, "Completed processing 0
      events" is logged, and the callback gets no error. */
  lemma EmptyBatchSucceeds(cfg: Config, st: ProfileState, makeKey: KeyMaker)
    requires DefaultDirectory in cfg.output
    ensures Runnable(cfg, st, [], [])
    ensures Invoke(cfg, st, [], [], makeKey, 0)
         == (st, [LogInfo("Completed processing 0 events"), Callback(None, None)])
  {
    assert Keys([]) == [];
    CompletionLineExamples();
  }
}

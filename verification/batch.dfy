/**
 A batch of records as `processImage` runs it: `records.map(processItem)` calls
 every `processItem` before any of them resumes from its first `await`, so each
 record's profile update and validation happen in record order, and only then
 does any record compute its size set and upload keys. By then the module-level
 profile is the one the last step of the batch left, and every record reads it.
 */
module Batch {
  import opened Wrappers
  import opened Strings
  import opened Profile
  import opened SizeSet
  import opened Output
  import opened Item

  /** The decoded keys of a batch, in record order. */
  function Keys(records: seq<Event>): (keys: seq<string>)
    ensures |keys| == |records|
    ensures forall i :: 0 <= i < |records| ==> keys[i] == records[i].key
  {
    seq(|records|, i requires 0 <= i < |records| => records[i].key)
  }

  /** A batch none of whose keys has an entry leaves the profile as it was. */
  lemma ReplayOfKeys(cfg: Config, st: ProfileState, records: seq<Event>)
    requires DefaultDirectory in cfg.output
    ensures (forall k :: 0 <= k < |records| ==> !Matches(cfg, records[k].key)) ==> Replay(cfg, st, Keys(records)) == st
  {
    if forall k :: 0 <= k < |records| ==> !Matches(cfg, records[k].key) {
      ReplayWithoutMatch(cfg, st, Keys(records));
    }
  }

  /** Heights can be computed for every fetched source under the given profile. */
  predicate AllSizeable(st: ProfileState, ios: seq<Io>) {
    forall i :: 0 <= i < |ios| ==> SizeableUnder(st, ios[i])
  }

  /** The batch as written: the profile after all steps, and each record's result
      computed under that shared profile, the one the batch leaves for the next
      invocation (`ReplayOfKeys`: without any matching key, the incoming one). */
  function ProcessBatch(cfg: Config, st: ProfileState, records: seq<Event>, ios: seq<Io>, makeKey: KeyMaker)
    : (out: (ProfileState, seq<ItemResult>))
    requires DefaultDirectory in cfg.output
    requires |ios| == |records|
    requires AllSizeable(Replay(cfg, st, Keys(records)), ios)
    ensures |out.1| == |records|
    ensures out.0 == Replay(cfg, st, Keys(records))
    ensures forall i :: 0 <= i < |records| ==> out.1[i] == Outcome(cfg, out.0, records[i], ios[i], makeKey)
  {
    var shared := Replay(cfg, st, Keys(records));
    (shared, seq(|records|, i requires 0 <= i < |records| => Outcome(cfg, shared, records[i], ios[i], makeKey)))
  }

  /** Every record of a batch is sized and labelled with the profile of the last
      record whose directory has an entry, whatever its own directory, and that
      profile is also what the next invocation starts from. */
  lemma BatchUsesLastMatch(cfg: Config, st: ProfileState, records: seq<Event>, ios: seq<Io>, makeKey: KeyMaker, j: nat)
    requires DefaultDirectory in cfg.output
    requires |ios| == |records|
    requires AllSizeable(Replay(cfg, st, Keys(records)), ios)
    requires j < |records| && Matches(cfg, records[j].key)
    requires forall k :: j < k < |records| ==> !Matches(cfg, records[k].key)
    ensures var p := Apply(cfg, cfg.output[Directory(records[j].key)]);
      var out := ProcessBatch(cfg, st, records, ios, makeKey);
      && out.0 == p
      && forall i :: 0 <= i < |records| ==> out.1[i] == Outcome(cfg, p, records[i], ios[i], makeKey)
  {
    ReplayLastMatch(cfg, st, Keys(records), j);
  }

  /** A batch of one record is `processItem` on that record. */
  lemma SingletonBatch(cfg: Config, st: ProfileState, ev: Event, io: Io, makeKey: KeyMaker)
    requires DefaultDirectory in cfg.output
    requires SizeableUnder(Step(cfg, st, ev.key), io)
    ensures Keys([ev]) == [ev.key]
    ensures ProcessBatch(cfg, st, [ev], [io], makeKey)
         == (ProcessItem(cfg, st, ev, io, makeKey).0, [ProcessItem(cfg, st, ev, io, makeKey).1])
  {
    var next := Step(cfg, st, ev.key);
    assert [ev.key][1..] == [];
    assert Keys([ev]) == [ev.key];
    assert Replay(cfg, st, [ev.key]) == Replay(cfg, next, []) == next;
    var out := ProcessBatch(cfg, st, [ev], [io], makeKey);
    assert out.0 == next;
    assert out.1[0] == Outcome(cfg, next, ev, io, makeKey);
    assert out.1 == [Outcome(cfg, next, ev, io, makeKey)];
  }

  /** The batch with the profile scoped to each record: every record resolves
      its own profile from its own key, starting from the defaults. */
  function ProcessBatchScoped(cfg: Config, records: seq<Event>, ios: seq<Io>, makeKey: KeyMaker)
    : (results: seq<ItemResult>)
    requires DefaultDirectory in cfg.output
    requires |ios| == |records|
    requires forall i :: 0 <= i < |ios| ==> SizeableUnder(Step(cfg, Initial(cfg), records[i].key), ios[i])
    ensures |results| == |records|
    ensures forall i :: 0 <= i < |records| ==>
      results[i] == ProcessItem(cfg, Initial(cfg), records[i], ios[i], makeKey).1
  {
    seq(|records|, i requires 0 <= i < |records| =>
      Outcome(cfg, Resolve(cfg, records[i].key), records[i], ios[i], makeKey))
  }

  /** With scoped profiles a record's result depends on nothing but the record
      and its own collaborators' outcomes: not on its position, nor on the other
      records of the batch. */
  lemma ScopedIgnoresOtherRecords(
    cfg: Config, r1: seq<Event>, ios1: seq<Io>, r2: seq<Event>, ios2: seq<Io>, makeKey: KeyMaker, i: nat, j: nat)
    requires DefaultDirectory in cfg.output
    requires |ios1| == |r1| && |ios2| == |r2|
    requires forall k :: 0 <= k < |ios1| ==> SizeableUnder(Step(cfg, Initial(cfg), r1[k].key), ios1[k])
    requires forall k :: 0 <= k < |ios2| ==> SizeableUnder(Step(cfg, Initial(cfg), r2[k].key), ios2[k])
    requires i < |r1| && j < |r2| && r1[i] == r2[j] && ios1[i] == ios2[j]
    ensures ProcessBatchScoped(cfg, r1, ios1, makeKey)[i] == ProcessBatchScoped(cfg, r2, ios2, makeKey)[j]
  {
  }

  /** Scoping the profile changes only what dispatched records produce: the same
      records fail, with the same errors, as in the batch as written. */
  lemma ScopedSameFailures(cfg: Config, st: ProfileState, records: seq<Event>, ios: seq<Io>, makeKey: KeyMaker)
    requires DefaultDirectory in cfg.output
    requires |ios| == |records|
    requires AllSizeable(Replay(cfg, st, Keys(records)), ios)
    requires forall i :: 0 <= i < |ios| ==> SizeableUnder(Step(cfg, Initial(cfg), records[i].key), ios[i])
    ensures var shared, scoped := ProcessBatch(cfg, st, records, ios, makeKey).1, ProcessBatchScoped(cfg, records, ios, makeKey);
      forall i :: 0 <= i < |records| ==>
        && (shared[i].Failed? <==> scoped[i].Failed?)
        && (shared[i].Failed? ==> shared[i].error == scoped[i].error)
  {
    var p := Replay(cfg, st, Keys(records));
    var shared, scoped := ProcessBatch(cfg, st, records, ios, makeKey).1, ProcessBatchScoped(cfg, records, ios, makeKey);
    forall i | 0 <= i < |records|
      ensures shared[i].Failed? <==> scoped[i].Failed?
      ensures shared[i].Failed? ==> shared[i].error == scoped[i].error
    {
      assert shared[i] == Outcome(cfg, p, records[i], ios[i], makeKey);
      assert scoped[i] == Outcome(cfg, Step(cfg, Initial(cfg), records[i].key), records[i], ios[i], makeKey);
    }
  }

  /** A 300 x 200 JPEG source whose resize yields `n` JPEG streams. */
  function ExampleIo(n: nat): Io
  {
    Io(Ok(SourceImage("image/jpeg", 300, 200)), Ok(seq(n, _ => "jpeg")))
  }

  /** Two uploads in one batch, both of event type `put` (for instance
      `ObjectCreated:Put`): `a/x.jpg` (directory `a`, responsive) then `b/y.jpg`
      (directory `b`, sizes). */
  function ExampleRecords(put: string): seq<Event>
  {
    [Event(put, "a/x.jpg"), Event(put, "b/y.jpg")]
  }

  /** The example keys' directories. */
  lemma ExampleFacts()
    ensures Directory("a/x.jpg") == "a" && Directory("b/y.jpg") == "b"
  {
    DirectoryOfSegment("a", "x.jpg");
    assert "a" + "/" + "x.jpg" == "a/x.jpg";
    DirectoryOfSegment("b", "y.jpg");
    assert "b" + "/" + "y.jpg" == "b/y.jpg";
  }

  /** The example batch replays to the `b` profile, its last matching key's,
      which cuts the `sizes` widths and sizes both example sources. */
  lemma ExampleReplay(put: string)
    ensures Replay(ExampleConfig(), Initial(ExampleConfig()), Keys(ExampleRecords(put)))
         == Apply(ExampleConfig(), ExampleConfig().output["b"])
    ensures Apply(ExampleConfig(), ExampleConfig().output["b"]).transformtype == Some("sizes")
    ensures AllSizeable(Apply(ExampleConfig(), ExampleConfig().output["b"]), [ExampleIo(6), ExampleIo(6)])
  {
    var cfg, records := ExampleConfig(), ExampleRecords(put);
    ExampleFacts();
    assert Keys(records)[1] == "b/y.jpg";
    ReplayLastMatch(cfg, Initial(cfg), Keys(records), 1);
    ExampleSizeable(Apply(cfg, cfg.output["b"]), 6);
  }

  /** The example source's widths in both modes. */
  lemma ExampleWidths()
    ensures Widths(300, Sizes) == [50, 75, 100, 150, 200, 300]
    ensures Widths(300, Responsive) == [300, 450, 600, 900]
  {
  }

  /** The example source can be sized under any well-formed profile. */
  lemma ExampleSizeable(st: ProfileState, n: nat)
    requires WellFormed(st)
    ensures SizeableUnder(st, ExampleIo(n))
  {
  }

  /** The first example record, valid, dispatched under profile `st`. */
  lemma ExampleFirstRecord(put: string, st: ProfileState, n: nat, makeKey: KeyMaker)
    requires IsObjectCreated(put)
    requires WellFormed(st)
    ensures Outcome(ExampleConfig(), st, ExampleRecords(put)[0], ExampleIo(n), makeKey).Dispatched?
    ensures Outcome(ExampleConfig(), st, ExampleRecords(put)[0], ExampleIo(n), makeKey).widths
         == Widths(300, TransformOf(st.transformtype))
  {
    ExampleSizeable(st, n);
    ValidEventDispatched(ExampleConfig(), st, ExampleRecords(put)[0], ExampleIo(n), makeKey);
  }

  /** As written, `a/x.jpg` in this batch is cut into the six `sizes` widths of
      the `b` profile, where on its own it gets the four `responsive` widths. */
  lemma SharedProfileExample(put: string, makeKey: KeyMaker)
    requires IsObjectCreated(put)
    ensures AllSizeable(Replay(ExampleConfig(), Initial(ExampleConfig()), Keys(ExampleRecords(put))),
                        [ExampleIo(6), ExampleIo(6)])
    ensures var out := ProcessBatch(ExampleConfig(), Initial(ExampleConfig()), ExampleRecords(put),
                                    [ExampleIo(6), ExampleIo(6)], makeKey);
      out.1[0].Dispatched? && out.1[0].widths == [50, 75, 100, 150, 200, 300]
    ensures SizeableUnder(Step(ExampleConfig(), Initial(ExampleConfig()), ExampleRecords(put)[0].key), ExampleIo(4))
    ensures var alone := ProcessItem(ExampleConfig(), Initial(ExampleConfig()), ExampleRecords(put)[0], ExampleIo(4), makeKey);
      alone.1.Dispatched? && alone.1.widths == [300, 450, 600, 900]
  {
    var cfg, records := ExampleConfig(), ExampleRecords(put);
    ExampleReplay(put);
    var pb := Apply(cfg, cfg.output["b"]);
    var out := ProcessBatch(cfg, Initial(cfg), records, [ExampleIo(6), ExampleIo(6)], makeKey);
    assert out.1[0] == Outcome(cfg, pb, records[0], ExampleIo(6), makeKey);
    ExampleFirstRecord(put, pb, 6, makeKey);
    ExampleWidths();
    ExampleFacts();
    var pa := Apply(cfg, cfg.output["a"]);
    assert Step(cfg, Initial(cfg), records[0].key) == pa;
    ExampleFirstRecord(put, pa, 4, makeKey);
    assert ProcessItem(cfg, Initial(cfg), records[0], ExampleIo(4), makeKey).1
        == Outcome(cfg, pa, records[0], ExampleIo(4), makeKey);
  }

  /** The inputs of the scoped example batch: one source read per record. */
  function ScopedExampleIos(): seq<Io>
  {
    [ExampleIo(4), ExampleIo(6)]
  }

  /** Each example record can be sized under its own directory's profile. */
  lemma ExampleScopedSizeable(put: string)
    ensures forall i :: 0 <= i < 2 ==>
      SizeableUnder(Step(ExampleConfig(), Initial(ExampleConfig()), ExampleRecords(put)[i].key), ScopedExampleIos()[i])
  {
    var cfg, records, ios := ExampleConfig(), ExampleRecords(put), ScopedExampleIos();
    ExampleFacts();
    assert Step(cfg, Initial(cfg), records[0].key) == Apply(cfg, cfg.output["a"]);
    assert Step(cfg, Initial(cfg), records[1].key) == Apply(cfg, cfg.output["b"]);
    ExampleSizeable(Apply(cfg, cfg.output["a"]), 4);
    ExampleSizeable(Apply(cfg, cfg.output["b"]), 6);
    forall i | 0 <= i < 2
      ensures SizeableUnder(Step(cfg, Initial(cfg), records[i].key), ios[i])
    {
      if i == 0 {
        assert ios[0] == ExampleIo(4);
      } else {
        assert ios[1] == ExampleIo(6);
      }
    }
  }

  /** With scoped profiles the same batch gives `a/x.jpg` its own four
      `responsive` widths. */
  lemma ScopedProfileExample(put: string, makeKey: KeyMaker)
    requires IsObjectCreated(put)
    ensures forall i :: 0 <= i < 2 ==>
      SizeableUnder(Step(ExampleConfig(), Initial(ExampleConfig()), ExampleRecords(put)[i].key), ScopedExampleIos()[i])
    ensures var results := ProcessBatchScoped(ExampleConfig(), ExampleRecords(put), ScopedExampleIos(), makeKey);
      results[0].Dispatched? && results[0].widths == [300, 450, 600, 900]
  {
    ExampleScopedSizeable(put);
    SharedProfileExample(put, makeKey);
  }
}

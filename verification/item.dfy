/**
 `processItem`: one notification's profile update, validation, size set and
 upload requests. The object-store read, the dimension decoding and the resize
 engine are not modelled; their outcomes arrive as an `Io` value.
 */
module Item {
  import opened Wrappers
  import opened Strings
  import opened Profile
  import opened SizeSet
  import opened Output

  /** One record of the batch: its event name and its object key, already
      decoded by `decodeS3EventKey` (possibly empty). */
  datatype Event = Event(eventName: string, key: string)

  /** Why a record's processing was rejected. `ExternalFailure` is any rejection
      of the collaborators: the object read, the image decoding, the resize, or a
      stream's metadata. */
  datatype ItemError =
    | UnsupportedEvent(eventName: string)
    | InvalidKey(key: string)
    | ExternalFailure(reason: string)

  /** What the object store and the image decoder report about the source. */
  datatype SourceImage = SourceImage(contentType: string, width: nat, height: nat)

  /** The collaborators' outcomes for one record: the fetched and decoded source
      (or the rejection of the read or the decoding), and the encoded format of
      each resized stream, in stream order (or the rejection of the resize, or the
      first stream-metadata rejection to settle). */
  datatype Io = Io(fetched: Result<SourceImage, string>, formats: Result<seq<string>, string>)

  /** A rejected record, or the size set and the upload requests it dispatched.
      The uploads are fired and not awaited, so their own outcome is not part of
      the record's result. */
  datatype ItemResult =
    | Failed(error: ItemError)
    | Dispatched(widths: seq<nat>, heights: seq<nat>, uploads: seq<Upload>)

  /** `eventName.split(':')[0]`: the longest prefix of the name without a `:`. */
  function TypeFamily(eventName: string): (t: string)
    ensures ':' !in t
    ensures |t| <= |eventName| && eventName[..|t|] == t
    ensures |t| < |eventName| ==> eventName[|t|] == ':'
  {
    SplitHead(eventName, ':');
    Split(eventName, ':')[0]
  }

  /** Reference definition of an object-creation event name: exactly
      `ObjectCreated`, or `ObjectCreated:` followed by anything. */
  predicate IsObjectCreated(eventName: string) {
    eventName == "ObjectCreated" || (|eventName| >= 14 && eventName[..14] == "ObjectCreated:")
  }

  /** An object-creation name has `ObjectCreated` as its type: its first 13
      characters have no `:`, and a 14th character is `:`. */
  lemma ObjectCreatedHasTypeFamily(eventName: string)
    requires IsObjectCreated(eventName)
    ensures TypeFamily(eventName) == "ObjectCreated"
  {
    var oc := "ObjectCreated";
    assert eventName[..13] == oc;
    assert forall k :: 0 <= k < 13 ==> eventName[k] == oc[k];
    assert 13 < |eventName| ==> eventName[13] == eventName[..14][13];
    SplitHeadIs(eventName, ':', 13);
  }

  /** A name whose type is `ObjectCreated` is that word alone or followed by `:`. */
  lemma TypeFamilyMeansObjectCreated(eventName: string)
    requires TypeFamily(eventName) == "ObjectCreated"
    ensures IsObjectCreated(eventName)
  {
    assert eventName[..13] == "ObjectCreated";
    if |eventName| > 13 {
      assert eventName[13] == ':';
      assert eventName[..14] == eventName[..13] + [eventName[13]];
    } else {
      assert eventName == eventName[..13];
    }
  }

  /** The split-based type check agrees with the reference definition. */
  lemma TypeFamilyIsObjectCreated(eventName: string)
    ensures TypeFamily(eventName) == "ObjectCreated" <==> IsObjectCreated(eventName)
  {
    if IsObjectCreated(eventName) {
      ObjectCreatedHasTypeFamily(eventName);
    }
    if TypeFamily(eventName) == "ObjectCreated" {
      TypeFamilyMeansObjectCreated(eventName);
    }
  }

  /** The event type is checked first, then the key. */
  function Validate(ev: Event): (r: Result<string, ItemError>)
    ensures r.Ok? <==> IsObjectCreated(ev.eventName) && ev.key != ""
    ensures r.Ok? ==> r.value == ev.key
    ensures !IsObjectCreated(ev.eventName) ==> r == Err(UnsupportedEvent(ev.eventName))
    ensures IsObjectCreated(ev.eventName) && ev.key == "" ==> r == Err(InvalidKey(ev.key))
  {
    TypeFamilyIsObjectCreated(ev.eventName);
    if TypeFamily(ev.eventName) != "ObjectCreated" then Err(UnsupportedEvent(ev.eventName))
    else if ev.key == "" then Err(InvalidKey(ev.key))
    else Ok(ev.key)
  }

  /** Heights can be computed for this source under this profile (no division
      by zero in the aspect ratio or in `maxHeight / maxWidth`). */
  predicate Sizeable(st: ProfileState, img: SourceImage) {
    HeightRatio(img.width, img.height, st.maxWidth, st.maxHeight).den > 0
  }

  /** The module starts from the `default` entry verbatim, so a `maxHeight` of
      `0` there is a height bound: before any matching key, every height is 0. */
  lemma ZeroDefaultBoundFlattens(cfg: Config, ws: seq<nat>, srcW: nat, srcH: nat)
    requires DefaultDirectory in cfg.output
    requires cfg.output[DefaultDirectory].maxHeight == Some(0)
    requires cfg.output[DefaultDirectory].maxWidth > 0
    ensures var st := Initial(cfg);
      var hs := Heights(ws, HeightRatio(srcW, srcH, st.maxWidth, st.maxHeight));
      |hs| == |ws| && forall i :: 0 <= i < |hs| ==> hs[i] == 0
  {
    var st := Initial(cfg);
    var r := HeightRatio(srcW, srcH, st.maxWidth, st.maxHeight);
    assert r.num == 0 && r.den > 0;
    var hs := Heights(ws, r);
    forall i | 0 <= i < |hs|
      ensures hs[i] == 0
    {
      assert ws[i] * r.num == 0;
      Rounding.NearestUnique(hs[i], 0, 0, r.den);
    }
  }

  /** Heights can be computed if the source is fetched. */
  predicate SizeableUnder(st: ProfileState, io: Io) {
    io.fetched.Ok? ==> Sizeable(st, io.fetched.value)
  }

  /** Everything after the first `await`: the size set, and one upload request
      per resized stream, under the profile `st` in force at that time. */
  function Complete(cfg: Config, st: ProfileState, key: string, io: Io, makeKey: KeyMaker): (r: ItemResult)
    requires SizeableUnder(st, io)
    ensures r.Failed? <==> io.fetched.Err? || io.formats.Err?
    ensures io.fetched.Err? ==> r == Failed(ExternalFailure(io.fetched.error))
    ensures io.fetched.Ok? && io.formats.Err? ==> r == Failed(ExternalFailure(io.formats.error))
    ensures r.Dispatched? ==>
      && |r.heights| == |r.widths|
      && |r.uploads| == |io.formats.value|
  {
    match io.fetched
    case Err(reason) => Failed(ExternalFailure(reason))
    case Ok(img) =>
      var ws := Widths(img.width, TransformOf(st.transformtype));
      var hs := Heights(ws, HeightRatio(img.width, img.height, st.maxWidth, st.maxHeight));
      match io.formats
      case Err(reason) => Failed(ExternalFailure(reason))
      case Ok(formats) =>
        Dispatched(ws, hs, Uploads(cfg.params, cfg.keyTemplate, Context(key, img.contentType), st.outputdir, formats, makeKey))
  }

  /** A record's result under profile `st`: a validation error, or the rest of
      the processing. */
  function Outcome(cfg: Config, st: ProfileState, ev: Event, io: Io, makeKey: KeyMaker): (r: ItemResult)
    requires SizeableUnder(st, io)
    ensures !IsObjectCreated(ev.eventName) ==> r == Failed(UnsupportedEvent(ev.eventName))
    ensures IsObjectCreated(ev.eventName) && ev.key == "" ==> r == Failed(InvalidKey(ev.key))
    ensures r.Dispatched? ==> IsObjectCreated(ev.eventName) && ev.key != ""
  {
    match Validate(ev)
    case Err(e) => Failed(e)
    case Ok(key) => Complete(cfg, st, key, io, makeKey)
  }

  /** `processItem` on its own: the profile update (which happens first, for
      every event, and keeps the previous profile when the key's directory has
      no entry), then the record's result under the updated profile. The record
      is dispatched exactly when its event is valid and the collaborators
      succeed, with the size set of the updated profile's transform type. */
  function ProcessItem(cfg: Config, st: ProfileState, ev: Event, io: Io, makeKey: KeyMaker): (out: (ProfileState, ItemResult))
    requires DefaultDirectory in cfg.output
    requires SizeableUnder(Step(cfg, st, ev.key), io)
    ensures !Matches(cfg, ev.key) ==> out.0 == st
    ensures Matches(cfg, ev.key) ==> out.0 == Apply(cfg, cfg.output[Directory(ev.key)])
    ensures out.1.Dispatched? <==>
      IsObjectCreated(ev.eventName) && ev.key != "" && io.fetched.Ok? && io.formats.Ok?
    ensures out.1.Failed? && !IsObjectCreated(ev.eventName) ==> out.1.error == UnsupportedEvent(ev.eventName)
    ensures out.1.Dispatched? ==> out.1.widths == Widths(io.fetched.value.width, TransformOf(out.0.transformtype))
  {
    var next := Step(cfg, st, ev.key);
    (next, Outcome(cfg, next, ev, io, makeKey))
  }

  /** A valid event whose collaborators all succeed is dispatched with the
      size set of its source width under the profile's transform type. */
  lemma ValidEventDispatched(cfg: Config, st: ProfileState, ev: Event, io: Io, makeKey: KeyMaker)
    requires SizeableUnder(st, io)
    requires IsObjectCreated(ev.eventName) && ev.key != ""
    requires io.fetched.Ok? && io.formats.Ok?
    ensures Outcome(cfg, st, ev, io, makeKey).Dispatched?
    ensures Outcome(cfg, st, ev, io, makeKey).widths == Widths(io.fetched.value.width, TransformOf(st.transformtype))
  {
  }

  /** A rejected event still moves the profile: the update precedes validation. */
  lemma RejectedEventStillSteps(cfg: Config, st: ProfileState, ev: Event, io: Io, makeKey: KeyMaker)
    requires DefaultDirectory in cfg.output
    requires SizeableUnder(Step(cfg, st, ev.key), io)
    requires Validate(ev).Err?
    ensures ProcessItem(cfg, st, ev, io, makeKey).0 == Step(cfg, st, ev.key)
    ensures ProcessItem(cfg, st, ev, io, makeKey).1 == Failed(Validate(ev).error)
  {
  }

  /** The widths depend only on the source width and the transform type: the
      profile's `maxWidth` and `maxHeight` never cap or change them. */
  lemma WidthsIgnoreBounds(cfg: Config, s1: ProfileState, s2: ProfileState, key: string, io: Io, makeKey: KeyMaker)
    requires SizeableUnder(s1, io) && SizeableUnder(s2, io)
    requires s1.transformtype == s2.transformtype
    requires io.fetched.Ok? && io.formats.Ok?
    ensures Complete(cfg, s1, key, io, makeKey).Dispatched?
    ensures Complete(cfg, s2, key, io, makeKey).Dispatched?
    ensures Complete(cfg, s1, key, io, makeKey).widths == Complete(cfg, s2, key, io, makeKey).widths
    ensures Complete(cfg, s1, key, io, makeKey).widths
         == Widths(io.fetched.value.width, TransformOf(s1.transformtype))
  {
  }

  /** A dispatched record's size set is the one the size-set calculator gives,
      its heights follow the profile's ratio, and, with one stream per width,
      output `i` carries the `i`-th label and the profile's output directory. */
  lemma DispatchedOutputs(cfg: Config, st: ProfileState, key: string, io: Io, makeKey: KeyMaker)
    requires SizeableUnder(st, io)
    requires io.fetched.Ok? && io.formats.Ok?
    requires |io.formats.value| == |Widths(io.fetched.value.width, TransformOf(st.transformtype))|
    ensures Complete(cfg, st, key, io, makeKey).Dispatched?
    ensures var r, img := Complete(cfg, st, key, io, makeKey), io.fetched.value;
      var ratio := HeightRatio(img.width, img.height, st.maxWidth, st.maxHeight);
      && r.widths == Widths(img.width, TransformOf(st.transformtype))
      && (forall i :: 0 <= i < |r.widths| ==>
            Rounding.Nearest(r.heights[i], r.widths[i] * ratio.num, ratio.den))
      && (forall i :: 0 <= i < |r.uploads| ==>
            r.uploads[i].key == makeKey(cfg.keyTemplate, Context(key, img.contentType), Some(Labels[i]), st.outputdir))
  {
    var r, img := Complete(cfg, st, key, io, makeKey), io.fetched.value;
    UploadsLabelledBySize(cfg.params, cfg.keyTemplate, Context(key, img.contentType), st.outputdir,
      io.formats.value, makeKey, img.width, TransformOf(st.transformtype));
  }
}

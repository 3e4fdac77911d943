# Image resizer core — a Dafny model

This project models the decision logic of an object-store image resizer. The
resizer reacts to object-creation notifications and derives a fixed set of
resized copies of each uploaded image. The model covers what `processItem`
(`src/image.js`) and `processImage` (`src/handler.js`) decide:

- the output profile selection (`maxWidth`, `maxHeight`, `outputdir`,
  `transformtype`), kept in module-level variables that carry over from one
  event to the next, made explicit as a `ProfileState` value and a `Step`
  function (module `Profile`);
- the event check: the event type, then the decoded key (module `Item`);
- the size set: the ordered width list of `sizes` or `responsive` mode and one
  height per width (module `SizeSet`), with `Math.round(p / q)` on naturals
  modelled exactly as `(2p + q) div (2q)` (module `Rounding`);
- the output labelling: size label by position, output directory, and content
  type from the format table (module `Output`);
- the batch: every record's profile step and validation run before any record
  resumes from its first `await`, so all records of a batch are sized under the
  profile the last step left (module `Batch`);
- the all-or-nothing batch outcome and its pluralised completion line
  (module `Handler`).

The collaborators are parameters. The object read and the dimension decoding
arrive as `Io.fetched`, and the resize engine's streams arrive as their encoded
formats in `Io.formats`. `makeKey` is an uninterpreted function parameter. The
key decoder's output is the `Event.key` input.

Points of the code's behaviour a reader might not expect, all modelled as written:

- The event type is checked before the key (src/image.js:40-48).
- A profile is not resolved afresh per notification. A key whose directory has
  no entry keeps the previous event's profile, and a batch shares one profile
  (see Findings).
- `maxHeight` of `0` in a directory entry counts as absent. The `default`
  entry's own `maxHeight` is copied verbatim, so a `0` there selects the
  `maxHeight / maxWidth` branch, which gives heights of 0.
- Widths are not always positive. `round(w/6)` is 0 for sources narrower than 3
  pixels (`SizeSet.SizesPositiveFromThree`).
- `responsive` widths are not strictly increasing for a 1-pixel source, which
  gives `[1, 2, 2, 3]`.

## Model

| member | source | states |
|---|---|---|
| Rounding.RoundDiv | src/image.js:71-75 | `Math.round(p/q)` is the integer within half a unit of `p/q`, halves rounded up |
| Rounding.RoundDivIsNearest | src/image.js:71-75 | that integer is unique: any integer within half a unit of `p/q` (halves up) is what `Math.round` returns |
| Rounding.RoundDivMonotone | src/image.js:71-74 | rounding `p/q` is monotone in `p` |
| Strings.Split | src/image.js:28 | `split` returns at least one part, and no part contains the separator |
| Strings.JoinSplit | src/image.js:28-29 | joining the parts of a split on the same separator gives the string back |
| Strings.SplitHead | src/image.js:40 | the first part of a split is the longest separator-free prefix: the whole string, or followed by the separator |
| Strings.ParseNatToString | src/handler.js:12 | the decimal rendering of a count reads back as that count |
| Profile.DirectoryBeforeLastSlash | src/image.js:28-29 | the directory is the key minus `/` and its last segment, which has no `/`; it is empty when the key has no `/` |
| Profile.DirectoryGuardHolds | src/image.js:30 | the directory guard holds for every string, so the table lookup is unconditional |
| Profile.Initial | src/image.js:10-13 | the module starts from the `default` entry's four fields copied verbatim, without fallbacks; that equals what a key in the directory `default` selects exactly when the entry's `maxHeight` is not 0 and its `transformtype` is set |
| Profile.Directory | src/image.js:28-29 | a key without `/` has the empty directory; otherwise the directory is strictly shorter than the key |
| Profile.Apply | src/image.js:33-36 | `maxWidth` is the entry's; `maxHeight`, `outputdir` and `transformtype` are the entry's when truthy, otherwise absent, the default entry's directory and `sizes`; the result always names a transform type and never a zero height bound |
| Profile.ApplySettled | src/image.js:33-36 | the fallbacks are settled: an entry built from an applied profile applies to that same profile |
| Profile.Step | src/image.js:28-38 | with no entry for the directory the profile is unchanged; with one, `maxWidth` is the entry's, a truthy `maxHeight`, `outputdir` or `transformtype` is the entry's, and otherwise they fall back to absent, the default entry's directory and `sizes` |
| Profile.StepForgetsPrevious | src/image.js:31-37 | a matching entry overwrites all four variables, so the result does not depend on the previous profile |
| Profile.StepIdempotent | src/image.js:28-38 | applying the same key's update twice equals applying it once |
| Profile.StepPreservesWellFormed | src/image.js:33-34 | under a valid configuration, a present `maxHeight` always comes with a positive `maxWidth` to divide by |
| Profile.Replay | src/image.js:10-38 | after a sequence of events the profile is either the one before them or one that names a transform type and carries no zero height bound; which profile it is, for every input, is stated by `Profile.ReplayLastMatch` and `Profile.ReplayWithoutMatch` |
| Profile.ReplayWithoutMatch | src/image.js:30-38 | after events none of whose directories has an entry, the profile is still the one before them |
| Profile.ReplayLastMatch | src/image.js:28-38 | after a sequence of events the profile is the one selected by the last key that has an entry, whatever came before |
| Profile.ReplayPreservesWellFormed | src/image.js:33-34 | well-formedness survives any sequence of events |
| Profile.Resolve | src/image.js:10-13 | corrected resolution: the default profile when the directory has no entry, otherwise the entry merged over the defaults, whatever the history |
| Profile.StaleProfileExample | src/image.js:30-38 | as written: `y.jpg` after `a/x.jpg` is processed in responsive mode, but on its own it gets `sizes` |
| SizeSet.TransformOf | src/image.js:65 | responsive mode is selected exactly by the string `"responsive"` |
| SizeSet.Widths | src/image.js:65-77 | `responsive`: 4 widths `w`, `round(1.5w)`, `2w`, `3w`; `sizes`: 6 widths, the nearest integers to `w/6`, `w/4`, `w/3`, `w/2`, then twice the third, then `w` |
| SizeSet.SizesAscendingUnlessOne | src/image.js:70-77 | the `sizes` list is in ascending order exactly when the source width is not 1 |
| SizeSet.SizesPositiveFromThree | src/image.js:70-77 | every `sizes` width is positive exactly when the source is at least 3 pixels wide |
| SizeSet.ResponsiveAscending | src/image.js:65-69 | `responsive` widths never decrease, and strictly increase exactly when the source is at least 2 pixels wide |
| SizeSet.HeightRatio | src/image.js:58 | the ratio's denominator is the source width without `maxHeight` and `maxWidth` with one; the ratio equals `srcH/srcW`, the reciprocal of the aspect ratio, in the first case and `maxHeight/maxWidth` in the second |
| SizeSet.Heights | src/image.js:79-86 | one height per width, in the same positions, each the nearest integer to width times the height ratio |
| SizeSet.WholeMultiplesKeepAspect | src/image.js:58-86 | scaled by the aspect ratio, the outputs at 1x, 2x and 3x the source width have exactly 1x, 2x and 3x the source height |
| SizeSet.ExampleLandscape | src/image.js:70-86 | 1200x800 gives widths `[200,300,400,600,800,1200]` and heights `[133,200,267,400,533,800]` |
| SizeSet.ExampleOnePixel | src/image.js:70-77 | a 1-pixel source gives `[0,0,0,1,0,1]` |
| SizeSet.ExampleResponsive | src/image.js:65-69 | a 300-pixel source in responsive mode gives `[300,450,600,900]` |
| SizeSet.ExampleBounded | src/image.js:83 | width 200 with `maxHeight` 400 and `maxWidth` 800 gives height 100 |
| Output.Mime | src/image.js:15-21 | a content type exists exactly for `jpeg`, `png`, `webp`, `gif` and `svg`, and it is an `image/` type |
| Output.ContentTypeFor | src/image.js:102-104 | a content type exists exactly when the upload parameters fix one or the format is in the table; the parameters' `ContentType` overrides the table's; a table type is an `image/` type |
| Output.Uploads | src/image.js:100-108 | one upload request per stream, in stream order; stream `i` is keyed with the `i`-th size label (`undefined` past the sixth) and the current output directory, and its content type is the parameters' `ContentType` when they fix one and the table's type for its format otherwise, defined exactly when one of the two exists |
| Output.UploadsLabelledBySize | src/image.js:63 | with one stream per width, output `i` is keyed with label `i` and the current output directory; responsive mode uses only the first four labels; labels never repeat |
| Output.ContentTypeFromTable | src/image.js:102-104 | unless the upload parameters set their own `ContentType`, each upload's content type is the table entry for its stream's format |
| Item.TypeFamily | src/image.js:40 | the event type is the longest `:`-free prefix of the event name: the whole name, or followed by `:` |
| Item.ObjectCreatedHasTypeFamily | src/image.js:40 | an object-creation event name passes the type check |
| Item.TypeFamilyMeansObjectCreated | src/image.js:40 | an event name that passes the type check is `ObjectCreated` alone or followed by `:` |
| Item.TypeFamilyIsObjectCreated | src/image.js:40 | the text before the first `:` is `ObjectCreated` exactly when the name is `ObjectCreated` or starts with `ObjectCreated:` |
| Item.Validate | src/image.js:40-48 | accepts exactly object-creation events with a non-empty key; a wrong type is rejected as such whatever the key; an empty key is rejected only after the type passes |
| Item.ZeroDefaultBoundFlattens | src/image.js:10-13 | a `maxHeight` of 0 in the `default` entry is copied verbatim and so acts as a height bound: before any matching key, every height is 0 |
| Item.Complete | src/image.js:50-107 | the record fails exactly when the read or the resize fails, and it fails with that collaborator's own rejection, the read's taking precedence; otherwise there is one height per width and one upload per stream |
| Item.Outcome | src/image.js:40-107 | a wrong event type or an empty key fails the record with that error whatever the collaborators do; a dispatched record was a valid event |
| Item.ProcessItem | src/image.js:23-108 | the profile is updated first and kept when the key's directory has no entry; the record is dispatched exactly when its event is a valid object creation with a key and every collaborator succeeds, with the size set of the updated profile's transform type; a wrong event type is reported as such |
| Item.ValidEventDispatched | src/image.js:46-77 | a valid event whose collaborators succeed is dispatched with the size set of its source width under the profile's transform type |
| Item.RejectedEventStillSteps | src/image.js:28-48 | a rejected event still applies its profile update |
| Item.WidthsIgnoreBounds | src/image.js:56-77 | widths depend only on the source width and the transform type, never on `maxWidth` or `maxHeight` |
| Item.DispatchedOutputs | src/image.js:56-107 | a dispatched record carries the calculator's widths, heights rounded from the profile's ratio, and output keys built from label `i` and the profile's directory |
| Batch.ProcessBatch | src/handler.js:6 | as written: the profile after the batch is the replay of all its keys, and every record's result is computed under that one profile |
| Batch.ReplayOfKeys | src/image.js:30-38 | a batch none of whose keys has an entry leaves the incoming profile in place |
| Batch.BatchUsesLastMatch | src/image.js:28-56 | every record of a batch is sized and labelled under the profile of the batch's last key with an entry, and the next invocation starts from that profile |
| Batch.SingletonBatch | src/handler.js:6 | a one-record batch is `processItem` on that record |
| Batch.SharedProfileExample | src/image.js:10-13 | as written: in the batch `a/x.jpg`, `b/y.jpg`, the responsive `a/x.jpg` is cut into the six `sizes` widths of `b`, where alone it gets four responsive widths |
| Batch.ProcessBatchScoped | src/image.js:28-38 | corrected batch: each record's result is what `processItem` gives it on its own, starting from the default profile |
| Batch.ScopedIgnoresOtherRecords | src/image.js:28-38 | corrected batch: a record's result depends only on that record and its own collaborators, not on its position or the other records |
| Batch.ScopedSameFailures | src/image.js:40-50 | the correction changes only what dispatched records produce: the same records fail, with the same errors, as in the batch as written |
| Batch.ScopedProfileExample | src/image.js:65-69 | corrected batch: `a/x.jpg` keeps its four responsive widths in the same batch |
| Handler.CompletionLine | src/handler.js:12 | the line starts with "Completed processing " and ends in `s` exactly when the count is not 1 |
| Handler.CompletionLineReadsBack | src/handler.js:12 | the completion line reads back as the record count, written in plain decimal (digits only, no leading zero), then "event", plural for every count except 1 (including 0) |
| Handler.CompletionLineExamples | src/handler.js:12 | counts 0, 1 and 2 give "0 events", "1 event" and "2 events" |
| Handler.ProcessImage | src/handler.js:4-15 | the callback runs exactly once, last. It gets an error exactly when some record failed, and that error is a failed record's error, passed with the unmodified batch. Otherwise it is `callback(null)`. The completion line is logged exactly on success |
| Handler.Invoke | src/handler.js:4-15 | as written: an invocation leaves the profile the replay of its keys for the next one, calls back exactly once and last, and hands the unmodified batch back whenever it reports an error |
| Handler.OutcomeFailsIff | src/image.js:40-97 | under any profile, a record fails exactly when its event is not a valid object creation, its key is empty, or the read, decode, resize or metadata step fails |
| Handler.BatchFailures | src/handler.js:6 | the batch as written fails exactly the records that fail by that reference definition |
| Handler.InvokeSucceedsIffNoRecordFails | src/handler.js:5-10 | an invocation succeeds exactly when every event is valid and every read, decode, resize and metadata call succeeds; upload outcomes play no part |
| Handler.EmptyBatchSucceeds | src/handler.js:5-14 | an empty batch leaves the profile unchanged, logs "Completed processing 0 events", and calls back with no error |

## Findings

| source | as written | input that shows it | evidently intended | confidence | as-written member | corrected member |
|---|---|---|---|---|---|---|
| src/image.js:10-13 | the profile lives in module-level variables. `records.map(processItem)` runs every record's profile step before any record passes its first `await`, so every record of a batch is sized and keyed under the profile left by the batch's last matching key | config `a` → responsive, `b` → sizes; batch `a/x.jpg`, `b/y.jpg` of a 300-pixel source | each record is sized under its own directory's profile | medium, not executed | Batch.SharedProfileExample | Batch.ProcessBatchScoped |
| src/image.js:30-38 | a key whose directory has no entry keeps the previous event's profile, even across invocations of a warm process | `a/x.jpg` (responsive) followed by `y.jpg` | a key without an entry gets the default profile | medium, not executed | Profile.StaleProfileExample | Profile.Resolve |

`Handler.Invoke` and the lemmas about it model the code as written. The
corrected members (`Profile.Resolve`, `Batch.ProcessBatchScoped`) show what
per-record resolution gives. `Handler.ProcessImage` takes per-record results,
so it applies unchanged to the corrected batch. `Batch.ScopedSameFailures`
shows that the correction leaves every batch outcome and error as it was and
changes only the sizes and keys of dispatched records.

## Left out

- Object-store `get` and `upload`, `image-size` and the resize engine: network I/O and foreign libraries. Their outcomes are the `Io` inputs, and the model assumes nothing about what they return beyond the `Sizeable` exclusion below (a decoded width of 0 without a `maxHeight`). `upload` is neither awaited nor returned, so the model gives its failures no way to fail a record.
- `decodeS3EventKey` and `makeKey`: their source is not part of this model. The decoded key is an input (possibly empty) and `makeKey` is an uninterpreted function, so key uniqueness and decoding round trips are not claimed.
- Floating point: `Math.round` is modelled on exact rationals. In sizes mode the quotients `w/3` and `w/6` are not representable in binary floating point, but the rounded results agree with the model's for any realistic width: the exact ties (`w/2`, `w/4`, `w/6` landing on `.5`) are representable, and the other quotients stay well away from `.5`. Both height branches divide in doubles before rounding: `round(w / (srcW / srcH))` goes through a rounded aspect ratio, and `round(w * (maxHeight / maxWidth))` through a rounded bound ratio. Where the exact product is a `.5` tie, the double may land on either side of it. For example `700/1000` is stored just below 0.7, so `45 * (700/1000)` falls just below 31.5 and rounds to 31, where the model gives 32.
- NaN and Infinity: heights that divide by a zero source width, or by a zero or absent `maxWidth` while a `maxHeight` is set, are excluded by the `Sizeable` preconditions and `ValidConfig`. An absent `maxWidth` is not modelled (`Entry.maxWidth` is a natural).
- Which rejection `Promise.all` surfaces. `processItem` is `async` and rejects at src/image.js:41 or :47 before its first `await`, so a record that fails validation has an already rejected promise when `Promise.all` (src/handler.js:6) subscribes. The lowest-index such record therefore settles the batch before any `get` resumes, as long as `get` rejects asynchronously; its source is not part of this model. Timing decides only among collaborator failures. `Handler.ProcessImage` takes the surfaced record as the `first` input, constrained by `Surfaces` only to name a failed result. `Handler.Invoke` states the same constraint on the records themselves (`SurfacesRecord`), which `Handler.BatchFailures` shows is equivalent.
- Handler.ProcessImage: the callback's error is some failed record's error, not a determined one. This covers every order the source can produce and some it cannot: when a record fails validation, the source always reports the lowest-index such record, while the model also admits a collaborator failure or a later validation failure.
- Item.Complete: one failed stream-metadata call fails the record, and the model then records no uploads. In the source every other stream whose metadata resolves still calls `upload` with its label (src/image.js:101-106), possibly after the callback. Its failure also reaches `Promise.all` at a time that depends on the other streams, so modelling it would need per-stream outcomes and another timing input.
- A `ContentType` among the fixed upload parameters overrides the table's (modelled in `Output.ContentTypeFor`). Any other parameter fields are not modelled.
- `console.log` diagnostics in `processItem` and the `console.error` text: the model records only that an error is logged before the failing callback.
- JavaScript prototype-chain lookups on `output[directory]` and `imageMimeTypes[format]` (for example a directory named `constructor`): a lookup finds only the table's own entries.
- An interleaving of a new invocation with records still in flight from a previous one that already failed: not modelled.

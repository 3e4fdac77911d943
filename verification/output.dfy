/**
 Output labelling: each resized stream is uploaded under a key built by the
 external `makeKey` from the size label at its position and the current output
 directory, with a content type taken from a fixed format table.
 */
module Output {
  import opened Wrappers
  import opened SizeSet

  /** The encoded formats the content-type table knows. */
  const ImageFormats: set<string> := {"jpeg", "png", "webp", "gif", "svg"}

  /** `imageMimeTypes[format]`; `undefined` (None) for any other format. */
  function Mime(format: string): (m: Option<string>)
    ensures m.Some? <==> format in ImageFormats
    ensures m.Some? ==> |m.value| > 6 && m.value[..6] == "image/"
  {
    if format == "jpeg" then Some("image/jpeg")
    else if format == "png" then Some("image/png")
    else if format == "webp" then Some("image/webp")
    else if format == "gif" then Some("image/gif")
    else if format == "svg" then Some("image/svg+xml")
    else None
  }

  /** The `context` passed to `makeKey`: the decoded source key and the content
      type the object store reported for it. */
  datatype Context = Context(key: string, contentType: string)

  /** The external key formatter, `makeKey(template, context, label, outputdir)`,
      left uninterpreted. A missing label or directory is passed as `undefined`. */
  type KeyMaker = (string, Context, Option<string>, Option<string>) -> string

  /** One upload request: its `ContentType` and `Key` (the other fields are the
      configuration's fixed `params`). */
  datatype Upload = Upload(contentType: Option<string>, key: string)

  /** `sizesString[index]`: `undefined` past the sixth output. */
  function LabelAt(i: nat): Option<string>
  {
    if i < |Labels| then Some(Labels[i]) else None
  }

  /** `{ContentType: ..., ...params}`: a `ContentType` among the fixed upload
      parameters is spread after, and so overrides, the table's. */
  function ContentTypeFor(params: map<string, string>, format: string): (ct: Option<string>)
    ensures ct.Some? <==> "ContentType" in params || format in ImageFormats
    ensures "ContentType" in params ==> ct.value == params["ContentType"]
    ensures "ContentType" !in params && ct.Some? ==> |ct.value| > 6 && ct.value[..6] == "image/"
  {
    if "ContentType" in params then Some(params["ContentType"]) else Mime(format)
  }

  /** The upload requests for the resized streams, given each stream's encoded
      format, in stream order: stream `i` is keyed with the `i`-th size label
      (`undefined` past the sixth) and the current output directory, and has a
      content type exactly when the parameters fix one or its format is known. */
  function Uploads(
    params: map<string, string>, template: string, ctx: Context, outputdir: Option<string>,
    formats: seq<string>, makeKey: KeyMaker): (us: seq<Upload>)
    ensures |us| == |formats|
    ensures forall i :: 0 <= i < |formats| ==>
      && us[i].key == makeKey(template, ctx, if i < |Labels| then Some(Labels[i]) else None, outputdir)
      && us[i].contentType == ContentTypeFor(params, formats[i])
  {
    var us := seq(|formats|, i requires 0 <= i < |formats| =>
      Upload(ContentTypeFor(params, formats[i]), makeKey(template, ctx, LabelAt(i), outputdir)));
    assert forall i :: 0 <= i < |formats| ==>
      us[i] == Upload(ContentTypeFor(params, formats[i]), makeKey(template, ctx, LabelAt(i), outputdir));
    us
  }

  /** With one stream per width, output `i` is keyed with the `i`-th size label
      and the current output directory; in responsive mode that means the
      first four labels, `1_6` to `1_2`, on outputs 1x to 3x. Labels never repeat
      within one source. */
  lemma UploadsLabelledBySize(
    params: map<string, string>, template: string, ctx: Context, outputdir: Option<string>,
    formats: seq<string>, makeKey: KeyMaker, w: nat, t: TransformType)
    requires |formats| == |Widths(w, t)|
    ensures forall i :: 0 <= i < |formats| ==>
      Uploads(params, template, ctx, outputdir, formats, makeKey)[i].key
        == makeKey(template, ctx, Some(Labels[i]), outputdir)
    ensures t == Responsive ==>
      forall i :: 0 <= i < |formats| ==> LabelAt(i) == Some(["1_6", "1_4", "1_3", "1_2"][i])
    ensures forall i, j :: 0 <= i < j < |formats| ==> LabelAt(i) != LabelAt(j)
  {
    var us := Uploads(params, template, ctx, outputdir, formats, makeKey);
    forall i | 0 <= i < |formats|
      ensures us[i].key == makeKey(template, ctx, Some(Labels[i]), outputdir)
    {
      assert us[i] == Upload(ContentTypeFor(params, formats[i]), makeKey(template, ctx, LabelAt(i), outputdir));
    }
  }

  /** Unless the fixed upload parameters carry their own `ContentType`, each
      upload's content type is the table's entry for its stream's format, and it
      is defined exactly for the five known formats. */
  lemma ContentTypeFromTable(
    params: map<string, string>, template: string, ctx: Context, outputdir: Option<string>,
    formats: seq<string>, makeKey: KeyMaker)
    requires "ContentType" !in params
    ensures forall i :: 0 <= i < |formats| ==>
      var u := Uploads(params, template, ctx, outputdir, formats, makeKey)[i];
      && u.contentType == Mime(formats[i])
      && (u.contentType.Some? <==> formats[i] in ImageFormats)
  {
    var us := Uploads(params, template, ctx, outputdir, formats, makeKey);
    forall i | 0 <= i < |formats|
      ensures us[i].contentType == Mime(formats[i])
    {
      assert us[i] == Upload(ContentTypeFor(params, formats[i]), makeKey(template, ctx, LabelAt(i), outputdir));
    }
  }
}

/**
 The output profile held in the four module-level variables of `src/image.js`
 (`maxWidth`, `maxHeight`, `outputdir`, `transformtype`), made explicit as a
 `ProfileState` value threaded from one event to the next by `Step`.
 */
module Profile {
  import opened Wrappers
  import opened Strings

  /** One entry of the `output` configuration table. Every field is as the
      configuration gives it, so each may be absent. */
  datatype Entry = Entry(
    maxWidth: nat,
    maxHeight: Option<nat>,
    outputdir: Option<string>,
    transformtype: Option<string>)

  /** The static configuration: the `output` table keyed by directory (its
      `default` entry doubles as an ordinary entry for the directory
      `default`), the `key` template handed to `makeKey`, and the fixed upload
      `params`. */
  datatype Config = Config(
    output: map<string, Entry>,
    keyTemplate: string,
    params: map<string, string>)

  /** The values of the four module-level variables between two events. */
  datatype ProfileState = ProfileState(
    maxWidth: nat,
    maxHeight: Option<nat>,
    outputdir: Option<string>,
    transformtype: Option<string>)

  const DefaultDirectory: string := "default"

  /** JavaScript truthiness of an optional number: present and not zero. */
  predicate TruthyNat(v: Option<nat>) {
    v.Some? && v.value != 0
  }

  /** JavaScript truthiness of an optional string: present and not empty. */
  predicate TruthyString(v: Option<string>) {
    v.Some? && v.value != ""
  }

  /** The four variables as the module initialises them: the `default` entry
      copied verbatim, with no fallbacks. They agree with what a key in the
      directory `default` selects exactly when the entry needs no fallback: its
      `maxHeight` is not `0` and its `transformtype` is set. */
  function Initial(cfg: Config): (p: ProfileState)
    requires DefaultDirectory in cfg.output
    ensures var e := cfg.output[DefaultDirectory];
      && p.maxWidth == e.maxWidth && p.maxHeight == e.maxHeight
      && p.outputdir == e.outputdir && p.transformtype == e.transformtype
    ensures var e := cfg.output[DefaultDirectory];
      p == Apply(cfg, e) <==> e.maxHeight != Some(0) && TruthyString(e.transformtype)
  {
    var e := cfg.output[DefaultDirectory];
    ProfileState(e.maxWidth, e.maxHeight, e.outputdir, e.transformtype)
  }

  /** The last `/`-separated segment of a key (the file name). */
  function Basename(key: string): string
  {
    var crumbs := Split(key, '/');
    crumbs[|crumbs| - 1]
  }

  /** `crumbs.slice(0, crumbs.length - 1).join('/')`: every segment but the last.
      It is empty for a key without `/`, and otherwise strictly shorter than the
      key (`DirectoryBeforeLastSlash` says exactly which prefix it is). */
  function Directory(key: string): (d: string)
    ensures '/' !in key ==> d == ""
    ensures '/' in key ==> |d| < |key|
  {
    var crumbs := Split(key, '/');
    SplitSingle(key, '/');
    JoinSplit(key, '/');
    if |crumbs| >= 2 then
      JoinSnoc(crumbs, '/');
      Join(crumbs[..|crumbs| - 1], '/')
    else
      Join(crumbs[..|crumbs| - 1], '/')
  }

  /** The directory is the part of the key before its last `/`, or empty when the
      key has no `/` at all. */
  lemma DirectoryBeforeLastSlash(key: string)
    ensures '/' !in Basename(key)
    ensures '/' !in key ==> Directory(key) == ""
    ensures '/' in key ==> key == Directory(key) + "/" + Basename(key)
  {
    var crumbs := Split(key, '/');
    SplitSingle(key, '/');
    JoinSplit(key, '/');
    if '/' in key {
      JoinSnoc(crumbs, '/');
    }
  }

  /** The condition `directory != 'undefined' || directory.length > 0`. */
  predicate DirectoryGuard(d: string) {
    d != "undefined" || |d| > 0
  }

  /** The guard never fails for a string, so the table lookup is unconditional. */
  lemma DirectoryGuardHolds(d: string)
    ensures DirectoryGuard(d)
  {
  }

  /** Whether the table has an entry for the key's directory. */
  predicate Matches(cfg: Config, key: string) {
    var d := Directory(key);
    DirectoryGuard(d) && d in cfg.output
  }

  /** The four variables after an entry is found: `maxWidth` verbatim, the other
      three kept when truthy and otherwise replaced by their fallbacks (no height
      bound, the default entry's directory, `sizes`). The result always names a
      transform type and never carries a zero height bound. */
  function Apply(cfg: Config, e: Entry): (p: ProfileState)
    requires DefaultDirectory in cfg.output
    ensures p.maxWidth == e.maxWidth
    ensures TruthyNat(e.maxHeight) ==> p.maxHeight == e.maxHeight
    ensures !TruthyNat(e.maxHeight) ==> p.maxHeight == None
    ensures TruthyString(e.outputdir) ==> p.outputdir == e.outputdir
    ensures !TruthyString(e.outputdir) ==> p.outputdir == cfg.output[DefaultDirectory].outputdir
    ensures TruthyString(e.transformtype) ==> p.transformtype == e.transformtype
    ensures !TruthyString(e.transformtype) ==> p.transformtype == Some("sizes")
    ensures TruthyString(p.transformtype) && (p.maxHeight.None? || TruthyNat(p.maxHeight))
  {
    ProfileState(
      e.maxWidth,
      if TruthyNat(e.maxHeight) then e.maxHeight else None,
      if TruthyString(e.outputdir) then e.outputdir else cfg.output[DefaultDirectory].outputdir,
      if TruthyString(e.transformtype) then e.transformtype else Some("sizes"))
  }

  /** The fallbacks are settled: applying an entry built from an applied profile
      gives that profile back. */
  lemma ApplySettled(cfg: Config, e: Entry)
    requires DefaultDirectory in cfg.output
    ensures var p := Apply(cfg, e);
      Apply(cfg, Entry(p.maxWidth, p.maxHeight, p.outputdir, p.transformtype)) == p
  {
  }

  /** One event's update of the module-level variables, from its decoded key.
      Without a matching entry nothing changes: the previous event's profile
      stays in force. */
  function Step(cfg: Config, st: ProfileState, key: string): (next: ProfileState)
    requires DefaultDirectory in cfg.output
    ensures !(Directory(key) in cfg.output) ==> next == st
    ensures Directory(key) in cfg.output ==>
      var e := cfg.output[Directory(key)];
      && next.maxWidth == e.maxWidth
      && (TruthyNat(e.maxHeight) ==> next.maxHeight == e.maxHeight)
      && (!TruthyNat(e.maxHeight) ==> next.maxHeight == None)
      && (TruthyString(e.outputdir) ==> next.outputdir == e.outputdir)
      && (!TruthyString(e.outputdir) ==> next.outputdir == cfg.output[DefaultDirectory].outputdir)
      && (TruthyString(e.transformtype) ==> next.transformtype == e.transformtype)
      && (!TruthyString(e.transformtype) ==> next.transformtype == Some("sizes"))
  {
    if Matches(cfg, key) then Apply(cfg, cfg.output[Directory(key)]) else st
  }

  /** A matching entry overwrites all four variables, so the result does not
      depend on what earlier events left behind. */
  lemma StepForgetsPrevious(cfg: Config, s1: ProfileState, s2: ProfileState, key: string)
    requires DefaultDirectory in cfg.output
    requires Directory(key) in cfg.output
    ensures Step(cfg, s1, key) == Step(cfg, s2, key)
  {
  }

  /** Replaying the same key changes nothing further. */
  lemma StepIdempotent(cfg: Config, st: ProfileState, key: string)
    requires DefaultDirectory in cfg.output
    ensures Step(cfg, Step(cfg, st, key), key) == Step(cfg, st, key)
  {
  }

  /** The profile can size heights: a present `maxHeight` comes with a positive
      `maxWidth` to divide by. */
  predicate WellFormed(st: ProfileState) {
    st.maxHeight.Some? ==> st.maxWidth > 0
  }

  /** A configuration whose every profile divides by a positive `maxWidth`
      wherever it sets a height bound. */
  predicate ValidConfig(cfg: Config) {
    && DefaultDirectory in cfg.output
    && WellFormed(Initial(cfg))
    && forall d :: d in cfg.output && TruthyNat(cfg.output[d].maxHeight) ==> cfg.output[d].maxWidth > 0
  }

  /** `Step` keeps a well-formed profile well-formed. */
  lemma StepPreservesWellFormed(cfg: Config, st: ProfileState, key: string)
    requires ValidConfig(cfg) && WellFormed(st)
    ensures WellFormed(Step(cfg, st, key))
  {
  }

  /** The variables after a sequence of events, in order: the profile they
      started with, or one an entry selected, which always names a transform
      type and never carries a zero height bound (`ReplayLastMatch` says which). */
  function Replay(cfg: Config, st: ProfileState, keys: seq<string>): (p: ProfileState)
    requires DefaultDirectory in cfg.output
    ensures p == st || (TruthyString(p.transformtype) && p.maxHeight != Some(0))
    decreases |keys|
  {
    if |keys| == 0 then st else Replay(cfg, Step(cfg, st, keys[0]), keys[1..])
  }

  /** Without any matching key the profile is whatever it was before. */
  lemma {:induction false} ReplayWithoutMatch(cfg: Config, st: ProfileState, keys: seq<string>)
    requires DefaultDirectory in cfg.output
    requires forall k :: 0 <= k < |keys| ==> !Matches(cfg, keys[k])
    ensures Replay(cfg, st, keys) == st
    decreases |keys|
  {
    if |keys| > 0 {
      ReplayWithoutMatch(cfg, Step(cfg, st, keys[0]), keys[1..]);
    }
  }

  /** After a sequence of events the profile is the one the LAST matching key
      selected; keys before it, and the starting profile, do not matter. */
  lemma {:induction false} ReplayLastMatch(cfg: Config, st: ProfileState, keys: seq<string>, j: nat)
    requires DefaultDirectory in cfg.output
    requires j < |keys| && Matches(cfg, keys[j])
    requires forall k :: j < k < |keys| ==> !Matches(cfg, keys[k])
    ensures Replay(cfg, st, keys) == Apply(cfg, cfg.output[Directory(keys[j])])
    decreases |keys|
  {
    if j == 0 {
      ReplayWithoutMatch(cfg, Step(cfg, st, keys[0]), keys[1..]);
    } else {
      ReplayLastMatch(cfg, Step(cfg, st, keys[0]), keys[1..], j - 1);
    }
  }

  /** Replaying keeps a well-formed profile well-formed. */
  lemma {:induction false} ReplayPreservesWellFormed(cfg: Config, st: ProfileState, keys: seq<string>)
    requires ValidConfig(cfg) && WellFormed(st)
    ensures WellFormed(Replay(cfg, st, keys))
    decreases |keys|
  {
    if |keys| > 0 {
      StepPreservesWellFormed(cfg, st, keys[0]);
      ReplayPreservesWellFormed(cfg, Step(cfg, st, keys[0]), keys[1..]);
    }
  }

  /** The profile a key is meant to select on its own: its directory's entry
      merged over the defaults, or the default profile when there is none. */
  function Resolve(cfg: Config, key: string): (p: ProfileState)
    requires DefaultDirectory in cfg.output
    ensures !Matches(cfg, key) ==> p == Initial(cfg)
    ensures forall st :: Matches(cfg, key) ==> p == Step(cfg, st, key)
  {
    Step(cfg, Initial(cfg), key)
  }

  /** A key made of one directory segment and a file name has that directory. */
  lemma DirectoryOfSegment(dir: string, name: string)
    requires '/' !in dir && '/' !in name
    ensures Directory(dir + "/" + name) == dir
  {
    SplitPair(dir, name, '/');
  }

  /** A table with a responsive `a` profile and a `b` profile that only sets a
      width, used by the examples. */
  function ExampleConfig(): Config
  {
    Config(
      map[DefaultDirectory := Entry(800, None, Some("resized"), Some("sizes")),
          "a" := Entry(800, None, None, Some("responsive")),
          "b" := Entry(640, None, None, None)],
      "{dir}/{name}_{size}", map[])
  }

  /** As written, a key without an entry inherits the previous event's profile:
      after `a/x.jpg`, the key `y.jpg` is processed in responsive mode, whereas
      on its own it gets the default `sizes` profile. */
  lemma StaleProfileExample()
    ensures Step(ExampleConfig(), Step(ExampleConfig(), Initial(ExampleConfig()), "a/x.jpg"), "y.jpg").transformtype
         == Some("responsive")
    ensures Resolve(ExampleConfig(), "y.jpg").transformtype == Some("sizes")
  {
    DirectoryOfSegment("a", "x.jpg");
    assert "a" + "/" + "x.jpg" == "a/x.jpg";
    SplitWithoutSeparator("y.jpg", '/');
    assert Directory("y.jpg") == "";
  }
}

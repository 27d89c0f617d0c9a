/**
 * The options of one package pull (pack/pull_options.go).
 *
 * NewPullOptions starts from a zero-valued PullOptions and applies a list of
 * functional options to it in order, stopping at the first one that returns
 * an error. The Go closures become the datatype PullOption; what each closure
 * does to the fields is the function Step, and the class PullOptions carries
 * the fields and the methods that update them in place.
 */
module Pack {
  import opened Wrappers

  /** The identity of a caller's progress function; its body is not modelled. */
  datatype Callback = Callback(name: string)

  /** One call of a progress function with a progress value. */
  datatype Invocation<P> = Invocation(callback: Callback, progress: P)

  /** An error returned by an option. */
  datatype Error = Error(message: string)

  /** The values of the seven fields of a PullOptions. */
  datatype Config = Config(
    architectures: seq<string>,
    platforms: seq<string>,
    version: string,
    calculateChecksum: bool,
    onProgress: Option<Callback>,
    workdir: string,
    useCache: bool)

  /** The zero value `PullOptions{}`: nil lists, empty strings, false flags, no callback. */
  const Zero: Config := Config([], [], "", false, None, "", false)

  /**
   * A PullOption. There is one constructor per With* function of the package;
   * Custom stands for an option written by a caller, which may change any field
   * (`effect`) and then return an error (`failure`).
   */
  datatype PullOption =
    | WithPullArchitecture(archs: seq<string>)
    | WithPullPlatform(plats: seq<string>)
    | WithPullProgressFunc(callback: Option<Callback>)
    | WithPullWorkdir(dir: string)
    | WithPullChecksum(checksum: bool)
    | WithPullCache(cache: bool)
    | WithPullVersion(ver: string)
    | Custom(effect: Config -> Config, failure: Option<Error>)

  /** The fields of PullOptions, to say which of them an option leaves alone. */
  datatype Field =
    | ArchitecturesField | PlatformsField | VersionField | ChecksumField
    | ProgressField | WorkdirField | CacheField

  /** `a` and `b` hold the same value in field `f`. */
  predicate Agree(a: Config, b: Config, f: Field) {
    match f
    case ArchitecturesField => a.architectures == b.architectures
    case PlatformsField => a.platforms == b.platforms
    case VersionField => a.version == b.version
    case ChecksumField => a.calculateChecksum == b.calculateChecksum
    case ProgressField => a.onProgress == b.onProgress
    case WorkdirField => a.workdir == b.workdir
    case CacheField => a.useCache == b.useCache
  }

  /** The fields an option may assign. */
  function Writes(o: PullOption): set<Field> {
    match o
    case WithPullArchitecture(_) => {ArchitecturesField}
    case WithPullPlatform(_) => {PlatformsField}
    case WithPullProgressFunc(_) => {ProgressField}
    case WithPullWorkdir(_) => {WorkdirField}
    case WithPullChecksum(_) => {ChecksumField}
    case WithPullCache(_) => {CacheField}
    case WithPullVersion(_) => {VersionField}
    case Custom(_, _) =>
      {ArchitecturesField, PlatformsField, VersionField, ChecksumField,
       ProgressField, WorkdirField, CacheField}
  }

  /** The option returns a non-nil error. Only a caller's option can. */
  predicate Fails(o: PullOption) {
    o.Custom? && o.failure.Some?
  }

  /**
   * Every non-empty string of `args` is already in `list`. The package tests
   * membership with utils.Contains, taken here to be sequence membership.
   */
  predicate AllPresent(list: seq<string>, args: seq<string>) {
    forall x :: x in args && x != "" ==> x in list
  }

  /**
   * What the loops of WithPullArchitecture and WithPullPlatform do to their list:
   * the first non-empty argument that is missing appends the WHOLE argument list,
   * after which every argument is present and the loop appends nothing more.
   * Empty strings and duplicates can therefore end up in the list.
   */
  function AppendUnlessPresent(list: seq<string>, args: seq<string>): (r: seq<string>)
    ensures list <= r
    ensures r == list || r == list + args
    ensures r == list <==> AllPresent(list, args)
    ensures AllPresent(r, args)
    ensures forall x :: x in r ==> x in list || x in args
  {
    if AllPresent(list, args) then list else list + args
  }

  /**
   * The loop of WithPullArchitecture (and, on the platforms, of WithPullPlatform),
   * as written: empty arguments and arguments already present are skipped, and
   * any other argument appends all of `args`.
   */
  method AppendMissing(list: seq<string>, args: seq<string>) returns (r: seq<string>)
    ensures r == AppendUnlessPresent(list, args)
  {
    r := list;
    ghost var appended := false;
    for i := 0 to |args|
      invariant !appended ==> r == list && forall j :: 0 <= j < i && args[j] != "" ==> args[j] in list
      invariant appended ==> r == list + args && !AllPresent(list, args)
    {
      if args[i] == "" {
        continue;
      }
      if args[i] in r {
        continue;
      }
      assert !appended && args[i] !in list;
      r := r + args;
      appended := true;
    }
    assert !appended ==> AllPresent(list, args) by {
      if !appended {
        forall x | x in args && x != "" ensures x in list {
          var j :| 0 <= j < |args| && args[j] == x;
        }
      }
    }
  }

  /** The option has established what it asks for in `c`. */
  predicate Honours(c: Config, o: PullOption) {
    match o
    case WithPullArchitecture(archs) => AllPresent(c.architectures, archs)
    case WithPullPlatform(plats) => AllPresent(c.platforms, plats)
    case WithPullProgressFunc(callback) => c.onProgress == callback
    case WithPullWorkdir(dir) => c.workdir == dir
    case WithPullChecksum(checksum) => c.calculateChecksum == checksum
    case WithPullCache(cache) => c.useCache == cache
    case WithPullVersion(ver) => c.version == ver
    case Custom(_, _) => true
  }

  /**
   * `later` may undo what `earlier` established: a caller's option may change
   * anything, and a setter of a scalar field overwrites the same field. The
   * list options only ever grow their list, so nothing but a caller's option
   * undoes them.
   */
  predicate Overrides(later: PullOption, earlier: PullOption) {
    || later.Custom?
    || (later.WithPullProgressFunc? && earlier.WithPullProgressFunc?)
    || (later.WithPullWorkdir? && earlier.WithPullWorkdir?)
    || (later.WithPullChecksum? && earlier.WithPullChecksum?)
    || (later.WithPullCache? && earlier.WithPullCache?)
    || (later.WithPullVersion? && earlier.WithPullVersion?)
  }

  /** What applying one option does to the fields, and the error it returns. */
  function Step(c: Config, o: PullOption): (r: Result<Config, Error>)
    ensures r.Err? <==> Fails(o)
    ensures r.Err? ==> r.error == o.failure.value
    ensures r.Ok? ==> Honours(r.value, o)
    ensures r.Ok? ==> forall f :: f !in Writes(o) ==> Agree(c, r.value, f)
  {
    match o
    case WithPullArchitecture(archs) =>
      Ok(c.(architectures := AppendUnlessPresent(c.architectures, archs)))
    case WithPullPlatform(plats) =>
      Ok(c.(platforms := AppendUnlessPresent(c.platforms, plats)))
    case WithPullProgressFunc(callback) => Ok(c.(onProgress := callback))
    case WithPullWorkdir(dir) => Ok(c.(workdir := dir))
    case WithPullChecksum(checksum) => Ok(c.(calculateChecksum := checksum))
    case WithPullCache(cache) => Ok(c.(useCache := cache))
    case WithPullVersion(ver) => Ok(c.(version := ver))
    case Custom(effect, failure) =>
      if failure.Some? then Err(failure.value) else Ok(effect(c))
  }

  /**
   * Applies `opts` in order from `c`, stopping at the first error: with no
   * options the result is `c`, and an error is always that of one of the options.
   */
  function BuildFrom(c: Config, opts: seq<PullOption>): (r: Result<Config, Error>)
    ensures opts == [] ==> r == Ok(c)
    ensures r.Err? ==> exists j :: 0 <= j < |opts| && Fails(opts[j]) && r.error == opts[j].failure.value
    decreases |opts|
  {
    if opts == [] then Ok(c)
    else
      match Step(c, opts[0])
      case Err(e) => Err(e)
      case Ok(next) =>
        var rest := BuildFrom(next, opts[1..]);
        assert rest.Err? ==> exists j :: 1 <= j < |opts| && Fails(opts[j]) && rest.error == opts[j].failure.value by {
          if rest.Err? {
            var j :| 0 <= j < |opts[1..]| && Fails(opts[1..][j]) && rest.error == opts[1..][j].failure.value;
            assert opts[1..][j] == opts[j + 1];
          }
        }
        rest
  }

  /**
   * The outcome of NewPullOptions(opts...): the zero value when there are no
   * options, and otherwise an error only if one of the options returns it.
   */
  function Build(opts: seq<PullOption>): (r: Result<Config, Error>)
    ensures opts == [] ==> r == Ok(Zero)
    ensures r.Err? ==> exists j :: 0 <= j < |opts| && Fails(opts[j]) && r.error == opts[j].failure.value
  {
    BuildFrom(Zero, opts)
  }

  /** With no options the result is the zero value. */
  lemma BuildEmpty()
    ensures Build([]) == Ok(Zero)
    ensures Zero.architectures == [] && Zero.platforms == []
    ensures Zero.version == "" && Zero.workdir == ""
    ensures !Zero.calculateChecksum && !Zero.useCache && Zero.onProgress.None?
  {
  }

  /** Options are applied left to right: building over `a + b` builds over `a`, then over `b`. */
  lemma {:induction false} BuildAppend(c: Config, a: seq<PullOption>, b: seq<PullOption>)
    ensures BuildFrom(c, a + b) ==
      match BuildFrom(c, a)
      case Err(e) => Err(e)
      case Ok(mid) => BuildFrom(mid, b)
    decreases |a|
  {
    if a == [] {
      assert a + b == b;
    } else {
      assert (a + b)[0] == a[0];
      assert (a + b)[1..] == a[1..] + b;
      match Step(c, a[0])
      case Err(_) =>
      case Ok(next) => BuildAppend(next, a[1..], b);
    }
  }

  /**
   * The first option that fails decides the outcome: its error is returned and
   * the options after it play no part.
   */
  lemma {:induction false} BuildStopsAtFirstFailure(c: Config, opts: seq<PullOption>, i: nat)
    requires i < |opts| && Fails(opts[i])
    requires forall j :: 0 <= j < i ==> !Fails(opts[j])
    ensures BuildFrom(c, opts) == Err(opts[i].failure.value)
    decreases i
  {
    if i > 0 {
      var next := Step(c, opts[0]).value;
      BuildStopsAtFirstFailure(next, opts[1..], i - 1);
    }
  }

  /** Building succeeds exactly when none of the options fails. */
  lemma {:induction false} BuildOkIffNoneFails(c: Config, opts: seq<PullOption>)
    ensures BuildFrom(c, opts).Ok? <==> forall j :: 0 <= j < |opts| ==> !Fails(opts[j])
    decreases |opts|
  {
    if opts != [] {
      match Step(c, opts[0])
      case Err(_) =>
      case Ok(next) =>
        BuildOkIffNoneFails(next, opts[1..]);
        assert forall j :: 0 < j < |opts| ==> opts[j] == opts[1..][j - 1];
    }
  }

  /** No option defined by the package returns an error, so building from them always succeeds. */
  lemma PackageOptionsNeverFail(opts: seq<PullOption>)
    requires forall j :: 0 <= j < |opts| ==> !opts[j].Custom?
    ensures Build(opts).Ok?
  {
  }

  /** A field that no option writes keeps its starting value. */
  lemma {:induction false} BuildFrame(c: Config, opts: seq<PullOption>, f: Field)
    requires forall j :: 0 <= j < |opts| ==> f !in Writes(opts[j])
    requires BuildFrom(c, opts).Ok?
    ensures Agree(c, BuildFrom(c, opts).value, f)
    decreases |opts|
  {
    if opts != [] {
      var next := Step(c, opts[0]).value;
      BuildFrame(next, opts[1..], f);
    }
  }

  /** A later option that does not override `earlier` keeps what `earlier` established. */
  lemma StepKeeps(c: Config, later: PullOption, earlier: PullOption)
    requires Honours(c, earlier) && !Overrides(later, earlier)
    requires Step(c, later).Ok?
    ensures Honours(Step(c, later).value, earlier)
  {
  }

  /** What `earlier` established survives all of `opts` when none of them overrides it. */
  lemma {:induction false} BuildKeeps(c: Config, opts: seq<PullOption>, earlier: PullOption)
    requires Honours(c, earlier)
    requires forall j :: 0 <= j < |opts| ==> !Overrides(opts[j], earlier)
    requires BuildFrom(c, opts).Ok?
    ensures Honours(BuildFrom(c, opts).value, earlier)
    decreases |opts|
  {
    if opts != [] {
      StepKeeps(c, opts[0], earlier);
      BuildKeeps(Step(c, opts[0]).value, opts[1..], earlier);
    }
  }

  /**
   * The last write wins: after `pre + [o] + post`, where nothing in `post`
   * overrides `o`, the scalar field `o` sets holds its value, and every
   * non-empty architecture or platform `o` requests is in its list.
   */
  lemma LastWriteWins(pre: seq<PullOption>, o: PullOption, post: seq<PullOption>)
    requires forall j :: 0 <= j < |post| ==> !Overrides(post[j], o)
    requires Build(pre + [o] + post).Ok?
    ensures Honours(Build(pre + [o] + post).value, o)
  {
    BuildAppend(Zero, pre + [o], post);
    BuildAppend(Zero, pre, [o]);
    var mid := BuildFrom(Zero, pre).value;
    var next := Step(mid, o).value;
    assert BuildFrom(Zero, pre + [o]) == Ok(next);
    BuildKeeps(next, post, o);
  }

  /** Applying an option of the package twice in a row is the same as applying it once. */
  lemma RepeatIsIdempotent(c: Config, o: PullOption)
    requires !o.Custom?
    ensures Step(c, o).Ok? && Step(Step(c, o).value, o) == Step(c, o)
  {
  }

  /** The whole argument list is appended, empty strings and duplicates included. */
  lemma WholeArgumentListIsAppended()
    ensures AppendUnlessPresent([], ["", "x"]) == ["", "x"]
    ensures AppendUnlessPresent(["a", "b"], ["b", "c"]) == ["a", "b", "b", "c"]
    ensures AppendUnlessPresent(["a"], ["", "a"]) == ["a"]
  {
    assert "x" in ["", "x"] && "x" !in [];
    assert "c" in ["b", "c"] && "c" !in ["a", "b"];
  }

  /** A repeated architecture is not added a second time. */
  lemma RepeatedArchitecture()
    ensures Build([WithPullArchitecture(["x86_64"]), WithPullArchitecture(["x86_64"]),
                   WithPullArchitecture(["arm64"])]) ==
            Ok(Zero.(architectures := ["x86_64", "arm64"]))
  {
    var a1 := Zero.(architectures := ["x86_64"]);
    var a2 := Zero.(architectures := ["x86_64", "arm64"]);
    assert "x86_64" in ["x86_64"] && "arm64" in ["arm64"];
    assert AppendUnlessPresent([], ["x86_64"]) == ["x86_64"];
    assert AppendUnlessPresent(["x86_64"], ["arm64"]) == ["x86_64", "arm64"];
    var opts := [WithPullArchitecture(["x86_64"]), WithPullArchitecture(["x86_64"]),
                 WithPullArchitecture(["arm64"])];
    calc {
      Build(opts);
      BuildFrom(a1, opts[1..]);
      { assert opts[1..][1..] == [WithPullArchitecture(["arm64"])]; }
      BuildFrom(a1, [WithPullArchitecture(["arm64"])]);
      BuildFrom(a2, []);
    }
  }

  /** An empty platform is skipped. */
  lemma EmptyPlatformSkipped()
    ensures Build([WithPullPlatform([""]), WithPullPlatform(["linux"])]) ==
            Ok(Zero.(platforms := ["linux"]))
  {
    assert "linux" in ["linux"];
    assert AppendUnlessPresent([], [""]) == [];
    assert AppendUnlessPresent([], ["linux"]) == ["linux"];
    var opts := [WithPullPlatform([""]), WithPullPlatform(["linux"])];
    assert opts[1..] == [WithPullPlatform(["linux"])];
  }

  /** The last version set wins. */
  lemma LastVersionWins()
    ensures Build([WithPullVersion("1.0.0"), WithPullVersion("2.0.0")]) ==
            Ok(Zero.(version := "2.0.0"))
  {
  }

  /** The pull options, updated in place by the options during NewPullOptions. */
  class PullOptions {
    var architectures: seq<string>
    var platforms: seq<string>
    var version: string
    var calculateChecksum: bool
    var onProgress: Option<Callback>
    var workdir: string
    var useCache: bool

    /** `&PullOptions{}`. */
    constructor ()
      ensures Snapshot() == Zero
    {
      architectures, platforms := [], [];
      version, workdir := "", "";
      calculateChecksum, useCache := false, false;
      onProgress := None;
    }

    /** The current values of the fields. */
    function Snapshot(): Config
      reads this
    {
      Config(architectures, platforms, version, calculateChecksum, onProgress, workdir, useCache)
    }

    /**
     * Calls the progress function, if one is set, with `progress`; returns the
     * call made, so at most one call, and none without a progress function.
     */
    method OnProgress<P>(progress: P) returns (call: Option<Invocation<P>>)
      ensures call.Some? <==> onProgress.Some?
      ensures call.Some? ==> call.value.callback == onProgress.value
      ensures call.Some? ==> call.value.progress == progress
    {
      if onProgress.Some? {
        call := Some(Invocation(onProgress.value, progress));
      } else {
        call := None;
      }
    }

    /** The working directory, read without side effects. */
    method Workdir() returns (dir: string)
      ensures dir == workdir
    {
      dir := workdir;
    }

    /** The requested version, read without side effects. */
    method Version() returns (ver: string)
      ensures ver == version
    {
      ver := version;
    }

    /** Whether the checksum of the package is to be checked. */
    method CalculateChecksum() returns (checksum: bool)
      ensures checksum == calculateChecksum
    {
      checksum := calculateChecksum;
    }

    /** Whether a local cache is to be used if available. */
    method UseCache() returns (cache: bool)
      ensures cache == useCache
    {
      cache := useCache;
    }

    /**
     * Runs one option against these fields. On success the fields hold what Step
     * computes; on an error that error is returned, after a caller's option has
     * made its changes.
     */
    method Apply(o: PullOption) returns (err: Option<Error>)
      modifies this
      ensures Step(old(Snapshot()), o) == if err.None? then Ok(Snapshot()) else Err(err.value)
      ensures o.Custom? ==> Snapshot() == o.effect(old(Snapshot()))
    {
      err := None;
      match o
      case WithPullArchitecture(archs) =>
        architectures := AppendMissing(architectures, archs);
      case WithPullPlatform(plats) =>
        platforms := AppendMissing(platforms, plats);
      case WithPullProgressFunc(callback) =>
        onProgress := callback;
      case WithPullWorkdir(dir) =>
        workdir := dir;
      case WithPullChecksum(checksum) =>
        calculateChecksum := checksum;
      case WithPullCache(cache) =>
        useCache := cache;
      case WithPullVersion(ver) =>
        version := ver;
      case Custom(effect, failure) =>
        var c := effect(Snapshot());
        architectures, platforms, version := c.architectures, c.platforms, c.version;
        calculateChecksum, onProgress := c.calculateChecksum, c.onProgress;
        workdir, useCache := c.workdir, c.useCache;
        err := failure;
    }
  }

  /**
   * NewPullOptions: a fresh zero-valued PullOptions to which `opts` are applied
   * in order. The first error is returned with no options; otherwise the options
   * hold Build(opts).
   */
  method NewPullOptions(opts: seq<PullOption>) returns (options: PullOptions?, err: Option<Error>)
    ensures Build(opts).Ok? ==>
      err.None? && options != null && fresh(options) && options.Snapshot() == Build(opts).value
    ensures Build(opts).Err? ==> options == null && err == Some(Build(opts).error)
  {
    var po := new PullOptions();
    var i := 0;
    while i < |opts|
      invariant 0 <= i <= |opts|
      invariant fresh(po)
      invariant Build(opts) == BuildFrom(po.Snapshot(), opts[i..])
    {
      assert opts[i..][0] == opts[i] && opts[i..][1..] == opts[i + 1..];
      var e := po.Apply(opts[i]);
      if e.Some? {
        return null, e;
      }
      i := i + 1;
    }
    return po, None;
  }
}

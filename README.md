# Pull options of kraftkit's `pack` package, modelled in Dafny

This project models `pack/pull_options.go`: the options that configure one package pull.
`NewPullOptions` starts from a zero-valued `PullOptions`. It applies a list of functional
options to it in order and stops at the first option that returns an error, returning no
options. The package defines seven options. Five of them overwrite one field: the progress
function, the working directory, the checksum flag, the cache flag and the version.
`WithPullArchitecture` and `WithPullPlatform` grow a list. The getters read fields, and
`OnProgress` calls the progress function only when one is set.

Files:

- `wrappers.dfy`: module `Wrappers`, with `Option` and `Result`.
- `pull_options.dfy`: module `Pack`, which holds the following.
  - `Config` is the value of the seven fields, and `Zero` is `PullOptions{}`.
  - `PullOption` has one constructor per `With*` function. `Custom` stands for an option a
    caller writes: it may change any field and may return an error. This keeps the
    short-circuit on the first error observable.
  - `Step` is what one option does; `BuildFrom` and `Build` are the fold of `NewPullOptions`.
    The lemmas about them give the properties.
  - Class `PullOptions` has the Go struct's fields. `Apply` updates them in place, proved
    against `Step`. `NewPullOptions` runs the loop, proved against `Build`. The getters and
    `OnProgress` are the class's methods.
  - `AppendMissing` is the argument loop of the two list options, proved against
    `AppendUnlessPresent`.

The doc comments of `WithPullArchitecture` and `WithPullPlatform` (`pack/pull_options.go:68`,
`:87`) say only that each requests an architecture or a platform "if applicable". A reader may
expect each non-empty value to be kept once, in first-seen order. The loops at
`pack/pull_options.go:71-81` and `:90-100` do not do that. When an argument is missing, they append the whole argument list (`archs...`), not the
one argument. Every argument is then present, so the loop appends nothing further. One call
therefore leaves the list unchanged when every non-empty argument is already in it, and
otherwise the list becomes `old ++ args`. The result can hold empty strings and duplicates:
`WholeArgumentListIsAppended` has the examples. No deduplication invariant is claimed.

Two modelling choices:

- Membership in the list is checked with `utils.Contains`, which is not part of this model.
  It is assumed to be plain sequence membership (`x in s`).
- Go function values cannot be observed, so a progress function is represented by an
  identity (`Callback`). The `float64` progress value becomes a type parameter `P`.
  `OnProgress` returns the call it makes (`Option<Invocation<P>>`), so the model shows
  whether the function is called and with what value.

## Model

| member | source | states |
|---|---|---|
| `Pack.AppendUnlessPresent` | pack/pull_options.go:69-85 | the old list is a prefix of the result; the result is the old list or the old list followed by all arguments; it is the old list exactly when every non-empty argument was already present; afterwards every non-empty argument is present; nothing else enters the list |
| `Pack.AppendMissing` | pack/pull_options.go:71-81 | the argument loop as written (empty strings and present values are skipped, and any other argument appends the whole argument list) computes `AppendUnlessPresent` |
| `Pack.Step` | pack/pull_options.go:69-147 | an option returns an error exactly when it is a caller's failing option, and then returns that error; on success the option's request holds (scalar set, non-empty list values present) and every field it does not write keeps its value |
| `Pack.PullOptions.Apply` | pack/pull_options.go:69-147 | running an option updates the fields in place to the value `Step` gives, or returns `Step`'s error; a caller's option leaves its effect applied before returning |
| `Pack.PullOptions.constructor` | pack/pull_options.go:56 | a new `PullOptions` holds the zero value |
| `Pack.NewPullOptions` | pack/pull_options.go:55-66 | on success a fresh `PullOptions` holding `Build(opts)` is returned with no error; on failure no options are returned, only the error `Build(opts)` reports |
| `Pack.BuildFrom` | pack/pull_options.go:58-63 | the reference fold of the loop in `NewPullOptions`, which the fold lemmas and `NewPullOptions` are stated against: options applied in order from a given state, stopping at the first error; with no options the state is returned, and an error is always the error of one of the options |
| `Pack.Build` | pack/pull_options.go:55-66 | `BuildFrom` from the zero value `PullOptions{}`, the outcome `NewPullOptions` is proved equal to: the zero value for no options, and an error only when one of the options returns it |
| `Pack.BuildEmpty` | pack/pull_options.go:55-66 | with no options the result is the zero value: empty lists, empty version and working directory, both flags false, no progress function |
| `Pack.BuildAppend` | pack/pull_options.go:58-63 | options are applied strictly left to right: building over `a + b` builds over `a`, then from its result over `b`, and an error in `a` is the result |
| `Pack.BuildStopsAtFirstFailure` | pack/pull_options.go:58-63 | when option `i` is the first to fail, the result is its error, whatever options follow it |
| `Pack.BuildOkIffNoneFails` | pack/pull_options.go:58-65 | building succeeds if and only if no option returns an error |
| `Pack.PackageOptionsNeverFail` | pack/pull_options.go:69-147 | a list made only of the package's own options always builds successfully |
| `Pack.BuildFrame` | pack/pull_options.go:69-147 | a field that no option of the list writes keeps its starting value |
| `Pack.StepKeeps` | pack/pull_options.go:69-147 | an option that does not override an earlier one keeps the earlier one's effect: a list only grows, and a scalar field is left alone by setters of other fields |
| `Pack.BuildKeeps` | pack/pull_options.go:58-63 | an option's effect survives a whole list of options, none of which overrides it |
| `Pack.LastWriteWins` | pack/pull_options.go:69-147 | after `pre + [o] + post`, where `post` has no setter of `o`'s field and no caller's option, the field `o` sets holds `o`'s value; for a list option every non-empty requested value is still present |
| `Pack.RepeatIsIdempotent` | pack/pull_options.go:69-147 | applying one of the package's options twice in a row gives the same result as applying it once |
| `Pack.WholeArgumentListIsAppended` | pack/pull_options.go:71-99 | the whole-slice appends at `:80` and `:99`: `["", "x"]` on an empty list gives `["", "x"]`; `["b", "c"]` on `["a", "b"]` gives `["a", "b", "b", "c"]`; `["", "a"]` on `["a"]` changes nothing |
| `Pack.RepeatedArchitecture` | pack/pull_options.go:69-85 | requesting `x86_64`, `x86_64` and then `arm64` yields the architectures `["x86_64", "arm64"]` |
| `Pack.EmptyPlatformSkipped` | pack/pull_options.go:88-104 | requesting platform `""` and then `linux` yields the platforms `["linux"]` |
| `Pack.LastVersionWins` | pack/pull_options.go:141-147 | setting version `1.0.0` and then `2.0.0` yields version `2.0.0` with every other field at its zero value |
| `Pack.PullOptions.OnProgress` | pack/pull_options.go:23-27 | the progress function is called exactly when one is set, once, with the given progress value; nothing is changed |
| `Pack.PullOptions.Workdir` | pack/pull_options.go:30-32 | returns the working directory field, without side effects |
| `Pack.PullOptions.Version` | pack/pull_options.go:35-37 | returns the version field, without side effects |
| `Pack.PullOptions.CalculateChecksum` | pack/pull_options.go:41-43 | returns the checksum flag, without side effects |
| `Pack.PullOptions.UseCache` | pack/pull_options.go:47-49 | returns the cache flag, without side effects |

## Left out

- The body of the progress function, and the `float64` progress value: the model only records which function is called and with what value.
- `utils.Contains` is not part of this model. It is assumed to be sequence membership.
- Go closures and variadic arguments as such: options are the values of a datatype, and argument lists are sequences.
- A caller's option (`Custom`) is modelled as a function of the field values and a fixed error. An option whose error depends on the fields, or one that keeps a reference to the struct after returning, is not modelled.
- A nil `PullOption` in the list: the call `o(options)` at `pack/pull_options.go:59` panics on a nil function value, and every value of the `PullOption` datatype is an option that can be applied.
- The difference between a nil and an empty slice is not modelled: both are the empty sequence.
- The pull itself (transport, checksum verification, cache, working-directory checks) is not in `pack/pull_options.go` and is not modelled.

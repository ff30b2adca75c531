# Reader pipeline model

A Dafny model of the `Reader` abstraction of butterfree
(`butterfree/core/reader/reader.py`). A reader has a name (`id`) and an
ordered list of transformation descriptors. `with_` attaches one more
descriptor: a transformer plus its extra positional and keyword arguments.
`build(client)` does three things in order:
- extracts raw data with the reader's own `consume(client)`;
- folds that data through the descriptors in attachment order, as
  `functools.reduce` does;
- registers the result as a temporary view named `id`, replacing any view
  already registered under that name.

The model has these parts:

- `wrappers.dfy`, module `Wrappers`: `Option`. `None` stands for a call that
  raised.
- `transformations.dfy`, module `Transformations`: the descriptor datatype
  and the left fold (`Step`, `Fold`, `Apply`). It also holds the fold's
  algebra: the empty-list identity, one-more-step, concatenation,
  fail-fast, and a characterisation of failure. `ApplyTransformations` runs
  the fold with a loop and reports where the first failure occurred.
- `readers.dfy`, module `Readers`: the reader as a value. `New` and `With`
  configure it. `Register` stands for `createOrReplaceTempView` on a catalog
  (a map from view names to datasets). `Build` extracts, transforms and
  publishes. The lemmas about build cover:
  - a reader with no transformations;
  - fail-fast with the catalog left unchanged;
  - re-building against the same data;
  - builds of readers with different names commuting.
- `readers.dfy`, module `ReaderObjects`: the mutable builder.
  `ReaderObject.With` changes the object in place and returns the object
  itself. `ChainedAndSeparateAgree` shows that `r.with_(f).with_(g)` and two
  separate calls on `r` configure a reader identically, from any configuration
  reached by `with_` calls.

The dataset is an opaque type parameter `D` and argument values an opaque
type parameter `V`. A transformer is a total function
`(D, seq<V>, map<string, V>) -> Option<D>`. `consume` is a parameter
`C -> Option<D>` over an opaque client type `C`.

Where the code and its docstrings disagree, the model follows the code:
- The docstring of `with_` says it returns a new Reader object. The code
  mutates the reader and returns `self` (lines 36-37).
- The same docstring says the transformations are used when `consume` is
  called. In the code, `build` applies them to the result of `consume`
  (line 67).
- The docstring of `__init__` documents `client` and `transformations`
  parameters (lines 14-16). The code takes only `id` and always starts with
  an empty transformation list (lines 18-19).

## Model

| member | source | states |
|---|---|---|
| Transformations.Fold | butterfree/core/reader/reader.py:45-51 | once the running result is a failure, folding any further descriptors is still a failure (an exception aborts the reduce) |
| Transformations.Apply | butterfree/core/reader/reader.py:45-51 | applying an empty transformation list returns the input dataset unchanged |
| Transformations.FoldSnoc | butterfree/core/reader/reader.py:45-51 | folding `ts + [t]` is one more step on the fold of `ts` |
| Transformations.FoldConcat | butterfree/core/reader/reader.py:45-51 | folding a concatenation folds the second part over the result of the first |
| Transformations.ApplySnoc | butterfree/core/reader/reader.py:45-51 | each reduce step (`Step`) runs after all earlier ones: the last descriptor gets the dataset produced by all earlier descriptors as its first argument, then its own captured args and kwargs; if an earlier one failed, the result is a failure |
| Transformations.ApplyConcat | butterfree/core/reader/reader.py:45-51 | applying `ts1 + ts2` equals applying `ts2` to the result of `ts1`; a failure in `ts1` makes the whole application fail |
| Transformations.ApplyFailedPrefix | butterfree/core/reader/reader.py:45-51 | once some prefix of the list has failed, the whole list fails, whatever follows that prefix |
| Transformations.ApplyFailsIffSomeStepFails | butterfree/core/reader/reader.py:45-51 | the pipeline fails if and only if some descriptor fails on the running dataset of the descriptors before it |
| Transformations.OrderMatters | butterfree/core/reader/reader.py:45-51 | attachment order is observable: "add one" then "double" gives 4 from 1, while the reverse order gives 3 |
| Transformations.ApplyTransformations | butterfree/core/reader/reader.py:45-51 | the step-by-step loop returns the fold's result; on failure the returned count is the position of the first failing descriptor plus one, and on success it is the length of the list |
| Readers.New | butterfree/core/reader/reader.py:18-19 | a new reader has the given id and an empty transformation list |
| Readers.CapturedArgs | butterfree/core/reader/reader.py:33 | the positional arguments are captured exactly as supplied; absent ones are the empty tuple |
| Readers.CapturedKwargs | butterfree/core/reader/reader.py:34 | the keyword arguments are captured exactly as supplied; absent ones are the empty mapping |
| Readers.With | butterfree/core/reader/reader.py:31-36 | attaching appends exactly one descriptor, holding the given transformer, args and kwargs, at the end; earlier descriptors and the id are unchanged |
| Readers.WithoutArguments | butterfree/core/reader/reader.py:33-34 | a descriptor attached without args or kwargs holds an empty positional sequence and an empty keyword map |
| Readers.WithTwice | butterfree/core/reader/reader.py:36-37 | two attachments in a row append both descriptors in call order after the existing ones |
| Readers.WithForwardsArguments | butterfree/core/reader/reader.py:46-48 | the attached transformer is invoked on the result of all earlier transformations, followed by exactly the captured args and kwargs; if an earlier one failed, the result is a failure |
| Readers.Register | butterfree/core/reader/reader.py:67-69 | registering under a name binds the name to the dataset, replacing any earlier binding, and keeps every other name's binding |
| Readers.Build | butterfree/core/reader/reader.py:60-69 | build publishes iff extraction and every transformer succeed. On success, `id` maps to the transformed extraction result and every other key is unchanged. On failure, the catalog is unchanged and the error says whether extraction failed |
| Readers.BuildFreshReader | butterfree/core/reader/reader.py:67-69 | a reader without transformations publishes exactly the dataset `consume` returned, or raises if `consume` raised |
| Readers.BuildFailsFast | butterfree/core/reader/reader.py:67-69 | if the transformer at position k fails on its running input, build raises and the catalog is unchanged, whatever follows position k |
| Readers.BuildTwiceSameCatalog | butterfree/core/reader/reader.py:67-69 | building a second time against a backend that returns the same data leaves the catalog exactly as the first build did |
| Readers.BuildsOfDistinctReadersCommute | butterfree/core/reader/reader.py:67-69 | build registers only under its own id, so builds of two readers with different ids leave the same catalog in either order |
| ReaderObjects.ReaderObject.constructor | butterfree/core/reader/reader.py:18-19 | a new reader object has the given id and an empty transformation list |
| ReaderObjects.ReaderObject.With | butterfree/core/reader/reader.py:31-37 | appends one descriptor in place, keeps the id and the earlier descriptors, and returns the object itself |
| ReaderObjects.Configure | butterfree/core/reader/reader.py:31-37 | attaching a list of descriptors one `with_` call at a time leaves the reader with exactly that list, in order |
| ReaderObjects.ChainedAndSeparateAgree | butterfree/core/reader/reader.py:36-37 | because `with_` returns the object it changed, from any configuration reached by `with_` calls a chained pair of calls and two separate calls both leave the earlier list followed by `f`, `g` |

## Left out

- Concrete `consume` backends (file, table and stream readers) and the client object. These are I/O behind an abstract method, so `consume` is a function parameter.
- The engine's dataframes and the mechanics of `createOrReplaceTempView`. The catalog is a map, and registration is a map update.
- Registration failure. `createOrReplaceTempView` can raise, but the model's `Register` always succeeds. What the catalog holds after a failed registration is up to the engine; `Build` has no outcome for it.
- Exception types and messages. A failure is `None`. `BuildOutcome` records only whether extraction or the transformation step raised.
- Python call semantics for `*args` and `**kwargs`. Arguments are a sequence and a string-keyed map of an opaque value type; keyword order is not kept. The transformer's signature is not checked when a descriptor is attached.
- Concurrent configuration or builds. The code provides no synchronisation.
- Readers.BuildsOfDistinctReadersCommute: extraction and transformers are modelled as not reading the catalog, so the commutation covers only readers whose `consume` and transformers do not read views registered by other builds. In the engine, `consume` and the transformers run in the same session that registration writes to, so a reader that reads or joins another reader's view can see different data depending on build order. The commutation also assumes the two ids name different views. The engine by default treats ids that differ only in letter case as one view, and then whichever build runs last wins.
- Readers.Register: view names are matched exactly in the model, as strings. By default the engine's session catalog is case-insensitive, so ids that differ only in letter case name the same view, and registering one replaces the other. "Keeps every other name's binding" holds only for names that differ other than in case. Transformers, like `consume`, are modelled as not reading the catalog.
- Calls that never return. `consume` and every transformer are total functions in the model, so every call returns. In the engine, an extraction or transformer that blocks makes `build` block forever.

# Stage-bound datasets of lightning-flash, in Dafny

This project models the dataset base classes of `flash/core/data/io/input_base.py`:

- `InputBase` construction. A dataset is bound to one running stage (training,
  sanity checking, validating, testing, predicting or tuning). It fills `data` once, by
  calling the `load_data` hook resolved for that stage. It skips the call and keeps
  `data` empty when the first positional argument is `None`.
- `Input`, the random-access dataset. `__len__` is the number of descriptors.
  `__getitem__` applies the stage's `load_sample` hook to `data[index]`.
- `IterableInput`, the streaming dataset. It has one cursor, `data_iter`. `__iter__`
  resets it and returns the dataset itself. `__next__` advances the cursor and loads the
  descriptor it passed.

Everything is in `input_base.dfy`, module `InputBase`.

How the model is built:

- A dataset class is represented by a `Hooks` value. It holds, for every stage, the
  `load_data` and `load_sample` that hook resolution
  (`DataPipeline._resolve_function_hierarchy`) picks for that class. The resolution
  itself is not modelled. Any Dafny function of the stage is deterministic, as the
  resolution is.
- The hooks of the base class are `DefaultLoadData` and `DefaultLoadSample`.
  `DefaultHooks` is a class that overrides neither.
- `LoadedData` is what `__init__` leaves in `data`, or the exception it raises.
  `NewInput` and `NewIterableInput` model the calls `Input(stage, *args, **kwargs)` and
  `IterableInput(stage, *args, **kwargs)`. They return either a fresh dataset or the
  exception. The constructors are the successful case.
- Python exceptions are values of `Error`, carried in `Result`.
- `stage`, `hooks` and `data` are `const` fields, because nothing in this code reassigns
  them after `__init__`. So no later call can change the stage or the descriptors.
- The cursor is `Option<nat>`. It is `None` until the first `__iter__`, because before
  that `data_iter` does not exist.
- `Run` is a pure trace of a series of `__iter__`/`__next__` calls. `Iter` and `Next`
  state that they take exactly one step of it. The lemmas about whole passes are stated
  on `Run`.

Two edge cases follow the code rather than the intent one might read into it:

- An absent first argument is not the same as a `None` one. The code reads `args[0]`
  unconditionally, so a dataset built with no positional argument at all raises
  `IndexError` (`NoArgumentRaises`). Only passing `None` gives the empty dataset.
- A negative index does not fail. `__getitem__` indexes a Python list, where an index
  from `-len` to `-1` counts from the end. The model wraps such indices the same way
  (`PyIndex`, `Input.GetItem`). Indices below `-len` or at or above `len` raise
  `IndexError`.

## Model

| member | source | states |
|---|---|---|
| `InputBase.NoArgumentRaises` | flash/core/data/io/input_base.py:48-50 | with no positional argument, construction raises `IndexError` whatever the hooks, since `args[0]` is read before any check |
| `InputBase.NullFirstArgumentSkipsLoad` | flash/core/data/io/input_base.py:48-50 | a `None` first argument gives empty `data`, and the outcome is the same under any two hook tables, so `load_data` is never consulted |
| `InputBase.LoadUsesConstructionStageHook` | flash/core/data/io/input_base.py:49-56 | otherwise `data` is exactly what the `load_data` resolved for the construction stage returns for the constructor's arguments; hooks of other stages play no part |
| `InputBase.DefaultLoadData` | flash/core/data/io/input_base.py:70-80 | the default `load_data` succeeds exactly when there is a first argument that is not `None`, and then returns that argument; no argument raises `IndexError` |
| `InputBase.DefaultHooksLoadFirstArgument` | flash/core/data/io/input_base.py:48-80 | with the default hooks and a first argument other than `None`, `data` equals that argument |
| `InputBase.PyIndex` | flash/core/data/io/input_base.py:109-110 | list indexing succeeds exactly for `-len <= i < len`, and yields the element at `i` taken modulo the length |
| `InputBase.Input.constructor` | flash/core/data/io/input_base.py:38-50 | the stage and the hooks are those given, and `data` is what construction loads for that stage |
| `InputBase.NewInput` | flash/core/data/io/input_base.py:38-56 | building an `Input` fails exactly when loading fails, with the same exception; otherwise it gives a fresh dataset bound to the stage and holding the loaded data |
| `InputBase.Input.Len` | flash/core/data/io/input_base.py:112-113 | the length is the number of descriptors, index `len` raises `IndexError` and index `len - 1` is the last descriptor loaded |
| `InputBase.Input.GetItem` | flash/core/data/io/input_base.py:109-110 | an item exists exactly for `-len <= i < len`; for `0 <= i < len` it is the stage's `load_sample` of `data[i]`, a negative index counts from the end, any other index raises `IndexError` |
| `InputBase.DefaultInputServesDescriptors` | flash/core/data/io/input_base.py:82-90 | with the default hooks, item `i` is the descriptor `data[i]` itself |
| `InputBase.EmptyInputHasNoItems` | flash/core/data/io/input_base.py:109-113 | a dataset without descriptors, as a `None` first argument builds it, has length 0 and every index raises `IndexError` |
| `InputBase.IterableInput.constructor` | flash/core/data/io/input_base.py:38-50 | the stage, hooks and loaded data are fixed as for `Input`, and no cursor exists yet |
| `InputBase.NewIterableInput` | flash/core/data/io/input_base.py:38-56 | building an `IterableInput` fails exactly when loading fails, with the same exception; otherwise it gives a fresh dataset without a cursor |
| `InputBase.IterableInput.Iter` | flash/core/data/io/input_base.py:124-126 | `__iter__` returns the dataset itself and sets the cursor to the first descriptor, whatever it was |
| `InputBase.IterableInput.Next` | flash/core/data/io/input_base.py:128-129 | `__next__` before any `__iter__` raises `AttributeError`; inside the data it yields the stage's `load_sample` of the descriptor at the cursor and advances it by one; past the end it raises `StopIteration` and leaves the cursor |
| `InputBase.NextsFrom` | flash/core/data/io/input_base.py:128-129 | from index `j`, `n` calls of `__next__` that stay inside the data yield the descriptors `j` to `j + n - 1` loaded, in order, and leave the cursor at `j + n` |
| `InputBase.NextsWhenExhausted` | flash/core/data/io/input_base.py:128-129 | once the cursor is at the end, every further `__next__` raises `StopIteration` and the cursor stays |
| `InputBase.PassYieldsDescriptorsThenStops` | flash/core/data/io/input_base.py:124-129 | after `__iter__`, whatever the cursor was, the k-th `__next__` yields descriptor k loaded for `k < len`, and every call after the last descriptor raises `StopIteration` |
| `InputBase.IterRestartsPass` | flash/core/data/io/input_base.py:124-126 | after any earlier calls, a new `__iter__` produces exactly what a fresh pass produces, so one pass's progress is lost to the next; outputs before it are kept |
| `InputBase.NullArgumentPassEndsAtOnce` | flash/core/data/io/input_base.py:48-50 | a streaming dataset built with a `None` first argument ends its pass on the first `__next__` |

## Left out

- Hook resolution (`DataPipeline._resolve_function_hierarchy`) is not part of this model. Which stage-prefixed override wins over the generic hook cannot be stated, so a class's resolved hooks are given as a table.
- The stage enumeration (`flash/core/utilities/stages.py`) is not part of this model. The model uses six stages (training, sanity checking, validating, testing, predicting, tuning), and every lemma holds for any stage.
- The `running_stage` property and its setter, from the `Properties` base class, are not part of this model. The stage is read from the field set in `__init__` and is never changed.
- Hooks are modelled as pure functions. Real hooks are methods that may read or change other attributes, as the video inputs do when they record target metadata. Exceptions that a custom `load_sample` raises are not modelled.
- `DefaultLoadData`: given `None` it returns `None` in the source. The model's data is always a sequence, so it reports `TypeError`, the error the first `len` or index on `None` would raise. The constructor never reaches this case, because it skips `load_data` for a `None` first argument.
- `data` is modelled as a finite sequence. A one-shot iterable such as a generator is not modelled, and neither is a sequence type other than a list (with a different indexing rule).
- The check that subclasses do not override `__init__` (`_check_init` and the two metaclasses) is left out. It is class-definition-time reflection with no counterpart here.
- The torch `Dataset`/`IterableDataset` base classes and multi-worker loading are left out as concurrency.
- The video data module and video inputs, the tabular task wrappers and the pytorch_tabular backbone registry are left out. They are configuration glue over pandas, pytorchvideo, FiftyOne, torch and pytorch_tabular.

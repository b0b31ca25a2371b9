/**
 * Stage-bound datasets.
 *
 * A dataset is built for one running stage. At construction it fills `data` once, by
 * calling the `load_data` hook that hook resolution picks for that stage, unless the
 * first positional load argument is `None`. Each sample is then produced on demand by
 * the stage's `load_sample` hook: by index (`Input`) or by a restartable cursor
 * (`IterableInput`).
 *
 * Hook resolution itself is kept abstract: a dataset class is represented by the hooks
 * that resolution yields for it, one `load_data` and one `load_sample` per stage.
 */
module InputBase {

  /** The running stage a dataset is bound to. */
  datatype Stage = Training | SanityChecking | Validating | Testing | Predicting | Tuning

  /** A Python value that may be `None`. */
  datatype Option<T> = None | Some(value: T)

  /** The exceptions the modelled code raises. */
  datatype Error =
    | IndexError      // `args[0]` with no positional argument, or a list index out of range
    | TypeError       // the default `load_data` gave back `None`, which is not a collection
    | AttributeError  // `__next__` before any `__iter__`: `data_iter` does not exist yet
    | StopIteration   // `__next__` after the last descriptor

  /** A value, or the exception raised instead of returning it. */
  datatype Result<T> = Success(value: T) | Failure(error: Error)

  /** Positional and keyword arguments of the constructor, handed on to `load_data`. */
  type Args<A> = seq<Option<A>>
  type Kwargs<A> = map<string, Option<A>>

  /** A `load_data` hook: the raw descriptors for the given arguments, or what it raises. */
  type LoadDataHook<!A, D> = (Args<A>, Kwargs<A>) -> Result<seq<D>>

  /**
   * What hook resolution yields for one dataset class: for every stage, the `load_data`
   * and the `load_sample` the class uses when bound to that stage.
   */
  datatype Hooks<!A, !D, S> = Hooks(loadData: Stage -> LoadDataHook<A, D>, loadSample: Stage -> D -> S)

  /** `_call_load_data`: resolve `load_data` for the stage, then call it. */
  function CallLoadData<A, D, S>(hooks: Hooks<A, D, S>, stage: Stage, args: Args<A>, kwargs: Kwargs<A>): Result<seq<D>>
  {
    hooks.loadData(stage)(args, kwargs)
  }

  /** `_call_load_sample`: resolve `load_sample` for the stage, then call it. */
  function CallLoadSample<A, D, S>(hooks: Hooks<A, D, S>, stage: Stage, sample: D): S
  {
    hooks.loadSample(stage)(sample)
  }

  /**
   * The default `load_data` hook: the first positional argument is the collection.
   * With no positional argument it raises `IndexError`; given `None` it returns `None`,
   * which this model, whose data is always a sequence, reports as `TypeError`.
   */
  function DefaultLoadData<D>(args: Args<seq<D>>, kwargs: Kwargs<seq<D>>): (r: Result<seq<D>>)
    ensures r.Success? <==> |args| > 0 && args[0].Some?
    ensures r.Success? ==> r.value == args[0].value
    ensures r.Failure? ==> r.error == (if |args| == 0 then IndexError else TypeError)
  {
    if |args| == 0 then Failure(IndexError)
    else match args[0]
      case Some(collection) => Success(collection)
      case None => Failure(TypeError)
  }

  /** The default `load_sample` hook: the descriptor is the sample. */
  function DefaultLoadSample<D>(sample: D): D
  {
    sample
  }

  /** A dataset class that overrides no hook: every stage resolves to the defaults. */
  function DefaultHooks<D>(): Hooks<seq<D>, D, D>
  {
    Hooks(_ => DefaultLoadData, _ => DefaultLoadSample)
  }

  /**
   * `self.data` as `InputBase.__init__` leaves it, or the exception it raises: `args[0]` is
   * read unconditionally, and only a first argument other than `None` calls `load_data`.
   */
  function LoadedData<A, D, S>(stage: Stage, hooks: Hooks<A, D, S>, args: Args<A>, kwargs: Kwargs<A>): Result<seq<D>>
  {
    if |args| == 0 then Failure(IndexError)
    else if args[0].None? then Success([])
    else CallLoadData(hooks, stage, args, kwargs)
  }

  /** Constructing with no positional argument raises `IndexError`, whatever the hooks. */
  lemma NoArgumentRaises<A, D, S>(stage: Stage, hooks: Hooks<A, D, S>, kwargs: Kwargs<A>)
    ensures LoadedData(stage, hooks, [], kwargs) == Failure(IndexError)
  {
  }

  /**
   * A `None` first argument leaves `data` empty without calling `load_data`: the outcome is
   * the same for any two hook tables, so no hook can have been consulted.
   */
  lemma NullFirstArgumentSkipsLoad<A, D, S>(stage: Stage, h1: Hooks<A, D, S>, h2: Hooks<A, D, S>, args: Args<A>, kwargs: Kwargs<A>)
    requires |args| > 0 && args[0].None?
    ensures LoadedData(stage, h1, args, kwargs) == LoadedData(stage, h2, args, kwargs) == Success([])
  {
  }

  /**
   * Otherwise `data` is exactly what the `load_data` resolved for the construction stage
   * returns, and the hooks resolved for other stages play no part.
   */
  lemma LoadUsesConstructionStageHook<A, D, S>(stage: Stage, h1: Hooks<A, D, S>, h2: Hooks<A, D, S>, args: Args<A>, kwargs: Kwargs<A>)
    requires |args| > 0 && args[0].Some?
    requires h1.loadData(stage) == h2.loadData(stage)
    ensures LoadedData(stage, h1, args, kwargs) == h2.loadData(stage)(args, kwargs)
  {
  }

  /** With the default hooks and a first argument other than `None`, `data` is that argument. */
  lemma DefaultHooksLoadFirstArgument<D>(stage: Stage, args: Args<seq<D>>, kwargs: Kwargs<seq<D>>)
    requires |args| > 0 && args[0].Some?
    ensures LoadedData(stage, DefaultHooks(), args, kwargs) == Success(args[0].value)
  {
  }

  /**
   * Python list indexing: `s[i]` for `-|s| <= i < |s|`, a negative index counting from the
   * end; any other index raises, here `None`.
   */
  function PyIndex<T>(s: seq<T>, i: int): (r: Option<T>)
    ensures r.Some? <==> -|s| <= i < |s|
    ensures r.Some? ==> r.value == s[i % |s|]
  {
    if 0 <= i < |s| then Some(s[i])
    else if -|s| <= i < 0 then Some(s[|s| + i])
    else None
  }

  /** The random-access dataset. */
  class Input<A, D, S> {
    const stage: Stage
    const hooks: Hooks<A, D, S>
    const data: seq<D>

    /** `InputBase.__init__` when it returns: the stage is fixed and `data` loaded for it. */
    constructor (stage: Stage, hooks: Hooks<A, D, S>, args: Args<A>, kwargs: Kwargs<A>)
      requires LoadedData(stage, hooks, args, kwargs).Success?
      ensures this.stage == stage && this.hooks == hooks
      ensures data == LoadedData(stage, hooks, args, kwargs).value
    {
      this.stage := stage;
      this.hooks := hooks;
      data := LoadedData(stage, hooks, args, kwargs).value;
    }

    /** `__len__`: the number of descriptors, which is where the valid indices end. */
    function Len(): (n: nat)
      ensures n == |data|
      ensures GetItem(n) == Failure(IndexError)
      ensures n > 0 ==> GetItem(n - 1) == Success(CallLoadSample(hooks, stage, data[n - 1]))
    {
      |data|
    }

    /** `__getitem__`: the stage's `load_sample` applied to `data[index]`, Python-indexed. */
    function GetItem(index: int): (r: Result<S>)
      ensures r.Success? <==> -|data| <= index < |data|
      ensures r.Failure? ==> r.error == IndexError
      ensures 0 <= index < |data| ==> r == Success(CallLoadSample(hooks, stage, data[index]))
      ensures -|data| <= index < 0 ==> r == Success(CallLoadSample(hooks, stage, data[|data| + index]))
    {
      match PyIndex(data, index)
      case None => Failure(IndexError)
      case Some(descriptor) => Success(CallLoadSample(hooks, stage, descriptor))
    }
  }

  /** `Input(stage, *args, **kwargs)`: a fresh dataset, or the exception construction raises. */
  method NewInput<A, D, S>(stage: Stage, hooks: Hooks<A, D, S>, args: Args<A>, kwargs: Kwargs<A>)
    returns (r: Result<Input<A, D, S>>)
    ensures r.Failure? <==> LoadedData(stage, hooks, args, kwargs).Failure?
    ensures r.Failure? ==> r.error == LoadedData(stage, hooks, args, kwargs).error
    ensures r.Success? ==> fresh(r.value) && r.value.stage == stage && r.value.hooks == hooks
    ensures r.Success? ==> r.value.data == LoadedData(stage, hooks, args, kwargs).value
  {
    var loaded := LoadedData(stage, hooks, args, kwargs);
    if loaded.Failure? {
      return Failure(loaded.error);
    }
    var input := new Input(stage, hooks, args, kwargs);
    return Success(input);
  }

  /** An `Input` with the default hooks serves its descriptors unchanged. */
  lemma DefaultInputServesDescriptors<D>(x: Input<seq<D>, D, D>, i: int)
    requires x.hooks == DefaultHooks()
    requires 0 <= i < x.Len()
    ensures x.GetItem(i) == Success(x.data[i])
  {
  }

  /** An `Input` with no descriptors, as a `None` first argument builds it, has no valid index. */
  lemma EmptyInputHasNoItems<A, D, S>(x: Input<A, D, S>, i: int)
    requires x.data == []
    ensures x.Len() == 0 && x.GetItem(i) == Failure(IndexError)
  {
  }

  /** The position of `data_iter`: absent until the first `__iter__`, else the next index. */
  type Cursor = Option<nat>

  /** One `__next__`: the sample at the cursor and the advanced cursor, or what it raises. */
  function NextStep<D, S>(load: D -> S, data: seq<D>, cursor: Cursor): (Result<S>, Cursor)
  {
    match cursor
    case None => (Failure(AttributeError), None)
    case Some(k) =>
      if k < |data| then (Success(load(data[k])), Some(k + 1))
      else (Failure(StopIteration), cursor)
  }

  /** A call a consumer makes on an `IterableInput`. */
  datatype Call = IterCall | NextCall

  /** What a series of calls produced: one output per `__next__`, and the final cursor. */
  datatype Trace<S> = Trace(outputs: seq<Result<S>>, cursor: Cursor)

  /** The trace of making `calls` in order, starting from `cursor`. */
  function Run<D, S>(load: D -> S, data: seq<D>, cursor: Cursor, calls: seq<Call>): Trace<S>
    decreases |calls|
  {
    if calls == [] then Trace([], cursor)
    else if calls[0] == IterCall then Run(load, data, Some(0), calls[1..])
    else
      var (out, next) := NextStep(load, data, cursor);
      var rest := Run(load, data, next, calls[1..]);
      Trace([out] + rest.outputs, rest.cursor)
  }

  /** `n` consecutive `__next__` calls. */
  function Nexts(n: nat): (calls: seq<Call>)
    ensures |calls| == n
    ensures forall k :: 0 <= k < n ==> calls[k] == NextCall
  {
    if n == 0 then [] else [NextCall] + Nexts(n - 1)
  }

  /** Running `p` then `q` is running `q` from where `p` left the cursor. */
  lemma {:induction false} RunAppend<D, S>(load: D -> S, data: seq<D>, cursor: Cursor, p: seq<Call>, q: seq<Call>)
    ensures Run(load, data, cursor, p + q)
         == Trace(Run(load, data, cursor, p).outputs + Run(load, data, Run(load, data, cursor, p).cursor, q).outputs,
                  Run(load, data, Run(load, data, cursor, p).cursor, q).cursor)
    decreases |p|
  {
    if p == [] {
      assert p + q == q;
    } else {
      assert (p + q)[0] == p[0];
      assert (p + q)[1..] == p[1..] + q;
      if p[0] == IterCall {
        RunAppend(load, data, Some(0), p[1..], q);
      } else {
        var (out, next) := NextStep(load, data, cursor);
        RunAppend(load, data, next, p[1..], q);
      }
    }
  }

  /** From index `j`, `n` calls of `__next__` that stay inside `data` yield `data[j..j+n]`, loaded. */
  lemma {:induction false} NextsFrom<D, S>(load: D -> S, data: seq<D>, j: nat, n: nat)
    requires j + n <= |data|
    ensures |Run(load, data, Some(j), Nexts(n)).outputs| == n
    ensures Run(load, data, Some(j), Nexts(n)).cursor == Some(j + n)
    ensures forall k :: 0 <= k < n ==> Run(load, data, Some(j), Nexts(n)).outputs[k] == Success(load(data[j + k]))
    decreases n
  {
    if n > 0 {
      assert Nexts(n)[1..] == Nexts(n - 1);
      NextsFrom(load, data, j + 1, n - 1);
    }
  }

  /** Once the cursor is past the last descriptor, every `__next__` raises `StopIteration`. */
  lemma {:induction false} NextsWhenExhausted<D, S>(load: D -> S, data: seq<D>, n: nat)
    ensures |Run(load, data, Some(|data|), Nexts(n)).outputs| == n
    ensures Run(load, data, Some(|data|), Nexts(n)).cursor == Some(|data|)
    ensures forall k :: 0 <= k < n ==> Run(load, data, Some(|data|), Nexts(n)).outputs[k] == Failure(StopIteration)
    decreases n
  {
    if n > 0 {
      assert Nexts(n)[1..] == Nexts(n - 1);
      NextsWhenExhausted(load, data, n - 1);
    }
  }

  /**
   * After `__iter__`, whatever the cursor was, the k-th `__next__` yields the k-th descriptor
   * loaded, in order, for `k < |data|`; every later call raises `StopIteration`.
   */
  lemma PassYieldsDescriptorsThenStops<D, S>(load: D -> S, data: seq<D>, cursor: Cursor, n: nat)
    ensures |Run(load, data, cursor, [IterCall] + Nexts(n)).outputs| == n
    ensures forall k :: 0 <= k < n ==>
      Run(load, data, cursor, [IterCall] + Nexts(n)).outputs[k]
        == if k < |data| then Success(load(data[k])) else Failure(StopIteration)
  {
    var calls := [IterCall] + Nexts(n);
    assert calls[0] == IterCall && calls[1..] == Nexts(n);
    assert Run(load, data, cursor, calls) == Run(load, data, Some(0), Nexts(n));
    if n <= |data| {
      NextsFrom(load, data, 0, n);
    } else {
      var m := n - |data|;
      assert Nexts(n) == Nexts(|data|) + Nexts(m);
      RunAppend(load, data, Some(0), Nexts(|data|), Nexts(m));
      NextsFrom(load, data, 0, |data|);
      NextsWhenExhausted(load, data, m);
    }
  }

  /**
   * `__iter__` restarts the pass however far earlier calls got: what follows the last
   * `__iter__` is what a dataset with any other cursor would produce after its own `__iter__`.
   */
  lemma IterRestartsPass<D, S>(load: D -> S, data: seq<D>, cursor: Cursor, other: Cursor, before: seq<Call>, after: seq<Call>)
    ensures Run(load, data, cursor, before + [IterCall] + after)
         == Trace(Run(load, data, cursor, before).outputs + Run(load, data, other, [IterCall] + after).outputs,
                  Run(load, data, other, [IterCall] + after).cursor)
  {
    var tail := [IterCall] + after;
    assert before + [IterCall] + after == before + tail;
    RunAppend(load, data, cursor, before, tail);
    assert tail[0] == IterCall && tail[1..] == after;
  }

  /**
   * Dataset built with a `None` first argument: a pass ends on its first `__next__`.
   */
  lemma NullArgumentPassEndsAtOnce<A, D, S>(stage: Stage, hooks: Hooks<A, D, S>, args: Args<A>, kwargs: Kwargs<A>, cursor: Cursor)
    requires |args| > 0 && args[0].None?
    ensures Run(hooks.loadSample(stage), LoadedData(stage, hooks, args, kwargs).value, cursor, [IterCall, NextCall]).outputs
         == [Failure(StopIteration)]
  {
    var calls := [IterCall, NextCall];
    assert calls[1..] == [NextCall] && calls[1..][1..] == [];
  }

  /** The streaming dataset, with its one shared, restartable cursor. */
  class IterableInput<A, D, S> {
    const stage: Stage
    const hooks: Hooks<A, D, S>
    const data: seq<D>
    var cursor: Cursor

    /** `InputBase.__init__` when it returns; `data_iter` is not yet created. */
    constructor (stage: Stage, hooks: Hooks<A, D, S>, args: Args<A>, kwargs: Kwargs<A>)
      requires LoadedData(stage, hooks, args, kwargs).Success?
      ensures this.stage == stage && this.hooks == hooks
      ensures data == LoadedData(stage, hooks, args, kwargs).value
      ensures cursor == None
    {
      this.stage := stage;
      this.hooks := hooks;
      data := LoadedData(stage, hooks, args, kwargs).value;
      cursor := None;
    }

    /** `__iter__`: reset the cursor to the first descriptor and hand back this very dataset. */
    method Iter() returns (it: IterableInput<A, D, S>)
      modifies this
      ensures it == this
      ensures cursor == Some(0)
      ensures Trace([], cursor) == Run(hooks.loadSample(stage), data, old(cursor), [IterCall])
    {
      cursor := Some(0);
      it := this;
    }

    /** `__next__`: advance the cursor and load the descriptor it passed. */
    method Next() returns (r: Result<S>)
      modifies this
      ensures old(cursor).None? ==> r == Failure(AttributeError) && cursor == None
      ensures old(cursor).Some? && old(cursor).value < |data| ==>
        r == Success(CallLoadSample(hooks, stage, data[old(cursor).value])) && cursor == Some(old(cursor).value + 1)
      ensures old(cursor).Some? && old(cursor).value >= |data| ==>
        r == Failure(StopIteration) && cursor == old(cursor)
      ensures Trace([r], cursor) == Run(hooks.loadSample(stage), data, old(cursor), [NextCall])
    {
      var (out, next) := NextStep(hooks.loadSample(stage), data, cursor);
      r, cursor := out, next;
    }
  }

  /** `IterableInput(stage, *args, **kwargs)`: a fresh dataset, or the exception construction raises. */
  method NewIterableInput<A, D, S>(stage: Stage, hooks: Hooks<A, D, S>, args: Args<A>, kwargs: Kwargs<A>)
    returns (r: Result<IterableInput<A, D, S>>)
    ensures r.Failure? <==> LoadedData(stage, hooks, args, kwargs).Failure?
    ensures r.Failure? ==> r.error == LoadedData(stage, hooks, args, kwargs).error
    ensures r.Success? ==> fresh(r.value) && r.value.stage == stage && r.value.hooks == hooks
    ensures r.Success? ==> r.value.data == LoadedData(stage, hooks, args, kwargs).value && r.value.cursor == None
  {
    var loaded := LoadedData(stage, hooks, args, kwargs);
    if loaded.Failure? {
      return Failure(loaded.error);
    }
    var input := new IterableInput(stage, hooks, args, kwargs);
    return Success(input);
  }
}

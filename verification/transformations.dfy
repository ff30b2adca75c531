/** Transformation descriptors and the ordered pipeline that applies them.

    A descriptor records a transformer together with the extra positional and
    keyword arguments it is to be called with. Applying a list of descriptors to
    a dataset is a strict left fold in attachment order: each transformer
    receives the running dataset as its first argument. A transformer that
    raises is modelled by a `None` result, after which no later transformer
    contributes to the result. */
module Transformations {
  import opened Wrappers

  /** A transformer: the running dataset, the captured positional arguments and
      the captured keyword arguments, to a new dataset or a failure. `D` is the
      engine's opaque dataset type and `V` the type of argument values. */
  type Transformer<!D, !V> = (D, seq<V>, map<string, V>) -> Option<D>

  /** An immutable invocation record: the transformer and the arguments it is
      called with after the dataset. */
  datatype Transformation<!D, !V> =
    Transformation(transformer: Transformer<D, V>, args: seq<V>, kwargs: map<string, V>)

  /** One step of the fold. The transformer is invoked only when every earlier
      step succeeded; a failure is passed on without invoking it. */
  function Step<D, V>(acc: Option<D>, t: Transformation<D, V>): Option<D>
  {
    match acc
    case None => None
    case Some(df) => t.transformer(df, t.args, t.kwargs)
  }

  /** The left fold of `ts` over the accumulator `acc`, first descriptor first. */
  function Fold<D, V>(acc: Option<D>, ts: seq<Transformation<D, V>>): (r: Option<D>)
    ensures acc.None? ==> r.None?
    decreases |ts|
  {
    if ts == [] then acc else Fold(Step(acc, ts[0]), ts[1..])
  }

  /** The pipeline applied to a dataset returned by extraction. */
  function Apply<D, V>(ts: seq<Transformation<D, V>>, df: D): (r: Option<D>)
    ensures ts == [] ==> r == Some(df)
  {
    Fold(Some(df), ts)
  }

  /** Folding over one more descriptor is one more step on the previous result. */
  lemma {:induction false} FoldSnoc<D, V>(acc: Option<D>, ts: seq<Transformation<D, V>>, t: Transformation<D, V>)
    ensures Fold(acc, ts + [t]) == Step(Fold(acc, ts), t)
    decreases |ts|
  {
    if ts == [] {
      assert ts + [t] == [t];
      assert [t][1..] == [];
    } else {
      assert (ts + [t])[0] == ts[0];
      assert (ts + [t])[1..] == ts[1..] + [t];
      FoldSnoc(Step(acc, ts[0]), ts[1..], t);
    }
  }

  /** Folding over a concatenation folds the second part over the first's result. */
  lemma {:induction false} FoldConcat<D, V>(acc: Option<D>, ts1: seq<Transformation<D, V>>, ts2: seq<Transformation<D, V>>)
    ensures Fold(acc, ts1 + ts2) == Fold(Fold(acc, ts1), ts2)
    decreases |ts1|
  {
    if ts1 == [] {
      assert ts1 + ts2 == ts2;
    } else {
      assert (ts1 + ts2)[0] == ts1[0];
      assert (ts1 + ts2)[1..] == ts1[1..] + ts2;
      FoldConcat(Step(acc, ts1[0]), ts1[1..], ts2);
    }
  }

  /** The last descriptor runs last, on the dataset produced by all earlier
      ones, which it receives as its first argument together with its own
      captured arguments. */
  lemma ApplySnoc<D, V>(ts: seq<Transformation<D, V>>, t: Transformation<D, V>, df: D)
    ensures Apply(ts, df).Some? ==>
              Apply(ts + [t], df) == t.transformer(Apply(ts, df).value, t.args, t.kwargs)
    ensures Apply(ts, df).None? ==> Apply(ts + [t], df).None?
  {
    FoldSnoc(Some(df), ts, t);
  }

  /** Applying `ts1 + ts2` applies `ts2` to the result of `ts1`; a failure in
      `ts1` makes the whole pipeline fail. */
  lemma ApplyConcat<D, V>(ts1: seq<Transformation<D, V>>, ts2: seq<Transformation<D, V>>, df: D)
    ensures Apply(ts1, df).Some? ==> Apply(ts1 + ts2, df) == Apply(ts2, Apply(ts1, df).value)
    ensures Apply(ts1, df).None? ==> Apply(ts1 + ts2, df).None?
  {
    FoldConcat(Some(df), ts1, ts2);
  }

  /** Once a prefix of the pipeline has failed, the pipeline fails whatever
      follows that prefix. */
  lemma ApplyFailedPrefix<D, V>(ts: seq<Transformation<D, V>>, k: nat, df: D)
    requires k <= |ts|
    requires Apply(ts[..k], df).None?
    ensures Apply(ts, df).None?
  {
    assert ts == ts[..k] + ts[k..];
    ApplyConcat(ts[..k], ts[k..], df);
  }

  /** The pipeline fails exactly when some descriptor fails on the running
      dataset produced by the descriptors before it. */
  lemma {:induction false} ApplyFailsIffSomeStepFails<D, V>(ts: seq<Transformation<D, V>>, df: D)
    ensures Apply(ts, df).None? <==>
              exists k :: 0 <= k < |ts| && Apply(ts[..k], df).Some? && Apply(ts[..k + 1], df).None?
    decreases |ts|
  {
    if Apply(ts, df).None? {
      assert ts != [];
      var n := |ts| - 1;
      assert ts[..n + 1] == ts;
      if Apply(ts[..n], df).None? {
        ApplyFailsIffSomeStepFails(ts[..n], df);
        var k :| 0 <= k < n && Apply(ts[..n][..k], df).Some? && Apply(ts[..n][..k + 1], df).None?;
        assert ts[..n][..k] == ts[..k];
        assert ts[..n][..k + 1] == ts[..k + 1];
      }
    } else {
      forall k | 0 <= k < |ts| && Apply(ts[..k], df).Some?
        ensures Apply(ts[..k + 1], df).Some?
      {
        if Apply(ts[..k + 1], df).None? {
          ApplyFailedPrefix(ts, k + 1, df);
        }
      }
    }
  }

  /** Attachment order is observable: with "add one" and "double" as the
      transformers, applying them in the two orders to 1 gives 4 and 3. */
  lemma OrderMatters()
    ensures var inc := Transformation((x: int, a: seq<int>, k: map<string, int>) => Some(x + 1), [], map[]);
            var dbl := Transformation((x: int, a: seq<int>, k: map<string, int>) => Some(2 * x), [], map[]);
            Apply([inc, dbl], 1) == Some(4) && Apply([dbl, inc], 1) == Some(3)
  {
  }

  /** The pipeline run step by step, as the reducer does. On failure it returns
      at once, reporting one past the position of the first descriptor that
      failed; on success it reports the length of the list. */
  method ApplyTransformations<D, V>(ts: seq<Transformation<D, V>>, df: D) returns (r: Option<D>, invoked: nat)
    ensures r == Apply(ts, df)
    ensures invoked <= |ts|
    ensures r.Some? ==> invoked == |ts|
    ensures r.None? ==>
              1 <= invoked && Apply(ts[..invoked - 1], df).Some? && Apply(ts[..invoked], df).None?
  {
    var acc := df;
    var i := 0;
    while i < |ts|
      invariant 0 <= i <= |ts|
      invariant Apply(ts[..i], df) == Some(acc)
    {
      var t := ts[i];
      var next := t.transformer(acc, t.args, t.kwargs);
      assert ts[..i + 1] == ts[..i] + [t];
      ApplySnoc(ts[..i], t, df);
      if next.None? {
        ApplyFailedPrefix(ts, i + 1, df);
        return None, i + 1;
      }
      acc := next.value;
      i := i + 1;
    }
    assert ts[..i] == ts;
    return Some(acc), i;
  }
}

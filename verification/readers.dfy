/** The Reader abstraction: a named extraction step with an ordered list of
    transformations, and the build step that extracts, transforms and publishes
    the result under the reader's name in a catalog.

    The model is a persistent value (`Reader`) with pure operations; module
    `ReaderObjects` below shows the in-place, return-self builder on top of
    it. Extraction (`consume`) is left to each concrete reader, so it is a
    parameter here; the catalog is a map from view names to datasets. */
module Readers {
  import opened Wrappers
  import opened Transformations

  /** A reader's configuration: the name it publishes under and the
      transformations attached so far, in attachment order. */
  datatype Reader<!D, !V> = Reader(id: string, transformations: seq<Transformation<D, V>>)

  /** Named datasets, as in the engine's metastore. */
  type Catalog<D> = map<string, D>

  /** Why a build did not publish: extraction raised, or a transformer did. */
  datatype BuildError = ConsumeFailed | TransformFailed

  /** What a build leaves behind: the catalog after the call and, when it
      raised, where the failure came from. */
  datatype BuildOutcome<D> =
    | Published(catalog: Catalog<D>)
    | Raised(error: BuildError, catalog: Catalog<D>)

  /** A fresh reader publishes under `id` and has no transformations. */
  function New<D, V>(id: string): (r: Reader<D, V>)
    ensures r.id == id
    ensures r.transformations == []
  {
    Reader(id, [])
  }

  /** Positional arguments as captured: absent arguments become the empty
      tuple, so the captured sequence is always the one supplied. */
  function CapturedArgs<V>(args: seq<V>): (r: seq<V>)
    ensures r == args
  {
    if |args| > 0 then args else []
  }

  /** Keyword arguments as captured: absent arguments become the empty
      mapping, so the captured mapping is always the one supplied. */
  function CapturedKwargs<V>(kwargs: map<string, V>): (r: map<string, V>)
    ensures r == kwargs
  {
    if |kwargs| > 0 then kwargs else map[]
  }

  /** Attaching a transformation appends exactly one descriptor at the end;
      the name and every earlier descriptor are kept as they were. */
  function With<D, V>(r: Reader<D, V>, transformer: Transformer<D, V>, args: seq<V>, kwargs: map<string, V>): (r': Reader<D, V>)
    ensures r'.id == r.id
    ensures |r'.transformations| == |r.transformations| + 1
    ensures r'.transformations[..|r.transformations|] == r.transformations
    ensures r'.transformations[|r.transformations|].transformer == transformer
    ensures r'.transformations[|r.transformations|].args == args
    ensures r'.transformations[|r.transformations|].kwargs == kwargs
  {
    Reader(r.id, r.transformations + [Transformation(transformer, CapturedArgs(args), CapturedKwargs(kwargs))])
  }

  /** A descriptor attached without extra arguments is called with the
      dataset alone. */
  lemma WithoutArguments<D, V>(r: Reader<D, V>, transformer: Transformer<D, V>)
    ensures var t := With(r, transformer, [], map[]).transformations[|r.transformations|];
            t.args == [] && t.kwargs == map[]
  {
  }

  /** Two attachments in a row leave both descriptors, in call order, after
      the earlier ones. */
  lemma WithTwice<D, V>(r: Reader<D, V>,
                        f: Transformer<D, V>, fArgs: seq<V>, fKwargs: map<string, V>,
                        g: Transformer<D, V>, gArgs: seq<V>, gKwargs: map<string, V>)
    ensures With(With(r, f, fArgs, fKwargs), g, gArgs, gKwargs)
            == Reader(r.id, r.transformations + [Transformation(f, fArgs, fKwargs), Transformation(g, gArgs, gKwargs)])
  {
  }

  /** The attached transformer runs after all earlier ones, receiving their
      result as its first argument followed by exactly the captured
      arguments; if an earlier one failed, the result is a failure. */
  lemma WithForwardsArguments<D, V>(r: Reader<D, V>, transformer: Transformer<D, V>, args: seq<V>, kwargs: map<string, V>, df: D)
    ensures Apply(r.transformations, df).Some? ==>
              Apply(With(r, transformer, args, kwargs).transformations, df)
              == transformer(Apply(r.transformations, df).value, args, kwargs)
    ensures Apply(r.transformations, df).None? ==>
              Apply(With(r, transformer, args, kwargs).transformations, df).None?
  {
    ApplySnoc(r.transformations, Transformation(transformer, args, kwargs), df);
  }

  /** Registering a dataset under a name replaces any previous registration
      under that name and keeps every other registration. Names are matched
      exactly; a catalog that folds letter case is not modelled. */
  function Register<D>(catalog: Catalog<D>, name: string, df: D): (c: Catalog<D>)
    ensures c.Keys == catalog.Keys + {name}
    ensures c[name] == df
    ensures forall k :: k in catalog && k != name ==> c[k] == catalog[k]
  {
    catalog[name := df]
  }

  /** Extract with `consume`, run the transformations, and register the result
      under the reader's name as the last action. A failure in extraction or in
      any transformer propagates and leaves the catalog as it was. */
  function Build<C, D, V>(r: Reader<D, V>, consume: C -> Option<D>, client: C, catalog: Catalog<D>): (out: BuildOutcome<D>)
    ensures out.Published? <==>
              consume(client).Some? && Apply(r.transformations, consume(client).value).Some?
    ensures out.Published? ==>
              && r.id in out.catalog
              && out.catalog[r.id] == Apply(r.transformations, consume(client).value).value
              && out.catalog.Keys == catalog.Keys + {r.id}
              && forall k :: k in catalog && k != r.id ==> out.catalog[k] == catalog[k]
    ensures out.Raised? ==> out.catalog == catalog
    ensures out.Raised? ==> (out.error == ConsumeFailed <==> consume(client).None?)
  {
    match consume(client)
    case None => Raised(ConsumeFailed, catalog)
    case Some(raw) =>
      match Apply(r.transformations, raw)
      case None => Raised(TransformFailed, catalog)
      case Some(result) => Published(Register(catalog, r.id, result))
  }

  /** A reader without transformations publishes exactly what extraction
      returned. */
  lemma BuildFreshReader<C, D, V>(id: string, consume: C -> Option<D>, client: C, catalog: Catalog<D>)
    ensures consume(client).Some? ==>
              Build(New<D, V>(id), consume, client, catalog) == Published(catalog[id := consume(client).value])
    ensures consume(client).None? ==>
              Build(New<D, V>(id), consume, client, catalog) == Raised(ConsumeFailed, catalog)
  {
  }

  /** If the transformer at position `k` fails on its running input, the build
      raises and the catalog is unchanged, whatever follows position `k`. */
  lemma BuildFailsFast<C, D, V>(r: Reader<D, V>, consume: C -> Option<D>, client: C, catalog: Catalog<D>, k: nat)
    requires consume(client).Some?
    requires k < |r.transformations|
    requires Apply(r.transformations[..k + 1], consume(client).value).None?
    ensures Build(r, consume, client, catalog) == Raised(TransformFailed, catalog)
  {
    ApplyFailedPrefix(r.transformations, k + 1, consume(client).value);
  }

  /** Building again against a backend that returns the same data leaves the
      catalog as the first build left it. */
  lemma BuildTwiceSameCatalog<C, D, V>(r: Reader<D, V>, consume: C -> Option<D>, client: C, catalog: Catalog<D>)
    ensures var once := Build(r, consume, client, catalog);
            Build(r, consume, client, once.catalog) == once
  {
  }

  /** Builds of readers with different names touch disjoint catalog entries, so
      their order does not matter. Extraction and every transformer are
      modelled as not reading the catalog, and view names are matched exactly:
      the statement covers only readers whose `consume` and transformers do not
      read views registered by other builds, and whose ids do not differ only
      in letter case (a case-insensitive catalog treats those as one view). */
  lemma BuildsOfDistinctReadersCommute<C1, C2, D, V>(
    r1: Reader<D, V>, consume1: C1 -> Option<D>, client1: C1,
    r2: Reader<D, V>, consume2: C2 -> Option<D>, client2: C2,
    catalog: Catalog<D>)
    requires r1.id != r2.id
    ensures Build(r2, consume2, client2, Build(r1, consume1, client1, catalog).catalog).catalog
         == Build(r1, consume1, client1, Build(r2, consume2, client2, catalog).catalog).catalog
  {
  }
}

/** The in-place builder: a reader object whose `With` extends its own
    transformation list and returns the object itself. */
module ReaderObjects {
  import opened Transformations
  import Readers

  /** A reader as a mutable object. `With` changes the object in place and
      returns the object itself, so chained and separate calls configure the
      same object identically. */
  class ReaderObject<D, V> {
    const id: string
    var transformations: seq<Transformation<D, V>>

    constructor(id: string)
      ensures this.id == id
      ensures transformations == []
    {
      this.id := id;
      transformations := [];
    }

    /** The object's current configuration as a reader value. */
    function Snapshot(): Readers.Reader<D, V>
      reads this
    {
      Readers.Reader(id, transformations)
    }

    method With(transformer: Transformer<D, V>, args: seq<V>, kwargs: map<string, V>) returns (self: ReaderObject<D, V>)
      modifies this
      ensures self == this
      ensures Snapshot() == Readers.With(old(Snapshot()), transformer, args, kwargs)
    {
      transformations := Readers.With(Snapshot(), transformer, args, kwargs).transformations;
      self := this;
    }
  }

  /** A new reader object configured by attaching `prefix`, one `With` call
      per descriptor, in order. */
  method Configure<D, V>(id: string, prefix: seq<Transformation<D, V>>) returns (o: ReaderObject<D, V>)
    ensures fresh(o)
    ensures o.id == id
    ensures o.transformations == prefix
  {
    o := new ReaderObject(id);
    var i := 0;
    while i < |prefix|
      invariant 0 <= i <= |prefix|
      invariant o.id == id
      invariant o.transformations == prefix[..i]
    {
      var t := prefix[i];
      var ignored := o.With(t.transformer, t.args, t.kwargs);
      assert prefix[..i + 1] == prefix[..i] + [t];
      i := i + 1;
    }
    assert prefix[..i] == prefix;
  }

  /** Starting from the same configuration, attaching `f` then `g` to one
      reader with a chained call and to another with two separate calls on the
      stored reference leaves both with the earlier list followed by `f`, `g`. */
  method ChainedAndSeparateAgree<D, V>(id: string, prefix: seq<Transformation<D, V>>,
                                       f: Transformer<D, V>, fArgs: seq<V>, fKwargs: map<string, V>,
                                       g: Transformer<D, V>, gArgs: seq<V>, gKwargs: map<string, V>)
    returns (chained: ReaderObject<D, V>, separate: ReaderObject<D, V>)
    ensures chained.id == id && separate.id == id
    ensures chained.transformations == separate.transformations
    ensures chained.transformations == prefix + [Transformation(f, fArgs, fKwargs), Transformation(g, gArgs, gKwargs)]
  {
    chained := Configure(id, prefix);
    var step := chained.With(f, fArgs, fKwargs);
    var last := step.With(g, gArgs, gKwargs);
    Readers.WithTwice(Readers.Reader(id, prefix), f, fArgs, fKwargs, g, gArgs, gKwargs);

    separate := Configure(id, prefix);
    var ignored := separate.With(f, fArgs, fKwargs);
    ignored := separate.With(g, gArgs, gKwargs);
  }
}

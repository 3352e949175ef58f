/** The cross aggregator (calculadora.py, cross_dicts and
    calculate_full_cross): every trait of either parent is resolved on its
    own, the per-trait distributions are combined by a cartesian product
    whose probabilities multiply, and combinations that show the same set of
    tags are merged by adding their probabilities. */
module Cross {
  import opened Classifier
  import opened Resolver
  import opened Order

  /** A tag shown for one trait of an outcome. The source renders each as an
      HTML badge whose text and colour depend on the kind, and which names
      the trait, except the wild-type badge, which names none. */
  datatype Tag = VisualTag(name: string) | HetTag(name: string) | SuperTag(name: string)
               | NoPortaTag(name: string) | WildTypeTag

  /** The tag of phenotype `ph` of the trait called `name`. */
  function TagOf(name: string, ph: Phenotype): (t: Tag)
    ensures ph == Wild <==> t == WildTypeTag
    ensures ph != Wild ==> t.name == name
  {
    match ph
    case Visual => VisualTag(name)
    case Het => HetTag(name)
    case Super => SuperTag(name)
    case NoPorta => NoPortaTag(name)
    case Wild => WildTypeTag
  }

  /** A tag determines its phenotype, and its trait unless it is the
      wild-type tag. */
  lemma TagOfInjective(n1: string, p1: Phenotype, n2: string, p2: Phenotype)
    requires TagOf(n1, p1) == TagOf(n2, p2)
    ensures p1 == p2
    ensures p1 != Wild ==> n1 == n2
  {
  }

  /** One entry (phenotype, probability) of a trait's distribution. */
  type Item = (Phenotype, real)

  /** The entries of one trait, `list(res.items())`. */
  type Pool = seq<Item>

  /** The outcomes of a cross: a set of tags (a frozenset) and its probability. */
  type Combos = map<set<Tag>, real>

  function Entry(d: Distribution, x: Phenotype): (r: seq<Item>)
    ensures forall it :: it in r <==> it.0 == x && x in d && it.1 == d[x]
  {
    if x in d then [(x, d[x])] else []
  }

  /** The entries of a distribution, one per key, in a fixed label order. */
  function Items(d: Distribution): (p: Pool)
    ensures forall it :: it in p <==> it.0 in d && it.1 == d[it.0]
  {
    Entry(d, Visual) + Entry(d, Het) + Entry(d, Super) + Entry(d, NoPorta) + Entry(d, Wild)
  }

  /** Sum of the probabilities of a pool. */
  function PoolSum(p: Pool): real {
    if |p| == 0 then 0.0 else p[0].1 + PoolSum(p[1..])
  }

  lemma {:induction false} PoolSumConcat(a: Pool, b: Pool)
    ensures PoolSum(a + b) == PoolSum(a) + PoolSum(b)
    decreases |a|
  {
    if |a| > 0 {
      assert (a + b)[1..] == a[1..] + b;
      PoolSumConcat(a[1..], b);
    } else {
      assert a + b == b;
    }
  }

  /** The entries of a distribution carry its whole probability. */
  lemma ItemsSum(d: Distribution)
    ensures PoolSum(Items(d)) == Total(d)
  {
    var e1, e2, e3, e4, e5 := Entry(d, Visual), Entry(d, Het), Entry(d, Super), Entry(d, NoPorta), Entry(d, Wild);
    PoolSumConcat(e1, e2);
    PoolSumConcat(e1 + e2, e3);
    PoolSumConcat(e1 + e2 + e3, e4);
    PoolSumConcat(e1 + e2 + e3 + e4, e5);
    EntrySum(d, Visual);
    EntrySum(d, Het);
    EntrySum(d, Super);
    EntrySum(d, NoPorta);
    EntrySum(d, Wild);
  }

  lemma EntrySum(d: Distribution, x: Phenotype)
    ensures PoolSum(Entry(d, x)) == Lookup(d, x)
  {
    if x in d {
      assert Entry(d, x)[1..] == [];
    }
  }

  /** `y` in front of every tuple of `rest`. */
  function Cons(y: Item, rest: seq<seq<Item>>): (r: seq<seq<Item>>)
    ensures |r| == |rest|
  {
    seq(|rest|, k requires 0 <= k < |rest| => [y] + rest[k])
  }

  /** Every entry of `p` in front of every tuple of `rest`, the entries of
      `p` varying slowest. */
  function Prepend(p: Pool, rest: seq<seq<Item>>): seq<seq<Item>> {
    if |p| == 0 then [] else Cons(p[0], rest) + Prepend(p[1..], rest)
  }

  /** itertools.product(*pools): the tuples that take one entry from each
      pool, the first pool varying slowest. */
  function Product(pools: seq<Pool>): seq<seq<Item>>
    decreases |pools|
  {
    if |pools| == 0 then [[]] else Prepend(pools[0], Product(pools[1..]))
  }

  lemma {:induction false} PrependMembers(p: Pool, rest: seq<seq<Item>>, x: seq<Item>)
    ensures x in Prepend(p, rest) <==> |x| > 0 && x[0] in p && x[1..] in rest
    decreases |p|
  {
    if |p| > 0 {
      if x in Prepend(p, rest) {
        if x in Cons(p[0], rest) {
          var k :| 0 <= k < |rest| && Cons(p[0], rest)[k] == x;
          assert x[1..] == rest[k];
        } else {
          PrependMembers(p[1..], rest, x);
        }
      }
      if |x| > 0 && x[0] in p && x[1..] in rest {
        var k :| 0 <= k < |rest| && rest[k] == x[1..];
        assert x == [x[0]] + x[1..];
        if x[0] == p[0] {
          assert Cons(p[0], rest)[k] == x;
        } else {
          PrependMembers(p[1..], rest, x);
        }
      }
    }
  }

  /** The product holds exactly the tuples with one entry from each pool. */
  lemma {:induction false} ProductMembers(pools: seq<Pool>, x: seq<Item>)
    ensures x in Product(pools) <==> |x| == |pools| && forall i :: 0 <= i < |x| ==> x[i] in pools[i]
    decreases |pools|
  {
    if |pools| > 0 {
      PrependMembers(pools[0], Product(pools[1..]), x);
      if |x| > 0 {
        ProductMembers(pools[1..], x[1..]);
        assert forall i :: 1 <= i < |x| ==> x[i] == x[1..][i - 1];
      }
    } else {
      assert x in [[]] <==> x == [];
    }
  }

  /** Product of the probabilities of a tuple. */
  function Weight(t: seq<Item>): real {
    if |t| == 0 then 1.0 else t[0].1 * Weight(t[1..])
  }

  /** One step of the running `prob *= p`. */
  lemma {:induction false} WeightSnoc(t: seq<Item>, y: Item)
    ensures Weight(t + [y]) == Weight(t) * y.1
    decreases |t|
  {
    if |t| > 0 {
      assert (t + [y])[1..] == t[1..] + [y];
      WeightSnoc(t[1..], y);
    }
  }

  /** The tags of the first |t| traits of `keys` for the phenotypes of `t`. */
  function TagList(keys: seq<string>, t: seq<Item>): (tags: seq<Tag>)
    requires |t| <= |keys|
    ensures |tags| == |t|
  {
    seq(|t|, i requires 0 <= i < |t| => TagOf(keys[i], t[i].0))
  }

  /** frozenset(tags) */
  function Frozen(tags: seq<Tag>): (s: set<Tag>)
    ensures forall x :: x in s <==> x in tags
  {
    set x | x in tags
  }

  /** The tag set of a tuple. */
  function TagSet(keys: seq<string>, t: seq<Item>): set<Tag>
    requires |t| <= |keys|
  {
    Frozen(TagList(keys, t))
  }

  /** Every tuple has one entry per trait. */
  predicate Fits(keys: seq<string>, prods: seq<seq<Item>>) {
    forall k :: 0 <= k < |prods| ==> |prods[k]| == |keys|
  }

  /** The value of a defaultdict(float) keyed by tag sets. */
  function Share(c: Combos, s: set<Tag>): real {
    if s in c then c[s] else 0.0
  }

  /** `combos` after `combos[frozenset(tags)] += prob` for every tuple of
      `prods` in turn. */
  function Merge(keys: seq<string>, prods: seq<seq<Item>>): Combos
    requires Fits(keys, prods)
  {
    if |prods| == 0 then map[]
    else
      var c := Merge(keys, prods[..|prods| - 1]);
      var t := prods[|prods| - 1];
      var s := TagSet(keys, t);
      c[s := Share(c, s) + Weight(t)]
  }

  /** Sum of the weights of some tuples. */
  function WeightSum(prods: seq<seq<Item>>): real {
    if |prods| == 0 then 0.0 else WeightSum(prods[..|prods| - 1]) + Weight(prods[|prods| - 1])
  }

  /** The tuples that show exactly the tags `s`, in order. */
  function Matching(keys: seq<string>, prods: seq<seq<Item>>, s: set<Tag>): seq<seq<Item>>
    requires Fits(keys, prods)
  {
    if |prods| == 0 then []
    else
      var rest := Matching(keys, prods[..|prods| - 1], s);
      if TagSet(keys, prods[|prods| - 1]) == s then rest + [prods[|prods| - 1]] else rest
  }

  /** The merged map has an outcome for exactly the tag sets some tuple
      shows, and its probability is the sum of the weights of the tuples
      that show it. */
  lemma {:induction false} MergeMeaning(keys: seq<string>, prods: seq<seq<Item>>, s: set<Tag>)
    requires Fits(keys, prods)
    ensures s in Merge(keys, prods) <==> exists k :: 0 <= k < |prods| && TagSet(keys, prods[k]) == s
    ensures Share(Merge(keys, prods), s) == WeightSum(Matching(keys, prods, s))
    decreases |prods|
  {
    if |prods| > 0 {
      var n := |prods| - 1;
      var init := prods[..n];
      MergeMeaning(keys, init, s);
      var rest := Matching(keys, init, s);
      if TagSet(keys, prods[n]) == s {
        assert (rest + [prods[n]])[..|rest|] == rest;
      }
      if exists k :: 0 <= k < |prods| && TagSet(keys, prods[k]) == s {
        var k :| 0 <= k < |prods| && TagSet(keys, prods[k]) == s;
        if k < n {
          assert init[k] == prods[k];
        }
      }
    }
  }

  /** Sum of the probabilities of all outcomes. */
  ghost function Mass(c: Combos): real
    decreases |c.Keys|
  {
    if c == map[] then 0.0
    else
      var s :| s in c;
      assert (c - {s}).Keys < c.Keys;
      c[s] + Mass(c - {s})
  }

  lemma {:induction false} MassRemove(c: Combos, s: set<Tag>)
    requires s in c
    ensures Mass(c) == c[s] + Mass(c - {s})
    decreases |c.Keys|
  {
    var u :| u in c && Mass(c) == c[u] + Mass(c - {u});
    if u != s {
      assert (c - {u}).Keys < c.Keys;
      MassRemove(c - {u}, s);
      MassRemove(c - {s}, u);
      assert c - {u} - {s} == c - {s} - {u};
    }
  }

  /** Adding to one outcome adds to the total. */
  lemma MassUpdate(c: Combos, s: set<Tag>, v: real)
    ensures Mass(c[s := v]) == Mass(c) - Share(c, s) + v
  {
    var c' := c[s := v];
    MassRemove(c', s);
    if s in c {
      MassRemove(c, s);
      assert c' - {s} == c - {s};
    } else {
      assert c' - {s} == c;
    }
  }

  /** Merging keeps the whole weight of the tuples. */
  lemma {:induction false} MergeMass(keys: seq<string>, prods: seq<seq<Item>>)
    requires Fits(keys, prods)
    ensures Mass(Merge(keys, prods)) == WeightSum(prods)
    decreases |prods|
  {
    if |prods| > 0 {
      var n := |prods| - 1;
      MergeMass(keys, prods[..n]);
      var c := Merge(keys, prods[..n]);
      var s := TagSet(keys, prods[n]);
      MassUpdate(c, s, Share(c, s) + Weight(prods[n]));
    } else {
      assert Merge(keys, prods) == map[];
    }
  }

  lemma {:induction false} WeightSumConcat(a: seq<seq<Item>>, b: seq<seq<Item>>)
    ensures WeightSum(a + b) == WeightSum(a) + WeightSum(b)
    decreases |b|
  {
    if |b| > 0 {
      assert (a + b)[..|a + b| - 1] == a + b[..|b| - 1];
      WeightSumConcat(a, b[..|b| - 1]);
    } else {
      assert a + b == a;
    }
  }

  lemma {:induction false} WeightSumCons(y: Item, rest: seq<seq<Item>>)
    ensures WeightSum(Cons(y, rest)) == y.1 * WeightSum(rest)
    decreases |rest|
  {
    if |rest| > 0 {
      var n := |rest| - 1;
      assert Cons(y, rest)[..n] == Cons(y, rest[..n]);
      WeightSumCons(y, rest[..n]);
      assert ([y] + rest[n])[1..] == rest[n];
      MulDistrib(y.1, WeightSum(rest[..n]), Weight(rest[n]));
    } else {
      assert WeightSum(rest) == 0.0 && WeightSum(Cons(y, rest)) == 0.0;
    }
  }

  /** The tuples that start with the first entry of `p`, then the others. */
  lemma PrependSplit(p: Pool, rest: seq<seq<Item>>)
    requires |p| > 0
    ensures WeightSum(Prepend(p, rest)) == WeightSum(Cons(p[0], rest)) + WeightSum(Prepend(p[1..], rest))
  {
    var c, tail := Cons(p[0], rest), Prepend(p[1..], rest);
    assert Prepend(p, rest) == c + tail;
    WeightSumConcat(c, tail);
  }

  /** Prefixing the entries of a pool to tuples of total weight one gives
      the pool's own total. */
  lemma {:induction false} WeightSumPrepend(p: Pool, rest: seq<seq<Item>>)
    requires WeightSum(rest) == 1.0
    ensures WeightSum(Prepend(p, rest)) == PoolSum(p)
    decreases |p|
  {
    if |p| > 0 {
      PrependSplit(p, rest);
      WeightSumCons(p[0], rest);
      WeightSumPrepend(p[1..], rest);
    } else {
      assert WeightSum(Prepend(p, rest)) == 0.0 && PoolSum(p) == 0.0;
    }
  }

  lemma MulDistrib(a: real, x: real, y: real)
    ensures a * (x + y) == a * x + a * y
  {
  }

  /** When every pool is a distribution, the product of the pools is one. */
  lemma {:induction false} ProductMass(pools: seq<Pool>)
    requires forall i :: 0 <= i < |pools| ==> PoolSum(pools[i]) == 1.0
    ensures WeightSum(Product(pools)) == 1.0
    decreases |pools|
  {
    if |pools| > 0 {
      ProductMass(pools[1..]);
      WeightSumPrepend(pools[0], Product(pools[1..]));
    } else {
      assert WeightSum([[]]) == WeightSum([]) + Weight([]);
    }
  }

  /** Only a named tag carries a trait. */
  predicate Named(a: Tag) {
    !a.WildTypeTag?
  }

  /** No trait has two tags in `s`, and every named tag is one of `keys`. */
  predicate WellTagged(s: set<Tag>, keys: set<string>) {
    && (forall a, b :: a in s && b in s && Named(a) && Named(b) && a.name == b.name ==> a == b)
    && (forall a :: a in s && Named(a) ==> a.name in keys)
  }

  /** With distinct trait names, a tuple shows at most one tag per trait. */
  lemma TagSetWellTagged(keys: seq<string>, t: seq<Item>)
    requires |t| == |keys| && Ascending(keys)
    ensures WellTagged(TagSet(keys, t), set k | k in keys)
  {
    var tags := TagList(keys, t);
    forall a, b | a in tags && b in tags && Named(a) && Named(b) && a.name == b.name ensures a == b {
      var i :| 0 <= i < |tags| && tags[i] == a;
      var j :| 0 <= j < |tags| && tags[j] == b;
      if i != j {
        AscendingDistinct(keys, i, j);
      }
    }
    forall a | a in tags && Named(a) ensures a.name in keys {
      var i :| 0 <= i < |tags| && tags[i] == a;
    }
  }

  /** The pools of the traits, in the order of `keys`. */
  function Pools(results: map<string, Pool>, keys: seq<string>): (pools: seq<Pool>)
    requires forall k :: k in keys ==> k in results
    ensures |pools| == |keys|
  {
    seq(|keys|, i requires 0 <= i < |keys| => results[keys[i]])
  }

  /** What cross_dicts returns, as a function of the per-trait pools. */
  function Joint(results: map<string, Pool>): Combos {
    var keys := SortKeys(results.Keys);
    var prods := Product(Pools(results, keys));
    JointFits(results);
    Merge(keys, prods)
  }

  /** One step of the merging loop. */
  lemma MergeStep(keys: seq<string>, prods: seq<seq<Item>>, j: nat)
    requires Fits(keys, prods) && j < |prods|
    ensures Merge(keys, prods[..j + 1])
            == Merge(keys, prods[..j])[TagSet(keys, prods[j]) :=
                 Share(Merge(keys, prods[..j]), TagSet(keys, prods[j])) + Weight(prods[j])]
  {
    assert prods[..j + 1][..j] == prods[..j];
  }

  /** One step of the loop over a tuple. */
  lemma TupleStep(keys: seq<string>, t: seq<Item>, i: nat)
    requires i < |t| <= |keys|
    ensures TagList(keys, t[..i + 1]) == TagList(keys, t[..i]) + [TagOf(keys[i], t[i].0)]
    ensures Weight(t[..i + 1]) == Weight(t[..i]) * t[i].1
  {
    assert t[..i + 1] == t[..i] + [t[i]];
    WeightSnoc(t[..i], t[i]);
  }

  /** The inner loop of cross_dicts: the tags and the probability of one
      tuple of the product. */
  method TupleOutcome(keys: seq<string>, prod: seq<Item>) returns (tags: seq<Tag>, prob: real)
    requires |prod| <= |keys|
    ensures tags == TagList(keys, prod)
    ensures prob == Weight(prod)
  {
    tags := [];
    prob := 1.0;
    for i := 0 to |prod|
      invariant tags == TagList(keys, prod[..i])
      invariant prob == Weight(prod[..i])
    {
      var tag := TagOf(keys[i], prod[i].0);
      TupleStep(keys, prod, i);
      tags := tags + [tag];
      prob := prob * prod[i].1;
    }
    assert prod[..|prod|] == prod;
  }

  /** cross_dicts: enumerate the product, build each tuple's tags and
      probability, and add the probability to its tag set. */
  method CrossDicts(results: map<string, Pool>) returns (combos: Combos)
    ensures combos == Joint(results)
  {
    var keys := SortKeys(results.Keys);
    var combs := Pools(results, keys);
    var prods := Product(combs);
    JointFits(results);
    combos := map[];
    for j := 0 to |prods|
      invariant combos == Merge(keys, prods[..j])
    {
      var tags, prob := TupleOutcome(keys, prods[j]);
      var frozen := Frozen(tags);
      MergeStep(keys, prods, j);
      combos := combos[frozen := Share(combos, frozen) + prob];
    }
    assert prods[..|prods|] == prods;
  }

  /** The tuples of the product fit the sorted keys. */
  lemma JointFits(results: map<string, Pool>)
    ensures Fits(SortKeys(results.Keys), Product(Pools(results, SortKeys(results.Keys))))
  {
    var keys := SortKeys(results.Keys);
    var prods := Product(Pools(results, keys));
    forall k | 0 <= k < |prods| ensures |prods[k]| == |keys| {
      ProductMembers(Pools(results, keys), prods[k]);
    }
  }

  /** Every outcome of cross_dicts has at most one tag per trait, naming only
      traits of the input. */
  lemma JointWellTagged(results: map<string, Pool>, s: set<Tag>)
    requires s in Joint(results)
    ensures WellTagged(s, results.Keys)
  {
    var keys := SortKeys(results.Keys);
    var prods := Product(Pools(results, keys));
    JointFits(results);
    SortKeysAscending(results.Keys);
    assert (set k | k in keys) == results.Keys;
    MergeMeaning(keys, prods, s);
    var k :| 0 <= k < |prods| && TagSet(keys, prods[k]) == s;
    TagSetWellTagged(keys, prods[k]);
  }

  /** When every trait's pool is a distribution, the probabilities of the
      outcomes of cross_dicts add up to 1. */
  lemma JointMass(results: map<string, Pool>)
    requires forall k :: k in results ==> PoolSum(results[k]) == 1.0
    ensures Mass(Joint(results)) == 1.0
  {
    var keys := SortKeys(results.Keys);
    var pools := Pools(results, keys);
    JointFits(results);
    forall i | 0 <= i < |pools| ensures PoolSum(pools[i]) == 1.0 {
      assert keys[i] in results;
    }
    ProductMass(pools);
    MergeMass(keys, Product(pools));
  }

  /** No traits at all give the single empty outcome with certainty. */
  lemma EmptyCross()
    ensures Joint(map[]) == map[{} := 1.0]
  {
    var results: map<string, Pool> := map[];
    var keys := SortKeys(results.Keys);
    assert keys == [];
    var prods := Product(Pools(results, keys));
    assert prods == [[]];
    assert TagSet(keys, []) == {};
    assert Merge(keys, prods) == Merge(keys, [])[{} := Share(map[], {}) + Weight([])];
  }

  /** padre_genos.get(t, "No porta") */
  function Get(genos: map<string, string>, name: string): string {
    if name in genos then genos[name] else "No porta"
  }

  /** The pool of trait `name` for these parents. */
  function ResultOf(padre: map<string, string>, madre: map<string, string>, name: string): Pool {
    Items(TraitDistribution(InferMode(name), Get(padre, name), Get(madre, name)))
  }

  /** The body of the loop of calculate_full_cross: classify the trait,
      default each missing selection to "No porta" and resolve it. */
  method ResolveOne(padre: map<string, string>, madre: map<string, string>, t: string) returns (pool: Pool)
    ensures pool == ResultOf(padre, madre, t)
  {
    var tipo := InferMode(t);
    var g1 := Get(padre, t);
    var g2 := Get(madre, t);
    var res := ResolveTrait(t, tipo, g1, g2);
    pool := Items(res);
  }

  /** ResultOf for fixed parents, as a function of the trait name. */
  function ResultFor(padre: map<string, string>, madre: map<string, string>): string -> Pool {
    name => ResultOf(padre, madre, name)
  }

  /** The map holding `f(name)` under each name of `s`. */
  function Tabulate(f: string -> Pool, s: set<string>): map<string, Pool> {
    map name | name in s :: f(name)
  }

  /** trait_results: one pool for every trait of either parent. */
  function TraitResults(padre: map<string, string>, madre: map<string, string>): map<string, Pool> {
    Tabulate(ResultFor(padre, madre), padre.Keys + madre.Keys)
  }

  /** trait_results after the loop has visited `names`, storing `f(name)`
      under each name. */
  function Resolved(f: string -> Pool, names: seq<string>): map<string, Pool> {
    if |names| == 0 then map[]
    else
      var n := |names| - 1;
      Resolved(f, names[..n])[names[n] := f(names[n])]
  }

  /** The loop has stored exactly the names it visited, each with its value. */
  lemma {:induction false} ResolvedNames(f: string -> Pool, names: seq<string>)
    ensures forall name :: name in Resolved(f, names) <==> name in names
    ensures forall name :: name in Resolved(f, names) ==> Resolved(f, names)[name] == f(name)
  {
    if |names| > 0 {
      var n := |names| - 1;
      ResolvedNames(f, names[..n]);
      assert names == names[..n] + [names[n]];
    }
  }

  /** One more step of the loop stores one more name. */
  lemma ResolvedSnoc(f: string -> Pool, names: seq<string>, i: int)
    requires 0 <= i < |names|
    ensures Resolved(f, names[..i + 1]) == Resolved(f, names[..i])[names[i] := f(names[i])]
  {
    assert names[..i + 1][..i] == names[..i];
  }

  /** Visiting every name of `s` in sorted order tabulates `f` over `s`. */
  lemma ResolvedAll(f: string -> Pool, s: set<string>)
    ensures Resolved(f, SortKeys(s)) == Tabulate(f, s)
  {
    ResolvedNames(f, SortKeys(s));
  }

  /** calculate_full_cross: resolve each trait of either parent in sorted
      order, then combine them. */
  method CalculateFullCross(padre: map<string, string>, madre: map<string, string>) returns (combos: Combos)
    ensures combos == Joint(TraitResults(padre, madre))
  {
    var allTraits := SortKeys(padre.Keys + madre.Keys);
    ghost var f := ResultFor(padre, madre);
    var traitResults: map<string, Pool> := map[];
    for i := 0 to |allTraits|
      invariant traitResults == Resolved(f, allTraits[..i])
    {
      var t := allTraits[i];
      var pool := ResolveOne(padre, madre, t);
      assert pool == f(t);
      ResolvedSnoc(f, allTraits, i);
      traitResults := traitResults[t := pool];
    }
    assert allTraits[..|allTraits|] == allTraits;
    ResolvedAll(f, padre.Keys + madre.Keys);
    combos := CrossDicts(traitResults);
  }

  /** The laws of a full cross: exactly the traits of either parent are
      resolved, each trait's pool is a distribution, the outcomes'
      probabilities add up to 1, and every outcome has at most one tag per
      trait, naming only the parents' traits. */
  lemma FullCrossLaws(padre: map<string, string>, madre: map<string, string>)
    ensures TraitResults(padre, madre).Keys == padre.Keys + madre.Keys
    ensures forall name :: name in TraitResults(padre, madre) ==> PoolSum(TraitResults(padre, madre)[name]) == 1.0
    ensures Mass(Joint(TraitResults(padre, madre))) == 1.0
    ensures forall s :: s in Joint(TraitResults(padre, madre)) ==> WellTagged(s, padre.Keys + madre.Keys)
  {
    var r := TraitResults(padre, madre);
    forall name | name in r ensures PoolSum(r[name]) == 1.0 {
      var d := TraitDistribution(InferMode(name), Get(padre, name), Get(madre, name));
      ItemsSum(d);
      DistributionLaws(InferMode(name), Get(padre, name), Get(madre, name));
    }
    JointMass(r);
    forall s | s in Joint(r) ensures WellTagged(s, padre.Keys + madre.Keys) {
      JointWellTagged(r, s);
    }
  }

  /** A base trait resolves to the single wild-type entry whatever either
      parent holds, also when one parent lacks it. */
  lemma BaseTraitIsWild(padre: map<string, string>, madre: map<string, string>, name: string)
    requires name in padre.Keys + madre.Keys && InferMode(name) == Base
    ensures TraitResults(padre, madre)[name] == [(Wild, 1.0)]
  {
  }

  /** A recessive trait that only one parent carries as Het meets the
      default "No porta" of the other: half carriers, half non-carriers. */
  lemma OneSidedHet(padre: map<string, string>, madre: map<string, string>, name: string)
    requires name in padre && name !in madre && padre[name] == "Het" && InferMode(name) == Recessive
    ensures TraitResults(padre, madre)[name] == [(Het, 0.5), (NoPorta, 0.5)]
  {
    HetTimesNoPorta();
    var e := map[Het := 0.5, NoPorta := 0.5];
    assert Items(e) == [(Het, 0.5), (NoPorta, 0.5)];
  }
}

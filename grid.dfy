/**
 * The order in which `run_setup`'s four nested loops visit the combinations
 * of a sweep configuration: node similarity outermost, then ranking
 * similarity, then dataset, then model, which varies fastest. Each level is
 * a function over the list its loop walks; the lemmas give the combination
 * at every position and characterise which combinations occur.
 */
module Grid {
  import opened Experiments

  /** Multiplication as repeated addition of equal blocks: the length of
      `a` blocks of length `b`. The lemmas below reason one block at a time
      with it; the public statements use `*`, related by TimesIsMul. */
  function Times(a: nat, b: nat): nat
  {
    if a == 0 then 0 else Times(a - 1, b) + b
  }

  lemma {:induction false} TimesIsMul(a: nat, b: nat)
    ensures Times(a, b) == a * b
  {
    if a > 0 {
      TimesIsMul(a - 1, b);
    }
  }

  /** Times grows with its first argument. */
  lemma {:induction false} TimesMonotone(a: nat, a2: nat, b: nat)
    requires a <= a2
    ensures Times(a, b) <= Times(a2, b)
  {
    if a < a2 {
      TimesMonotone(a, a2 - 1, b);
    }
  }

  /** An offset inside block q of `a` blocks of length `b` lies below their total. */
  lemma BlockOffsetBound(a: nat, b: nat, q: nat, r: nat)
    requires q < a && r < b
    ensures Times(q, b) + r < Times(a, b)
  {
    TimesMonotone(q + 1, a, b);
  }

  /** Every offset into `a` blocks of length `b` falls inside one block. */
  lemma {:induction false} SplitBlocks(a: nat, b: nat, p: nat) returns (q: nat, r: nat)
    requires p < Times(a, b)
    ensures q < a && r < b && Times(q, b) + r == p
  {
    if p < Times(a - 1, b) {
      q, r := SplitBlocks(a - 1, b, p);
    } else {
      q, r := a - 1, p - Times(a - 1, b);
    }
  }

  /** The block and the offset within it are determined by the position. */
  lemma {:induction false} BlockOffsetUnique(b: nat, q1: nat, r1: nat, q2: nat, r2: nat)
    requires r1 < b && r2 < b && Times(q1, b) + r1 == Times(q2, b) + r2
    ensures q1 == q2 && r1 == r2
  {
    if q1 > 0 && q2 > 0 {
      BlockOffsetUnique(b, q1 - 1, r1, q2 - 1, r2);
    }
  }

  /** The blocks one after the other: what a loop appending the output of an
      inner loop on each element produces. */
  function Flatten<T>(blocks: seq<seq<T>>): seq<T>
  {
    if blocks == [] then [] else blocks[0] + Flatten(blocks[1..])
  }

  /** Every block has length `size`. */
  ghost predicate Uniform<T>(blocks: seq<seq<T>>, size: nat)
  {
    forall b :: 0 <= b < |blocks| ==> |blocks[b]| == size
  }

  lemma {:induction false} FlattenLength<T>(blocks: seq<seq<T>>, size: nat)
    requires Uniform(blocks, size)
    ensures |Flatten(blocks)| == Times(|blocks|, size)
  {
    if blocks != [] {
      FlattenLength(blocks[1..], size);
    }
  }

  /** Element `e` of block `b` sits at offset `b * size + e` of the flattening. */
  lemma {:induction false} FlattenAt<T>(blocks: seq<seq<T>>, size: nat, b: nat, e: nat)
    requires Uniform(blocks, size)
    requires b < |blocks| && e < size
    ensures Times(b, size) + e < Times(|blocks|, size) == |Flatten(blocks)|
    ensures Flatten(blocks)[Times(b, size) + e] == blocks[b][e]
  {
    FlattenLength(blocks, size);
    if b > 0 {
      FlattenAt(blocks[1..], size, b - 1, e);
    }
  }

  /** Every element of the flattening comes from some block. */
  lemma {:induction false} FlattenMember<T>(blocks: seq<seq<T>>, x: T)
    requires x in Flatten(blocks)
    ensures exists b :: 0 <= b < |blocks| && x in blocks[b]
  {
    if x !in blocks[0] {
      FlattenMember(blocks[1..], x);
      var b :| 0 <= b < |blocks[1..]| && x in blocks[1..][b];
      assert x in blocks[b + 1];
    }
  }

  /** The innermost loop: one combination per model, in list order. */
  function ModelRow(task: string, n: string, r: string, d: string, ms: seq<string>): seq<Combination>
  {
    seq(|ms|, l requires 0 <= l < |ms| => Combination(task, n, r, d, ms[l]))
  }

  /** The dataset loop: the model rows of each dataset, one after the other. */
  function DatasetRow(task: string, n: string, r: string, ds: seq<string>, ms: seq<string>): (row: seq<Combination>)
    ensures |row| == Times(|ds|, |ms|)
  {
    FlattenLength(DatasetBlocks(task, n, r, ds, ms), |ms|);
    Flatten(DatasetBlocks(task, n, r, ds, ms))
  }

  function DatasetBlocks(task: string, n: string, r: string, ds: seq<string>, ms: seq<string>): (blocks: seq<seq<Combination>>)
    ensures |blocks| == |ds| && Uniform(blocks, |ms|)
  {
    seq(|ds|, k requires 0 <= k < |ds| => ModelRow(task, n, r, ds[k], ms))
  }

  /** The ranking-similarity loop: the dataset rows of each ranking similarity. */
  function RankingRow(task: string, n: string, rs: seq<string>, ds: seq<string>, ms: seq<string>): (row: seq<Combination>)
    ensures |row| == Times(|rs|, Times(|ds|, |ms|))
  {
    FlattenLength(RankingBlocks(task, n, rs, ds, ms), Times(|ds|, |ms|));
    Flatten(RankingBlocks(task, n, rs, ds, ms))
  }

  function RankingBlocks(task: string, n: string, rs: seq<string>, ds: seq<string>, ms: seq<string>): (blocks: seq<seq<Combination>>)
    ensures |blocks| == |rs| && Uniform(blocks, Times(|ds|, |ms|))
  {
    seq(|rs|, j requires 0 <= j < |rs| => DatasetRow(task, n, rs[j], ds, ms))
  }

  /** The node-similarity loop, the outermost one. */
  function NodeRow(task: string, ns: seq<string>, rs: seq<string>, ds: seq<string>, ms: seq<string>): (row: seq<Combination>)
    ensures |row| == Times(|ns|, Times(|rs|, Times(|ds|, |ms|)))
  {
    FlattenLength(NodeBlocks(task, ns, rs, ds, ms), Times(|rs|, Times(|ds|, |ms|)));
    Flatten(NodeBlocks(task, ns, rs, ds, ms))
  }

  function NodeBlocks(task: string, ns: seq<string>, rs: seq<string>, ds: seq<string>, ms: seq<string>): (blocks: seq<seq<Combination>>)
    ensures |blocks| == |ns| && Uniform(blocks, Times(|rs|, Times(|ds|, |ms|)))
  {
    seq(|ns|, i requires 0 <= i < |ns| => RankingRow(task, ns[i], rs, ds, ms))
  }

  /** Every combination of a sweep, in the order the driver runs them: as
      many as the product of the four dimensions' lengths. */
  function Combinations(task: string, setup: SweepSetup): (combos: seq<Combination>)
    ensures |combos| == GridSize(setup)
  {
    var ns, rs, ds, ms := setup.nodeSimilarity, setup.rankingSimilarity, setup.dataset, setup.model;
    TimesIsMul(|ds|, |ms|);
    TimesIsMul(|rs|, |ds| * |ms|);
    TimesIsMul(|ns|, |rs| * (|ds| * |ms|));
    NodeRow(task, ns, rs, ds, ms)
  }

  /** The position of the combination (ns[i], rs[j], ds[k], ms[l]) in the
      sweep: a mixed-radix number whose last digit, the model index, varies
      fastest (PositionIsMixedRadix states it with `*`). */
  function Position(setup: SweepSetup, i: nat, j: nat, k: nat, l: nat): nat
  {
    var m := |setup.model|;
    var dm := Times(|setup.dataset|, m);
    Times(i, Times(|setup.rankingSimilarity|, dm)) + Times(j, dm) + Times(k, m) + l
  }

  lemma PositionIsMixedRadix(setup: SweepSetup, i: nat, j: nat, k: nat, l: nat)
    ensures var m, d, r := |setup.model|, |setup.dataset|, |setup.rankingSimilarity|;
      Position(setup, i, j, k, l) == i * (r * (d * m)) + j * (d * m) + k * m + l
  {
    var m, d, r := |setup.model|, |setup.dataset|, |setup.rankingSimilarity|;
    TimesIsMul(k, m);
    TimesIsMul(d, m);
    TimesIsMul(j, d * m);
    TimesIsMul(r, d * m);
    TimesIsMul(i, r * (d * m));
  }

  /** Every position of the sweep is the position of some index tuple: record
      p of a sweep belongs to node similarity i, ranking similarity j,
      dataset k and model l. */
  lemma PositionCovers(setup: SweepSetup, p: nat) returns (i: nat, j: nat, k: nat, l: nat)
    requires p < GridSize(setup)
    ensures i < |setup.nodeSimilarity| && j < |setup.rankingSimilarity|
    ensures k < |setup.dataset| && l < |setup.model|
    ensures Position(setup, i, j, k, l) == p
  {
    var n, r, d, m := |setup.nodeSimilarity|, |setup.rankingSimilarity|, |setup.dataset|, |setup.model|;
    TimesIsMul(d, m);
    TimesIsMul(r, d * m);
    TimesIsMul(n, r * (d * m));
    var e1, e2;
    i, e1 := SplitBlocks(n, Times(r, Times(d, m)), p);
    j, e2 := SplitBlocks(r, Times(d, m), e1);
    k, l := SplitBlocks(d, m, e2);
  }

  /** Distinct index tuples have distinct positions. */
  lemma PositionUnique(setup: SweepSetup, i: nat, j: nat, k: nat, l: nat, i2: nat, j2: nat, k2: nat, l2: nat)
    requires i < |setup.nodeSimilarity| && j < |setup.rankingSimilarity|
    requires k < |setup.dataset| && l < |setup.model|
    requires i2 < |setup.nodeSimilarity| && j2 < |setup.rankingSimilarity|
    requires k2 < |setup.dataset| && l2 < |setup.model|
    requires Position(setup, i, j, k, l) == Position(setup, i2, j2, k2, l2)
    ensures i == i2 && j == j2 && k == k2 && l == l2
  {
    var r, d, m := |setup.rankingSimilarity|, |setup.dataset|, |setup.model|;
    BlockOffsetBound(d, m, k, l);
    BlockOffsetBound(d, m, k2, l2);
    BlockOffsetBound(r, Times(d, m), j, Times(k, m) + l);
    BlockOffsetBound(r, Times(d, m), j2, Times(k2, m) + l2);
    BlockOffsetUnique(Times(r, Times(d, m)), i, Times(j, Times(d, m)) + Times(k, m) + l,
                      i2, Times(j2, Times(d, m)) + Times(k2, m) + l2);
    BlockOffsetUnique(Times(d, m), j, Times(k, m) + l, j2, Times(k2, m) + l2);
    BlockOffsetUnique(m, k, l, k2, l2);
  }

  /** After the last model of a dataset comes the first model of the next. */
  lemma PositionNextDataset(setup: SweepSetup, i: nat, j: nat, k: nat)
    ensures Position(setup, i, j, k, |setup.model|) == Position(setup, i, j, k + 1, 0)
  {
  }

  /** After the last dataset comes the next ranking similarity. */
  lemma PositionNextRanking(setup: SweepSetup, i: nat, j: nat)
    ensures Position(setup, i, j, |setup.dataset|, 0) == Position(setup, i, j + 1, 0, 0)
  {
  }

  /** After the last ranking similarity comes the next node similarity. */
  lemma PositionNextNode(setup: SweepSetup, i: nat)
    ensures Position(setup, i, |setup.rankingSimilarity|, 0, 0) == Position(setup, i + 1, 0, 0, 0)
  {
  }

  /** Past the last node similarity, the whole sweep has been counted. */
  lemma PositionEnd(setup: SweepSetup)
    ensures Position(setup, |setup.nodeSimilarity|, 0, 0, 0) == GridSize(setup)
  {
    var m, d, r := |setup.model|, |setup.dataset|, |setup.rankingSimilarity|;
    TimesIsMul(d, m);
    TimesIsMul(r, d * m);
    TimesIsMul(|setup.nodeSimilarity|, r * (d * m));
  }

  /** The combination at a block offset of the dataset loop. */
  lemma DatasetRowAt(task: string, n: string, r: string, ds: seq<string>, ms: seq<string>, k: nat, l: nat)
    requires k < |ds| && l < |ms|
    ensures Times(k, |ms|) + l < |DatasetRow(task, n, r, ds, ms)|
    ensures DatasetRow(task, n, r, ds, ms)[Times(k, |ms|) + l] == Combination(task, n, r, ds[k], ms[l])
  {
    var blocks := DatasetBlocks(task, n, r, ds, ms);
    assert blocks[k] == ModelRow(task, n, r, ds[k], ms);
    FlattenAt(blocks, |ms|, k, l);
  }

  /** The element at a block offset of the ranking loop is the one at that
      offset within the block of ranking similarity j. */
  lemma RankingRowAt(task: string, n: string, rs: seq<string>, ds: seq<string>, ms: seq<string>,
                     j: nat, e: nat)
    requires j < |rs| && e < Times(|ds|, |ms|)
    ensures Times(j, Times(|ds|, |ms|)) + e < |RankingRow(task, n, rs, ds, ms)|
    ensures RankingRow(task, n, rs, ds, ms)[Times(j, Times(|ds|, |ms|)) + e]
         == DatasetRow(task, n, rs[j], ds, ms)[e]
  {
    var blocks := RankingBlocks(task, n, rs, ds, ms);
    assert blocks[j] == DatasetRow(task, n, rs[j], ds, ms);
    FlattenAt(blocks, Times(|ds|, |ms|), j, e);
  }

  /** The element at a block offset of the node loop is the one at that
      offset within the block of node similarity i. */
  lemma NodeRowAt(task: string, ns: seq<string>, rs: seq<string>, ds: seq<string>, ms: seq<string>,
                  i: nat, e: nat)
    requires i < |ns| && e < Times(|rs|, Times(|ds|, |ms|))
    ensures Times(i, Times(|rs|, Times(|ds|, |ms|))) + e < |NodeRow(task, ns, rs, ds, ms)|
    ensures NodeRow(task, ns, rs, ds, ms)[Times(i, Times(|rs|, Times(|ds|, |ms|))) + e]
         == RankingRow(task, ns[i], rs, ds, ms)[e]
  {
    var blocks := NodeBlocks(task, ns, rs, ds, ms);
    assert blocks[i] == RankingRow(task, ns[i], rs, ds, ms);
    FlattenAt(blocks, Times(|rs|, Times(|ds|, |ms|)), i, e);
  }

  /** Nested order: the combination at Position(i, j, k, l) takes the i-th node
      similarity, the j-th ranking similarity, the k-th dataset and the l-th
      model. */
  lemma CombinationAt(task: string, setup: SweepSetup, i: nat, j: nat, k: nat, l: nat)
    requires i < |setup.nodeSimilarity| && j < |setup.rankingSimilarity|
    requires k < |setup.dataset| && l < |setup.model|
    ensures Position(setup, i, j, k, l) < |Combinations(task, setup)|
    ensures Combinations(task, setup)[Position(setup, i, j, k, l)]
         == Combination(task, setup.nodeSimilarity[i], setup.rankingSimilarity[j],
                        setup.dataset[k], setup.model[l])
  {
    var ns, rs, ds, ms := setup.nodeSimilarity, setup.rankingSimilarity, setup.dataset, setup.model;
    var e2 := Times(k, |ms|) + l;
    DatasetRowAt(task, ns[i], rs[j], ds, ms, k, l);
    BlockOffsetBound(|ds|, |ms|, k, l);
    var e1 := Times(j, Times(|ds|, |ms|)) + e2;
    RankingRowAt(task, ns[i], rs, ds, ms, j, e2);
    BlockOffsetBound(|rs|, Times(|ds|, |ms|), j, e2);
    NodeRowAt(task, ns, rs, ds, ms, i, e1);
  }

  /** Every combination of the sweep takes its values from the configuration. */
  lemma CombinationMembers(task: string, setup: SweepSetup, c: Combination)
    requires c in Combinations(task, setup)
    ensures c.task == task && c.node in setup.nodeSimilarity && c.ranking in setup.rankingSimilarity
    ensures c.dataset in setup.dataset && c.model in setup.model
  {
    var ns, rs, ds, ms := setup.nodeSimilarity, setup.rankingSimilarity, setup.dataset, setup.model;
    FlattenMember(NodeBlocks(task, ns, rs, ds, ms), c);
    var i :| 0 <= i < |ns| && c in RankingRow(task, ns[i], rs, ds, ms);
    FlattenMember(RankingBlocks(task, ns[i], rs, ds, ms), c);
    var j :| 0 <= j < |rs| && c in DatasetRow(task, ns[i], rs[j], ds, ms);
    FlattenMember(DatasetBlocks(task, ns[i], rs[j], ds, ms), c);
    var k :| 0 <= k < |ds| && c in ModelRow(task, ns[i], rs[j], ds[k], ms);
    var l :| 0 <= l < |ms| && ModelRow(task, ns[i], rs[j], ds[k], ms)[l] == c;
  }

  /** No combination is skipped and none is invented: a combination occurs in
      the sweep exactly when its task is the sweep's task and each of its
      values is listed in the corresponding dimension. */
  lemma CombinationsComplete(task: string, setup: SweepSetup, c: Combination)
    ensures c in Combinations(task, setup) <==>
      c.task == task && c.node in setup.nodeSimilarity && c.ranking in setup.rankingSimilarity
      && c.dataset in setup.dataset && c.model in setup.model
  {
    if c.task == task && c.node in setup.nodeSimilarity && c.ranking in setup.rankingSimilarity
       && c.dataset in setup.dataset && c.model in setup.model
    {
      var i :| 0 <= i < |setup.nodeSimilarity| && setup.nodeSimilarity[i] == c.node;
      var j :| 0 <= j < |setup.rankingSimilarity| && setup.rankingSimilarity[j] == c.ranking;
      var k :| 0 <= k < |setup.dataset| && setup.dataset[k] == c.dataset;
      var l :| 0 <= l < |setup.model| && setup.model[l] == c.model;
      CombinationAt(task, setup, i, j, k, l);
    } else if c in Combinations(task, setup) {
      CombinationMembers(task, setup, c);
    }
  }

  /** The example order: with node similarities [a, b], ranking similarities
      [x, y], one dataset and one model, the sweep runs (a, x), (a, y), (b, x),
      (b, y). */
  lemma NestedOrderExample(task: string, a: string, b: string, x: string, y: string, d: string, m: string)
    ensures Combinations(task, SweepSetup([d], [m], [a, b], [x, y]))
         == [Combination(task, a, x, d, m), Combination(task, a, y, d, m),
             Combination(task, b, x, d, m), Combination(task, b, y, d, m)]
  {
    var setup := SweepSetup([d], [m], [a, b], [x, y]);
    var combos := Combinations(task, setup);
    CombinationAt(task, setup, 0, 0, 0, 0);
    CombinationAt(task, setup, 0, 1, 0, 0);
    CombinationAt(task, setup, 1, 0, 0, 0);
    CombinationAt(task, setup, 1, 1, 0, 0);
  }

  /** No value is listed twice. */
  ghost predicate NoDuplicates(xs: seq<string>)
  {
    forall a, b :: 0 <= a < b < |xs| ==> xs[a] != xs[b]
  }

  /** When no dimension lists a value twice, the sweep never runs the same
      combination twice. */
  lemma CombinationsDistinct(task: string, setup: SweepSetup)
    requires NoDuplicates(setup.nodeSimilarity) && NoDuplicates(setup.rankingSimilarity)
    requires NoDuplicates(setup.dataset) && NoDuplicates(setup.model)
    ensures forall p, q :: 0 <= p < q < |Combinations(task, setup)| ==>
      Combinations(task, setup)[p] != Combinations(task, setup)[q]
  {
    var combos := Combinations(task, setup);
    forall p, q | 0 <= p < q < |combos|
      ensures combos[p] != combos[q]
    {
      var i, j, k, l := PositionCovers(setup, p);
      var i2, j2, k2, l2 := PositionCovers(setup, q);
      CombinationAt(task, setup, i, j, k, l);
      CombinationAt(task, setup, i2, j2, k2, l2);
      if i != i2 {
        DistinctValues(setup.nodeSimilarity, i, i2);
      } else if j != j2 {
        DistinctValues(setup.rankingSimilarity, j, j2);
      } else if k != k2 {
        DistinctValues(setup.dataset, k, k2);
      } else {
        DistinctValues(setup.model, l, l2);
      }
    }
  }

  /** In a list without duplicates, distinct indices hold distinct values. */
  lemma DistinctValues(xs: seq<string>, a: nat, b: nat)
    requires NoDuplicates(xs) && a < |xs| && b < |xs| && a != b
    ensures xs[a] != xs[b]
  {
  }

  /** No built-in configuration lists a value twice, so neither built-in sweep
      runs the same experiment twice. */
  lemma BuiltInCombinationsDistinct()
    ensures var combos := Combinations(NodeClassification, NodeClassificationSetup);
      forall p, q :: 0 <= p < q < |combos| ==> combos[p] != combos[q]
    ensures var combos := Combinations(LinkPrediction, LinkPredictionSetup);
      forall p, q :: 0 <= p < q < |combos| ==> combos[p] != combos[q]
  {
    CombinationsDistinct(NodeClassification, NodeClassificationSetup);
    CombinationsDistinct(LinkPrediction, LinkPredictionSetup);
  }
}

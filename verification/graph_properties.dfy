/**
 * Properties of traversal construction: indexing only appends to the path,
 * arrays are spliced in order, and chains of indexing compose.
 */
module GraphProperties {
  import opened Wrappers
  import opened RubyText
  import opened Client
  import opened KeyValues
  import opened Graphs

  /** Flattening a concatenation of arguments concatenates their names. */
  lemma {:induction false} FlattenAllAppend(xs: seq<EdgeArg>, ys: seq<EdgeArg>)
    ensures FlattenAll(xs + ys) == FlattenAll(xs) + FlattenAll(ys)
    decreases |xs|
  {
    if xs != [] {
      assert (xs + ys)[1..] == xs[1..] + ys;
      FlattenAllAppend(xs[1..], ys);
    } else {
      assert xs + ys == ys;
    }
  }

  /** An array of plain names flattens to those names, in order. */
  lemma {:induction false} FlattenNames(ns: seq<Name>)
    ensures FlattenAll(seq(|ns|, i requires 0 <= i < |ns| => Edge(ns[i]))) == ns
    decreases |ns|
  {
    var args := seq(|ns|, i requires 0 <= i < |ns| => Edge(ns[i]));
    if ns != [] {
      FlattenNames(ns[1..]);
      assert args[1..] == seq(|ns[1..]|, i requires 0 <= i < |ns[1..]| => Edge(ns[1..][i]));
      assert ns == [ns[0]] + ns[1..];
    }
  }

  /** Indexing twice is indexing once with both arguments in an array. */
  lemma IndexingComposes(t: Traversal, x: EdgeArg, y: EdgeArg)
    ensures TraversalIndex(TraversalIndex(t, x), y) == TraversalIndex(t, Edges([x, y]))
  {
    assert [x, y][1..] == [y];
    assert [y][1..] == [];
    assert FlattenAll([y]) == Flatten(y) + FlattenAll([]);
    assert FlattenAll([x, y]) == Flatten(x) + FlattenAll([y]);
    assert Flatten(Edges([x, y])) == Flatten(x) + Flatten(y);
    assert t.edges + Flatten(x) + Flatten(y) == t.edges + (Flatten(x) + Flatten(y));
  }

  /** Indexing by two arrays in turn is indexing by their concatenation. */
  lemma IndexingByArraysComposes(t: Traversal, xs: seq<EdgeArg>, ys: seq<EdgeArg>)
    ensures TraversalIndex(TraversalIndex(t, Edges(xs)), Edges(ys)) == TraversalIndex(t, Edges(xs + ys))
  {
    FlattenAllAppend(xs, ys);
  }

  /** Indexing by an array of names appends exactly those names. */
  lemma IndexingByNames(t: Traversal, ns: seq<Name>)
    ensures TraversalIndex(t, Edges(seq(|ns|, i requires 0 <= i < |ns| => Edge(ns[i])))).edges == t.edges + ns
  {
    FlattenNames(ns);
  }

  /** `stem[a][b][c]` has the path `[type, a, b, c]` on the stem's item. */
  lemma ChainedIndexing(s: RelationStem, a: Name, b: Name, c: Name)
    ensures var t := TraversalIndex(TraversalIndex(StemIndex(s, a), Edge(b)), Edge(c));
            t.kvItem == s.kvItem && t.edges == [Str(s.relationType), Str(ToS(a)), b, c]
  {
  }

  /** A new graph has no cached stems, so every lookup builds a fresh stem. */
  lemma FreshGraphBuildsFreshStem(kv: KeyValue, relationType: Name)
    ensures GraphIndex(NewGraph(kv), relationType) == NewStem(kv, relationType)
    ensures GraphIndex(NewGraph(kv), Sym(ToS(relationType))) == GraphIndex(NewGraph(kv), Str(ToS(relationType)))
  {
  }

  /**
   * `Graph.new(kv)[:likes][:friends]` iterates with one request for the item
   * and the path `likes/friends`, and yields the listed items in their own
   * collections, whatever the root's collection.
   */
  lemma TwoHopIteration(kv: KeyValue, outcome: Outcome)
    ensures var t := StemIndex(GraphIndex(NewGraph(kv), Sym("likes")), Sym("friends"));
            Each(t, outcome).0 == GetRelations(kv.collectionName, kv.key, [Str("likes"), Str("friends")])
    ensures var t := StemIndex(GraphIndex(NewGraph(kv), Sym("likes")), Sym("friends"));
            outcome.Ok? ==> forall i :: 0 <= i < |outcome.response.results| ==>
              Each(t, outcome).1.value[i].collectionName == outcome.response.results[i].path.collection
  {
  }

  /** A stem iterates exactly as the one-hop traversal of its type. */
  lemma StemEachIsOneHopTraversal(s: RelationStem, outcome: Outcome)
    ensures StemEach(s, outcome) == Each(TraversalIndex(Traversal(s.kvItem, []), Edge(Str(s.relationType))), outcome)
  {
  }

  /** Relating to an item ignores any explicit key and uses the item's own. */
  lemma ItemTargetIgnoresKey(s: RelationStem, item: KeyValue, k1: Option<Name>, k2: Option<Name>)
    ensures EdgeFrom(s, ItemTarget(item), k1) == EdgeFrom(s, ItemTarget(item), k2)
    ensures EdgeFrom(s, ItemTarget(item), k1).toCollection == Str(item.collectionName)
    ensures EdgeFrom(s, ItemTarget(item), k1).toKey == Some(Str(item.key))
  {
  }

  /** Creating and deleting an edge send the same five arguments. */
  lemma PushAndDeleteAgree(s: RelationStem, target: Target, key: Option<Name>, o1: Outcome, o2: Outcome)
    ensures Push(s, target, key, o1).0.edge == DeleteEdge(s, target, key, o2).0.edge
  {
  }
}

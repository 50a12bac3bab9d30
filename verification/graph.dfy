/**
 * Graph relations of one item: a stem for a relation type sends edge
 * writes and deletes, and indexing a stem or traversal by further relation
 * types builds a longer path without issuing any request. Only iterating a
 * traversal calls the service, once, for the whole path.
 */
module Graphs {
  import opened Wrappers
  import opened Http
  import opened RubyText
  import opened Errors
  import opened Client
  import opened KeyValues

  /** The graph manager of an item, with its table of cached stems. */
  datatype Graph = Graph(kvItem: KeyValue, types: map<string, RelationStem>)

  /** The relations of one type starting at an item. */
  datatype RelationStem = RelationStem(kvItem: KeyValue, relationType: string)

  /** A path of relation types starting at an item. */
  datatype Traversal = Traversal(kvItem: KeyValue, edges: seq<Name>)

  /** What `Traversal#[]` accepts: a name, or an array, flattened into the path. */
  datatype EdgeArg = Edge(name: Name) | Edges(items: seq<EdgeArg>)

  /** The other end of a relation: an item, or a collection given by name. */
  datatype Target = ItemTarget(item: KeyValue) | CollectionTarget(collection: Name)

  /** `Graph.new(kv_item)`: the stem table starts empty and nothing writes to it. */
  function NewGraph(kv: KeyValue): (g: Graph)
    ensures g.kvItem == kv && g.types == map[]
  {
    Graph(kv, map[])
  }

  /** `RelationStem.new(kv_item, type_name)`. */
  function NewStem(kv: KeyValue, typeName: Name): (s: RelationStem)
    ensures s.kvItem == kv && s.relationType == ToS(typeName)
  {
    RelationStem(kv, ToS(typeName))
  }

  /** `graph[relation_type]`: the cached stem, or a new one on the same item. */
  function GraphIndex(g: Graph, relationType: Name): (s: RelationStem)
    ensures ToS(relationType) !in g.types ==>
              s.kvItem == g.kvItem && s.relationType == ToS(relationType)
  {
    if ToS(relationType) in g.types then g.types[ToS(relationType)]
    else NewStem(g.kvItem, relationType)
  }

  /** The names of an argument, nested arrays spliced in order (`Array#flatten`). */
  function Flatten(e: EdgeArg): (r: seq<Name>)
    ensures e.Edge? ==> r == [e.name]
    ensures e.Edges? ==> forall n :: n in r <==> exists i :: 0 <= i < |e.items| && n in Flatten(e.items[i])
    decreases e, 1
  {
    match e
    case Edge(n) => [n]
    case Edges(items) => FlattenAll(items)
  }

  /** The names of each argument in turn: a name is in the result exactly when some argument holds it. */
  function FlattenAll(items: seq<EdgeArg>): (r: seq<Name>)
    ensures forall n :: n in r <==> exists i :: 0 <= i < |items| && n in Flatten(items[i])
    decreases items, 0
  {
    if items == [] then []
    else
      assert forall i :: 1 <= i < |items| ==> items[i] == items[1..][i - 1];
      Flatten(items[0]) + FlattenAll(items[1..])
  }

  /** `stem[type_n]`: a two-hop traversal from the stem's item. */
  function StemIndex(s: RelationStem, typeName: Name): (t: Traversal)
    ensures t.kvItem == s.kvItem
    ensures t.edges == [Str(s.relationType), Str(ToS(typeName))]
  {
    Traversal(s.kvItem, [Str(s.relationType), Str(ToS(typeName))])
  }

  /** `traversal[edge]`: one more hop (or several, for an array), same root. */
  function TraversalIndex(t: Traversal, e: EdgeArg): (r: Traversal)
    ensures r.kvItem == t.kvItem
    ensures |r.edges| == |t.edges| + |Flatten(e)|
    ensures r.edges[..|t.edges|] == t.edges
    ensures r.edges[|t.edges|..] == Flatten(e)
  {
    Traversal(t.kvItem, t.edges + Flatten(e))
  }

  /** `get_collection_and_key`: an item gives its own collection and key. */
  function CollectionAndKey(target: Target, key: Option<Name>): (r: (Name, Option<Name>))
    ensures target.ItemTarget? ==>
              r == (Str(target.item.collectionName), Some(Str(target.item.key)))
    ensures target.CollectionTarget? ==> r == (target.collection, key)
  {
    match target
    case ItemTarget(kv) => (Str(kv.collectionName), Some(Str(kv.key)))
    case CollectionTarget(c) => (c, key)
  }

  /** The arguments of an edge call from the stem's item to a target. */
  function EdgeFrom(s: RelationStem, target: Target, key: Option<Name>): (a: EdgeArgs)
    ensures a.fromCollection == Str(s.kvItem.collectionName)
    ensures a.fromKey == Some(Str(s.kvItem.key))
    ensures a.relation == s.relationType
    ensures (a.toCollection, a.toKey) == CollectionAndKey(target, key)
  {
    var (coll, k) := CollectionAndKey(ItemTarget(s.kvItem), None);
    var (otherCollection, otherKey) := CollectionAndKey(target, key);
    EdgeArgs(coll, k, s.relationType, otherCollection, otherKey)
  }

  /** The response of a call, or the exception it raised. */
  function Completed(outcome: Outcome): (r: Completion<Response>)
    ensures outcome.Ok? <==> r.Returns?
    ensures outcome.Ok? ==> r.value == outcome.response
    ensures outcome.Err? ==> r.exc == outcome.exc
  {
    match outcome
    case Ok(resp) => Returns(resp)
    case Err(e) => Raises(e)
  }

  /** `stem << other`: create the edge; the call's response is returned. */
  function Push(s: RelationStem, target: Target, key: Option<Name>, outcome: Outcome): (r: (Request, Completion<Response>))
    ensures r.0.PutRelation? && r.0.edge == EdgeFrom(s, target, key)
    ensures r.1 == Completed(outcome)
  {
    (PutRelation(EdgeFrom(s, target, key)), Completed(outcome))
  }

  /** `stem.delete(other)`: remove the edge; the call's response is returned. */
  function DeleteEdge(s: RelationStem, target: Target, key: Option<Name>, outcome: Outcome): (r: (Request, Completion<Response>))
    ensures r.0.DeleteRelation? && r.0.edge == EdgeFrom(s, target, key)
    ensures r.1 == Completed(outcome)
  {
    (DeleteRelation(EdgeFrom(s, target, key)), Completed(outcome))
  }

  /** The item one listing entry stands for, in the entry's own collection. */
  function FromListingEntry(l: Listing, requestTime: Time): (kv: KeyValue)
    ensures Valid(kv) && Loaded(kv)
    ensures kv.collectionName == l.path.collection && kv.key == l.path.key
    ensures kv.ref == Some(l.path.ref) && kv.value == Some(l.value)
    ensures kv.lastRequestTime == Some(requestTime)
  {
    New(l.path.collection, FromListing(l), AtTime(requestTime))
  }

  /** The items of a listing, one per entry, in order. */
  function Materialise(results: seq<Listing>, requestTime: Time): (items: seq<KeyValue>)
    ensures |items| == |results|
    ensures forall i :: 0 <= i < |results| ==>
              && items[i].collectionName == results[i].path.collection
              && items[i].key == results[i].path.key
              && items[i].ref == Some(results[i].path.ref)
              && items[i].value == Some(results[i].value)
              && items[i].lastRequestTime == Some(requestTime)
  {
    seq(|results|, i requires 0 <= i < |results| => FromListingEntry(results[i], requestTime))
  }

  /** The single request iterating a traversal issues. */
  function EachRequest(t: Traversal): (r: Request)
    ensures r.GetRelations?
    ensures r.collection == t.kvItem.collectionName && r.key == t.kvItem.key
    ensures r.edges == t.edges
  {
    GetRelations(t.kvItem.collectionName, t.kvItem.key, t.edges)
  }

  /**
   * `traversal.each`: one call for the whole path; on success, one item per
   * listing entry, in order, each bound to the entry's own collection.
   */
  function Each(t: Traversal, outcome: Outcome): (r: (Request, Completion<seq<KeyValue>>))
    ensures r.0 == EachRequest(t)
    ensures outcome.Err? ==> r.1 == Raises(outcome.exc)
    ensures outcome.Ok? ==> r.1.Returns? && |r.1.value| == |outcome.response.results|
    ensures outcome.Ok? ==> forall i :: 0 <= i < |r.1.value| ==>
              var l := outcome.response.results[i];
              && r.1.value[i].collectionName == l.path.collection
              && r.1.value[i].key == l.path.key
              && r.1.value[i].ref == Some(l.path.ref)
              && r.1.value[i].value == Some(l.value)
              && r.1.value[i].lastRequestTime == Some(outcome.response.requestTime)
  {
    match outcome
    case Ok(resp) => (EachRequest(t), Returns(Materialise(resp.results, resp.requestTime)))
    case Err(e) => (EachRequest(t), Raises(e))
  }

  /** `stem.each`: iterate the one-hop traversal of the stem's type. */
  function StemEach(s: RelationStem, outcome: Outcome): (r: (Request, Completion<seq<KeyValue>>))
    ensures r.0 == GetRelations(s.kvItem.collectionName, s.kvItem.key, [Str(s.relationType)])
    ensures outcome.Err? ==> r.1 == Raises(outcome.exc)
    ensures outcome.Ok? ==> r.1.Returns? && |r.1.value| == |outcome.response.results|
    ensures outcome.Ok? ==> forall i :: 0 <= i < |r.1.value| ==>
              var l := outcome.response.results[i];
              && r.1.value[i].collectionName == l.path.collection
              && r.1.value[i].key == l.path.key
              && r.1.value[i].ref == Some(l.path.ref)
              && r.1.value[i].value == Some(l.value)
              && r.1.value[i].lastRequestTime == Some(outcome.response.requestTime)
  {
    Each(Traversal(s.kvItem, [Str(s.relationType)]), outcome)
  }
}

/**
 * The pyramid's data: nodes, tiers, the path dictionary returned for a found actor,
 * and the pure operations on them (new tiers and nodes, appending a node to a tier,
 * walking parent pointers back to the root).
 */
module Tiers {

  /** A discovered actor or film: its id and the index of the node in the previous tier
      that discovered it. The root's parent is 0, the value of Python's False. */
  datatype Node = Node(id: int, parent: nat)

  /** One breadth-first layer: its kind, the cursor of the next node to expand, and its
      append-only list of nodes. */
  datatype Tier = Tier(isActors: bool, pointer: nat, nodes: seq<Node>)

  /** The dictionary built for a path: the film ids (even positions), the actor ids (odd
      positions), the path itself from the actor's film towards Kevin, and the degrees. */
  datatype PathResult = PathResult(actors: seq<int>, films: seq<int>, path: seq<int>, baconDegrees: int)

  /** One entry of the batch of results to cache: the cast's path, its degrees, the actor. */
  datatype CachedResult = CachedResult(result: PathResult, baconDegrees: int, actorId: int)

  /** The persisted search state: visited actors and films, the tiers, and the index of
      the last tier recorded as complete. */
  datatype PyramidState = PyramidState(actors: seq<int>, films: seq<int>, tiers: seq<Tier>, complete: int)

  /** A fresh pyramid: one actor tier holding the root with no parent. */
  function GetTip(baconActorId: int): (r: PyramidState)
    ensures |r.tiers| == 1 && r.tiers[0] == Tier(true, 0, [Node(baconActorId, 0)])
    ensures r.actors == [baconActorId] && r.films == [] && r.complete == -1
  {
    PyramidState([baconActorId], [], [NewTier(true, [NewNode(baconActorId, 0)])], -1)
  }

  /** A new tier of the given kind and nodes starts with its cursor at 0. */
  function NewTier(isActors: bool, nodes: seq<Node>): (r: Tier)
    ensures r.isActors == isActors && r.nodes == nodes && r.pointer == 0
  {
    Tier(isActors, 0, nodes)
  }

  /** A node records an id and the index of its parent in the tier below; the root,
      which has no parent, gets 0 (the source's False). */
  function NewNode(id: int, parent: nat): (r: Node)
    ensures r.id == id && r.parent == parent
  {
    Node(id, parent)
  }

  /** The ids at the even (film) and odd (actor) positions of path, collected left to
      right as the enumerate loop does. */
  function {:induction false} SplitPath(path: seq<int>): (r: (seq<int>, seq<int>))
    ensures |r.0| == (|path| + 1) / 2 && |r.1| == |path| / 2
    ensures forall j | 0 <= j < |r.0| :: r.0[j] == path[2 * j]
    ensures forall j | 0 <= j < |r.1| :: r.1[j] == path[2 * j + 1]
    decreases |path|
  {
    if path == [] then ([], [])
    else
      var (films, actors) := SplitPath(path[..|path| - 1]);
      if (|path| - 1) % 2 == 0 then (films + [path[|path| - 1]], actors)
      else (films, actors + [path[|path| - 1]])
  }

  /** The result dictionary for a path; degrees use Python 2 integer division. */
  function ActorResultDictionary(path: seq<int>): (r: PathResult)
    ensures r.path == path
    ensures r.baconDegrees == (|path| + 1) / 2
  {
    var (films, actors) := SplitPath(path);
    PathResult(actors, films, path, (|path| + 1) / 2)
  }

  /** The result dictionary lists the path's films and actors in order: film j is the
      entry at position 2j and actor j the one at 2j + 1, one film per degree. */
  lemma {:induction false} DictionaryPositions(path: seq<int>)
    ensures var r := ActorResultDictionary(path);
      && |r.films| == r.baconDegrees && |r.actors| == |path| / 2
      && (forall j | 0 <= j < |r.films| :: r.films[j] == path[2 * j])
      && (forall j | 0 <= j < |r.actors| :: r.actors[j] == path[2 * j + 1])
  {
  }

  /** Every node of a tier above the first names an existing node of the tier below. */
  ghost predicate ParentsInRange(tiers: seq<Tier>) {
    forall t, i | 1 <= t < |tiers| && 0 <= i < |tiers[t].nodes| :: tiers[t].nodes[i].parent < |tiers[t - 1].nodes|
  }

  /** The path to a node that would sit in tier tierIndex + 1, found by following parent
      pointers down to tier 1 and appending each ancestor's id to path. */
  function ActorResult(tiers: seq<Tier>, node: Node, tierIndex: nat, path: seq<int>): (r: PathResult)
    requires ParentsInRange(tiers)
    requires tierIndex > 0 ==> tierIndex < |tiers| && node.parent < |tiers[tierIndex].nodes|
    ensures |r.path| == |path| + tierIndex && r.path[..|path|] == path
    ensures r.baconDegrees == (|path| + tierIndex + 1) / 2
    ensures r == ActorResultDictionary(r.path)
    decreases tierIndex
  {
    if tierIndex == 0 then ActorResultDictionary(path)
    else
      var parentNode := tiers[tierIndex].nodes[node.parent];
      ActorResult(tiers, parentNode, tierIndex - 1, path + [parentNode.id])
  }

  /** tiers after appending node to tier t, creating that tier (of kind isActors) when
      it does not exist yet. */
  function WithNode(tiers: seq<Tier>, t: nat, node: Node, isActors: bool): (r: seq<Tier>)
    requires t <= |tiers|
    ensures |r| == if t == |tiers| then |tiers| + 1 else |tiers|
    ensures r[t].nodes == (if t < |tiers| then tiers[t].nodes else []) + [node]
    ensures r[t].isActors == (if t < |tiers| then tiers[t].isActors else isActors)
    ensures r[t].pointer == (if t < |tiers| then tiers[t].pointer else 0)
    ensures forall k | 0 <= k < |tiers| && k != t :: r[k] == tiers[k]
  {
    var grown := if |tiers| <= t then tiers + [NewTier(isActors, [])] else tiers;
    grown[t := grown[t].(nodes := grown[t].nodes + [node])]
  }

  function NodeIds(nodes: seq<Node>): (r: seq<int>)
    ensures |r| == |nodes|
  {
    seq(|nodes|, i requires 0 <= i < |nodes| => nodes[i].id)
  }

  function KindIds(tier: Tier, isActors: bool): seq<int> {
    if tier.isActors == isActors then NodeIds(tier.nodes) else []
  }

  /** The ids of all nodes in the first m tiers that are of the given kind. */
  function IdsUpTo(tiers: seq<Tier>, m: nat, isActors: bool): multiset<int>
    requires m <= |tiers|
  {
    if m == 0 then multiset{} else IdsUpTo(tiers, m - 1, isActors) + multiset(KindIds(tiers[m - 1], isActors))
  }

  /** The ids of all nodes in tiers of the given kind. */
  function Ids(tiers: seq<Tier>, isActors: bool): multiset<int> {
    IdsUpTo(tiers, |tiers|, isActors)
  }

  /** The sum of the cursors of the first m tiers. */
  function PointersUpTo(tiers: seq<Tier>, m: nat): int
    requires m <= |tiers|
  {
    if m == 0 then 0 else PointersUpTo(tiers, m - 1) + tiers[m - 1].pointer
  }

  /** The sum of all cursors: the number of nodes expanded so far. */
  function SumPointers(tiers: seq<Tier>): int {
    PointersUpTo(tiers, |tiers|)
  }

  ghost predicate NoDup(s: seq<int>) {
    forall i, j | 0 <= i < j < |s| :: s[i] != s[j]
  }

  lemma {:induction false} UpToAppend(tiers: seq<Tier>, x: Tier, k: bool, m: nat)
    requires m <= |tiers|
    ensures IdsUpTo(tiers + [x], m, k) == IdsUpTo(tiers, m, k)
    ensures PointersUpTo(tiers + [x], m) == PointersUpTo(tiers, m)
  {
    if m > 0 {
      UpToAppend(tiers, x, k, m - 1);
    }
  }

  lemma {:induction false} IdsAppend(tiers: seq<Tier>, x: Tier, k: bool)
    ensures Ids(tiers + [x], k) == Ids(tiers, k) + multiset(KindIds(x, k))
    ensures SumPointers(tiers + [x]) == SumPointers(tiers) + x.pointer
  {
    UpToAppend(tiers, x, k, |tiers|);
  }

  lemma {:induction false} UpToUnchanged(tiers: seq<Tier>, t: nat, x: Tier, k: bool, m: nat)
    requires t < |tiers| && m <= t
    ensures IdsUpTo(tiers[t := x], m, k) == IdsUpTo(tiers, m, k)
  {
    if m > 0 {
      UpToUnchanged(tiers, t, x, k, m - 1);
    }
  }

  lemma {:induction false} MultisetShuffle(p: multiset<int>, q: multiset<int>, a: multiset<int>, b: multiset<int>, c: multiset<int>)
    requires p + a == q + b
    ensures p + c + a == q + c + b
  {
    forall z ensures (p + c + a)[z] == (q + c + b)[z] {
      assert (p + a)[z] == (q + b)[z];
    }
  }

  lemma {:induction false} UpToUpdate(tiers: seq<Tier>, t: nat, x: Tier, k: bool, m: nat)
    requires t < m <= |tiers|
    ensures IdsUpTo(tiers[t := x], m, k) + multiset(KindIds(tiers[t], k))
         == IdsUpTo(tiers, m, k) + multiset(KindIds(x, k))
  {
    var u := tiers[t := x];
    if m - 1 == t {
      UpToUnchanged(tiers, t, x, k, m - 1);
    } else {
      UpToUpdate(tiers, t, x, k, m - 1);
      assert u[m - 1] == tiers[m - 1];
      MultisetShuffle(IdsUpTo(u, m - 1, k), IdsUpTo(tiers, m - 1, k),
        multiset(KindIds(tiers[t], k)), multiset(KindIds(x, k)), multiset(KindIds(tiers[m - 1], k)));
    }
  }

  lemma {:induction false} PointersUpToUpdate(tiers: seq<Tier>, t: nat, x: Tier, m: nat)
    requires t < |tiers| && m <= |tiers|
    ensures m <= t ==> PointersUpTo(tiers[t := x], m) == PointersUpTo(tiers, m)
    ensures m > t ==> PointersUpTo(tiers[t := x], m) + tiers[t].pointer == PointersUpTo(tiers, m) + x.pointer
  {
    if m > 0 {
      PointersUpToUpdate(tiers, t, x, m - 1);
      assert m - 1 != t ==> tiers[t := x][m - 1] == tiers[m - 1];
    }
  }

  /** Replacing one tier by another changes the ids of a kind by exactly the ids of the
      two tiers. */
  lemma {:induction false} IdsUpdate(tiers: seq<Tier>, t: nat, x: Tier, k: bool)
    requires t < |tiers|
    ensures Ids(tiers[t := x], k) + multiset(KindIds(tiers[t], k)) == Ids(tiers, k) + multiset(KindIds(x, k))
  {
    UpToUpdate(tiers, t, x, k, |tiers|);
  }


  /** Replacing one tier changes the cursor sum by the difference of the two cursors. */
  lemma {:induction false} SumPointersUpdate(tiers: seq<Tier>, t: nat, x: Tier)
    requires t < |tiers|
    ensures SumPointers(tiers[t := x]) + tiers[t].pointer == SumPointers(tiers) + x.pointer
  {
    PointersUpToUpdate(tiers, t, x, |tiers|);
  }

  lemma {:induction false} MultisetCancel(p: multiset<int>, q: multiset<int>, a: multiset<int>, e: multiset<int>)
    requires p + a == q + a + e
    ensures p == q + e
  {
    forall z ensures p[z] == (q + e)[z] {
      assert (p + a)[z] == (q + a + e)[z];
    }
  }

  /** Appending a node adds its id to the ids of the target tier's kind and nothing else. */
  lemma {:induction false} IdsWithNode(tiers: seq<Tier>, t: nat, node: Node, isActors: bool, k: bool)
    requires t <= |tiers|
    ensures Ids(WithNode(tiers, t, node, isActors), k)
         == Ids(tiers, k) + if WithNode(tiers, t, node, isActors)[t].isActors == k then multiset{node.id} else multiset{}
  {
    var grown := if |tiers| <= t then tiers + [NewTier(isActors, [])] else tiers;
    if |tiers| <= t {
      IdsAppend(tiers, NewTier(isActors, []), k);
      assert Ids(grown, k) == Ids(tiers, k);
    }
    var x := grown[t].(nodes := grown[t].nodes + [node]);
    IdsUpdate(grown, t, x, k);
    assert NodeIds(x.nodes) == NodeIds(grown[t].nodes) + [node.id];
    var extra := if x.isActors == k then multiset{node.id} else multiset{};
    assert multiset(KindIds(x, k)) == multiset(KindIds(grown[t], k)) + extra;
    assert WithNode(tiers, t, node, isActors) == grown[t := x];
    MultisetCancel(Ids(grown[t := x], k), Ids(grown, k), multiset(KindIds(grown[t], k)), extra);
  }

  /** Appending a node leaves the cursor sum unchanged. */
  lemma {:induction false} SumPointersWithNode(tiers: seq<Tier>, t: nat, node: Node, isActors: bool)
    requires t <= |tiers|
    ensures SumPointers(WithNode(tiers, t, node, isActors)) == SumPointers(tiers)
  {
    var grown := if |tiers| <= t then tiers + [NewTier(isActors, [])] else tiers;
    if |tiers| <= t {
      IdsAppend(tiers, NewTier(isActors, []), true);
    }
    var x := grown[t].(nodes := grown[t].nodes + [node]);
    SumPointersUpdate(grown, t, x);
    assert WithNode(tiers, t, node, isActors) == grown[t := x];
  }

  /** No cursor runs ahead of all the nodes there are. */
  lemma {:induction false} SumPointersBound(tiers: seq<Tier>)
    requires forall t | 0 <= t < |tiers| :: tiers[t].pointer <= |tiers[t].nodes|
    ensures SumPointers(tiers) <= |Ids(tiers, true)| + |Ids(tiers, false)|
  {
    UpToBound(tiers, |tiers|);
  }

  lemma {:induction false} UpToBound(tiers: seq<Tier>, m: nat)
    requires m <= |tiers|
    requires forall t | 0 <= t < |tiers| :: tiers[t].pointer <= |tiers[t].nodes|
    ensures PointersUpTo(tiers, m) <= |IdsUpTo(tiers, m, true)| + |IdsUpTo(tiers, m, false)|
  {
    if m > 0 {
      UpToBound(tiers, m - 1);
    }
  }

  /** Every node's id is among the ids of its tier's kind. */
  lemma {:induction false} IdsMember(tiers: seq<Tier>, u: nat, i: nat, m: nat)
    requires u < m <= |tiers| && i < |tiers[u].nodes|
    ensures tiers[u].nodes[i].id in IdsUpTo(tiers, m, tiers[u].isActors)
  {
    var k := tiers[u].isActors;
    assert IdsUpTo(tiers, m, k) == IdsUpTo(tiers, m - 1, k) + multiset(KindIds(tiers[m - 1], k));
    if u < m - 1 {
      IdsMember(tiers, u, i, m - 1);
    } else {
      assert KindIds(tiers[u], k)[i] == tiers[u].nodes[i].id;
    }
  }

  /** Every id of a kind is the id of some node in a tier of that kind. */
  lemma {:induction false} IdsWitness(tiers: seq<Tier>, k: bool, x: int, m: nat) returns (u: nat, i: nat)
    requires m <= |tiers| && x in IdsUpTo(tiers, m, k)
    ensures u < m && i < |tiers[u].nodes| && tiers[u].isActors == k && tiers[u].nodes[i].id == x
  {
    if x in IdsUpTo(tiers, m - 1, k) {
      u, i := IdsWitness(tiers, k, x, m - 1);
    } else {
      u := m - 1;
      assert x in KindIds(tiers[u], k);
      i :| 0 <= i < |tiers[u].nodes| && NodeIds(tiers[u].nodes)[i] == x;
    }
  }

  /** A duplicate-free sequence drawn from a finite set is no longer than the set. */
  lemma {:induction false} NoDupBound(s: seq<int>, u: set<int>)
    requires NoDup(s) && forall x | x in s :: x in u
    ensures |s| <= |u|
    decreases |s|
  {
    if s != [] {
      assert forall x | x in s[1..] :: x in u - {s[0]};
      NoDupBound(s[1..], u - {s[0]});
    }
  }
}

/**
 * Invariants of the pyramid as values: its shape, the agreement between the visited
 * tuples and the tier nodes, the graph edges behind every parent link, and the
 * breadth-first layering that a search started from a fresh tip keeps. Each step the
 * search takes is shown here to preserve them.
 */
module Invariants {
  import opened BaconGraph
  import opened Tiers

  /** The visited ids of the kind held by tier t: actors for even t, films for odd t. */
  function Visited(actors: seq<int>, films: seq<int>, t: nat): seq<int> {
    if t % 2 == 0 then actors else films
  }

  /** The parities of t and t + 1, and the actor tier at or below t. */
  lemma {:induction false} Parity(t: nat)
    ensures t % 2 == 0 ==> (t + 1) % 2 == 1 && t - t % 2 == t
    ensures t % 2 == 1 ==> (t + 1) % 2 == 0 && t - t % 2 == t - 1 && (t + 1) - (t + 1) % 2 == t + 1
  {
  }

  /** Tiers alternate actor/film starting with actors, cursors stay within their tier,
      and parent indices point into the tier below. */
  ghost predicate Shaped(tiers: seq<Tier>) {
    && |tiers| >= 1
    && (forall t | 0 <= t < |tiers| :: tiers[t].isActors == (t % 2 == 0))
    && (forall t | 0 <= t < |tiers| :: tiers[t].pointer <= |tiers[t].nodes|)
    && ParentsInRange(tiers)
  }

  /** The visited tuples hold no repeats, hold exactly the ids of the tiers of their kind,
      and name rows of the store. */
  ghost predicate Deduped(g: Graph, tiers: seq<Tier>, actors: seq<int>, films: seq<int>) {
    && NoDup(actors) && NoDup(films)
    && multiset(actors) == Ids(tiers, true)
    && multiset(films) == Ids(tiers, false)
    && (forall x | x in actors :: x in g.actorIds)
    && (forall x | x in films :: x in g.filmIds)
  }

  /** Tier 0 holds only the root, and every other node is a neighbour of its parent. */
  ghost predicate EdgesFollow(g: Graph, tiers: seq<Tier>) {
    && (|tiers| >= 1 ==> forall i | 0 <= i < |tiers[0].nodes| :: tiers[0].nodes[i].id == g.baconActorId)
    && (forall t, i | 1 <= t < |tiers| && 0 <= i < |tiers[t].nodes| && tiers[t].nodes[i].parent < |tiers[t - 1].nodes| ::
          tiers[t].nodes[i].id in Neighbors(g, t - 1, tiers[t - 1].nodes[tiers[t].nodes[i].parent].id))
  }

  /** What every pyramid this class saves or loads satisfies. */
  ghost predicate Valid(g: Graph, tiers: seq<Tier>, actors: seq<int>, films: seq<int>) {
    Shaped(tiers) && Deduped(g, tiers, actors, films) && EdgesFollow(g, tiers)
  }

  /** A stored pyramid the search can resume from. */
  ghost predicate Resumable(g: Graph, s: PyramidState) {
    Valid(g, s.tiers, s.actors, s.films) && s.complete >= -1
  }

  /** Every node behind its tier's cursor has had all its neighbours visited. */
  ghost predicate Expanded(g: Graph, tiers: seq<Tier>, actors: seq<int>, films: seq<int>) {
    forall t, i | 0 <= t < |tiers| && 0 <= i < tiers[t].pointer && i < |tiers[t].nodes| ::
      forall x | x in Neighbors(g, t, tiers[t].nodes[i].id) :: x in Visited(actors, films, t + 1)
  }

  /** The tier is fully expanded. */
  ghost predicate Done(tier: Tier) {
    tier.pointer == |tier.nodes|
  }

  /** The breadth-first layering of a run from a fresh tip, with the search working on
      tier ti: a is the actor tier being expanded (ti itself or the film tier after it).
      Tiers below a are done, at most two tiers lie beyond a, everything within a edges
      of the root is visited, and no node sits in a tier higher than its distance. */
  ghost predicate Layered(g: Graph, tiers: seq<Tier>, actors: seq<int>, films: seq<int>, ti: nat) {
    var a := ti - ti % 2;
    && Expanded(g, tiers, actors, films)
    && (forall t | 0 <= t < a && t < |tiers| :: Done(tiers[t]))
    && |tiers| <= a + 3
    && (ti % 2 == 1 ==> ti < |tiers|)
    && Covered(g, actors, a)
    && (a >= 2 ==> Covered(g, films, a - 1))
    && (forall t, i {:trigger Distant(g, tiers[t].nodes[i].id, t)} | 0 <= t < |tiers| && 0 <= i < |tiers[t].nodes| ::
          Distant(g, tiers[t].nodes[i].id, t))
  }

  /** Everything within d edges of the root is among ids. */
  ghost predicate Covered(g: Graph, ids: seq<int>, d: nat) {
    forall id {:trigger Reach(g, id, d)} :: Reach(g, id, d) ==> id in ids
  }

  /** An entity in tier t is not within t - 2 edges of the root. */
  ghost predicate Distant(g: Graph, id: int, t: nat) {
    t >= 2 ==> !Reach(g, id, t - 2)
  }

  /** On an actor tier, the film tier after it (if any) is done. */
  ghost predicate Settled(tiers: seq<Tier>, ti: nat) {
    ti % 2 == 0 ==> ti + 1 >= |tiers| || Done(tiers[ti + 1])
  }

  /** The fresh tip satisfies every invariant. */
  lemma {:induction false} TipValid(g: Graph)
    requires Closed(g)
    ensures var s := GetTip(g.baconActorId);
      Resumable(g, s) && Layered(g, s.tiers, s.actors, s.films, 0) && Settled(s.tiers, 0)
  {
    var s := GetTip(g.baconActorId);
    assert NodeIds(s.tiers[0].nodes) == [g.baconActorId];
    assert IdsUpTo(s.tiers, 1, true) == IdsUpTo(s.tiers, 0, true) + multiset(KindIds(s.tiers[0], true));
    assert IdsUpTo(s.tiers, 1, false) == IdsUpTo(s.tiers, 0, false) + multiset(KindIds(s.tiers[0], false));
    assert Ids(s.tiers, true) == multiset{g.baconActorId};
    assert Ids(s.tiers, false) == multiset{};
  }

  /** A node's id is among the visited ids of its tier's kind. */
  lemma {:induction false} NodeVisited(g: Graph, tiers: seq<Tier>, actors: seq<int>, films: seq<int>, u: nat, i: nat)
    requires Shaped(tiers) && Deduped(g, tiers, actors, films)
    requires u < |tiers| && i < |tiers[u].nodes|
    ensures tiers[u].nodes[i].id in Visited(actors, films, u)
  {
    IdsMember(tiers, u, i, |tiers|);
    assert tiers[u].nodes[i].id in multiset(Visited(actors, films, u));
  }

  /** A visited id is the id of a node in some tier of its kind. */
  lemma {:induction false} VisitedNode(g: Graph, tiers: seq<Tier>, actors: seq<int>, films: seq<int>, t: nat, x: int) returns (u: nat, i: nat)
    requires Shaped(tiers) && Deduped(g, tiers, actors, films)
    requires x in Visited(actors, films, t)
    ensures u < |tiers| && u % 2 == t % 2 && i < |tiers[u].nodes| && tiers[u].nodes[i].id == x
  {
    assert x in multiset(Visited(actors, films, t));
    u, i := IdsWitness(tiers, t % 2 == 0, x, |tiers|);
  }

  /** The tiers after the node under tier t's cursor discovers id: id becomes the last
      node of tier t + 1 (created if missing), with that cursor as its parent. */
  function Discover(tiers: seq<Tier>, t: nat, id: int): seq<Tier>
    requires t < |tiers|
  {
    WithNode(tiers, t + 1, NewNode(id, tiers[t].pointer), (t + 1) % 2 == 0)
  }

  /** The conditions under which the source discovers id from tier t: a neighbour of
      the node under the cursor that is not yet visited. */
  ghost predicate Discoverable(g: Graph, tiers: seq<Tier>, actors: seq<int>, films: seq<int>, t: nat, id: int) {
    && t < |tiers| && tiers[t].pointer < |tiers[t].nodes|
    && id in Neighbors(g, t, tiers[t].nodes[tiers[t].pointer].id)
    && id !in Visited(actors, films, t + 1)
  }

  /** Discovering keeps the tiers shaped. */
  lemma {:induction false} DiscoverShaped(tiers: seq<Tier>, t: nat, id: int)
    requires Shaped(tiers) && t < |tiers| && tiers[t].pointer < |tiers[t].nodes|
    ensures Shaped(Discover(tiers, t, id))
  {
    var r := Discover(tiers, t, id);
    forall k, i | 1 <= k < |r| && 0 <= i < |r[k].nodes|
      ensures r[k].nodes[i].parent < |r[k - 1].nodes|
    {
      if k == t + 1 && i == |r[k].nodes| - 1 {
        assert r[k].nodes[i] == NewNode(id, tiers[t].pointer);
      } else if k == t + 1 {
        assert r[k].nodes[i] == tiers[k].nodes[i];
      } else if k == t + 2 {
        assert r[k] == tiers[k];
      } else {
        assert r[k] == tiers[k] && r[k - 1] == tiers[k - 1];
      }
    }
  }

  /** Discovering adds id to the ids of tier t + 1's kind and to no other. */
  lemma {:induction false} DiscoverIds(tiers: seq<Tier>, t: nat, id: int)
    requires Shaped(tiers) && t < |tiers|
    ensures Ids(Discover(tiers, t, id), (t + 1) % 2 == 0) == Ids(tiers, (t + 1) % 2 == 0) + multiset{id}
    ensures Ids(Discover(tiers, t, id), t % 2 == 0) == Ids(tiers, t % 2 == 0)
  {
    var node := NewNode(id, tiers[t].pointer);
    var k := (t + 1) % 2 == 0;
    Parity(t);
    assert k == (t % 2 == 1) && (t % 2 == 0) == !k;
    IdsWithNode(tiers, t + 1, node, k, k);
    IdsWithNode(tiers, t + 1, node, k, !k);
    assert WithNode(tiers, t + 1, node, k)[t + 1].isActors == k;
  }

  /** A discovered id names a row of the store. */
  lemma {:induction false} DiscoverInStore(g: Graph, tiers: seq<Tier>, actors: seq<int>, films: seq<int>, t: nat, id: int)
    requires Closed(g) && Shaped(tiers) && Deduped(g, tiers, actors, films)
    requires Discoverable(g, tiers, actors, films, t, id)
    ensures id in (if t % 2 == 0 then g.filmIds else g.actorIds)
  {
    var parent := tiers[t].nodes[tiers[t].pointer].id;
    NodeVisited(g, tiers, actors, films, t, tiers[t].pointer);
    if t % 2 == 0 {
      assert parent in g.actorIds;
    } else {
      assert parent in g.filmIds;
    }
  }

  /** Appending an id that is not there keeps a sequence free of repeats. */
  lemma {:induction false} NoDupAppend(s: seq<int>, id: int)
    requires NoDup(s) && id !in s
    ensures NoDup(s + [id]) && multiset(s + [id]) == multiset(s) + multiset{id}
  {
  }

  /** Adding a film id to the film tiers and the film tuple keeps them in agreement. */
  lemma {:induction false} DedupedAddFilm(g: Graph, tiers: seq<Tier>, r: seq<Tier>, actors: seq<int>, films: seq<int>, id: int)
    requires Deduped(g, tiers, actors, films)
    requires id !in films && id in g.filmIds
    requires Ids(r, true) == Ids(tiers, true) && Ids(r, false) == Ids(tiers, false) + multiset{id}
    ensures Deduped(g, r, actors, films + [id])
  {
    NoDupAppend(films, id);
  }

  /** Adding an actor id to the actor tiers and the actor tuple keeps them in agreement. */
  lemma {:induction false} DedupedAddActor(g: Graph, tiers: seq<Tier>, r: seq<Tier>, actors: seq<int>, films: seq<int>, id: int)
    requires Deduped(g, tiers, actors, films)
    requires id !in actors && id in g.actorIds
    requires Ids(r, true) == Ids(tiers, true) + multiset{id} && Ids(r, false) == Ids(tiers, false)
    ensures Deduped(g, r, actors + [id], films)
  {
    NoDupAppend(actors, id);
  }

  /** Discovering records id both in the tiers and in the visited tuple of its kind. */
  lemma {:induction false} DiscoverDeduped(g: Graph, tiers: seq<Tier>, actors: seq<int>, films: seq<int>, t: nat, id: int,
                        actors': seq<int>, films': seq<int>)
    requires Closed(g) && Shaped(tiers) && Deduped(g, tiers, actors, films)
    requires Discoverable(g, tiers, actors, films, t, id)
    requires actors' == (if t % 2 == 1 then actors + [id] else actors)
    requires films' == (if t % 2 == 0 then films + [id] else films)
    ensures Deduped(g, Discover(tiers, t, id), actors', films')
  {
    DiscoverInStore(g, tiers, actors, films, t, id);
    DiscoverIds(tiers, t, id);
    if t % 2 == 0 {
      DedupedAddFilm(g, tiers, Discover(tiers, t, id), actors, films, id);
    } else {
      DedupedAddActor(g, tiers, Discover(tiers, t, id), actors, films, id);
    }
  }

  /** Discovering keeps every node a neighbour of its parent. */
  lemma {:induction false} DiscoverEdges(g: Graph, tiers: seq<Tier>, actors: seq<int>, films: seq<int>, t: nat, id: int)
    requires Valid(g, tiers, actors, films)
    requires Discoverable(g, tiers, actors, films, t, id)
    ensures EdgesFollow(g, Discover(tiers, t, id))
  {
    var r := Discover(tiers, t, id);
    forall k, i | 1 <= k < |r| && 0 <= i < |r[k].nodes| && r[k].nodes[i].parent < |r[k - 1].nodes|
      ensures r[k].nodes[i].id in Neighbors(g, k - 1, r[k - 1].nodes[r[k].nodes[i].parent].id)
    {
      if k == t + 1 && i == |r[k].nodes| - 1 {
        assert r[k].nodes[i] == NewNode(id, tiers[t].pointer);
      } else if k == t + 1 {
        assert r[k].nodes[i] == tiers[k].nodes[i];
      } else if k == t + 2 {
        assert r[k] == tiers[k];
        assert r[k - 1].nodes[r[k].nodes[i].parent] == tiers[k - 1].nodes[tiers[k].nodes[i].parent];
      } else {
        assert r[k] == tiers[k] && r[k - 1] == tiers[k - 1];
      }
    }
  }

  /** Discovering preserves every invariant a loaded pyramid has. */
  lemma {:induction false} DiscoverValid(g: Graph, tiers: seq<Tier>, actors: seq<int>, films: seq<int>, t: nat, id: int,
                      actors': seq<int>, films': seq<int>)
    requires Closed(g) && Valid(g, tiers, actors, films)
    requires Discoverable(g, tiers, actors, films, t, id)
    requires actors' == (if t % 2 == 1 then actors + [id] else actors)
    requires films' == (if t % 2 == 0 then films + [id] else films)
    ensures Valid(g, Discover(tiers, t, id), actors', films')
    ensures SumPointers(Discover(tiers, t, id)) == SumPointers(tiers)
  {
    DiscoverShaped(tiers, t, id);
    DiscoverDeduped(g, tiers, actors, films, t, id, actors', films');
    DiscoverEdges(g, tiers, actors, films, t, id);
    SumPointersWithNode(tiers, t + 1, NewNode(id, tiers[t].pointer), (t + 1) % 2 == 0);
  }

  /** Discovering keeps every expanded node's neighbours visited: cursors do not move,
      nodes behind them do not change, and the visited tuples only grow. */
  lemma {:induction false} DiscoverExpanded(g: Graph, tiers: seq<Tier>, actors: seq<int>, films: seq<int>, t: nat, id: int,
                         actors': seq<int>, films': seq<int>)
    requires Shaped(tiers) && Expanded(g, tiers, actors, films) && t < |tiers|
    requires actors' == (if t % 2 == 1 then actors + [id] else actors)
    requires films' == (if t % 2 == 0 then films + [id] else films)
    ensures Expanded(g, Discover(tiers, t, id), actors', films')
  {
    var r := Discover(tiers, t, id);
    forall k, i | 0 <= k < |r| && 0 <= i < r[k].pointer && i < |r[k].nodes|
      ensures forall x | x in Neighbors(g, k, r[k].nodes[i].id) :: x in Visited(actors', films', k + 1)
    {
      assert k < |tiers| && i < |tiers[k].nodes| && r[k].nodes[i] == tiers[k].nodes[i];
    }
  }

  /** A node discovered from the tier being worked on is no closer to the root than the
      tier it lands in says. */
  lemma {:induction false} DiscoverFar(g: Graph, tiers: seq<Tier>, actors: seq<int>, films: seq<int>, ti: nat, id: int)
    requires Shaped(tiers) && Layered(g, tiers, actors, films, ti)
    requires Discoverable(g, tiers, actors, films, ti, id)
    ensures forall k, i | 0 <= k < |Discover(tiers, ti, id)| && 0 <= i < |Discover(tiers, ti, id)[k].nodes| ::
      Distant(g, Discover(tiers, ti, id)[k].nodes[i].id, k)
  {
    var r := Discover(tiers, ti, id);
    var a := ti - ti % 2;
    forall k, i | 0 <= k < |r| && 0 <= i < |r[k].nodes|
      ensures Distant(g, r[k].nodes[i].id, k)
    {
      if k == ti + 1 && i == |r[k].nodes| - 1 {
        assert r[k].nodes[i].id == id;
      } else {
        assert r[k].nodes[i] == tiers[k].nodes[i];
      }
    }
  }

  /** Discovering keeps the layering of the tier being worked on. */
  lemma {:induction false} DiscoverLayered(g: Graph, tiers: seq<Tier>, actors: seq<int>, films: seq<int>, ti: nat, id: int,
                        actors': seq<int>, films': seq<int>)
    requires Shaped(tiers) && Layered(g, tiers, actors, films, ti)
    requires Discoverable(g, tiers, actors, films, ti, id)
    requires actors' == (if ti % 2 == 1 then actors + [id] else actors)
    requires films' == (if ti % 2 == 0 then films + [id] else films)
    ensures Layered(g, Discover(tiers, ti, id), actors', films', ti)
  {
    var r := Discover(tiers, ti, id);
    DiscoverExpanded(g, tiers, actors, films, ti, id, actors', films');
    DiscoverFar(g, tiers, actors, films, ti, id);
    forall t | 0 <= t < ti - ti % 2 && t < |r|
      ensures Done(r[t])
    {
      assert r[t] == tiers[t];
    }
  }

  /** The tiers after tier t's cursor moves past its current node. */
  function Advance(tiers: seq<Tier>, t: nat): seq<Tier>
    requires t < |tiers|
  {
    tiers[t := tiers[t].(pointer := tiers[t].pointer + 1)]
  }

  /** Moving a cursor changes no tier's ids. */
  lemma {:induction false} AdvanceIds(tiers: seq<Tier>, t: nat, k: bool)
    requires t < |tiers|
    ensures Ids(Advance(tiers, t), k) == Ids(tiers, k)
  {
    var x := tiers[t].(pointer := tiers[t].pointer + 1);
    IdsUpdate(tiers, t, x, k);
    assert KindIds(x, k) == KindIds(tiers[t], k);
    MultisetCancel(Ids(Advance(tiers, t), k), Ids(tiers, k), multiset(KindIds(x, k)), multiset{});
  }

  /** Moving a cursor over a node keeps a loaded pyramid valid and adds one to the
      cursor sum. */
  lemma {:induction false} AdvanceValid(g: Graph, tiers: seq<Tier>, actors: seq<int>, films: seq<int>, t: nat)
    requires Valid(g, tiers, actors, films)
    requires t < |tiers| && tiers[t].pointer < |tiers[t].nodes|
    ensures Valid(g, Advance(tiers, t), actors, films)
    ensures SumPointers(Advance(tiers, t)) == SumPointers(tiers) + 1
  {
    AdvanceIds(tiers, t, true);
    AdvanceIds(tiers, t, false);
    SumPointersUpdate(tiers, t, tiers[t].(pointer := tiers[t].pointer + 1));
    var r := Advance(tiers, t);
    assert forall k | 0 <= k < |r| :: r[k].nodes == tiers[k].nodes;
  }

  /** Moving the cursor of the tier being worked on past a node whose neighbours are all
      visited keeps the layering. */
  lemma {:induction false} AdvanceLayered(g: Graph, tiers: seq<Tier>, actors: seq<int>, films: seq<int>, ti: nat)
    requires Shaped(tiers) && Layered(g, tiers, actors, films, ti)
    requires ti < |tiers| && tiers[ti].pointer < |tiers[ti].nodes|
    requires forall x | x in Neighbors(g, ti, tiers[ti].nodes[tiers[ti].pointer].id) :: x in Visited(actors, films, ti + 1)
    ensures Layered(g, Advance(tiers, ti), actors, films, ti)
  {
    var r := Advance(tiers, ti);
    assert forall k | 0 <= k < |r| :: r[k].nodes == tiers[k].nodes;
    forall k, i | 0 <= k < |r| && 0 <= i < r[k].pointer && i < |r[k].nodes|
      ensures forall x | x in Neighbors(g, k, r[k].nodes[i].id) :: x in Visited(actors, films, k + 1)
    {
      if k == ti && i == tiers[ti].pointer {
      } else {
        assert i < tiers[k].pointer;
      }
    }
  }

  /** The work moves between an actor tier and the film tier after it. */
  lemma {:induction false} LayeredShift(g: Graph, tiers: seq<Tier>, actors: seq<int>, films: seq<int>, ti: nat, ti': nat)
    requires Layered(g, tiers, actors, films, ti)
    requires ti - ti % 2 == ti' - ti' % 2 && (ti' % 2 == 1 ==> ti' < |tiers|)
    ensures Layered(g, tiers, actors, films, ti')
  {
  }

  /** A visited id whose node sits in a done tier has all its neighbours visited. */
  lemma {:induction false} StepVisited(g: Graph, tiers: seq<Tier>, actors: seq<int>, films: seq<int>, t: nat, p: int, x: int, lim: nat)
    requires Shaped(tiers) && Deduped(g, tiers, actors, films) && Expanded(g, tiers, actors, films)
    requires p in Visited(actors, films, t) && x in Neighbors(g, t, p)
    requires forall u | 0 <= u <= lim && u < |tiers| :: Done(tiers[u])
    requires forall u, i | lim < u < |tiers| && u % 2 == t % 2 && 0 <= i < |tiers[u].nodes| :: tiers[u].nodes[i].id != p
    ensures x in Visited(actors, films, t + 1)
  {
    var u, i := VisitedNode(g, tiers, actors, films, t, p);
    assert u <= lim;
    assert Done(tiers[u]);
    assert Neighbors(g, u, p) == Neighbors(g, t, p);
    assert Visited(actors, films, u + 1) == Visited(actors, films, t + 1);
  }

  /** With actor tier a and its film tier done, every tier up to a + 1 is done. */
  lemma {:induction false} DoneThrough(g: Graph, tiers: seq<Tier>, actors: seq<int>, films: seq<int>, a: nat)
    requires Layered(g, tiers, actors, films, a)
    requires a % 2 == 0 && a < |tiers| && Done(tiers[a]) && Settled(tiers, a)
    ensures forall u | 0 <= u <= a + 1 && u < |tiers| :: Done(tiers[u])
  {
  }

  /** A neighbour of something within s edges of the root is visited, provided every
      tier up to lim is done and no tier of that kind beyond lim holds anything within
      s edges. */
  lemma {:induction false} HopVisited(g: Graph, tiers: seq<Tier>, actors: seq<int>, films: seq<int>, s: nat, id: int, lim: nat)
    requires Shaped(tiers) && Deduped(g, tiers, actors, films) && Expanded(g, tiers, actors, films)
    requires forall u | 0 <= u <= lim && u < |tiers| :: Done(tiers[u])
    requires Covered(g, Visited(actors, films, s), s)
    requires forall u, i | lim < u < |tiers| && u % 2 == s % 2 && 0 <= i < |tiers[u].nodes| :: !Reach(g, tiers[u].nodes[i].id, s)
    requires Hop(g, id, s)
    ensures id in Visited(actors, films, s + 1)
  {
    var p :| Reach(g, p, s) && id in Neighbors(g, s, p);
    StepVisited(g, tiers, actors, films, s, p, id, lim);
  }

  /** Once actor tier a and the film tier after it are done, everything within a + 1
      edges of the root is a visited film. */
  lemma {:induction false} FilmsCovered(g: Graph, tiers: seq<Tier>, actors: seq<int>, films: seq<int>, a: nat)
    requires Shaped(tiers) && Deduped(g, tiers, actors, films) && Expanded(g, tiers, actors, films)
    requires a % 2 == 0 && |tiers| <= a + 3
    requires forall u | 0 <= u <= a + 1 && u < |tiers| :: Done(tiers[u])
    requires Covered(g, actors, a)
    requires a >= 2 ==> Covered(g, films, a - 1)
    requires forall t, i | 0 <= t < |tiers| && 0 <= i < |tiers[t].nodes| :: Distant(g, tiers[t].nodes[i].id, t)
    ensures Covered(g, films, a + 1)
  {
    Parity(a);
    assert Visited(actors, films, a) == actors && Visited(actors, films, a + 1) == films;
    forall u, i | a + 1 < u < |tiers| && u % 2 == a % 2 && 0 <= i < |tiers[u].nodes|
      ensures !Reach(g, tiers[u].nodes[i].id, a)
    {
      assert u - 2 == a && Distant(g, tiers[u].nodes[i].id, u);
    }
    forall id | Reach(g, id, a + 1)
      ensures id in films
    {
      if !(a + 1 >= 2 && Reach(g, id, a - 1)) {
        HopVisited(g, tiers, actors, films, a, id, a + 1);
      }
    }
  }

  /** Once actor tier a and the film tier after it are done, everything within a + 2
      edges of the root is a visited actor. */
  lemma {:induction false} ActorsCovered(g: Graph, tiers: seq<Tier>, actors: seq<int>, films: seq<int>, a: nat)
    requires Shaped(tiers) && Deduped(g, tiers, actors, films) && Expanded(g, tiers, actors, films)
    requires a % 2 == 0 && |tiers| <= a + 3
    requires forall u | 0 <= u <= a + 1 && u < |tiers| :: Done(tiers[u])
    requires Covered(g, actors, a)
    requires Covered(g, films, a + 1)
    ensures Covered(g, actors, a + 2)
  {
    Parity(a);
    Parity(a + 1);
    assert Visited(actors, films, a + 1) == films && Visited(actors, films, a + 2) == actors;
    forall id | Reach(g, id, a + 2)
      ensures id in actors
    {
      if !Reach(g, id, a) {
        HopVisited(g, tiers, actors, films, a + 1, id, a + 1);
      }
    }
  }

  /** Completing actor tier a (with its film tier done) moves the search to actor tier
      a + 2 with the layering intact. */
  lemma {:induction false} LayerAdvance(g: Graph, tiers: seq<Tier>, actors: seq<int>, films: seq<int>, a: nat)
    requires Valid(g, tiers, actors, films) && Layered(g, tiers, actors, films, a)
    requires a % 2 == 0 && a < |tiers| && Done(tiers[a]) && Settled(tiers, a)
    ensures Layered(g, tiers, actors, films, a + 2) && Settled(tiers, a + 2)
  {
    DoneThrough(g, tiers, actors, films, a);
    FilmsCovered(g, tiers, actors, films, a);
    ActorsCovered(g, tiers, actors, films, a);
  }

  /** When every tier is done, everything reachable is visited. */
  lemma {:induction false} Exhaustive(g: Graph, tiers: seq<Tier>, actors: seq<int>, films: seq<int>, id: int, t: nat)
    requires Valid(g, tiers, actors, films) && Expanded(g, tiers, actors, films)
    requires forall u | 0 <= u < |tiers| :: Done(tiers[u])
    requires g.baconActorId in actors
    requires Reach(g, id, t)
    ensures id in Visited(actors, films, t)
    decreases t
  {
    if t == 0 {
    } else if t >= 2 && Reach(g, id, t - 2) {
      Exhaustive(g, tiers, actors, films, id, t - 2);
    } else {
      assert Hop(g, id, t - 1);
      var p :| Reach(g, p, t - 1) && id in Neighbors(g, t - 1, p);
      Exhaustive(g, tiers, actors, films, p, t - 1);
      StepVisited(g, tiers, actors, films, t - 1, p, id, |tiers|);
    }
  }

  /** A fresh-tip search that has moved past its last tier has visited everything
      reachable from the root. */
  lemma {:induction false} LayeredExhausted(g: Graph, tiers: seq<Tier>, actors: seq<int>, films: seq<int>, ti: nat)
    requires Valid(g, tiers, actors, films) && Layered(g, tiers, actors, films, ti)
    requires ti % 2 == 0 && ti >= |tiers|
    ensures forall id, t: nat :: Reach(g, id, t) ==> id in Visited(actors, films, t)
  {
    ReachMono(g, g.baconActorId, 0, ti);
    assert Reach(g, g.baconActorId, ti - ti % 2);
    forall id, t: nat | Reach(g, id, t)
      ensures id in Visited(actors, films, t)
    {
      Exhaustive(g, tiers, actors, films, id, t);
    }
  }

  /** A cast member of the film behind node's parent link is joined to the root by
      the path reconstructed from node. */
  lemma {:induction false} ActorResultWalks(g: Graph, tiers: seq<Tier>, node: Node, t: nat, path: seq<int>, c: int)
    requires Shaped(tiers) && EdgesFollow(g, tiers)
    requires 0 < t < |tiers| && node.parent < |tiers[t].nodes|
    requires c in Neighbors(g, t, tiers[t].nodes[node.parent].id)
    ensures IsWalk(g, c, ActorResult(tiers, node, t, path).path[|path|..])
    decreases t
  {
    var parentNode := tiers[t].nodes[node.parent];
    var rest := ActorResult(tiers, parentNode, t - 1, path + [parentNode.id]).path;
    assert ActorResult(tiers, node, t, path).path == rest;
    assert rest[|path|..] == [parentNode.id] + rest[|path| + 1..];
    if t == 1 {
      assert parentNode.id in Neighbors(g, 0, tiers[0].nodes[parentNode.parent].id);
    } else {
      ActorResultWalks(g, tiers, parentNode, t - 1, path + [parentNode.id], parentNode.id);
    }
  }

  /** No more nodes are ever expanded than the store has rows: the search terminates. */
  lemma {:induction false} PointersBound(g: Graph, tiers: seq<Tier>, actors: seq<int>, films: seq<int>)
    requires Valid(g, tiers, actors, films)
    ensures SumPointers(tiers) <= |g.actorIds| + |g.filmIds|
  {
    SumPointersBound(tiers);
    assert |Ids(tiers, true)| == |actors| && |Ids(tiers, false)| == |films|;
    NoDupBound(actors, g.actorIds);
    NoDupBound(films, g.filmIds);
  }
}

/**
 * The actor/film graph the pyramid explores, standing in for the SQLite store's
 * Casts table: two total lookups (films of an actor, cast of a film) over finite
 * sets of actor and film ids, and the reachability notions the search is judged by.
 */
module BaconGraph {

  /** The store's view of the graph: the root actor (Kevin Bacon), the actor and film
      rows, and the two neighbour queries the pyramid issues. */
  datatype Graph = Graph(
    baconActorId: int,
    actorIds: set<int>,
    filmIds: set<int>,
    filmsByActorId: int -> seq<int>,
    actorsByFilmId: int -> seq<int>)

  /** Every id the two queries return names a row of the matching table, and the
      root is an actor row. This makes the searched component finite. */
  ghost predicate Closed(g: Graph) {
    && g.baconActorId in g.actorIds
    && (forall a | a in g.actorIds :: forall f | f in g.filmsByActorId(a) :: f in g.filmIds)
    && (forall f | f in g.filmIds :: forall a | a in g.actorsByFilmId(f) :: a in g.actorIds)
  }

  /** The neighbours of an entity sitting in tier t: films for an actor tier (even t),
      cast members for a film tier (odd t). */
  function Neighbors(g: Graph, t: nat, id: int): seq<int> {
    if t % 2 == 0 then g.filmsByActorId(id) else g.actorsByFilmId(id)
  }

  /** id is reachable from the root by an alternating actor/film chain of at most t
      edges whose length has t's parity (even t: id is an actor, odd t: a film). */
  ghost predicate Reach(g: Graph, id: int, t: nat)
    decreases t, 1
  {
    if t == 0 then id == g.baconActorId
    else (t >= 2 && Reach(g, id, t - 2)) || Hop(g, id, t - 1)
  }

  /** id is a neighbour of some entity reached within s edges. */
  ghost predicate Hop(g: Graph, id: int, s: nat)
    decreases s + 1, 0
  {
    exists p :: Reach(g, p, s) && id in Neighbors(g, s, p)
  }

  /** path lists, nearest first, the entities linking child (an entity of tier |path|+1)
      back to the root: path[0] has child among its neighbours, and so on down to a
      film of the root. The root and child themselves are not in path. */
  ghost predicate IsWalk(g: Graph, child: int, path: seq<int>)
    decreases |path|
  {
    if path == [] then child in g.filmsByActorId(g.baconActorId)
    else child in Neighbors(g, |path|, path[0]) && IsWalk(g, path[0], path[1..])
  }

  /** One more edge out of a reached entity reaches its neighbour. */
  lemma {:induction false} ReachStep(g: Graph, p: int, t: nat, id: int)
    requires Reach(g, p, t) && id in Neighbors(g, t, p)
    ensures Reach(g, id, t + 1)
  {
    assert Reach(g, p, (t + 1) - 1);
  }

  /** Reachability within t edges implies reachability within any larger bound of the
      same parity. */
  lemma {:induction false} ReachMono(g: Graph, id: int, t: nat, u: nat)
    requires t <= u && (u - t) % 2 == 0
    requires Reach(g, id, t)
    ensures Reach(g, id, u)
    decreases u - t
  {
    if t < u {
      ReachMono(g, id, t, u - 2);
      assert Reach(g, id, u - 2);
    }
  }

  /** A walk of |path| intermediate entities puts child within |path|+1 edges of the root. */
  lemma {:induction false} WalkReaches(g: Graph, child: int, path: seq<int>)
    requires IsWalk(g, child, path)
    ensures Reach(g, child, |path| + 1)
    decreases |path|
  {
    if path == [] {
      ReachStep(g, g.baconActorId, 0, child);
    } else {
      WalkReaches(g, path[0], path[1..]);
      ReachStep(g, path[0], |path|, child);
    }
  }
}

/**
 * The search steps of the pyramid builder as functions of its fields. Each step method
 * of BaconPyramid has its function here (SetTier, AddFilm, ActorTier, ...), and those
 * methods are proved to compute exactly these. The lemmas show that the steps
 * keep the pyramid valid, keep the breadth-first layering of a run from a fresh tip,
 * raise the sum of the cursors by one per step (Cursors shows it is one cursor, by
 * one), and report correct (from a fresh tip, shortest) paths.
 */
module Steps {
  import opened Wrappers
  import opened BaconGraph
  import opened Tiers
  import opened Invariants

  /** What one step of the search yields: keep going, nothing left to search, or the
      path to the actor looked for. */
  datatype Step = Continue | NoResults | Found(result: PathResult)

  /** The settings of one find: the store, the actor looked for, and whether to cache. */
  datatype Query = Query(g: Graph, actorId: int, useCaching: bool)

  /** The fields of the builder that a search changes. pointer, nodeId and tierIsComplete
      describe the tier last set up; paths collects the actor paths to cache. */
  datatype Search = Search(actors: seq<int>, films: seq<int>, tiers: seq<Tier>, complete: int,
                           tierIndex: nat, tierIsComplete: bool, pointer: nat, nodeId: int,
                           actorNodeFound: Option<Node>, paths: seq<CachedResult>)

  /** r is a correct answer for actor id: a walk back to the root through an odd number
      of intermediate entities, given as the result dictionary of that walk (its films,
      its actors and its degrees). */
  ghost predicate Answers(g: Graph, id: int, r: PathResult) {
    && |r.path| % 2 == 1 && r.baconDegrees == (|r.path| + 1) / 2 && IsWalk(g, id, r.path)
    && r == ActorResultDictionary(r.path)
  }

  /** No shorter walk joins actor id to the root than r's. */
  ghost predicate Shortest(g: Graph, id: int, r: PathResult) {
    |r.path| >= 1 && !Reach(g, id, |r.path| - 1)
  }

  /** The root is never a shortest answer: it lies within every even number of edges of
      itself, so no walk back to it is too short to matter. */
  lemma {:induction false} RootNotShortest(g: Graph, r: PathResult)
    ensures Answers(g, g.baconActorId, r) ==> !Shortest(g, g.baconActorId, r)
  {
    if Answers(g, g.baconActorId, r) {
      ReachMono(g, g.baconActorId, 0, |r.path| - 1);
    }
  }

  /** A cached row is a correct answer for its actor, with the degrees copied beside it. */
  ghost predicate EntryAnswers(g: Graph, e: CachedResult) {
    e.baconDegrees == e.result.baconDegrees && Answers(g, e.actorId, e.result)
  }

  /** The actor ids of the cached rows, in order. */
  function CachedIds(es: seq<CachedResult>): (r: seq<int>)
    ensures |r| == |es|
  {
    seq(|es|, i requires 0 <= i < |es| => es[i].actorId)
  }

  // ---------------------------------------------------------------------------------
  // The steps
  // ---------------------------------------------------------------------------------

  /** Reads the cursor of the current tier and the id under it; a tier with nothing left
      under its cursor is done and is recorded as complete. */
  function SetTier(s: Search): Search
    requires s.tierIndex < |s.tiers|
  {
    var tier := s.tiers[s.tierIndex];
    if tier.pointer < |tier.nodes| then
      s.(pointer := tier.pointer, tierIsComplete := false, nodeId := tier.nodes[tier.pointer].id)
    else
      s.(pointer := tier.pointer, complete := s.tierIndex, tierIsComplete := true, nodeId := 0)
  }

  /** Moves the current tier's cursor one past the node it was set up with. */
  function SetPointer(s: Search): Search
    requires s.tierIndex < |s.tiers|
  {
    s.(tiers := s.tiers[s.tierIndex := s.tiers[s.tierIndex].(pointer := s.pointer + 1)])
  }

  /** Nodes with parent parent may join tier t of tiers without breaking its parent
      links. */
  ghost predicate GrowsFrom(tiers: seq<Tier>, t: nat, parent: nat) {
    ParentsInRange(tiers) && 0 < t <= |tiers| && parent < |tiers[t - 1].nodes|
  }

  /** Appending such a node keeps every parent link in range. */
  lemma {:induction false} WithNodeParents(tiers: seq<Tier>, t: nat, node: Node, isActors: bool)
    requires t <= |tiers|
    ensures GrowsFrom(tiers, t, node.parent) ==> ParentsInRange(WithNode(tiers, t, node, isActors))
  {
    var r := WithNode(tiers, t, node, isActors);
    if GrowsFrom(tiers, t, node.parent) {
      forall u, i | 1 <= u < |r| && 0 <= i < |r[u].nodes|
        ensures r[u].nodes[i].parent < |r[u - 1].nodes|
      {
        if u == t {
          if i < |r[u].nodes| - 1 {
            assert r[u].nodes[i] == tiers[u].nodes[i];
          }
        } else {
          assert r[u] == tiers[u];
        }
      }
    }
  }

  /** Visits filmId from the current actor: a film not yet visited joins the film tuple
      and tier newTierIndex, with the cursor as its parent. */
  function AddFilm(s: Search, filmId: int, newTierIndex: nat): Search
    requires newTierIndex <= |s.tiers|
  {
    if filmId in s.films then s
    else s.(films := s.films + [filmId], tiers := WithNode(s.tiers, newTierIndex, NewNode(filmId, s.pointer), false))
  }

  /** AddFilm for each of films in turn. */
  function AddFilms(s: Search, films: seq<int>, newTierIndex: nat): (r: Search)
    requires newTierIndex <= |s.tiers|
    ensures |s.tiers| <= |r.tiers|
    ensures r.actors == s.actors && r.complete == s.complete && r.tierIndex == s.tierIndex
    ensures r.tierIsComplete == s.tierIsComplete && r.pointer == s.pointer && r.nodeId == s.nodeId
    ensures r.actorNodeFound == s.actorNodeFound && r.paths == s.paths
    ensures forall k {:trigger r.tiers[k]} | 0 <= k < |s.tiers| && k != newTierIndex :: r.tiers[k] == s.tiers[k]
    decreases |films|
  {
    if films == [] then s
    else
      var s' := AddFilms(s, films[..|films| - 1], newTierIndex);
      AddFilm(s', films[|films| - 1], newTierIndex)
  }

  /** The row to cache for actorId when caching, and nothing otherwise. */
  function AddActorResult(q: Query, paths: seq<CachedResult>, actorId: int, resultForCast: Option<PathResult>): seq<CachedResult>
    requires q.useCaching ==> resultForCast.Some?
  {
    if q.useCaching then paths + [CachedResult(resultForCast.value, resultForCast.value.baconDegrees, actorId)]
    else paths
  }

  /** Visits cast member actorId of the current film: an actor not yet visited joins the
      actor tuple, tier newTierIndex and (when caching) the cached paths, and is
      remembered when it is the actor looked for. */
  function AddActor(q: Query, s: Search, actorId: int, newTierIndex: nat, resultForCast: Option<PathResult>): Search
    requires newTierIndex <= |s.tiers|
    requires q.useCaching ==> resultForCast.Some?
  {
    if actorId in s.actors then s
    else
      var node := NewNode(actorId, s.pointer);
      s.(actors := s.actors + [actorId],
         tiers := WithNode(s.tiers, newTierIndex, node, true),
         paths := AddActorResult(q, s.paths, actorId, resultForCast),
         actorNodeFound := if actorId == q.actorId then Some(node) else s.actorNodeFound)
  }

  /** AddActor for each of cast in turn. */
  function AddActors(q: Query, s: Search, cast: seq<int>, newTierIndex: nat, resultForCast: Option<PathResult>): (r: Search)
    requires newTierIndex <= |s.tiers|
    requires q.useCaching ==> resultForCast.Some?
    ensures |s.tiers| <= |r.tiers|
    ensures r == s.(actors := r.actors, tiers := r.tiers, paths := r.paths, actorNodeFound := r.actorNodeFound)
    ensures forall k {:trigger r.tiers[k]} | 0 <= k < |s.tiers| && k != newTierIndex :: r.tiers[k] == s.tiers[k]
    ensures r.actorNodeFound != s.actorNodeFound ==> r.actorNodeFound == Some(NewNode(q.actorId, s.pointer))
    ensures GrowsFrom(s.tiers, newTierIndex, s.pointer) ==> ParentsInRange(r.tiers)
    decreases |cast|
  {
    if cast == [] then s
    else
      var s' := AddActors(q, s, cast[..|cast| - 1], newTierIndex, resultForCast);
      WithNodeParents(s'.tiers, newTierIndex, NewNode(cast[|cast| - 1], s.pointer), true);
      AddActor(q, s', cast[|cast| - 1], newTierIndex, resultForCast)
  }

  /** The path shared by every cast member of the film at index nodeParentIndex of film
      tier tierIndex, computed only when caching. */
  function GetResultForCast(q: Query, tiers: seq<Tier>, nodeParentIndex: nat, tierIndex: nat): (r: Option<PathResult>)
    requires ParentsInRange(tiers) && 0 < tierIndex < |tiers| && nodeParentIndex < |tiers[tierIndex].nodes|
  {
    if !q.useCaching then None
    else Some(ActorResult(tiers, NewNode(0, nodeParentIndex), tierIndex, []))
  }

  /** Expands the actor under the cursor of actor tier tierIndex into the film tier after
      it and moves up to that film tier when it exists; when the actor tier is done,
      records it complete and moves on to the next actor tier. */
  function ActorTier(q: Query, s: Search): (Search, Step)
    requires s.tierIndex < |s.tiers|
    decreases |s.tiers| + 2 - s.tierIndex, 1
  {
    var s1 := SetTier(s);
    if s1.tierIsComplete then
      OrFinish(q, s1.(complete := s1.tierIndex, tierIndex := s1.tierIndex + 2))
    else
      var s2 := SetPointer(AddFilms(s1, q.g.filmsByActorId(s1.nodeId), s1.tierIndex + 1));
      (if s2.tierIndex + 1 < |s2.tiers| then s2.(tierIndex := s2.tierIndex + 1) else s2, Continue)
  }

  /** Goes on with the actor tier tierIndex, or ends the search when there is none. */
  function OrFinish(q: Query, s: Search): (Search, Step)
    requires s.tierIndex <= |s.tiers| + 1
    decreases |s.tiers| + 2 - s.tierIndex, 2
  {
    if s.tierIndex >= |s.tiers| then (s.(complete := s.tierIndex), NoResults)
    else ActorTier(q, s)
  }

  /** Expands the film under the cursor of film tier tierIndex into the actor tier after
      it and reports the path when the actor looked for is among its cast; when the film
      tier is done, returns to the actor tier below it. */
  function FilmTier(q: Query, s: Search): (Search, Step)
    requires 0 < s.tierIndex < |s.tiers| && ParentsInRange(s.tiers) && s.actorNodeFound.None?
  {
    var s1 := SetTier(s);
    if s1.tierIsComplete then ActorTier(q, s1.(tierIndex := s1.tierIndex - 1))
    else
      var resultForCast := GetResultForCast(q, s1.tiers, s1.pointer, s1.tierIndex);
      var s2 := AddActors(q, s1, q.g.actorsByFilmId(s1.nodeId), s1.tierIndex + 1, resultForCast);
      var s3 := SetPointer(s2);
      if s3.actorNodeFound.None? then (s3, Continue)
      else (s3, Found(ActorResult(s3.tiers, s3.actorNodeFound.value, s3.tierIndex, [])))
  }

  /** One step of the search, on the tier tierIndex names. */
  function NextOpenTier(q: Query, s: Search): (Search, Step)
    requires Shaped(s.tiers) && s.actorNodeFound.None?
  {
    if s.tierIndex >= |s.tiers| then (s, NoResults)
    else if s.tiers[s.tierIndex].isActors then ActorTier(q, s)
    else FilmTier(q, s)
  }

  // ---------------------------------------------------------------------------------
  // What the steps keep
  // ---------------------------------------------------------------------------------

  /** The extra facts of a search started from a fresh tip: the breadth-first layering,
      and the actor looked for not visited unless found (or the root itself). */
  ghost predicate FromTip(q: Query, s: Search) {
    && Layered(q.g, s.tiers, s.actors, s.films, s.tierIndex)
    && (s.actorNodeFound.None? && q.actorId in s.actors ==> q.actorId == q.g.baconActorId)
  }

  /** The cached rows: every one is a correct answer; from a fresh tip, each row this
      search added (those from cacheFrom on) is a shortest answer, and with caching they
      name every visited actor but the root, in the order visited. */
  ghost predicate CacheOk(q: Query, actors: seq<int>, paths: seq<CachedResult>, fromTip: bool, cacheFrom: nat) {
    && cacheFrom <= |paths|
    && (forall e | e in paths :: EntryAnswers(q.g, e))
    && (fromTip ==> forall e | e in paths[cacheFrom..] :: Shortest(q.g, e.actorId, e.result))
    && (fromTip && q.useCaching ==> actors == [q.g.baconActorId] + CachedIds(paths[cacheFrom..]))
  }

  /** What holds between any two steps of a search: the store is closed, the pyramid
      valid, the cached rows as CacheOk says, and the fresh-tip facts when the search
      started from the tip. cacheFrom counts the rows cached before the search began.
      Each part is compared with true so that, where Ok is to be proved, the verifier
      checks each part whole instead of splitting it into its many conjuncts. */
  ghost predicate Ok(q: Query, s: Search, fromTip: bool, cacheFrom: nat) {
    && Closed(q.g) == true
    && Valid(q.g, s.tiers, s.actors, s.films) == true
    && s.complete >= -1
    && CacheOk(q, s.actors, s.paths, fromTip, cacheFrom) == true
    && (fromTip ==> FromTip(q, s) == true)
  }

  /** Between steps, with nothing found and (on an actor tier) the film tier after it
      done. */
  ghost predicate Ready(q: Query, s: Search, fromTip: bool, cacheFrom: nat) {
    Ok(q, s, fromTip, cacheFrom) == true && s.actorNodeFound.None? && (fromTip ==> Settled(s.tiers, s.tierIndex))
  }

  /** Everything reachable from the root is visited. */
  ghost predicate Exhausted(g: Graph, s: Search) {
    forall id, t: nat :: Reach(g, id, t) ==> id in Visited(s.actors, s.films, t)
  }

  /** What a step from s to r yielding step guarantees: the invariant holds, cached rows
      are only added, a step that goes on or finds raises the sum of the cursors by one
      (which cursor moves is stated in Cursors), a step that does not find leaves the
      search Ready, a search that ends has (from the tip) visited everything reachable,
      and a found path is a correct (from the tip, shortest) answer for the actor looked
      for. */
  ghost predicate Outcome(q: Query, s: Search, r: Search, step: Step, fromTip: bool, cacheFrom: nat) {
    && Ok(q, r, fromTip, cacheFrom)
    && s.paths <= r.paths
    && (!step.NoResults? ==> SumPointers(r.tiers) == SumPointers(s.tiers) + 1)
    && (!step.Found? ==> r.actorNodeFound.None? && (fromTip ==> Settled(r.tiers, r.tierIndex)))
    && (step.NoResults? && fromTip ==> Exhausted(q.g, r))
    && (step.Found? ==>
          && q.actorId in r.actors
          && Answers(q.g, q.actorId, step.result)
          && (fromTip ==> Shortest(q.g, q.actorId, step.result)))
  }

}

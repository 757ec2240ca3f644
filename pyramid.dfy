/**
 * The pyramid builder: a resumable breadth-first search outward from Kevin Bacon over
 * alternating tiers of actors and films. Each call of GetNextOpenTier expands one node
 * (one actor's films or one film's cast) into the next tier, skipping ids already
 * visited; a cast member found on the way is the answer, and the path to it is read
 * back along parent links.
 *
 * Every step method is proved to compute the step function of the same name in Steps on
 * the builder's fields (Snap); what those steps keep is proved in Progress, and the
 * search loop and Find state the resulting guarantees outright.
 */
module Pyramid {
  import opened Wrappers
  import opened BaconGraph
  import opened Tiers
  import opened Invariants
  import opened Steps
  import opened Progress

  /** What the search hands the store to keep when caching: the pyramid and every
      actor path found so far. */
  datatype Saved = Saved(pyramid: PyramidState, results: seq<CachedResult>)

  class BaconPyramid {
    /** The store's graph. */
    const g: Graph
    /** The actor id looked for. */
    var actorId: int
    /** Whether to keep the pyramid and the actor paths found. */
    var useCaching: bool
    /** The pyramid's 'complete' entry: the last tier index recorded as done. */
    var complete: int
    /** The visited actor ids, in the order visited. */
    var actors: seq<int>
    /** The visited film ids, in the order visited. */
    var films: seq<int>
    var tiers: seq<Tier>
    var tierIndex: nat
    var tierIsComplete: bool
    /** The cursor of the tier last set up. */
    var pointer: nat
    /** The id under that cursor, or 0 when the tier is done. */
    var nodeId: int
    var actorNodeFound: Option<Node>
    /** The actor paths to cache; never cleared. */
    var paths: seq<CachedResult>
    /** Whether this run started from a fresh tip rather than a stored pyramid. */
    ghost var fromTip: bool
    /** How many rows of paths predate this run. */
    ghost var cacheFrom: nat

    /** The fields a search changes, as one value. */
    function Snap(): Search
      reads this`actors, this`films, this`tiers, this`complete, this`tierIndex, this`tierIsComplete,
            this`pointer, this`nodeId, this`actorNodeFound, this`paths
    {
      Search(actors, films, tiers, complete, tierIndex, tierIsComplete, pointer, nodeId, actorNodeFound, paths)
    }

    /** The settings of the current search. */
    function Q(): Query
      reads this`actorId, this`useCaching
    {
      Query(g, actorId, useCaching)
    }

    /** The pyramid as it would be saved now. */
    function State(): PyramidState
      reads this`actors, this`films, this`tiers, this`complete
    {
      PyramidState(actors, films, tiers, complete)
    }

    /** Ready for a search: the store is well formed, no actor has been found yet, and
        every cached row is a correct answer. */
    ghost predicate Idle()
      reads this
    {
      Closed(g) && actorNodeFound.None? && forall e | e in paths :: EntryAnswers(g, e)
    }

    constructor(g: Graph)
      requires Closed(g)
      ensures this.g == g && Idle() && paths == []
    {
      this.g := g;
      actorId := 0;
      useCaching := false;
      complete := -1;
      actors := [];
      films := [];
      tiers := [];
      tierIndex := 0;
      tierIsComplete := false;
      pointer := 0;
      nodeId := 0;
      actorNodeFound := None;
      paths := [];
      fromTip := false;
      cacheFrom := 0;
    }

    /** Looks for target, starting from the stored pyramid if there is one and from a
        fresh tip otherwise; returns the path found and what to store. */
    method Find(target: int, caching: bool, stored: Option<PyramidState>) returns (result: Option<PathResult>, saved: Option<Saved>)
      modifies this
      requires Idle()
      requires stored.Some? ==> Resumable(g, stored.value)
      ensures actorId == target && useCaching == caching
      ensures result.Some? ==> target in g.actorIds && Answers(g, target, result.value)
      ensures result.Some? ==> result.value == ActorResultDictionary(result.value.path)
      ensures stored.None? && result.Some? ==> Shortest(g, target, result.value)
      ensures stored.None? && target == g.baconActorId ==> result.None?
      ensures stored.None? && result.None? && target != g.baconActorId ==>
        forall t: nat :: t % 2 == 0 ==> !Reach(g, target, t)
      ensures saved.Some? <==> caching
      ensures saved.Some? ==> saved.value == Saved(State(), paths)
      ensures Resumable(g, State()) && forall e | e in paths :: EntryAnswers(g, e)
      ensures old(paths) <= paths
      ensures stored.None? ==> forall e | e in paths[old(|paths|)..] :: Shortest(g, e.actorId, e.result)
      ensures stored.None? && caching && result.None? ==>
        forall id, t: nat :: t % 2 == 0 && Reach(g, id, t) ==>
          id == g.baconActorId || id in CachedIds(paths[old(|paths|)..])
    {
      actorId := target;
      useCaching := caching;
      var pyramid := if stored.Some? then stored.value else GetTip(g.baconActorId);
      actors := pyramid.actors;
      films := pyramid.films;
      tiers := pyramid.tiers;
      complete := pyramid.complete;
      tierIndex := complete + 1;
      fromTip := stored.None?;
      cacheFrom := |paths|;
      StartReady(Q(), pyramid, Snap(), fromTip);
      result, saved := FindActorPyramid();
      if result.Some? {
        RootNotShortest(g, result.value);
      }
    }

    /** Steps the search until it finds the actor or runs out of tiers, then hands over
        the state to store. */
    method FindActorPyramid() returns (result: Option<PathResult>, saved: Option<Saved>)
      modifies this`tiers, this`actors, this`films, this`tierIndex, this`tierIsComplete, this`pointer,
               this`nodeId, this`complete, this`paths, this`actorNodeFound
      requires Ready(Q(), Snap(), fromTip, cacheFrom)
      ensures Resumable(g, State()) && CacheOk(Q(), actors, paths, fromTip, cacheFrom) && old(paths) <= paths
      ensures result.Some? ==> actorId in actors && Answers(g, actorId, result.value)
      ensures result.Some? ==> result.value == ActorResultDictionary(result.value.path)
      ensures result.Some? && fromTip ==> Shortest(g, actorId, result.value)
      ensures result.None? && fromTip && actorId != g.baconActorId ==>
        forall t: nat :: t % 2 == 0 ==> !Reach(g, actorId, t)
      ensures result.None? && fromTip && useCaching ==>
        forall id, t: nat :: t % 2 == 0 && Reach(g, id, t) ==>
          id == g.baconActorId || id in CachedIds(paths[cacheFrom..])
      ensures saved == if useCaching then Some(Saved(State(), paths)) else None
    {
      ghost var q := Q();
      var step := StepUntilDone();
      if step.NoResults? && fromTip {
        Unfound(q, Snap(), cacheFrom);
      }
      saved := UpdatePyramidAndActorPaths();
      result := if step.Found? then Some(step.result) else None;
    }

    /** The loop of FindActorPyramid: calls GetNextOpenTier until it stops going on. */
    method StepUntilDone() returns (step: Step)
      modifies this`tiers, this`actors, this`films, this`tierIndex, this`tierIsComplete, this`pointer,
               this`nodeId, this`complete, this`paths, this`actorNodeFound
      requires Ready(Q(), Snap(), fromTip, cacheFrom)
      ensures !step.Continue? && Running(Q(), Snap(), step, fromTip, cacheFrom) && old(paths) <= paths
    {
      ghost var q := Q();
      ghost var bound := |g.actorIds| + |g.filmIds|;
      PointersBound(g, tiers, actors, films);
      step := Continue;
      while step.Continue?
        invariant Running(q, Snap(), step, fromTip, cacheFrom) && old(paths) <= paths
        invariant SumPointers(tiers) <= bound
        decreases if step.Continue? then bound + 1 - SumPointers(tiers) else 0
      {
        ghost var s := Snap();
        step := GetNextOpenTier();
        NextOpenTierRuns(q, s, Snap(), step, fromTip, cacheFrom);
      }
    }

    /** Expands one node of the next tier that is not done, or reports that there is
        none. */
    method GetNextOpenTier() returns (step: Step)
      modifies this`tiers, this`actors, this`films, this`tierIndex, this`tierIsComplete, this`pointer,
               this`nodeId, this`complete, this`paths, this`actorNodeFound
      requires Shaped(tiers) && actorNodeFound.None?
      ensures (Snap(), step) == NextOpenTier(Q(), old(Snap()))
    {
      if tierIndex >= |tiers| {
        return NoResults;
      }
      if tiers[tierIndex].isActors {
        step := UpdateActorTier();
      } else {
        step := UpdateFilmTier();
      }
    }

    /** Expands the actor under the cursor of the current actor tier into the film tier
        after it; when the actor tier is done, moves on to the next actor tier. */
    method UpdateActorTier() returns (step: Step)
      modifies this`tiers, this`actors, this`films, this`tierIndex, this`tierIsComplete, this`pointer,
               this`nodeId, this`complete, this`paths, this`actorNodeFound
      requires tierIndex < |tiers|
      ensures (Snap(), step) == ActorTier(Q(), old(Snap()))
      decreases |tiers| + 2 - tierIndex, 1
    {
      ghost var s0 := Snap();
      SetTier();
      ghost var s1 := Snap();
      if tierIsComplete {
        ActorTierCompletes(Q(), s0);
        UpdateTiersComplete();
        tierIndex := tierIndex + 2;
        step := UpdateActorTierOrFinish();
        return;
      }
      ActorTierExpands(Q(), s0);
      AddFilmsToTier(g.filmsByActorId(nodeId), tierIndex + 1);
      SetPointer();
      if tierIndex + 1 < |tiers| {
        tierIndex := tierIndex + 1;
      }
      step := Continue;
    }

    /** Records the current tier index as the pyramid's last complete tier. */
    method UpdateTiersComplete()
      modifies this`complete
      ensures complete == tierIndex
    {
      complete := tierIndex;
    }

    /** Reads the cursor of the current tier and the id under it; a tier with nothing
        left under its cursor is done and is recorded as complete. */
    method SetTier()
      modifies this`pointer, this`tierIsComplete, this`nodeId, this`complete
      requires tierIndex < |tiers|
      ensures Snap() == Steps.SetTier(old(Snap()))
    {
      pointer := tiers[tierIndex].pointer;
      if pointer < |tiers[tierIndex].nodes| {
        tierIsComplete := false;
        nodeId := tiers[tierIndex].nodes[pointer].id;
      } else {
        UpdateTiersComplete();
        tierIsComplete := true;
        nodeId := 0;
      }
    }

    /** Goes on with the actor tier tierIndex, or ends the search when there is none. */
    method UpdateActorTierOrFinish() returns (step: Step)
      modifies this`tiers, this`actors, this`films, this`tierIndex, this`tierIsComplete, this`pointer,
               this`nodeId, this`complete, this`paths, this`actorNodeFound
      requires tierIndex <= |tiers| + 1
      ensures (Snap(), step) == OrFinish(Q(), old(Snap()))
      decreases |tiers| + 2 - tierIndex, 2
    {
      if tierIndex >= |tiers| {
        UpdateTiersComplete();
        return NoResults;
      }
      step := UpdateActorTier();
    }

    /** The loop of UpdateActorTier over the films of the actor under the cursor. */
    method AddFilmsToTier(filmsOfActor: seq<int>, newTierIndex: nat)
      modifies this`films, this`tiers
      requires newTierIndex <= |tiers|
      ensures Snap() == AddFilms(old(Snap()), filmsOfActor, newTierIndex)
    {
      ghost var s1 := Snap();
      for k := 0 to |filmsOfActor|
        invariant Snap() == AddFilms(s1, filmsOfActor[..k], newTierIndex)
      {
        assert filmsOfActor[..k + 1][..k] == filmsOfActor[..k];
        AddFilmToTier(filmsOfActor[k], newTierIndex);
      }
      assert filmsOfActor[..|filmsOfActor|] == filmsOfActor;
    }

    /** Visits filmId from the current actor: a film not yet visited joins the film
        tuple and tier newTierIndex, with the cursor as its parent. */
    method AddFilmToTier(filmId: int, newTierIndex: nat)
      modifies this`films, this`tiers
      requires newTierIndex <= |tiers|
      ensures Snap() == AddFilm(old(Snap()), filmId, newTierIndex)
    {
      if filmId !in films {
        films := films + [filmId];
        var node := AddNodeToTier(newTierIndex, filmId, pointer, false);
      }
    }

    /** Appends a node for id to tier newTierIndex, creating that tier first when it
        does not exist yet. */
    method AddNodeToTier(newTierIndex: nat, id: int, nodeParentIndex: nat, isActors: bool) returns (node: Node)
      modifies this`tiers
      requires newTierIndex <= |tiers|
      ensures node == Node(id, nodeParentIndex)
      ensures tiers == WithNode(old(tiers), newTierIndex, node, isActors)
    {
      if |tiers| <= newTierIndex {
        tiers := tiers + [NewTier(isActors, [])];
      }
      node := NewNode(id, nodeParentIndex);
      tiers := tiers[newTierIndex := tiers[newTierIndex].(nodes := tiers[newTierIndex].nodes + [node])];
    }

    /** Moves the current tier's cursor one past the node it was set up with. */
    method SetPointer()
      modifies this`tiers
      requires tierIndex < |tiers|
      ensures Snap() == Steps.SetPointer(old(Snap()))
    {
      tiers := tiers[tierIndex := tiers[tierIndex].(pointer := pointer + 1)];
    }

    /** Expands the film under the cursor of the current film tier into the actor tier
        after it, and reports the path when the looked-for actor is among its cast.
        When the film tier is done, goes back to the actor tier below it. */
    method UpdateFilmTier() returns (step: Step)
      modifies this`tiers, this`actors, this`films, this`tierIndex, this`tierIsComplete, this`pointer,
               this`nodeId, this`complete, this`paths, this`actorNodeFound
      requires 0 < tierIndex < |tiers| && ParentsInRange(tiers) && actorNodeFound.None?
      ensures (Snap(), step) == FilmTier(Q(), old(Snap()))
    {
      ghost var s0 := Snap();
      SetTier();
      ghost var s1 := Snap();
      if tierIsComplete {
        FilmTierCompletes(Q(), s0);
        tierIndex := tierIndex - 1;
        step := UpdateActorTier();
        return;
      }
      FilmTierExpands(Q(), s0);
      var resultForCast := GetResultForCast(pointer, tierIndex);
      AddCastToTier(g.actorsByFilmId(nodeId), tierIndex + 1, resultForCast);
      SetPointer();
      if actorNodeFound.None? {
        return Continue;
      }
      step := Found(ActorResult(tiers, actorNodeFound.value, tierIndex, []));
    }

    /** The path shared by every cast member of the film at index nodeParentIndex of
        film tier tierIndex, computed only when caching. */
    method GetResultForCast(nodeParentIndex: nat, tierIndex: nat) returns (r: Option<PathResult>)
      requires ParentsInRange(tiers) && 0 < tierIndex < |tiers| && nodeParentIndex < |tiers[tierIndex].nodes|
      ensures r == Steps.GetResultForCast(Q(), tiers, nodeParentIndex, tierIndex)
      ensures r.Some? <==> useCaching
      ensures r.Some? ==> |r.value.path| == tierIndex && r.value.baconDegrees == (tierIndex + 1) / 2
    {
      if !useCaching {
        return None;
      }
      var startingNode := NewNode(0, nodeParentIndex);
      r := Some(ActorResult(tiers, startingNode, tierIndex, []));
    }

    /** The loop of UpdateFilmTier over the cast of the film under the cursor. */
    method AddCastToTier(cast: seq<int>, newTierIndex: nat, resultForCast: Option<PathResult>)
      modifies this`actors, this`tiers, this`paths, this`actorNodeFound
      requires newTierIndex <= |tiers|
      requires useCaching ==> resultForCast.Some?
      ensures Snap() == AddActors(Q(), old(Snap()), cast, newTierIndex, resultForCast)
    {
      ghost var s1 := Snap();
      for k := 0 to |cast|
        invariant Snap() == AddActors(Q(), s1, cast[..k], newTierIndex, resultForCast)
      {
        assert cast[..k + 1][..k] == cast[..k];
        AddActorToTier(cast[k], newTierIndex, resultForCast);
      }
      assert cast[..|cast|] == cast;
    }

    /** Visits cast member id of the current film: an actor not yet visited joins the
        actor tuple, tier newTierIndex and (when caching) the cached paths, and is
        remembered when it is the actor looked for. */
    method AddActorToTier(id: int, newTierIndex: nat, resultForCast: Option<PathResult>)
      modifies this`actors, this`tiers, this`paths, this`actorNodeFound
      requires newTierIndex <= |tiers|
      requires useCaching ==> resultForCast.Some?
      ensures Snap() == AddActor(Q(), old(Snap()), id, newTierIndex, resultForCast)
    {
      if id !in actors {
        actors := actors + [id];
        var node := AddNodeToTier(newTierIndex, id, pointer, true);
        AddActorResult(id, resultForCast);
        if id == actorId {
          actorNodeFound := Some(node);
        }
      }
    }

    /** When caching, records the path for actor id. */
    method AddActorResult(id: int, resultForCast: Option<PathResult>)
      modifies this`paths
      requires useCaching ==> resultForCast.Some?
      ensures paths == Steps.AddActorResult(Q(), old(paths), id, resultForCast)
    {
      if useCaching {
        var baconDegrees := resultForCast.value.baconDegrees;
        paths := paths + [CachedResult(resultForCast.value, baconDegrees, id)];
      }
    }

    /** When caching, hands over the pyramid and the cached paths to store. */
    method UpdatePyramidAndActorPaths() returns (saved: Option<Saved>)
      ensures saved == if useCaching then Some(Saved(State(), paths)) else None
    {
      saved := if useCaching then Some(Saved(PyramidState(actors, films, tiers, complete), paths)) else None;
    }

    /** Searches the whole graph from the root with caching on, by looking for the id 0
        that no actor row has. */
    method FindAll(stored: Option<PyramidState>) returns (saved: Option<Saved>)
      modifies this
      requires Idle()
      requires stored.Some? ==> Resumable(g, stored.value)
      ensures saved.Some? && saved.value.results == paths && old(paths) <= paths
      ensures Resumable(g, saved.value.pyramid) && forall e | e in saved.value.results :: EntryAnswers(g, e)
      ensures stored.None? && 0 !in g.actorIds ==>
        forall id, t: nat :: t % 2 == 0 && Reach(g, id, t) ==>
          id == g.baconActorId || id in CachedIds(paths[old(|paths|)..])
    {
      var result;
      result, saved := Find(0, true, stored);
    }
  }
}

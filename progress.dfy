/**
 * What the search steps keep: each step of Steps preserves the invariant Ok, and the
 * step of the whole search loop yields the Outcome it promises.
 */
module Progress {
  import opened Wrappers
  import opened BaconGraph
  import opened Tiers
  import opened Invariants
  import opened Steps

  /** Setting the cursor of a tier that is not done changes no part of the invariant. */
  lemma {:induction false} SetTierKeeps(q: Query, s: Search, fromTip: bool, cacheFrom: nat)
    requires Ok(q, s, fromTip, cacheFrom)
    requires s.tierIndex < |s.tiers| && s.tiers[s.tierIndex].pointer < |s.tiers[s.tierIndex].nodes|
    ensures SetTier(s) == s.(pointer := s.tiers[s.tierIndex].pointer, tierIsComplete := false,
                             nodeId := s.tiers[s.tierIndex].nodes[s.tiers[s.tierIndex].pointer].id)
    ensures Ok(q, SetTier(s), fromTip, cacheFrom)
  {
  }

  /** Shaped and layered from a fresh tip, as one fact. */
  ghost predicate ShapedLayered(g: Graph, tiers: seq<Tier>, actors: seq<int>, films: seq<int>, ti: nat) {
    Shaped(tiers) && Layered(g, tiers, actors, films, ti)
  }

  /** What adding a cast leaves alone. */
  lemma {:induction false} AddActorsFrame(q: Query, s: Search, cast: seq<int>, newTierIndex: nat, resultForCast: Option<PathResult>)
    requires newTierIndex <= |s.tiers|
    requires q.useCaching ==> resultForCast.Some?
    ensures var r := AddActors(q, s, cast, newTierIndex, resultForCast);
      && r.tierIndex == s.tierIndex && r.pointer == s.pointer && r.films == s.films
      && (forall k {:trigger r.tiers[k]} | 0 <= k < |s.tiers| && k != newTierIndex :: r.tiers[k] == s.tiers[k])
  {
  }

  /** What adding films leaves alone. */
  lemma {:induction false} AddFilmsFrame(s: Search, films: seq<int>, newTierIndex: nat)
    requires newTierIndex <= |s.tiers|
    ensures var r := AddFilms(s, films, newTierIndex);
      && r.tierIndex == s.tierIndex && r.pointer == s.pointer && r.actors == s.actors
      && r.paths == s.paths && r.actorNodeFound == s.actorNodeFound
      && (forall k {:trigger r.tiers[k]} | 0 <= k < |s.tiers| && k != newTierIndex :: r.tiers[k] == s.tiers[k])
  {
  }

  /** Adding films is adding all but the last, then the last. */
  lemma {:induction false} AddFilmsLast(s: Search, films: seq<int>, newTierIndex: nat)
    requires newTierIndex <= |s.tiers| && films != []
    ensures AddFilms(s, films, newTierIndex)
         == AddFilm(AddFilms(s, films[..|films| - 1], newTierIndex), films[|films| - 1], newTierIndex)
  {
  }

  /** Adding the films of the actor under the cursor of actor tier ti keeps the
      invariant and leaves that tier and the cursor sum alone. */
  lemma {:induction false} AddFilmsKeeps(q: Query, s: Search, films: seq<int>, fromTip: bool, cacheFrom: nat)
    requires Ok(q, s, fromTip, cacheFrom)
    requires s.tierIndex < |s.tiers| && s.tierIndex % 2 == 0
    requires s.pointer == s.tiers[s.tierIndex].pointer < |s.tiers[s.tierIndex].nodes|
    requires forall x | x in films :: x in Neighbors(q.g, s.tierIndex, s.tiers[s.tierIndex].nodes[s.pointer].id)
    ensures var r := AddFilms(s, films, s.tierIndex + 1);
      && Ok(q, r, fromTip, cacheFrom)
      && r.tiers[s.tierIndex] == s.tiers[s.tierIndex]
      && SumPointers(r.tiers) == SumPointers(s.tiers)
  {
    AddFilmsFrame(s, films, s.tierIndex + 1);
    AddFilmsValid(q, s, films);
    if fromTip {
      AddFilmsLayered(q, s, films);
    }
  }

  /** The tiers of s are valid and their cursors sum to sum. */
  ghost predicate ValidSum(g: Graph, s: Search, sum: int) {
    Valid(g, s.tiers, s.actors, s.films) && SumPointers(s.tiers) == sum
  }

  /** The tiers stay valid and the cursor sum unchanged as films are added. */
  lemma {:induction false} AddFilmsValid(q: Query, s: Search, films: seq<int>)
    requires Closed(q.g) && Valid(q.g, s.tiers, s.actors, s.films)
    requires s.tierIndex < |s.tiers| && s.tierIndex % 2 == 0
    requires s.pointer == s.tiers[s.tierIndex].pointer < |s.tiers[s.tierIndex].nodes|
    requires forall x | x in films :: x in Neighbors(q.g, s.tierIndex, s.tiers[s.tierIndex].nodes[s.pointer].id)
    ensures ValidSum(q.g, AddFilms(s, films, s.tierIndex + 1), SumPointers(s.tiers))
    decreases |films|
  {
    if films != [] {
      var init := films[..|films| - 1];
      assert forall y | y in init :: y in films;
      var x := films[|films| - 1];
      assert x in films;
      AddFilmsValid(q, s, init);
      AddLastFilmValid(q, s, films);
    }
  }

  /** The last of films keeps the tiers valid and the cursor sum unchanged, given that
      the films before it did. */
  lemma {:induction false} AddLastFilmValid(q: Query, s: Search, films: seq<int>)
    requires films != [] && Closed(q.g)
    requires s.tierIndex < |s.tiers| && s.tierIndex % 2 == 0
    requires s.pointer == s.tiers[s.tierIndex].pointer < |s.tiers[s.tierIndex].nodes|
    requires films[|films| - 1] in Neighbors(q.g, s.tierIndex, s.tiers[s.tierIndex].nodes[s.pointer].id)
    requires ValidSum(q.g, AddFilms(s, films[..|films| - 1], s.tierIndex + 1), SumPointers(s.tiers))
    ensures ValidSum(q.g, AddFilms(s, films, s.tierIndex + 1), SumPointers(s.tiers))
  {
    var init, x := films[..|films| - 1], films[|films| - 1];
    var m := AddFilms(s, init, s.tierIndex + 1);
    AddFilmsFrame(s, init, s.tierIndex + 1);
    AddFilmValid(q, m, x, s.tierIndex + 1);
    AddFilmsLast(s, films, s.tierIndex + 1);
  }

  /** One film keeps the tiers valid and the cursor sum unchanged. */
  lemma {:induction false} AddFilmValid(q: Query, s: Search, filmId: int, newTierIndex: nat)
    requires Closed(q.g) && ValidSum(q.g, s, SumPointers(s.tiers))
    requires newTierIndex == s.tierIndex + 1 <= |s.tiers| && s.tierIndex % 2 == 0
    requires s.pointer == s.tiers[s.tierIndex].pointer < |s.tiers[s.tierIndex].nodes|
    requires filmId in Neighbors(q.g, s.tierIndex, s.tiers[s.tierIndex].nodes[s.pointer].id)
    ensures ValidSum(q.g, AddFilm(s, filmId, newTierIndex), SumPointers(s.tiers))
  {
    if filmId !in s.films {
      Parity(s.tierIndex);
      assert AddFilm(s, filmId, newTierIndex) == s.(films := s.films + [filmId], tiers := Discover(s.tiers, s.tierIndex, filmId));
      DiscoverValid(q.g, s.tiers, s.actors, s.films, s.tierIndex, filmId, s.actors, s.films + [filmId]);
    }
  }

  /** The layering of a search from a fresh tip survives adding films. */
  lemma {:induction false} AddFilmsLayered(q: Query, s: Search, films: seq<int>)
    requires ShapedLayered(q.g, s.tiers, s.actors, s.films, s.tierIndex)
    requires s.tierIndex < |s.tiers| && s.tierIndex % 2 == 0
    requires s.pointer == s.tiers[s.tierIndex].pointer < |s.tiers[s.tierIndex].nodes|
    requires forall x | x in films :: x in Neighbors(q.g, s.tierIndex, s.tiers[s.tierIndex].nodes[s.pointer].id)
    ensures var r := AddFilms(s, films, s.tierIndex + 1);
      ShapedLayered(q.g, r.tiers, r.actors, r.films, r.tierIndex)
    decreases |films|
  {
    if films != [] {
      var init := films[..|films| - 1];
      assert forall y | y in init :: y in films;
      var x := films[|films| - 1];
      assert x in films;
      AddFilmsLayered(q, s, init);
      AddLastFilmLayered(q, s, films);
    }
  }

  /** The last of films keeps the layering of a search from a fresh tip, given that the
      films before it did. */
  lemma {:induction false} AddLastFilmLayered(q: Query, s: Search, films: seq<int>)
    requires films != []
    requires s.tierIndex < |s.tiers| && s.tierIndex % 2 == 0
    requires s.pointer == s.tiers[s.tierIndex].pointer < |s.tiers[s.tierIndex].nodes|
    requires films[|films| - 1] in Neighbors(q.g, s.tierIndex, s.tiers[s.tierIndex].nodes[s.pointer].id)
    requires var m := AddFilms(s, films[..|films| - 1], s.tierIndex + 1);
      ShapedLayered(q.g, m.tiers, m.actors, m.films, m.tierIndex)
    ensures var r := AddFilms(s, films, s.tierIndex + 1);
      ShapedLayered(q.g, r.tiers, r.actors, r.films, r.tierIndex)
  {
    var init, x := films[..|films| - 1], films[|films| - 1];
    var m := AddFilms(s, init, s.tierIndex + 1);
    AddFilmsFrame(s, init, s.tierIndex + 1);
    AddFilmsLast(s, films, s.tierIndex + 1);
    AddFilmLayered(q, m, x, s.tierIndex + 1);
  }

  /** One film keeps the layering of a search from a fresh tip. */
  lemma {:induction false} AddFilmLayered(q: Query, s: Search, filmId: int, newTierIndex: nat)
    requires ShapedLayered(q.g, s.tiers, s.actors, s.films, s.tierIndex)
    requires newTierIndex == s.tierIndex + 1 <= |s.tiers| && s.tierIndex % 2 == 0
    requires s.pointer == s.tiers[s.tierIndex].pointer < |s.tiers[s.tierIndex].nodes|
    requires filmId in Neighbors(q.g, s.tierIndex, s.tiers[s.tierIndex].nodes[s.pointer].id)
    ensures var r := AddFilm(s, filmId, newTierIndex);
      ShapedLayered(q.g, r.tiers, r.actors, r.films, r.tierIndex)
  {
    if filmId !in s.films {
      Parity(s.tierIndex);
      assert AddFilm(s, filmId, newTierIndex) == s.(films := s.films + [filmId], tiers := Discover(s.tiers, s.tierIndex, filmId));
      DiscoverShaped(s.tiers, s.tierIndex, filmId);
      DiscoverLayered(q.g, s.tiers, s.actors, s.films, s.tierIndex, filmId, s.actors, s.films + [filmId]);
    }
  }

  /** After adding films, every one of them is visited, and the visited films only
      grew. */
  lemma {:induction false} AddFilmsVisits(s: Search, films: seq<int>, newTierIndex: nat)
    requires newTierIndex <= |s.tiers|
    ensures forall x | x in films :: x in AddFilms(s, films, newTierIndex).films
    ensures s.films <= AddFilms(s, films, newTierIndex).films
    decreases |films|
  {
    if films != [] {
      var init, x := films[..|films| - 1], films[|films| - 1];
      AddFilmsVisits(s, init, newTierIndex);
      assert forall y | y in films :: y in init || y == x;
    }
  }


  /** The path shared by the cast of the film under the cursor of film tier ti is a
      correct answer for each cast member. */
  lemma {:induction false} CastAnswers(q: Query, s: Search, actorId: int)
    requires Valid(q.g, s.tiers, s.actors, s.films)
    requires 0 < s.tierIndex < |s.tiers| && s.tierIndex % 2 == 1
    requires s.pointer < |s.tiers[s.tierIndex].nodes|
    requires actorId in Neighbors(q.g, s.tierIndex, s.tiers[s.tierIndex].nodes[s.pointer].id)
    ensures var rc := GetResultForCast(q, s.tiers, s.pointer, s.tierIndex);
      q.useCaching ==> rc.Some? && |rc.value.path| == s.tierIndex && Answers(q.g, actorId, rc.value)
  {
    if q.useCaching {
      var node := NewNode(0, s.pointer);
      ActorResultWalks(q.g, s.tiers, node, s.tierIndex, [], actorId);
      var path := ActorResult(s.tiers, node, s.tierIndex, []).path;
      assert path[0..] == path;
    }
  }

  /** Caching a row for a newly visited actor keeps CacheOk, given that the row is a
      correct answer and, from a fresh tip, a shortest one. */
  lemma {:induction false} CacheAppendKeeps(q: Query, actors: seq<int>, paths: seq<CachedResult>, actorId: int, result: PathResult,
                         fromTip: bool, cacheFrom: nat)
    requires CacheOk(q, actors, paths, fromTip, cacheFrom) && q.useCaching
    requires Answers(q.g, actorId, result) && (fromTip ==> Shortest(q.g, actorId, result))
    ensures CacheOk(q, actors + [actorId], AddActorResult(q, paths, actorId, Some(result)), fromTip, cacheFrom)
  {
    var e := CachedResult(result, result.baconDegrees, actorId);
    var paths' := AddActorResult(q, paths, actorId, Some(result));
    assert paths' == paths + [e];
    assert paths'[cacheFrom..] == paths[cacheFrom..] + [e];
    assert CachedIds(paths'[cacheFrom..]) == CachedIds(paths[cacheFrom..]) + [actorId];
  }

  /** Adding the cast of the film under the cursor of film tier ti keeps the invariant
      and leaves that tier and the cursor sum alone, given that the path to cache for
      the cast is a correct answer for each of them. */
  lemma {:induction false} AddActorsKeeps(q: Query, s: Search, cast: seq<int>, resultForCast: Option<PathResult>,
                       fromTip: bool, cacheFrom: nat)
    requires Ok(q, s, fromTip, cacheFrom)
    requires s.tierIndex < |s.tiers| && s.tierIndex % 2 == 1
    requires s.pointer == s.tiers[s.tierIndex].pointer < |s.tiers[s.tierIndex].nodes|
    requires forall x | x in cast :: x in Neighbors(q.g, s.tierIndex, s.tiers[s.tierIndex].nodes[s.pointer].id)
    requires q.useCaching ==> resultForCast.Some? && |resultForCast.value.path| == s.tierIndex
    requires q.useCaching ==> forall x | x in cast :: Answers(q.g, x, resultForCast.value)
    ensures var r := AddActors(q, s, cast, s.tierIndex + 1, resultForCast);
      && Ok(q, r, fromTip, cacheFrom)
      && r.tiers[s.tierIndex] == s.tiers[s.tierIndex]
      && SumPointers(r.tiers) == SumPointers(s.tiers)
  {
    Parity(s.tierIndex);
    AddActorsFrame(q, s, cast, s.tierIndex + 1, resultForCast);
    AddActorsVisits(q, s, cast, s.tierIndex + 1, resultForCast);
    AddActorsCache(q, s, cast, resultForCast, fromTip, cacheFrom);
    AddActorsValid(q, s, cast, resultForCast);
    if fromTip {
      AddActorsLayered(q, s, cast, resultForCast);
    }
  }

  /** The cached rows stay correct, and from a fresh tip shortest and in step with the
      visited actors, as a cast is added. */
  lemma {:induction false} AddActorsCache(q: Query, s: Search, cast: seq<int>, resultForCast: Option<PathResult>,
                                          fromTip: bool, cacheFrom: nat)
    requires CacheOk(q, s.actors, s.paths, fromTip, cacheFrom)
    requires s.tierIndex < |s.tiers| && s.tierIndex % 2 == 1
    requires q.useCaching ==> resultForCast.Some? && |resultForCast.value.path| == s.tierIndex
    requires q.useCaching ==> forall x | x in cast :: Answers(q.g, x, resultForCast.value)
    requires fromTip ==> Covered(q.g, s.actors, s.tierIndex - 1)
    ensures var r := AddActors(q, s, cast, s.tierIndex + 1, resultForCast);
      CacheOk(q, r.actors, r.paths, fromTip, cacheFrom)
    decreases |cast|
  {
    if cast != [] {
      var init, x := cast[..|cast| - 1], cast[|cast| - 1];
      assert forall y | y in init :: y in cast;
      var m := AddActors(q, s, init, s.tierIndex + 1, resultForCast);
      assert m.tierIndex == s.tierIndex;
      assert AddActors(q, s, cast, s.tierIndex + 1, resultForCast) == AddActor(q, m, x, s.tierIndex + 1, resultForCast);
      AddActorsVisits(q, s, init, s.tierIndex + 1, resultForCast);
      assert x !in m.actors ==> x !in s.actors;
      AddActorsCache(q, s, init, resultForCast, fromTip, cacheFrom);
      AddActorCache(q, m, x, resultForCast, fromTip, cacheFrom);
    }
  }

  /** One cast member keeps the cached rows correct, given that an actor not visited yet
      has, from a fresh tip, no walk shorter than the one cached for it. */
  lemma {:induction false} AddActorCache(q: Query, s: Search, actorId: int, resultForCast: Option<PathResult>,
                      fromTip: bool, cacheFrom: nat)
    requires CacheOk(q, s.actors, s.paths, fromTip, cacheFrom)
    requires s.tierIndex < |s.tiers| && s.tierIndex % 2 == 1
    requires q.useCaching ==> resultForCast.Some? && |resultForCast.value.path| == s.tierIndex
    requires q.useCaching ==> Answers(q.g, actorId, resultForCast.value)
    requires fromTip && actorId !in s.actors ==> !Reach(q.g, actorId, s.tierIndex - 1)
    ensures var r := AddActor(q, s, actorId, s.tierIndex + 1, resultForCast);
      CacheOk(q, r.actors, r.paths, fromTip, cacheFrom)
  {
    if actorId !in s.actors && q.useCaching {
      CacheAppendKeeps(q, s.actors, s.paths, actorId, resultForCast.value, fromTip, cacheFrom);
    }
  }

  /** The tiers stay valid and the cursor sum unchanged as a cast is added. */
  lemma {:induction false} AddActorsValid(q: Query, s: Search, cast: seq<int>, resultForCast: Option<PathResult>)
    requires Closed(q.g) && Valid(q.g, s.tiers, s.actors, s.films)
    requires s.tierIndex < |s.tiers| && s.tierIndex % 2 == 1
    requires s.pointer == s.tiers[s.tierIndex].pointer < |s.tiers[s.tierIndex].nodes|
    requires forall x | x in cast :: x in Neighbors(q.g, s.tierIndex, s.tiers[s.tierIndex].nodes[s.pointer].id)
    requires q.useCaching ==> resultForCast.Some?
    ensures var r := AddActors(q, s, cast, s.tierIndex + 1, resultForCast);
      Valid(q.g, r.tiers, r.actors, r.films) && SumPointers(r.tiers) == SumPointers(s.tiers)
    decreases |cast|
  {
    if cast != [] {
      var init := cast[..|cast| - 1];
      assert forall y | y in init :: y in cast;
      var x := cast[|cast| - 1];
      assert x in cast;
      AddActorsValid(q, s, init, resultForCast);
      AddLastActorValid(q, s, cast, resultForCast);
    }
  }

  /** The last member of a cast keeps the tiers valid and the cursor sum unchanged,
      given that the members before it did. */
  lemma {:induction false} AddLastActorValid(q: Query, s: Search, cast: seq<int>, resultForCast: Option<PathResult>)
    requires cast != [] && Closed(q.g)
    requires s.tierIndex < |s.tiers| && s.tierIndex % 2 == 1
    requires s.pointer == s.tiers[s.tierIndex].pointer < |s.tiers[s.tierIndex].nodes|
    requires cast[|cast| - 1] in Neighbors(q.g, s.tierIndex, s.tiers[s.tierIndex].nodes[s.pointer].id)
    requires q.useCaching ==> resultForCast.Some?
    requires var m := AddActors(q, s, cast[..|cast| - 1], s.tierIndex + 1, resultForCast);
      Valid(q.g, m.tiers, m.actors, m.films) && SumPointers(m.tiers) == SumPointers(s.tiers)
    ensures var r := AddActors(q, s, cast, s.tierIndex + 1, resultForCast);
      Valid(q.g, r.tiers, r.actors, r.films) && SumPointers(r.tiers) == SumPointers(s.tiers)
  {
    var init, x := cast[..|cast| - 1], cast[|cast| - 1];
    var m := AddActors(q, s, init, s.tierIndex + 1, resultForCast);
    AddActorsFrame(q, s, init, s.tierIndex + 1, resultForCast);
    AddActorsLast(q, s, cast, s.tierIndex + 1, resultForCast);
    AddActorValid(q, m, x, s.tierIndex + 1, resultForCast);
  }

  /** One cast member keeps the tiers valid and the cursor sum unchanged. */
  lemma {:induction false} AddActorValid(q: Query, s: Search, actorId: int, newTierIndex: nat, resultForCast: Option<PathResult>)
    requires Closed(q.g) && Valid(q.g, s.tiers, s.actors, s.films)
    requires newTierIndex == s.tierIndex + 1 <= |s.tiers| && s.tierIndex % 2 == 1
    requires s.pointer == s.tiers[s.tierIndex].pointer < |s.tiers[s.tierIndex].nodes|
    requires actorId in Neighbors(q.g, s.tierIndex, s.tiers[s.tierIndex].nodes[s.pointer].id)
    requires q.useCaching ==> resultForCast.Some?
    ensures var r := AddActor(q, s, actorId, newTierIndex, resultForCast);
      Valid(q.g, r.tiers, r.actors, r.films) && SumPointers(r.tiers) == SumPointers(s.tiers)
  {
    if actorId !in s.actors {
      Parity(s.tierIndex);
      AddActorDiscovers(q, s, actorId, newTierIndex, resultForCast);
      DiscoverValid(q.g, s.tiers, s.actors, s.films, s.tierIndex, actorId, s.actors + [actorId], s.films);
    }
  }

  /** The layering of a search from a fresh tip survives adding a cast. */
  lemma {:induction false} AddActorsLayered(q: Query, s: Search, cast: seq<int>, resultForCast: Option<PathResult>)
    requires ShapedLayered(q.g, s.tiers, s.actors, s.films, s.tierIndex)
    requires s.tierIndex < |s.tiers| && s.tierIndex % 2 == 1
    requires s.pointer == s.tiers[s.tierIndex].pointer < |s.tiers[s.tierIndex].nodes|
    requires forall x | x in cast :: x in Neighbors(q.g, s.tierIndex, s.tiers[s.tierIndex].nodes[s.pointer].id)
    requires q.useCaching ==> resultForCast.Some?
    ensures var r := AddActors(q, s, cast, s.tierIndex + 1, resultForCast);
      ShapedLayered(q.g, r.tiers, r.actors, r.films, r.tierIndex)
    decreases |cast|
  {
    if cast != [] {
      var init := cast[..|cast| - 1];
      assert forall y | y in init :: y in cast;
      var x := cast[|cast| - 1];
      assert x in cast;
      AddActorsLayered(q, s, init, resultForCast);
      AddLastActorLayered(q, s, cast, resultForCast);
    }
  }

  /** The last member of a cast keeps the layering of a search from a fresh tip, given
      that the members before it did. */
  lemma {:induction false} AddLastActorLayered(q: Query, s: Search, cast: seq<int>, resultForCast: Option<PathResult>)
    requires cast != []
    requires s.tierIndex < |s.tiers| && s.tierIndex % 2 == 1
    requires s.pointer == s.tiers[s.tierIndex].pointer < |s.tiers[s.tierIndex].nodes|
    requires cast[|cast| - 1] in Neighbors(q.g, s.tierIndex, s.tiers[s.tierIndex].nodes[s.pointer].id)
    requires q.useCaching ==> resultForCast.Some?
    requires var m := AddActors(q, s, cast[..|cast| - 1], s.tierIndex + 1, resultForCast);
      ShapedLayered(q.g, m.tiers, m.actors, m.films, m.tierIndex)
    ensures var r := AddActors(q, s, cast, s.tierIndex + 1, resultForCast);
      ShapedLayered(q.g, r.tiers, r.actors, r.films, r.tierIndex)
  {
    var init, x := cast[..|cast| - 1], cast[|cast| - 1];
    var m := AddActors(q, s, init, s.tierIndex + 1, resultForCast);
    AddActorsFrame(q, s, init, s.tierIndex + 1, resultForCast);
    AddActorsLast(q, s, cast, s.tierIndex + 1, resultForCast);
    AddActorLayered(q, m, x, s.tierIndex + 1, resultForCast);
  }

  /** One cast member keeps the layering of a search from a fresh tip. */
  lemma {:induction false} AddActorLayered(q: Query, s: Search, actorId: int, newTierIndex: nat, resultForCast: Option<PathResult>)
    requires ShapedLayered(q.g, s.tiers, s.actors, s.films, s.tierIndex)
    requires newTierIndex == s.tierIndex + 1 <= |s.tiers| && s.tierIndex % 2 == 1
    requires s.pointer == s.tiers[s.tierIndex].pointer < |s.tiers[s.tierIndex].nodes|
    requires actorId in Neighbors(q.g, s.tierIndex, s.tiers[s.tierIndex].nodes[s.pointer].id)
    requires q.useCaching ==> resultForCast.Some?
    ensures var r := AddActor(q, s, actorId, newTierIndex, resultForCast);
      ShapedLayered(q.g, r.tiers, r.actors, r.films, r.tierIndex)
  {
    if actorId !in s.actors {
      Parity(s.tierIndex);
      AddActorDiscovers(q, s, actorId, newTierIndex, resultForCast);
      DiscoverShaped(s.tiers, s.tierIndex, actorId);
      DiscoverLayered(q.g, s.tiers, s.actors, s.films, s.tierIndex, actorId, s.actors + [actorId], s.films);
    }
  }

  /** A cast member not visited yet joins the actors and is discovered from the node
      under the cursor. */
  lemma {:induction false} AddActorDiscovers(q: Query, s: Search, actorId: int, newTierIndex: nat, resultForCast: Option<PathResult>)
    requires newTierIndex == s.tierIndex + 1 <= |s.tiers| && s.tierIndex % 2 == 1
    requires s.pointer == s.tiers[s.tierIndex].pointer
    requires actorId !in s.actors
    requires q.useCaching ==> resultForCast.Some?
    ensures var r := AddActor(q, s, actorId, newTierIndex, resultForCast);
      && r.tiers == Discover(s.tiers, s.tierIndex, actorId)
      && r.actors == s.actors + [actorId] && r.films == s.films && r.tierIndex == s.tierIndex
  {
    Parity(s.tierIndex);
  }

  /** After adding a cast, every member is visited, the visited actors and the cached
      rows only grew, and an actor newly recorded as found is the actor looked for,
      among the cast and not visited before. */
  lemma {:induction false} AddActorsVisits(q: Query, s: Search, cast: seq<int>, newTierIndex: nat, resultForCast: Option<PathResult>)
    requires newTierIndex <= |s.tiers|
    requires q.useCaching ==> resultForCast.Some?
    ensures var r := AddActors(q, s, cast, newTierIndex, resultForCast);
      && (forall x | x in cast :: x in r.actors)
      && s.actors <= r.actors && s.paths <= r.paths
      && (r.actorNodeFound != s.actorNodeFound ==> q.actorId in cast && q.actorId !in s.actors && q.actorId in r.actors)
      && (q.actorId in r.actors && q.actorId !in s.actors ==> r.actorNodeFound.Some?)
    decreases |cast|
  {
    if cast != [] {
      var init, x := cast[..|cast| - 1], cast[|cast| - 1];
      AddActorsVisits(q, s, init, newTierIndex, resultForCast);
      AddActorsLast(q, s, cast, newTierIndex, resultForCast);
      AddActorVisits(q, AddActors(q, s, init, newTierIndex, resultForCast), x, newTierIndex, resultForCast);
      assert forall y | y in cast :: y in init || y == x;
    }
  }

  /** Adding a cast is adding all but the last member, then the last. */
  lemma {:induction false} AddActorsLast(q: Query, s: Search, cast: seq<int>, newTierIndex: nat, resultForCast: Option<PathResult>)
    requires newTierIndex <= |s.tiers| && cast != []
    requires q.useCaching ==> resultForCast.Some?
    ensures AddActors(q, s, cast, newTierIndex, resultForCast)
         == AddActor(q, AddActors(q, s, cast[..|cast| - 1], newTierIndex, resultForCast), cast[|cast| - 1], newTierIndex, resultForCast)
  {
  }

  /** After adding one cast member, it is visited, the visited actors and the cached
      rows only grew, and a newly found actor is that member, the actor looked for. */
  lemma {:induction false} AddActorVisits(q: Query, s: Search, actorId: int, newTierIndex: nat, resultForCast: Option<PathResult>)
    requires newTierIndex <= |s.tiers|
    requires q.useCaching ==> resultForCast.Some?
    ensures var r := AddActor(q, s, actorId, newTierIndex, resultForCast);
      && actorId in r.actors
      && s.actors <= r.actors && s.paths <= r.paths
      && (r.actorNodeFound != s.actorNodeFound ==> q.actorId == actorId && actorId !in s.actors)
      && (forall y | y in r.actors :: y in s.actors || y == actorId)
      && (q.actorId in r.actors && q.actorId !in s.actors ==> r.actorNodeFound.Some?)
  {
  }

  // ---------------------------------------------------------------------------------
  // The steps
  // ---------------------------------------------------------------------------------

  /** Expanding the actor under the cursor of actor tier ti goes on, expands exactly
      that one node and keeps the search ready for the next step. */
  lemma {:induction false} ActorExpandKeeps(q: Query, s: Search, fromTip: bool, cacheFrom: nat)
    requires Ready(q, s, fromTip, cacheFrom)
    requires s.tierIndex < |s.tiers| && s.tierIndex % 2 == 0
    requires s.tiers[s.tierIndex].pointer < |s.tiers[s.tierIndex].nodes|
    ensures var (r, step) := ActorTier(q, s);
      step.Continue? && Outcome(q, s, r, step, fromTip, cacheFrom)
  {
    ActorTierExpands(q, s);
    ActorExpandState(q, s, fromTip, cacheFrom);
  }

  /** The state after expanding the actor under the cursor of actor tier ti: ready for
      the next step, with the same cached rows and one more node expanded. */
  lemma {:induction false} ActorExpandState(q: Query, s: Search, fromTip: bool, cacheFrom: nat)
    requires Ready(q, s, fromTip, cacheFrom)
    requires s.tierIndex < |s.tiers| && s.tierIndex % 2 == 0
    requires s.tiers[s.tierIndex].pointer < |s.tiers[s.tierIndex].nodes|
    ensures var s2 := AddFilms(SetTier(s), q.g.filmsByActorId(SetTier(s).nodeId), SetTier(s).tierIndex + 1);
      var s3 := SetPointer(s2);
      var r := if s.tierIndex + 1 < |s3.tiers| then s3.(tierIndex := s.tierIndex + 1) else s3;
      && Ready(q, r, fromTip, cacheFrom)
      && r.paths == s.paths
      && SumPointers(r.tiers) == SumPointers(s.tiers) + 1
  {
    ActorFilmsKeeps(q, s, fromTip, cacheFrom);
    ActorAdvanceKeeps(q, AddFilms(SetTier(s), q.g.filmsByActorId(SetTier(s).nodeId), SetTier(s).tierIndex + 1), fromTip, cacheFrom);
  }

  /** Visiting the films of the actor under the cursor of actor tier ti keeps the
      invariant, leaves the cursor sum and the cached rows alone, and visits them all. */
  lemma {:induction false} ActorFilmsKeeps(q: Query, s: Search, fromTip: bool, cacheFrom: nat)
    requires Ready(q, s, fromTip, cacheFrom)
    requires s.tierIndex < |s.tiers| && s.tierIndex % 2 == 0
    requires s.tiers[s.tierIndex].pointer < |s.tiers[s.tierIndex].nodes|
    ensures var s2 := AddFilms(SetTier(s), q.g.filmsByActorId(SetTier(s).nodeId), SetTier(s).tierIndex + 1);
      && Ok(q, s2, fromTip, cacheFrom) && s2.actorNodeFound.None?
      && s2.tierIndex == s.tierIndex && s2.pointer == s2.tiers[s.tierIndex].pointer < |s2.tiers[s.tierIndex].nodes|
      && (forall x | x in Neighbors(q.g, s.tierIndex, s2.tiers[s.tierIndex].nodes[s2.pointer].id) :: x in s2.films)
      && s2.paths == s.paths
      && SumPointers(s2.tiers) == SumPointers(s.tiers)
  {
    var ti := s.tierIndex;
    Parity(ti);
    SetTierKeeps(q, s, fromTip, cacheFrom);
    var s1 := SetTier(s);
    var films := q.g.filmsByActorId(s1.nodeId);
    assert Neighbors(q.g, ti, s1.tiers[ti].nodes[s1.pointer].id) == films;
    AddFilmsKeeps(q, s1, films, fromTip, cacheFrom);
    AddFilmsVisits(s1, films, s1.tierIndex + 1);
    AddFilmsFrame(s1, films, s1.tierIndex + 1);
    var s2 := AddFilms(s1, films, s1.tierIndex + 1);
    assert s2.tiers[ti] == s.tiers[ti];
  }

  /** Moving the cursor of the current tier past a node whose neighbours are all
      visited keeps the invariant and adds one to the cursor sum. */
  lemma {:induction false} SetPointerKeeps(q: Query, s: Search, fromTip: bool, cacheFrom: nat)
    requires Ok(q, s, fromTip, cacheFrom)
    requires s.tierIndex < |s.tiers| && s.pointer == s.tiers[s.tierIndex].pointer < |s.tiers[s.tierIndex].nodes|
    requires forall x | x in Neighbors(q.g, s.tierIndex, s.tiers[s.tierIndex].nodes[s.pointer].id) ::
      x in Visited(s.actors, s.films, s.tierIndex + 1)
    ensures Ok(q, SetPointer(s), fromTip, cacheFrom)
    ensures SumPointers(SetPointer(s).tiers) == SumPointers(s.tiers) + 1
    ensures |SetPointer(s).tiers| == |s.tiers|
    ensures SetPointer(s).tiers[s.tierIndex].nodes == s.tiers[s.tierIndex].nodes
    ensures SetPointer(s).paths == s.paths && SetPointer(s).tierIndex == s.tierIndex
  {
    SetPointerAdvances(s);
    AdvanceValid(q.g, s.tiers, s.actors, s.films, s.tierIndex);
    if fromTip {
      AdvanceLayered(q.g, s.tiers, s.actors, s.films, s.tierIndex);
    }
  }

  /** Moving the cursor of actor tier ti past a node whose films are all visited, and
      up to the film tier after it when there is one, keeps the search ready. */
  lemma {:induction false} ActorAdvanceKeeps(q: Query, s: Search, fromTip: bool, cacheFrom: nat)
    requires Ok(q, s, fromTip, cacheFrom) && s.actorNodeFound.None?
    requires s.tierIndex < |s.tiers| && s.tierIndex % 2 == 0
    requires s.pointer == s.tiers[s.tierIndex].pointer < |s.tiers[s.tierIndex].nodes|
    requires forall x | x in Neighbors(q.g, s.tierIndex, s.tiers[s.tierIndex].nodes[s.pointer].id) :: x in s.films
    ensures var s3 := SetPointer(s);
      var r := if s.tierIndex + 1 < |s3.tiers| then s3.(tierIndex := s.tierIndex + 1) else s3;
      && Ready(q, r, fromTip, cacheFrom)
      && r.paths == s.paths
      && SumPointers(r.tiers) == SumPointers(s.tiers) + 1
  {
    var ti := s.tierIndex;
    Parity(ti);
    assert Visited(s.actors, s.films, ti + 1) == s.films;
    SetPointerKeeps(q, s, fromTip, cacheFrom);
    var s3 := SetPointer(s);
    if ti + 1 < |s3.tiers| {
      ShiftKeeps(q, s3, ti + 1, fromTip, cacheFrom);
    }
  }

  /** Moving the work from actor tier ti to the film tier after it keeps the invariant. */
  lemma {:induction false} ShiftKeeps(q: Query, s: Search, ti': nat, fromTip: bool, cacheFrom: nat)
    requires Ok(q, s, fromTip, cacheFrom)
    requires s.tierIndex % 2 == 0 && ti' == s.tierIndex + 1 < |s.tiers|
    ensures Ok(q, s.(tierIndex := ti'), fromTip, cacheFrom)
  {
    if fromTip {
      Parity(s.tierIndex);
      LayeredShift(q.g, s.tiers, s.actors, s.films, s.tierIndex, ti');
    }
  }

  /** The shape of an expanding step on actor tier ti. */
  lemma {:induction false} ActorTierExpands(q: Query, s: Search)
    requires s.tierIndex < |s.tiers| && s.tiers[s.tierIndex].pointer < |s.tiers[s.tierIndex].nodes|
    ensures var s2 := AddFilms(SetTier(s), q.g.filmsByActorId(SetTier(s).nodeId), SetTier(s).tierIndex + 1);
      var s3 := SetPointer(s2);
      ActorTier(q, s) == (if s.tierIndex + 1 < |s3.tiers| then s3.(tierIndex := s.tierIndex + 1) else s3, Continue)
  {
  }

  /** A step on actor tier ti never finds, and either expands one node or, with the
      tier done, moves on to the next actor tier or ends the search having (from a
      fresh tip) visited everything reachable. */
  lemma {:induction false} ActorTierKeeps(q: Query, s: Search, fromTip: bool, cacheFrom: nat)
    requires Ready(q, s, fromTip, cacheFrom)
    requires s.tierIndex < |s.tiers| && s.tierIndex % 2 == 0
    ensures var (r, step) := ActorTier(q, s);
      !step.Found? && Outcome(q, s, r, step, fromTip, cacheFrom)
    decreases |s.tiers| + 2 - s.tierIndex, 1
  {
    if s.tiers[s.tierIndex].pointer < |s.tiers[s.tierIndex].nodes| {
      ActorExpandKeeps(q, s, fromTip, cacheFrom);
    } else {
      ActorDoneStep(q, s, fromTip, cacheFrom);
    }
  }

  /** A step on a done actor tier records it complete and goes on with the next actor
      tier, or ends the search. */
  lemma {:induction false} ActorDoneStep(q: Query, s: Search, fromTip: bool, cacheFrom: nat)
    requires Ready(q, s, fromTip, cacheFrom)
    requires s.tierIndex < |s.tiers| && s.tierIndex % 2 == 0
    requires s.tiers[s.tierIndex].pointer >= |s.tiers[s.tierIndex].nodes|
    ensures var (r, step) := ActorTier(q, s);
      !step.Found? && Outcome(q, s, r, step, fromTip, cacheFrom)
    decreases |s.tiers| + 2 - s.tierIndex, 0
  {
    var next := SetTier(s).(complete := s.tierIndex, tierIndex := s.tierIndex + 2);
    ActorDoneKeeps(q, s, fromTip, cacheFrom);
    ActorTierCompletes(q, s);
    OrFinishKeeps(q, next, fromTip, cacheFrom);
    OutcomeFrom(q, next, s, OrFinish(q, next).0, OrFinish(q, next).1, fromTip, cacheFrom);
  }

  /** The shape of a step on a done actor tier. */
  lemma {:induction false} ActorTierCompletes(q: Query, s: Search)
    requires s.tierIndex < |s.tiers| && s.tiers[s.tierIndex].pointer >= |s.tiers[s.tierIndex].nodes|
    ensures ActorTier(q, s) == OrFinish(q, SetTier(s).(complete := s.tierIndex, tierIndex := s.tierIndex + 2))
  {
  }

  /** With actor tier ti done, recording it complete and moving to actor tier ti + 2
      keeps the search ready. */
  lemma {:induction false} ActorDoneKeeps(q: Query, s: Search, fromTip: bool, cacheFrom: nat)
    requires Ready(q, s, fromTip, cacheFrom)
    requires s.tierIndex < |s.tiers| && s.tierIndex % 2 == 0
    requires s.tiers[s.tierIndex].pointer >= |s.tiers[s.tierIndex].nodes|
    ensures var next := SetTier(s).(complete := s.tierIndex, tierIndex := s.tierIndex + 2);
      Ready(q, next, fromTip, cacheFrom) && next.tiers == s.tiers && next.paths == s.paths
  {
    if fromTip {
      LayerAdvance(q.g, s.tiers, s.actors, s.films, s.tierIndex);
    }
  }

  /** An outcome from s holds from any earlier state s' with the same cursor sum and
      a prefix of s's cached rows. */
  lemma {:induction false} OutcomeFrom(q: Query, s: Search, s': Search, r: Search, step: Step, fromTip: bool, cacheFrom: nat)
    requires Outcome(q, s, r, step, fromTip, cacheFrom)
    requires SumPointers(s'.tiers) == SumPointers(s.tiers) && s'.paths <= s.paths
    ensures Outcome(q, s', r, step, fromTip, cacheFrom)
  {
  }

  /** OrFinish: the next actor tier's step, or the end of the search. */
  lemma {:induction false} OrFinishKeeps(q: Query, s: Search, fromTip: bool, cacheFrom: nat)
    requires Ready(q, s, fromTip, cacheFrom)
    requires s.tierIndex <= |s.tiers| + 1 && s.tierIndex % 2 == 0
    ensures var (r, step) := OrFinish(q, s);
      !step.Found? && Outcome(q, s, r, step, fromTip, cacheFrom)
    decreases |s.tiers| + 2 - s.tierIndex, 2
  {
    if s.tierIndex >= |s.tiers| {
      if fromTip {
        LayeredExhausted(q.g, s.tiers, s.actors, s.films, s.tierIndex);
      }
    } else {
      ActorTierKeeps(q, s, fromTip, cacheFrom);
    }
  }

  /** The shape of an expanding step on film tier ti. */
  lemma {:induction false} FilmTierExpands(q: Query, s: Search)
    requires 0 < s.tierIndex < |s.tiers| && ParentsInRange(s.tiers) && s.actorNodeFound.None?
    requires s.tiers[s.tierIndex].pointer < |s.tiers[s.tierIndex].nodes|
    ensures var s1 := SetTier(s);
      var s3 := SetPointer(AddActors(q, s1, q.g.actorsByFilmId(s1.nodeId), s1.tierIndex + 1,
                                     GetResultForCast(q, s1.tiers, s1.pointer, s1.tierIndex)));
      && ParentsInRange(s3.tiers)
      && (s3.actorNodeFound.Some? ==> s3.actorNodeFound.value.parent < |s3.tiers[s.tierIndex].nodes|)
    ensures var s1 := SetTier(s);
      var s3 := SetPointer(AddActors(q, s1, q.g.actorsByFilmId(s1.nodeId), s1.tierIndex + 1,
                                     GetResultForCast(q, s1.tiers, s1.pointer, s1.tierIndex)));
      FilmTier(q, s) == (s3, if s3.actorNodeFound.None? then Continue
                                else Found(ActorResult(s3.tiers, s3.actorNodeFound.value, s.tierIndex, [])))
  {
  }

  /** Visiting the cast of the film under the cursor of film tier ti keeps the
      invariant and the cursor sum and only adds cached rows. */
  lemma {:induction false} FilmCastKeeps(q: Query, s: Search, fromTip: bool, cacheFrom: nat)
    requires Ready(q, s, fromTip, cacheFrom)
    requires s.tierIndex < |s.tiers| && s.tierIndex % 2 == 1
    requires s.tiers[s.tierIndex].pointer < |s.tiers[s.tierIndex].nodes|
    ensures var s1 := SetTier(s);
      var s2 := AddActors(q, s1, q.g.actorsByFilmId(s1.nodeId), s1.tierIndex + 1,
                          GetResultForCast(q, s1.tiers, s1.pointer, s1.tierIndex));
      && Ok(q, s2, fromTip, cacheFrom)
      && s2.tierIndex == s.tierIndex && s2.pointer == s2.tiers[s2.tierIndex].pointer < |s2.tiers[s2.tierIndex].nodes|
      && s.paths <= s2.paths
      && SumPointers(s2.tiers) == SumPointers(s.tiers)
  {
    var ti := s.tierIndex;
    Parity(ti);
    SetTierKeeps(q, s, fromTip, cacheFrom);
    var s1 := SetTier(s);
    var cast := q.g.actorsByFilmId(s1.nodeId);
    var rc := GetResultForCast(q, s1.tiers, s1.pointer, ti);
    assert forall x | x in cast :: x in Neighbors(q.g, ti, s1.tiers[ti].nodes[s1.pointer].id) by {
      assert Neighbors(q.g, ti, s1.tiers[ti].nodes[s1.pointer].id) == cast;
    }
    assert q.useCaching ==> forall x | x in cast :: Answers(q.g, x, rc.value) by {
      forall x | x in cast
        ensures q.useCaching ==> Answers(q.g, x, rc.value)
      {
        CastAnswers(q, s1, x);
      }
    }
    AddActorsKeeps(q, s1, cast, rc, fromTip, cacheFrom);
    AddActorsFrame(q, s1, cast, s1.tierIndex + 1, rc);
    AddActorsVisits(q, s1, cast, s1.tierIndex + 1, rc);
  }

  /** Visiting the cast of the film under the cursor of film tier ti visits the whole
      cast and records as found only the actor looked for, a cast member newly visited
      (from a fresh tip, not within ti - 1 edges of the root). */
  lemma {:induction false} FilmCastVisits(q: Query, s: Search, fromTip: bool)
    requires ParentsInRange(s.tiers) && s.actorNodeFound.None?
    requires s.tierIndex < |s.tiers| && s.tierIndex % 2 == 1
    requires s.tiers[s.tierIndex].pointer < |s.tiers[s.tierIndex].nodes|
    requires fromTip ==> Covered(q.g, s.actors, s.tierIndex - s.tierIndex % 2)
    ensures var s1 := SetTier(s);
      var s2 := AddActors(q, s1, q.g.actorsByFilmId(s1.nodeId), s1.tierIndex + 1,
                          GetResultForCast(q, s1.tiers, s1.pointer, s1.tierIndex));
      && s2.tierIndex == s.tierIndex && s2.pointer == s.tiers[s.tierIndex].pointer
      && s2.tiers[s.tierIndex] == s.tiers[s.tierIndex]
      && s1.nodeId == s.tiers[s.tierIndex].nodes[s2.pointer].id
      && (forall x | x in q.g.actorsByFilmId(s1.nodeId) :: x in s2.actors)
      && (forall x | x in Neighbors(q.g, s2.tierIndex, s2.tiers[s2.tierIndex].nodes[s2.pointer].id) ::
            x in Visited(s2.actors, s2.films, s2.tierIndex + 1))
      && (s2.actorNodeFound.Some? ==>
            && s2.actorNodeFound.value == NewNode(q.actorId, s2.pointer)
            && q.actorId in q.g.actorsByFilmId(s1.nodeId)
            && (fromTip ==> !Reach(q.g, q.actorId, s.tierIndex - s.tierIndex % 2)))
  {
    var ti := s.tierIndex;
    var s1 := SetTier(s);
    assert s1 == s.(pointer := s.tiers[ti].pointer, tierIsComplete := false, nodeId := s.tiers[ti].nodes[s.tiers[ti].pointer].id);
    var cast := q.g.actorsByFilmId(s1.nodeId);
    var rc := GetResultForCast(q, s1.tiers, s1.pointer, ti);
    AddActorsFrame(q, s1, cast, s1.tierIndex + 1, rc);
    AddActorsVisits(q, s1, cast, s1.tierIndex + 1, rc);
    var s2 := AddActors(q, s1, cast, s1.tierIndex + 1, rc);
    Parity(ti);
    assert Neighbors(q.g, ti, s2.tiers[ti].nodes[s2.pointer].id) == cast;
    assert Visited(s2.actors, s2.films, ti + 1) == s2.actors;
  }

  /** After visiting the cast of the film under the cursor of film tier ti, every
      neighbour of that film is visited. */
  lemma {:induction false} FilmCastDone(q: Query, s: Search, fromTip: bool)
    requires ParentsInRange(s.tiers) && s.actorNodeFound.None?
    requires s.tierIndex < |s.tiers| && s.tierIndex % 2 == 1
    requires s.tiers[s.tierIndex].pointer < |s.tiers[s.tierIndex].nodes|
    requires fromTip ==> Covered(q.g, s.actors, s.tierIndex - s.tierIndex % 2)
    ensures var s1 := SetTier(s);
      var s2 := AddActors(q, s1, q.g.actorsByFilmId(s1.nodeId), s1.tierIndex + 1,
                          GetResultForCast(q, s1.tiers, s1.pointer, s1.tierIndex));
      forall x | x in Neighbors(q.g, s2.tierIndex, s2.tiers[s2.tierIndex].nodes[s2.pointer].id) ::
        x in Visited(s2.actors, s2.films, s2.tierIndex + 1)
  {
    FilmCastVisits(q, s, fromTip);
  }

  /** The path reconstructed for a cast member found behind film tier ti is a correct
      answer, and a shortest one when the member is not within ti - 1 edges of the
      root. */
  lemma {:induction false} FoundAnswers(q: Query, tiers: seq<Tier>, node: Node, ti: nat, fromTip: bool)
    requires Shaped(tiers) && EdgesFollow(q.g, tiers)
    requires 0 < ti < |tiers| && ti % 2 == 1 && node.parent < |tiers[ti].nodes|
    requires q.actorId in Neighbors(q.g, ti, tiers[ti].nodes[node.parent].id)
    requires fromTip ==> !Reach(q.g, q.actorId, ti - 1)
    ensures Answers(q.g, q.actorId, ActorResult(tiers, node, ti, []))
    ensures fromTip ==> Shortest(q.g, q.actorId, ActorResult(tiers, node, ti, []))
  {
    var r := ActorResult(tiers, node, ti, []);
    assert |r.path| == ti && r.baconDegrees == (ti + 1) / 2;
    ActorResultWalks(q.g, tiers, node, ti, [], q.actorId);
    assert r.path[0..] == r.path;
  }

  /** Expanding the film under the cursor of film tier ti (visiting its cast, then
      moving the cursor past it) expands exactly that one node and keeps the invariant;
      nothing found leaves the search ready, and a found actor is visited and its path
      is a correct (from a fresh tip, shortest) answer. */
  lemma {:induction false} FilmExpandKeeps(q: Query, s: Search, fromTip: bool, cacheFrom: nat)
    requires Ready(q, s, fromTip, cacheFrom)
    requires s.tierIndex < |s.tiers| && s.tierIndex % 2 == 1
    requires s.tiers[s.tierIndex].pointer < |s.tiers[s.tierIndex].nodes|
    ensures var (r, step) := FilmTier(q, s);
      Outcome(q, s, r, step, fromTip, cacheFrom)
  {
    var ti := s.tierIndex;
    FilmTierExpands(q, s);
    FilmExpandOk(q, s, fromTip, cacheFrom);
    FilmExpandFound(q, s, fromTip, cacheFrom);
    var s1 := SetTier(s);
    var s3 := SetPointer(AddActors(q, s1, q.g.actorsByFilmId(s1.nodeId), s1.tierIndex + 1,
                                   GetResultForCast(q, s1.tiers, s1.pointer, s1.tierIndex)));
    if s3.actorNodeFound.Some? {
      FoundAnswers(q, s3.tiers, s3.actorNodeFound.value, ti, fromTip);
    }
  }

  /** The state after expanding the film under the cursor of film tier ti: the
      invariant holds, one more node is expanded and cached rows were only added. */
  lemma {:induction false} FilmExpandOk(q: Query, s: Search, fromTip: bool, cacheFrom: nat)
    requires Ready(q, s, fromTip, cacheFrom)
    requires s.tierIndex < |s.tiers| && s.tierIndex % 2 == 1
    requires s.tiers[s.tierIndex].pointer < |s.tiers[s.tierIndex].nodes|
    ensures var s1 := SetTier(s);
      var s3 := SetPointer(AddActors(q, s1, q.g.actorsByFilmId(s1.nodeId), s1.tierIndex + 1,
                                     GetResultForCast(q, s1.tiers, s1.pointer, s1.tierIndex)));
      && Ok(q, s3, fromTip, cacheFrom)
      && s.paths <= s3.paths
      && SumPointers(s3.tiers) == SumPointers(s.tiers) + 1
      && s3.tierIndex == s.tierIndex
  {
    var ti := s.tierIndex;
    var s1 := SetTier(s);
    var cast := q.g.actorsByFilmId(s1.nodeId);
    var s2 := AddActors(q, s1, cast, s1.tierIndex + 1, GetResultForCast(q, s1.tiers, s1.pointer, s1.tierIndex));
    FilmCastDone(q, s, fromTip);
    FilmCastKeeps(q, s, fromTip, cacheFrom);
    SetPointerKeeps(q, s2, fromTip, cacheFrom);
  }

  /** An actor recorded as found while expanding the film under the cursor of film tier
      ti is the actor looked for, now visited, a cast member of that film that (from a
      fresh tip) is not within ti - 1 edges of the root. */
  lemma {:induction false} FilmExpandFound(q: Query, s: Search, fromTip: bool, cacheFrom: nat)
    requires Ready(q, s, fromTip, cacheFrom)
    requires s.tierIndex < |s.tiers| && s.tierIndex % 2 == 1
    requires s.tiers[s.tierIndex].pointer < |s.tiers[s.tierIndex].nodes|
    ensures var s1 := SetTier(s);
      var s3 := SetPointer(AddActors(q, s1, q.g.actorsByFilmId(s1.nodeId), s1.tierIndex + 1,
                                     GetResultForCast(q, s1.tiers, s1.pointer, s1.tierIndex)));
      s3.actorNodeFound.Some? ==>
        && q.actorId in s3.actors
        && s3.actorNodeFound.value.parent < |s3.tiers[s.tierIndex].nodes|
        && q.actorId in Neighbors(q.g, s.tierIndex, s3.tiers[s.tierIndex].nodes[s3.actorNodeFound.value.parent].id)
        && (fromTip ==> !Reach(q.g, q.actorId, s.tierIndex - 1))
  {
    var ti := s.tierIndex;
    Parity(ti);
    var s1 := SetTier(s);
    var cast := q.g.actorsByFilmId(s1.nodeId);
    var s2 := AddActors(q, s1, cast, s1.tierIndex + 1, GetResultForCast(q, s1.tiers, s1.pointer, s1.tierIndex));
    FilmCastVisits(q, s, fromTip);
    var s3 := SetPointer(s2);
    if s3.actorNodeFound.Some? {
      assert s3.tiers[ti].nodes == s.tiers[ti].nodes;
      assert Neighbors(q.g, ti, s3.tiers[ti].nodes[s2.pointer].id) == cast;
    }
  }

  /** Moving the cursor of the current tier is Advance on that tier. */
  lemma {:induction false} SetPointerAdvances(s: Search)
    requires s.tierIndex < |s.tiers| && s.pointer == s.tiers[s.tierIndex].pointer
    ensures SetPointer(s) == s.(tiers := Advance(s.tiers, s.tierIndex))
    ensures SetPointer(s).tiers[s.tierIndex].nodes == s.tiers[s.tierIndex].nodes
  {
  }

  /** A step on film tier ti: with the tier done, the step of the actor tier below it;
      otherwise FilmExpandKeeps. */
  lemma {:induction false} FilmTierKeeps(q: Query, s: Search, fromTip: bool, cacheFrom: nat)
    requires Ready(q, s, fromTip, cacheFrom)
    requires s.tierIndex < |s.tiers| && s.tierIndex % 2 == 1
    ensures var (r, step) := FilmTier(q, s);
      Outcome(q, s, r, step, fromTip, cacheFrom)
  {
    var ti := s.tierIndex;
    if s.tiers[ti].pointer < |s.tiers[ti].nodes| {
      FilmExpandKeeps(q, s, fromTip, cacheFrom);
    } else {
      FilmDoneKeeps(q, s, fromTip, cacheFrom);
    }
  }

  /** The shape of a step on a done film tier. */
  lemma {:induction false} FilmTierCompletes(q: Query, s: Search)
    requires 0 < s.tierIndex < |s.tiers| && ParentsInRange(s.tiers) && s.actorNodeFound.None?
    requires s.tiers[s.tierIndex].pointer >= |s.tiers[s.tierIndex].nodes|
    ensures FilmTier(q, s) == ActorTier(q, SetTier(s).(tierIndex := s.tierIndex - 1))
  {
  }

  /** With film tier ti done, the step is that of the actor tier below it. */
  lemma {:induction false} FilmDoneKeeps(q: Query, s: Search, fromTip: bool, cacheFrom: nat)
    requires Ready(q, s, fromTip, cacheFrom)
    requires s.tierIndex < |s.tiers| && s.tierIndex % 2 == 1
    requires s.tiers[s.tierIndex].pointer >= |s.tiers[s.tierIndex].nodes|
    ensures var (r, step) := FilmTier(q, s);
      Outcome(q, s, r, step, fromTip, cacheFrom)
  {
    var below := SetTier(s).(tierIndex := s.tierIndex - 1);
    FilmBelowReady(q, s, fromTip, cacheFrom);
    FilmTierCompletes(q, s);
    ActorTierKeeps(q, below, fromTip, cacheFrom);
    OutcomeFrom(q, below, s, ActorTier(q, below).0, ActorTier(q, below).1, fromTip, cacheFrom);
  }

  /** The actor tier below a done film tier is ready for its step. */
  lemma {:induction false} FilmBelowReady(q: Query, s: Search, fromTip: bool, cacheFrom: nat)
    requires Ready(q, s, fromTip, cacheFrom)
    requires s.tierIndex < |s.tiers| && s.tierIndex % 2 == 1
    requires s.tiers[s.tierIndex].pointer >= |s.tiers[s.tierIndex].nodes|
    ensures var below := SetTier(s).(tierIndex := s.tierIndex - 1);
      Ready(q, below, fromTip, cacheFrom) && below.tiers == s.tiers && below.paths == s.paths
  {
    var ti := s.tierIndex;
    assert Done(s.tiers[ti]);
    if fromTip {
      LayeredShift(q.g, s.tiers, s.actors, s.films, ti, ti - 1);
    }
  }

  /** Every step of the search loop yields the Outcome it promises. */
  lemma {:induction false} NextOpenTierKeeps(q: Query, s: Search, fromTip: bool, cacheFrom: nat)
    requires Ready(q, s, fromTip, cacheFrom)
    ensures var (r, step) := NextOpenTier(q, s);
      Outcome(q, s, r, step, fromTip, cacheFrom)
  {
    var ti := s.tierIndex;
    if ti >= |s.tiers| {
      if fromTip {
        LayeredExhausted(q.g, s.tiers, s.actors, s.films, ti);
      }
    } else if s.tiers[ti].isActors {
      ActorTierKeeps(q, s, fromTip, cacheFrom);
    } else {
      FilmTierKeeps(q, s, fromTip, cacheFrom);
    }
  }

  /** What the search loop keeps: the invariant, Ready while the search goes on, and
      once it stops, either a correct (from the tip, shortest) path to the actor looked
      for or (from the tip) everything reachable visited. */
  ghost predicate Running(q: Query, s: Search, step: Step, fromTip: bool, cacheFrom: nat) {
    && Ok(q, s, fromTip, cacheFrom)
    && (step.Continue? ==> Ready(q, s, fromTip, cacheFrom))
    && (step.NoResults? ==> s.actorNodeFound.None? && (fromTip ==> Exhausted(q.g, s)))
    && (step.Found? ==>
          && q.actorId in s.actors
          && Answers(q.g, q.actorId, step.result)
          && (fromTip ==> Shortest(q.g, q.actorId, step.result)))
  }

  /** A search set up on a stored pyramid, or on the fresh tip, with the tier after the
      last complete one current and only correct rows cached, is Ready. */
  lemma {:induction false} StartReady(q: Query, p: PyramidState, s: Search, fromTip: bool)
    requires Closed(q.g) && (forall e | e in s.paths :: EntryAnswers(q.g, e))
    requires fromTip ==> p == GetTip(q.g.baconActorId)
    requires !fromTip ==> Resumable(q.g, p)
    requires s.actors == p.actors && s.films == p.films && s.tiers == p.tiers && s.complete == p.complete
    requires s.tierIndex == p.complete + 1 && s.actorNodeFound.None?
    ensures Ready(q, s, fromTip, |s.paths|)
  {
    if fromTip {
      TipValid(q.g);
      assert s.paths[|s.paths|..] == [];
    }
  }

  /** One turn of the search loop keeps Running, only adds cached rows, and while it
      goes on expands one more node of the at most |actorIds| + |filmIds| there are. */
  lemma {:induction false} NextOpenTierRuns(q: Query, s: Search, r: Search, step: Step, fromTip: bool, cacheFrom: nat)
    requires Running(q, s, Continue, fromTip, cacheFrom)
    requires (r, step) == NextOpenTier(q, s)
    ensures Running(q, r, step, fromTip, cacheFrom)
    ensures s.paths <= r.paths
    ensures step.Continue? ==> SumPointers(r.tiers) == SumPointers(s.tiers) + 1
    ensures SumPointers(r.tiers) <= |q.g.actorIds| + |q.g.filmIds|
  {
    NextOpenTierKeeps(q, s, fromTip, cacheFrom);
    PointersBound(q.g, r.tiers, r.actors, r.films);
  }

  /** A search from a fresh tip that stops without finding: the actor looked for is
      unreachable unless it is the root, and with caching every reachable actor other
      than the root has a row cached by this search. */
  lemma {:induction false} Unfound(q: Query, s: Search, cacheFrom: nat)
    requires Running(q, s, NoResults, true, cacheFrom)
    ensures q.actorId != q.g.baconActorId ==> forall t: nat :: t % 2 == 0 ==> !Reach(q.g, q.actorId, t)
    ensures q.useCaching ==>
      forall id, t: nat :: t % 2 == 0 && Reach(q.g, id, t) ==>
        id == q.g.baconActorId || id in CachedIds(s.paths[cacheFrom..])
  {
    forall t: nat | t % 2 == 0 && Reach(q.g, q.actorId, t)
      ensures q.actorId == q.g.baconActorId
    {
      assert q.actorId in Visited(s.actors, s.films, t);
    }
    if q.useCaching {
      forall id, t: nat | t % 2 == 0 && Reach(q.g, id, t)
        ensures id == q.g.baconActorId || id in CachedIds(s.paths[cacheFrom..])
      {
        assert id in Visited(s.actors, s.films, t);
      }
    }
  }
}

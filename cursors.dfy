/**
 * How a step of the search moves the tiers' cursors. A tier's cursor only ever moves
 * forward: a step that goes on or finds moves exactly one tier's cursor, by one, a
 * step that ends moves none, and a tier created by a step starts at cursor 0.
 */
module Cursors {
  import opened Wrappers
  import opened BaconGraph
  import opened Tiers
  import opened Invariants
  import opened Steps

  /** b holds the tiers of a with their cursors where they were, followed by any new
      tiers with cursor 0. */
  ghost predicate CursorsKept(a: seq<Tier>, b: seq<Tier>) {
    |a| <= |b| && forall k | 0 <= k < |b| :: b[k].pointer == if k < |a| then a[k].pointer else 0
  }

  /** As CursorsKept, except that the cursor of tier t of a moved one node further. */
  ghost predicate CursorMoved(a: seq<Tier>, b: seq<Tier>, t: nat) {
    && t < |a| <= |b|
    && forall k | 0 <= k < |b| ::
         b[k].pointer == if k == t then a[k].pointer + 1 else if k < |a| then a[k].pointer else 0
  }

  /** What a step yielding step does to the cursors of the tiers a, leaving b. */
  ghost predicate CursorStep(a: seq<Tier>, b: seq<Tier>, step: Step) {
    if step.NoResults? then b == a else exists t :: CursorMoved(a, b, t)
  }

  lemma {:induction false} KeptTrans(a: seq<Tier>, b: seq<Tier>, c: seq<Tier>)
    requires CursorsKept(a, b) && CursorsKept(b, c)
    ensures CursorsKept(a, c)
  {
    forall k | 0 <= k < |c|
      ensures c[k].pointer == if k < |a| then a[k].pointer else 0
    {
      if k < |b| {
        assert c[k].pointer == b[k].pointer;
      }
    }
  }

  /** Adding films to a tier leaves every cursor where it was. */
  lemma {:induction false} AddFilmsCursors(s: Search, films: seq<int>, newTierIndex: nat)
    requires newTierIndex <= |s.tiers|
    ensures CursorsKept(s.tiers, AddFilms(s, films, newTierIndex).tiers)
    decreases |films|
  {
    if films != [] {
      var s' := AddFilms(s, films[..|films| - 1], newTierIndex);
      AddFilmsCursors(s, films[..|films| - 1], newTierIndex);
      var filmId := films[|films| - 1];
      if filmId !in s'.films {
        KeptTrans(s.tiers, s'.tiers, WithNode(s'.tiers, newTierIndex, NewNode(filmId, s'.pointer), false));
      }
    }
  }

  /** Adding a cast to a tier leaves every cursor where it was. */
  lemma {:induction false} AddActorsCursors(q: Query, s: Search, cast: seq<int>, newTierIndex: nat, resultForCast: Option<PathResult>)
    requires newTierIndex <= |s.tiers|
    requires q.useCaching ==> resultForCast.Some?
    ensures CursorsKept(s.tiers, AddActors(q, s, cast, newTierIndex, resultForCast).tiers)
    decreases |cast|
  {
    if cast != [] {
      var s' := AddActors(q, s, cast[..|cast| - 1], newTierIndex, resultForCast);
      AddActorsCursors(q, s, cast[..|cast| - 1], newTierIndex, resultForCast);
      var actorId := cast[|cast| - 1];
      if actorId !in s'.actors {
        KeptTrans(s.tiers, s'.tiers, WithNode(s'.tiers, newTierIndex, NewNode(actorId, s'.pointer), true));
      }
    }
  }

  /** An actor tier step moves the cursor of the actor it expands, and only that one. */
  lemma {:induction false} ActorTierCursors(q: Query, s: Search)
    requires s.tierIndex < |s.tiers|
    ensures var (r, step) := ActorTier(q, s);
      !step.Found? && CursorStep(s.tiers, r.tiers, step)
    decreases |s.tiers| + 2 - s.tierIndex, 1
  {
    var s1 := SetTier(s);
    if s1.tierIsComplete {
      OrFinishCursors(q, s1.(complete := s1.tierIndex, tierIndex := s1.tierIndex + 2));
    } else {
      var s2 := AddFilms(s1, q.g.filmsByActorId(s1.nodeId), s1.tierIndex + 1);
      AddFilmsCursors(s1, q.g.filmsByActorId(s1.nodeId), s1.tierIndex + 1);
      assert CursorMoved(s.tiers, SetPointer(s2).tiers, s.tierIndex);
    }
  }

  /** OrFinish: the next actor tier's step, or the end with no cursor moved. */
  lemma {:induction false} OrFinishCursors(q: Query, s: Search)
    requires s.tierIndex <= |s.tiers| + 1
    ensures var (r, step) := OrFinish(q, s);
      !step.Found? && CursorStep(s.tiers, r.tiers, step)
    decreases |s.tiers| + 2 - s.tierIndex, 2
  {
    if s.tierIndex < |s.tiers| {
      ActorTierCursors(q, s);
    }
  }

  /** A film tier step moves the cursor of the film it expands, or else takes the step
      of the actor tier below. */
  lemma {:induction false} FilmTierCursors(q: Query, s: Search)
    requires 0 < s.tierIndex < |s.tiers| && ParentsInRange(s.tiers) && s.actorNodeFound.None?
    ensures var (r, step) := FilmTier(q, s);
      CursorStep(s.tiers, r.tiers, step)
  {
    var s1 := SetTier(s);
    if s1.tierIsComplete {
      ActorTierCursors(q, s1.(tierIndex := s1.tierIndex - 1));
    } else {
      var cast := q.g.actorsByFilmId(s1.nodeId);
      var resultForCast := GetResultForCast(q, s1.tiers, s1.pointer, s1.tierIndex);
      var s2 := AddActors(q, s1, cast, s1.tierIndex + 1, resultForCast);
      AddActorsCursors(q, s1, cast, s1.tierIndex + 1, resultForCast);
      assert CursorMoved(s.tiers, SetPointer(s2).tiers, s.tierIndex);
    }
  }

  /** Every step of the search loop moves no cursor backwards: one that goes on or
      finds moves exactly one tier's cursor by one, one that ends leaves the tiers as
      they were, and new tiers start at cursor 0. */
  lemma {:induction false} NextOpenTierCursors(q: Query, s: Search)
    requires Shaped(s.tiers) && s.actorNodeFound.None?
    ensures var (r, step) := NextOpenTier(q, s);
      && CursorStep(s.tiers, r.tiers, step)
      && |s.tiers| <= |r.tiers|
      && (forall u | 0 <= u < |s.tiers| :: s.tiers[u].pointer <= r.tiers[u].pointer)
  {
    if s.tierIndex < |s.tiers| {
      if s.tiers[s.tierIndex].isActors {
        ActorTierCursors(q, s);
      } else {
        FilmTierCursors(q, s);
      }
    }
  }
}

# Bacon degrees: the pyramid search and the lookup front end

This project models the core of *bacondegrees*, a command-line tool that finds the
shortest chain of shared films that joins an actor to Kevin Bacon. Two parts are
modelled:

- **The pyramid** (`BaconPyramid`, modelled in `pyramid.dfy`). This is a resumable
  breadth-first search that starts from Kevin Bacon. It works over alternating tiers
  of actors and films. Each tier is a list of `(id, parent index)` nodes with a
  cursor. Each step expands the node under one tier's cursor into the next tier and
  skips ids that were already visited. A cast member that matches the actor looked
  for ends the search, and the path is read back along the parent links. With
  caching on, every actor met on the way gets a cached path, and the pyramid is
  handed back so that a later search can resume from it.
- **The lookup** (`BaconDegreesCore.get`, modelled in `degrees.dfy`). It picks one of
  five answers for a name. A path is rendered as a chain of "X was in F with Y."
  sentences.

The model has these modules:

- `BaconGraph` (`graph.dfy`): the store's actor/film graph. It holds two total
  neighbour lookups over finite sets of ids. It also defines the reachability
  predicate `Reach` and the walk predicate `IsWalk`, which every answer is judged by.
- `Tiers` (`tiers.dfy`): nodes, tiers, results, the fresh tip, path reconstruction
  and the result dictionary. It also has multiset and cursor-sum bookkeeping.
- `Invariants` (`invariants.dfy`):
  - the validity of a pyramid: its shape, no repeated visits, and every node a
    neighbour of its parent;
  - the breadth-first layering of a search started from the tip;
  - the lemmas that each kind of tier growth keeps these.
- `Steps` (`steps.dfy`): every step method of the class as a function on the class's
  mutable fields, packed as one `Search` value. It also states what holds between
  steps (`Ok`, `Ready`, `Outcome`).
- `Progress` (`progress.dfy`): proofs that every step keeps the invariant, raises the
  sum of the tiers' cursors by one while the search goes on, and yields a correct
  answer when it finds one.
- `Cursors` (`cursors.dfy`): what one step does to each cursor. A step that goes on
  or finds moves exactly one tier's cursor, by one. A step that ends moves none. New
  tiers start at cursor 0, so no cursor ever moves back.
- `Pyramid` (`pyramid.dfy`): the class itself, with the source's fields and methods.
  Every step method is proved to compute its `Steps` function. The search loop and
  `Find` state the search's guarantees outright:
  - a returned path is a walk from the actor to the root;
  - from a fresh tip, that path is a shortest one;
  - from a fresh tip, "no result" means the actor is unreachable;
  - every cached row is a correct answer;
  - from a fresh tip with caching, when the search ends with no result, every
    reachable actor has a cached row;
  - from a fresh tip, looking for Kevin Bacon himself gives no result;
  - the search terminates.
- `DegreesCore` (`degrees.dfy`): the choice between the five answers, and the
  rendering of paths.

The store, the names of ids, and the pyramid search as seen from `get` are all
parameters. The store stands behind the graph. Names of ids are functions
`int -> string`. The pyramid search is `int -> Option<PathResult>` in `Get`.

## Model

| member | source | states |
|---|---|---|
| Pyramid.BaconPyramid.constructor | bacondegrees/baconpyramid.py:22-61 | a new builder over a well-formed store has nothing found and no cached rows |
| Pyramid.BaconPyramid.Find | bacondegrees/baconpyramid.py:72-89 | loads the stored pyramid or the fresh tip and resumes after its complete tier. A result is a walk from the target to the root, given as that walk's result dictionary (its films, its actors and its degrees); from a fresh tip it is a shortest walk, and no result means the target is unreachable. What is saved is valid to resume from, cached rows are only appended and each is a correct answer. From a fresh tip with caching, when the search ends with no result, every reachable actor has a row. From a fresh tip, the root itself is never found |
| Pyramid.BaconPyramid.FindActorPyramid | bacondegrees/baconpyramid.py:135-144 | runs the search loop, then hands over what to store exactly when caching; the result carries the guarantees listed for Find |
| Pyramid.BaconPyramid.StepUntilDone | bacondegrees/baconpyramid.py:138-140 | the `while not result` loop ends, because each turn expands one of at most \|actors\| + \|films\| nodes, and stops with a found answer or with NO_RESULTS, the invariant kept |
| Pyramid.BaconPyramid.GetNextOpenTier | bacondegrees/baconpyramid.py:151-159 | no tier left gives NO_RESULTS, unchanged; otherwise it does the actor or film tier step by the tier's kind |
| Pyramid.BaconPyramid.UpdateActorTier | bacondegrees/baconpyramid.py:170-187 | the new fields are Steps.ActorTier of the old: a done tier is recorded complete and the search moves two tiers on; otherwise the actor's films are added, the cursor advances and the film tier becomes current when it exists |
| Pyramid.BaconPyramid.UpdateTiersComplete | bacondegrees/baconpyramid.py:194-195 | complete becomes the current tier index |
| Pyramid.BaconPyramid.SetTier | bacondegrees/baconpyramid.py:201-213 | reads the tier's cursor; with a node under it, nodeId is that node's id; otherwise the tier is complete, recorded as such, and nodeId is 0 |
| Pyramid.BaconPyramid.UpdateActorTierOrFinish | bacondegrees/baconpyramid.py:220-226 | past the last tier: records complete and gives NO_RESULTS; otherwise the actor tier step |
| Pyramid.BaconPyramid.AddFilmsToTier | bacondegrees/baconpyramid.py:179-180 | the new state is AddFilm applied to each film of the actor in order |
| Pyramid.BaconPyramid.AddFilmToTier | bacondegrees/baconpyramid.py:234-239 | an unvisited film is appended to the films and to tier newTierIndex with the cursor as parent; a visited one changes nothing |
| Pyramid.BaconPyramid.AddNodeToTier | bacondegrees/baconpyramid.py:258-265 | returns the node (id, parent) and appends it to the tier, creating a tier of the given kind first when the index is one past the end |
| Pyramid.BaconPyramid.SetPointer | bacondegrees/baconpyramid.py:271-272 | the current tier's cursor becomes the cursor read by SetTier plus one |
| Pyramid.BaconPyramid.UpdateFilmTier | bacondegrees/baconpyramid.py:282-302 | the new fields are Steps.FilmTier of the old: a done film tier goes back to the actor tier below; otherwise the cast is added, the cursor advances, and a found actor yields the path reconstructed from its node |
| Pyramid.BaconPyramid.GetResultForCast | bacondegrees/baconpyramid.py:312-318 | a result exactly when caching, built from a placeholder node under the film, so its path has length tierIndex and its degrees are (tierIndex + 1) / 2 |
| Pyramid.BaconPyramid.AddCastToTier | bacondegrees/baconpyramid.py:293-295 | the new state is AddActor applied to each cast member in order |
| Pyramid.BaconPyramid.AddActorToTier | bacondegrees/baconpyramid.py:328-338 | an unvisited actor joins the actors, the tier and (when caching) the cached rows, and is remembered when it is the target; a visited actor changes nothing |
| Pyramid.BaconPyramid.AddActorResult | bacondegrees/baconpyramid.py:346-349 | when caching, appends the row (result, its degrees, actor id); otherwise nothing |
| Pyramid.BaconPyramid.UpdatePyramidAndActorPaths | bacondegrees/baconpyramid.py:399-405 | hands over the pyramid and all cached rows exactly when caching |
| Pyramid.BaconPyramid.FindAll | bacondegrees/baconpyramid.py:411-412 | a search with caching for id 0 always saves; from a fresh tip, when 0 is no actor id, every reachable actor other than the root has a cached row |
| Tiers.NewTier | bacondegrees/baconpyramid.py:114-119 | a new tier has the given kind and nodes, with its cursor at 0 |
| Tiers.NewNode | bacondegrees/baconpyramid.py:127-128 | a node is the id and its parent's index |
| Tiers.GetTip | bacondegrees/baconpyramid.py:95-106 | one actor tier holding the root with cursor 0, actors = (root), no films, complete = -1 |
| Tiers.ActorResult | bacondegrees/baconpyramid.py:360-368 | following parents down tierIndex tiers appends tierIndex ids to path, keeps path as prefix, and gives degrees (length + 1) / 2; the result is the result dictionary of its path |
| Tiers.ActorResultDictionary | bacondegrees/baconpyramid.py:377-392 | the dictionary keeps the path, and its degrees are (\|path\| + 1) / 2 with integer division |
| Tiers.DictionaryPositions | bacondegrees/baconpyramid.py:377-392 | the dictionary's films are the ids at even positions and its actors those at odd positions, both in order, one film per degree |
| Tiers.SplitPath | bacondegrees/baconpyramid.py:385-390 | the enumerate loop's split: entry j of the films is path[2j], entry j of the actors is path[2j + 1] |
| Tiers.WithNode | bacondegrees/baconpyramid.py:258-265 | appending a node changes only tier t (its nodes grow by the node), creating it with cursor 0 when t is one past the end |
| Invariants.TipValid | bacondegrees/baconpyramid.py:95-106 | the fresh tip is a valid, resumable pyramid and satisfies the breadth-first layering at tier 0 |
| Invariants.ActorResultWalks | bacondegrees/baconpyramid.py:360-368 | the reconstructed path of a cast member of a film in the pyramid is a walk back to the root |
| Invariants.LayeredExhausted | bacondegrees/baconpyramid.py:8-15 | a search from the tip that has run past its last actor tier has visited everything reachable |
| Invariants.PointersBound | bacondegrees/baconpyramid.py:8-10 | in a valid pyramid the cursors sum to at most the number of actor and film rows, so the search ends |
| Progress.StartReady | bacondegrees/baconpyramid.py:79-83 | a search set up on a stored pyramid or on the fresh tip, at the tier after the complete one, satisfies the loop invariant |
| Progress.NextOpenTierKeeps | bacondegrees/baconpyramid.py:151-159 | every step keeps the invariant, only appends cached rows, raises the cursor sum by one unless it ends, and a found path is a correct (from the tip, shortest) answer |
| Cursors.NextOpenTierCursors | bacondegrees/baconpyramid.py:271-272 | a step that goes on or finds moves exactly one tier's cursor, by one; a step that ends leaves the tiers as they were; old tiers keep their place, new ones start at cursor 0, and no cursor decreases |
| Cursors.ActorTierCursors | bacondegrees/baconpyramid.py:170-187 | an actor tier step never finds and moves one cursor by one, or (when it ends) none |
| Cursors.FilmTierCursors | bacondegrees/baconpyramid.py:282-302 | a film tier step moves one cursor by one, or (when it ends) none |
| Cursors.AddFilmsCursors | bacondegrees/baconpyramid.py:179-180 | adding an actor's films moves no cursor; a tier it creates starts at cursor 0 |
| Cursors.AddActorsCursors | bacondegrees/baconpyramid.py:293-295 | adding a film's cast moves no cursor; a tier it creates starts at cursor 0 |
| Steps.RootNotShortest | bacondegrees/baconpyramid.py:98-104 | a correct answer for the root is never a shortest one, since the root is within every even distance of itself |
| Progress.ActorTierKeeps | bacondegrees/baconpyramid.py:170-187 | an actor tier step never finds, and keeps the invariant |
| Progress.FilmTierKeeps | bacondegrees/baconpyramid.py:282-302 | a film tier step keeps the invariant and its found result answers the target |
| Progress.FoundAnswers | bacondegrees/baconpyramid.py:299-302 | the path read back from a found node is a correct answer, and a shortest one when the target is farther than the tier below |
| Progress.NextOpenTierRuns | bacondegrees/baconpyramid.py:138-140 | one turn of the loop keeps Running and advances the cursor sum by one, which stays within the number of rows |
| Progress.Unfound | bacondegrees/baconpyramid.py:142-144 | a search from the tip that ends with no result: the target is unreachable unless it is the root, and with caching every reachable actor has a cached row |
| DegreesCore.Bold | bacondegrees/baconhelpers.py:29-30 | the string wrapped between a 4-character bold-on and a 4-character bold-off escape |
| DegreesCore.GetPathAsActorsAndFilms | bacondegrees/bacondegreescore.py:208-218 | one name per id, the film name at even positions and the actor name at odd ones |
| DegreesCore.GetPathList | bacondegrees/bacondegreescore.py:184-198 | (\|path\| + 1) / 2 sentences; sentence j names entries 2j, 2j + 1, 2j + 2 of actor name + path names + Kevin Bacon |
| DegreesCore.ChainSentences | bacondegrees/bacondegreescore.py:189-198 | the while loop yields (\|names\| - 1) / 2 sentences, sentence j linking names 2j and 2j + 2 through name 2j + 1 |
| DegreesCore.PathListCount | bacondegrees/bacondegreescore.py:184-198 | one sentence per degree |
| DegreesCore.PathListStarts | bacondegrees/bacondegreescore.py:187-195 | the chain opens with the actor looked up, in bold |
| DegreesCore.PathListLink | bacondegrees/bacondegreescore.py:192-196 | each sentence ends with the bold name that the next one starts with, so the sentences form one chain |
| DegreesCore.PathListEnds | bacondegrees/bacondegreescore.py:188-196 | for an odd-length path the last sentence ends with Kevin Bacon |
| DegreesCore.Get | bacondegrees/bacondegreescore.py:56-90 | the easter egg exactly for the author's name; Kevin Bacon is 0 degrees with one line; no results exactly for unknown names; Infinity exactly when the actor has no cached path and the pyramid finds none, with one line; a known actor is shown under the row's proper name; a known actor's answer is ParsePath of the cached path if there is one, else ParsePath of the path the pyramid finds, else ShowUnsolvableResult; an unknown name is echoed back in NoResults |
| DegreesCore.ParsePath | bacondegrees/bacondegreescore.py:146-154 | the result's degrees with one sentence per two path steps, the first opening with the bold actor name and, for an odd-length path, the last ending with bold Kevin Bacon |
| DegreesCore.ShowUnsolvableResult | bacondegrees/bacondegreescore.py:225-229 | Infinity with a single line that names the actor and ends "has no connection to Kevin Bacon." |
| DegreesCore.Sentence | bacondegrees/bacondegreescore.py:193-195 | one link: opens with the first name in bold, holds the film's name after " was in " and the bold-on code, and ends with the last name in bold and a full stop |
| DegreesCore.GetSearchesOnlyUnsolved | bacondegrees/bacondegreescore.py:60-83 | the pyramid is consulted only for a known actor without a cached path; the two special names consult neither store nor pyramid |
| DegreesCore.ParsePathLines | bacondegrees/bacondegreescore.py:146-154 | a path answer shows as many lines as its degrees |
| DegreesCore.PathIdsListed | bacondegrees/bacondegreescore.py:146-154 | every id of a path is in the id list its name lookup is built from (films at even positions, actors at odd) |

## Left out

- The SQLite store (`BaconSearch`). The graph is two total lookups over finite id sets. Reading and writing the saved pyramid and the cached rows are a `stored` parameter and a `Saved` return value. `getEntityDictionary` is the parameters `actorNames` / `filmNames`.
- The dictionary that `getEntityDictionary` builds, including its early `None` for an empty id tuple. Missing keys (`KeyError`) are not modelled: every id has a name.
- `gc.collect()`, the loading spinner (`__itterate`), the `KeyboardInterrupt` handler, the benchmark and every `print`. The show functions return a `Shown` value, not printed text. The easter egg's wording and `upper()` are left out.
- `prep`, `update`, `complete`, `getExceptions` and the rest of `BaconDegreesCore`, `BaconTree` and `BaconUpdate`: outside the modelled core.
- Pyramid.BaconPyramid.Find: requires a builder with nothing found yet. The source never resets `__actorNodeFound` or `__paths` between calls on one object, so a second search on the same object is not modelled.
- Pyramid.BaconPyramid.Find: shortest-path, exhaustiveness and root claims are made only for a search from a fresh tip. A stored pyramid is only required to be valid, so resumed searches get a correct path but not a shortest one. This is not only a gap in the proof. There are two source behaviours behind it:
  - `setTier` records `complete` for any tier it finds done (baconpyramid.py:211), including a film tier while the actor tier below it still has actors to expand. A search resumed at `complete + 1` then skips those actors, so its paths need not be shortest.
  - An actor already in a stored pyramid's actor tuple is never added again (baconpyramid.py:331), so a resumed search for it returns no result although it is reachable.
- Pyramid.BaconPyramid.FindAll: the source passes `False`, which is 0. The claim that every reachable actor is cached needs 0 not to be an actor id.
- DegreesCore.Get: `get`'s `useCaching` argument (bacondegreescore.py:56, 81) is not a parameter. It only passes through to the pyramid, so it is folded into the abstract `find`.
- The division in `(len(path) + 1) / 2` is integer division, as Python 2 evaluates it.
- The alias `__tier` / `__nodes` is modelled as `tiers[tierIndex]` read at `setTier` time. This is equivalent because nothing else changes the tier list's identity in between.
- The loops inside `updateActorTier`, `updateFilmTier`, `findActorPyramid` and `getPathList` are separate methods (`AddFilmsToTier`, `AddCastToTier`, `StepUntilDone`, `ChainSentences`). This keeps each loop with its own invariant.
- The store's row for an actor carries a cached result. `get` reads it as `actorRow['Result']` (bacondegreescore.py:77), and the model follows that code as written. The Actors table the store creates (baconsearch.py:19: `ActorId`, `ActorName`, `Path`) has no `Result` column, so as the schema stands the lookup could not return one.

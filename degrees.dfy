/**
 * The front end of a lookup: which of five answers a name gets (the easter egg, Kevin
 * Bacon himself, an unknown name, a path found earlier or by the pyramid, or no
 * connection at all), and how a path of ids is rendered as a chain of
 * "X was in F with Y." sentences, one per degree.
 */
module DegreesCore {
  import opened Wrappers
  import opened Tiers

  /** The name the search starts from, which every rendered chain ends with. */
  const KevinBacon: string := "Kevin Bacon"

  /** The name that gets the easter egg. */
  const Author: string := "Chris Lock"

  /** The terminal escape codes that switch bold text on and off around s. */
  function Bold(s: string): (r: string)
    ensures |r| == |s| + 8 && r[4..4 + |s|] == s
  {
    "\U{1b}[1m" + s + "\U{1b}[0m"
  }

  /** The actor row a name lookup returns: the proper name, the id, and the cached path
      if the actor was solved before. */
  datatype ActorRow = ActorRow(actorId: int, actorName: string, result: Option<PathResult>)

  /** The degrees shown: a number, or 'Infinity' for an actor with no connection. */
  datatype Degrees = Finite(n: int) | Infinity

  /** What a lookup shows: the easter egg, the degrees with one line per step of the
      path, or the message that the name is unknown. */
  datatype Shown =
    | BestResults(actorName: string)
    | Results(actorName: string, degrees: Degrees, lines: seq<string>)
    | NoResults(actorName: string)

  // ---------------------------------------------------------------------------------
  // Rendering a path
  // ---------------------------------------------------------------------------------

  /** The name of the entity at position index of a path: films sit at the even
      positions and actors at the odd ones. */
  function EntityName(index: nat, id: int, actorNames: int -> string, filmNames: int -> string): string {
    if index % 2 == 0 then filmNames(id) else actorNames(id)
  }

  /** The names of the entities along path. */
  function PathNames(path: seq<int>, actorNames: int -> string, filmNames: int -> string): seq<string> {
    seq(|path|, i requires 0 <= i < |path| => EntityName(i, path[i], actorNames, filmNames))
  }

  /** s ends with t. */
  predicate EndsWith(s: string, t: string) {
    |t| <= |s| && s[|s| - |t|..] == t
  }

  /** One link of the chain: it starts with the first name in bold, holds the film's
      name after " was in " and the bold-on code, and ends with the last name in bold
      and a full stop. */
  function Sentence(a: string, film: string, b: string): (r: string)
    ensures |r| == |a| + |film| + |b| + 39
    ensures Bold(a) <= r
    ensures r[|a| + 20..|a| + 20 + |film|] == film
    ensures EndsWith(r, Bold(b) + ".")
  {
    var head := Bold(a) + " was in " + Bold(film) + " with ";
    assert head[|a| + 20..|a| + 20 + |film|] == film;
    head + (Bold(b) + ".")
  }

  /** The sentences over names, taking positions 0, 2, 4, ... as long as two more names
      follow. */
  function Sentences(names: seq<string>): seq<string>
    decreases |names|
  {
    if |names| < 3 then [] else [Sentence(names[0], names[1], names[2])] + Sentences(names[2..])
  }

  /** The chain for an actor: the actor, the names along the path, then Kevin Bacon. */
  function PathList(actorName: string, names: seq<string>): seq<string> {
    Sentences([actorName] + names + [KevinBacon])
  }

  /** There is one sentence for every two names after the first. */
  lemma {:induction false} SentencesCount(names: seq<string>)
    requires |names| >= 1
    ensures |Sentences(names)| == (|names| - 1) / 2
    decreases |names|
  {
    if |names| >= 3 {
      SentencesCount(names[2..]);
    }
  }

  /** Sentence j joins names 2j and 2j + 2 through the film at 2j + 1. */
  lemma {:induction false} SentencesAt(names: seq<string>, j: nat)
    requires j < |Sentences(names)|
    ensures 2 * j + 2 < |names|
    ensures Sentences(names)[j] == Sentence(names[2 * j], names[2 * j + 1], names[2 * j + 2])
    decreases |names|
  {
    if j > 0 {
      SentencesAt(names[2..], j - 1);
    }
  }

  /** The chain has one sentence per degree: (|path| + 1) / 2 of them. */
  lemma {:induction false} PathListCount(actorName: string, names: seq<string>)
    ensures |PathList(actorName, names)| == (|names| + 1) / 2
  {
    SentencesCount([actorName] + names + [KevinBacon]);
  }

  /** The chain starts with the actor looked up. */
  lemma {:induction false} PathListStarts(actorName: string, names: seq<string>)
    requires |names| >= 1
    ensures Bold(actorName) <= PathList(actorName, names)[0]
  {
    var full := [actorName] + names + [KevinBacon];
    PathListCount(actorName, names);
    SentencesAt(full, 0);
  }

  /** Sentence j ends with the name, in bold, that sentence j + 1 starts with. */
  lemma {:induction false} PathListLink(actorName: string, names: seq<string>, j: nat)
    requires 2 * j + 3 <= |names|
    ensures var s := PathList(actorName, names); var z := ([actorName] + names + [KevinBacon])[2 * j + 2];
      j + 1 < |s| && EndsWith(s[j], Bold(z) + ".") && Bold(z) <= s[j + 1]
  {
    var full := [actorName] + names + [KevinBacon];
    PathListCount(actorName, names);
    SentencesAt(full, j);
    SentencesAt(full, j + 1);
  }

  /** For an odd-length path, as the pyramid produces, the chain ends with Kevin Bacon. */
  lemma {:induction false} PathListEnds(actorName: string, names: seq<string>)
    requires |names| % 2 == 1
    ensures var s := PathList(actorName, names); |s| >= 1 && EndsWith(s[|s| - 1], Bold(KevinBacon) + ".")
  {
    var full := [actorName] + names + [KevinBacon];
    var s := PathList(actorName, names);
    PathListCount(actorName, names);
    var last := |s| - 1;
    SentencesAt(full, last);
    assert full[2 * last + 2] == KevinBacon;
  }

  /** The names of the entities along path, in order: entry i is the film name of
      path[i] for even i and the actor name for odd i. */
  method GetPathAsActorsAndFilms(path: seq<int>, actorNames: int -> string, filmNames: int -> string)
    returns (pathAsActorsAndFilms: seq<string>)
    ensures |pathAsActorsAndFilms| == |path|
    ensures forall i | 0 <= i < |path| ::
      pathAsActorsAndFilms[i] == if i % 2 == 0 then filmNames(path[i]) else actorNames(path[i])
    ensures pathAsActorsAndFilms == PathNames(path, actorNames, filmNames)
  {
    pathAsActorsAndFilms := [];
    for index := 0 to |path|
      invariant |pathAsActorsAndFilms| == index
      invariant forall i | 0 <= i < index ::
        pathAsActorsAndFilms[i] == if i % 2 == 0 then filmNames(path[i]) else actorNames(path[i])
    {
      if index % 2 == 0 {
        pathAsActorsAndFilms := pathAsActorsAndFilms + [filmNames(path[index])];
      } else {
        pathAsActorsAndFilms := pathAsActorsAndFilms + [actorNames(path[index])];
      }
    }
  }

  /** The chain of sentences from actorName through the entities of path to Kevin
      Bacon: sentence j names entries 2j, 2j + 1 and 2j + 2 of that name list, and
      there are (|path| + 1) / 2 sentences. */
  method GetPathList(actorName: string, path: seq<int>, actorNames: int -> string, filmNames: int -> string)
    returns (pathList: seq<string>)
    ensures |pathList| == (|path| + 1) / 2
    ensures var full := [actorName] + PathNames(path, actorNames, filmNames) + [KevinBacon];
      forall j | 0 <= j < |pathList| :: pathList[j] == Sentence(full[2 * j], full[2 * j + 1], full[2 * j + 2])
    ensures pathList == PathList(actorName, PathNames(path, actorNames, filmNames))
  {
    var pathAsActorsAndFilms := GetPathAsActorsAndFilms(path, actorNames, filmNames);
    pathAsActorsAndFilms := [actorName] + pathAsActorsAndFilms;
    pathAsActorsAndFilms := pathAsActorsAndFilms + [KevinBacon];
    pathList := ChainSentences(pathAsActorsAndFilms);
  }

  /** The loop of GetPathList: one sentence for each step of two along names. */
  method ChainSentences(names: seq<string>) returns (pathList: seq<string>)
    requires |names| >= 1
    ensures |pathList| == (|names| - 1) / 2
    ensures forall j | 0 <= j < |pathList| :: pathList[j] == Sentence(names[2 * j], names[2 * j + 1], names[2 * j + 2])
    ensures pathList == Sentences(names)
  {
    pathList := [];
    var i := 0;
    while i < |names| - 2
      invariant 0 <= i <= |names| - 1 && i == 2 * |pathList|
      invariant forall j | 0 <= j < |pathList| :: pathList[j] == Sentence(names[2 * j], names[2 * j + 1], names[2 * j + 2])
    {
      pathList := pathList + [Sentence(names[i], names[i + 1], names[i + 2])];
      i := i + 2;
    }
    SentencesCount(names);
    forall j | 0 <= j < |pathList|
      ensures pathList[j] == Sentences(names)[j]
    {
      SentencesAt(names, j);
    }
  }

  // ---------------------------------------------------------------------------------
  // Choosing the answer
  // ---------------------------------------------------------------------------------

  /** The answer for a path: the result's degrees, and one sentence per two steps of
      the path, the first opening with the actor and, for a path of odd length, the
      last ending with Kevin Bacon. */
  function ParsePath(actorName: string, actorResult: PathResult, actorNames: int -> string, filmNames: int -> string): (r: Shown)
    ensures r.Results? && r.actorName == actorName && r.degrees == Finite(actorResult.baconDegrees)
    ensures |r.lines| == (|actorResult.path| + 1) / 2
    ensures |actorResult.path| >= 1 ==> Bold(actorName) <= r.lines[0]
    ensures |actorResult.path| % 2 == 1 ==> EndsWith(r.lines[|r.lines| - 1], Bold(KevinBacon) + ".")
  {
    var names := PathNames(actorResult.path, actorNames, filmNames);
    PathListCount(actorName, names);
    if |names| >= 1 then
      PathListStarts(actorName, names);
      if |names| % 2 == 1 then
        PathListEnds(actorName, names);
        Results(actorName, Finite(actorResult.baconDegrees), PathList(actorName, names))
      else Results(actorName, Finite(actorResult.baconDegrees), PathList(actorName, names))
    else Results(actorName, Finite(actorResult.baconDegrees), PathList(actorName, names))
  }

  /** The answer for an actor with no connection: Infinity, with one line that names
      the actor. */
  function ShowUnsolvableResult(actorName: string): (r: Shown)
    ensures r.Results? && r.actorName == actorName && r.degrees.Infinity? && |r.lines| == 1
    ensures |r.lines[0]| == |actorName| + 49 && r.lines[0][15..15 + |actorName|] == actorName
    ensures EndsWith(r.lines[0], " has no connection to Kevin Bacon.")
  {
    var line := "Inconceivable! " + actorName + " has no connection to Kevin Bacon.";
    assert line[15..15 + |actorName|] == actorName;
    Results(actorName, Infinity, [line])
  }

  /** The answer for a name. lookup stands for the store's actor row by name, find for
      a pyramid search for an actor id, and actorNames / filmNames for the store's
      names by id. */
  function Get(actorName: string, lookup: string -> Option<ActorRow>, find: int -> Option<PathResult>,
               actorNames: int -> string, filmNames: int -> string): (r: Shown)
    // The author's name gets the easter egg, and Kevin Bacon 0 degrees with one line.
    ensures r.BestResults? <==> actorName == Author
    ensures actorName == KevinBacon ==> r == Results(KevinBacon, Finite(0), ["He is himself."])
    // An unknown name gets the no-results answer.
    ensures r.NoResults? <==> actorName != Author && actorName != KevinBacon && lookup(actorName).None?
    // Infinity, with one line, exactly when neither the row nor the pyramid has a path.
    ensures r.Results? && r.degrees.Infinity? <==>
      && actorName != Author && actorName != KevinBacon
      && lookup(actorName).Some? && lookup(actorName).value.result.None?
      && find(lookup(actorName).value.actorId).None?
    ensures r.Results? && r.degrees.Infinity? ==> |r.lines| == 1
    // A known actor is shown under the row's proper name, and a cached path wins over
    // the pyramid.
    ensures r.Results? && actorName != KevinBacon ==> r.actorName == lookup(actorName).value.actorName
    ensures actorName != Author && actorName != KevinBacon && lookup(actorName).Some? && lookup(actorName).value.result.Some? ==>
      r.degrees == Finite(lookup(actorName).value.result.value.baconDegrees)
    // A known actor's answer is the rendering of the cached path, else of the path the
    // pyramid finds, else the no-connection answer; an unknown name is echoed back.
    ensures actorName != Author && actorName != KevinBacon && lookup(actorName).Some? ==>
      var w := lookup(actorName).value;
      && (w.result.Some? ==> r == ParsePath(w.actorName, w.result.value, actorNames, filmNames))
      && (w.result.None? && find(w.actorId).Some? ==> r == ParsePath(w.actorName, find(w.actorId).value, actorNames, filmNames))
      && (w.result.None? && find(w.actorId).None? ==> r == ShowUnsolvableResult(w.actorName))
    ensures r.NoResults? ==> r == NoResults(actorName)
  {
    if actorName == Author then BestResults(actorName)
    else if actorName == KevinBacon then Results(actorName, Finite(0), ["He is himself."])
    else
      match lookup(actorName)
      case None => NoResults(actorName)
      case Some(actorRow) =>
        if actorRow.result.Some? then ParsePath(actorRow.actorName, actorRow.result.value, actorNames, filmNames)
        else
          match find(actorRow.actorId)
          case Some(actorResult) => ParsePath(actorRow.actorName, actorResult, actorNames, filmNames)
          case None => ShowUnsolvableResult(actorRow.actorName)
  }

  /** The pyramid is consulted only for a known actor with no cached path: for any other
      name the answer does not depend on find. The store is not consulted for the two
      special names. */
  lemma {:induction false} GetSearchesOnlyUnsolved(actorName: string, lookup: string -> Option<ActorRow>, lookup': string -> Option<ActorRow>,
                                find: int -> Option<PathResult>, find': int -> Option<PathResult>,
                                actorNames: int -> string, filmNames: int -> string)
    ensures !(actorName != Author && actorName != KevinBacon && lookup(actorName).Some? && lookup(actorName).value.result.None?) ==>
      Get(actorName, lookup, find, actorNames, filmNames) == Get(actorName, lookup, find', actorNames, filmNames)
    ensures actorName == Author || actorName == KevinBacon ==>
      Get(actorName, lookup, find, actorNames, filmNames) == Get(actorName, lookup', find', actorNames, filmNames)
  {
  }

  /** A path answer shows as many lines as its degrees, when the degrees are those of
      the path, as for every result the pyramid builds. */
  lemma {:induction false} ParsePathLines(actorName: string, actorResult: PathResult, actorNames: int -> string, filmNames: int -> string)
    requires actorResult.baconDegrees == (|actorResult.path| + 1) / 2
    ensures var r := ParsePath(actorName, actorResult, actorNames, filmNames);
      r.degrees == Finite(|r.lines|)
  {
  }

  /** Every id of a result's path is in the list the name lookup is built from: the
      films list for even positions and the actors list for odd ones. */
  lemma {:induction false} PathIdsListed(path: seq<int>)
    ensures var r := ActorResultDictionary(path);
      forall i | 0 <= i < |path| :: if i % 2 == 0 then path[i] in r.films else path[i] in r.actors
  {
    var r := ActorResultDictionary(path);
    forall i | 0 <= i < |path|
      ensures if i % 2 == 0 then path[i] in r.films else path[i] in r.actors
    {
      if i % 2 == 0 {
        assert r.films[i / 2] == path[i];
      } else {
        assert r.actors[i / 2] == path[i];
      }
    }
  }
}

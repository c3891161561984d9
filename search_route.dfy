/**
 * app/api/search/route.ts: the search endpoint. The database queries are inputs (the projects and
 * documents they return); the model covers the query guard, the type filter, the relevance score
 * and the ordering of the results.
 */
module SearchRoute {
  import opened Wrappers
  import opened Text

  // ---------------------------------------------------------------------------------------------
  // calculateSearchScore

  /** How many of `pieces` occur in `text`. */
  function Matches(pieces: seq<string>, text: string): (n: nat)
    ensures n <= |pieces|
  {
    if pieces == [] then 0
    else (if Contains(text, pieces[0]) then 1 else 0) + Matches(pieces[1..], text)
  }

  /** The values a score can take for a query: 100, 50, or ten times a number of pieces of the
      lowercased query. */
  predicate ScoreTier(score: int, query: string)
  {
    score == 100 || score == 50 || (score % 10 == 0 && 0 <= score <= 10 * |Split(ToLower(query), " ")|)
  }

  /** `calculateSearchScore(text, query)`: 100 for a prefix, 50 for any other occurrence, and
      otherwise ten for each space-separated piece of the query that occurs, empty pieces included;
      all of it ignoring ASCII case. */
  function Score(text: string, query: string): (score: int)
    ensures StartsWith(ToLower(text), ToLower(query)) ==> score == 100
    ensures !StartsWith(ToLower(text), ToLower(query)) && Contains(ToLower(text), ToLower(query)) ==> score == 50
    ensures !Contains(ToLower(text), ToLower(query)) ==>
      score % 10 == 0 && 0 <= score <= 10 * |Split(ToLower(query), " ")|
    ensures ScoreTier(score, query)
  {
    var lowerText := ToLower(text);
    var lowerQuery := ToLower(query);
    if StartsWith(lowerText, lowerQuery) then 100
    else if Contains(lowerText, lowerQuery) then 50
    else Matches(Split(lowerQuery, " "), lowerText) * 10
  }

  /** Below the two whole-query tiers the score counts the matching pieces, and a one-word query
      that does not occur scores 0. */
  lemma ScoreTiers(text: string, query: string)
    ensures var (t, q) := (ToLower(text), ToLower(query));
      && (!Contains(t, q) ==> Score(text, query) == 10 * Matches(Split(q, " "), t))
      && (!Contains(t, q) && ' ' !in q ==> Score(text, query) == 0)
  {
    var (t, q) := (ToLower(text), ToLower(query));
    if !Contains(t, q) {
      NoMatchWhole(t, q);
    }
  }

  /** The tiers overlap: when every piece of the query occurs but the whole query does not, the
      score is ten per piece, so a query of more than ten such pieces outscores a prefix match. */
  lemma ScatteredPiecesScore(text: string, query: string)
    requires !Contains(ToLower(text), ToLower(query))
    requires forall p :: p in Split(ToLower(query), " ") ==> Contains(ToLower(text), p)
    ensures Score(text, query) == 10 * |Split(ToLower(query), " ")|
    ensures |Split(ToLower(query), " ")| > 10 ==> Score(text, query) > 100
  {
    AllMatch(Split(ToLower(query), " "), ToLower(text));
  }

  lemma {:induction false} AllMatch(pieces: seq<string>, text: string)
    requires forall p :: p in pieces ==> Contains(text, p)
    ensures Matches(pieces, text) == |pieces|
  {
    if pieces != [] {
      assert pieces[0] in pieces;
      AllMatch(pieces[1..], text);
    }
  }

  /** Without a match of the whole query, a one-word query has no matching piece, so the third
      tier is never 100 or 50 for it. */
  lemma NoMatchWhole(t: string, q: string)
    requires !Contains(t, q)
    ensures ' ' !in q ==> Matches(Split(q, " "), t) == 0
  {
    if ' ' !in q {
      SplitNoSpaceWhole(q);
      assert Split(q, " ")[1..] == [];
    }
  }

  /** A text without a space splits into itself alone. */
  lemma SplitNoSpaceWhole(q: string)
    ensures ' ' !in q ==> Split(q, " ") == [q]
  {
    if ' ' !in q {
      FindSpec(q, " ", 0);
      SpaceOccurs(q);
    }
  }

  lemma SpaceOccurs(q: string)
    ensures forall j: nat :: OccursAt(q, " ", j) ==> q[j] == ' '
  {
    forall j: nat | OccursAt(q, " ", j) ensures q[j] == ' ' {
      assert q[j..j + 1][0] == q[j];
    }
  }

  lemma LowerCharIdempotent(c: char)
    ensures LowerChar(LowerChar(c)) == LowerChar(c)
  {
  }

  lemma ToLowerIdempotent(s: string)
    ensures ToLower(ToLower(s)) == ToLower(s)
  {
    forall i | 0 <= i < |s| ensures ToLower(ToLower(s))[i] == ToLower(s)[i] {
      LowerCharIdempotent(s[i]);
    }
  }

  /** The score ignores ASCII case in both the text and the query. */
  lemma ScoreIgnoresCase(text: string, query: string)
    ensures Score(ToLower(text), ToLower(query)) == Score(text, query)
  {
    ToLowerIdempotent(text);
    ToLowerIdempotent(query);
  }

  /** The empty string occurs in every text, so an empty piece (from two spaces in a row, or a
      leading or trailing space) always adds ten. */
  lemma EmptyPieceMatches(pieces: seq<string>, text: string)
    requires [] in pieces
    ensures Matches(pieces, text) >= 1
  {
    if pieces[0] == [] {
      assert OccursAt(text, [], 0);
      FindSpec(text, [], 0);
    } else {
      assert [] in pieces[1..];
      EmptyPieceMatches(pieces[1..], text);
    }
  }

  // ---------------------------------------------------------------------------------------------
  // Ordering the results

  datatype HitKind = ProjectHit | DocumentHit

  /** One search result: what it is, its id and the score of its name or title. */
  datatype Hit = Hit(kind: HitKind, id: string, score: int)

  /** `b` goes before `a` only when `b` scores more, as the comparator `b.searchScore -
      a.searchScore` of a stable sort decides. */
  function Insert(x: Hit, ys: seq<Hit>): (r: seq<Hit>)
    ensures multiset(r) == multiset(ys) + multiset{x}
    ensures |r| == |ys| + 1
  {
    if ys == [] || ys[0].score <= x.score then [x] + ys
    else
      assert ys == [ys[0]] + ys[1..];
      [ys[0]] + Insert(x, ys[1..])
  }

  predicate NonIncreasing(hits: seq<Hit>)
  {
    forall i, j :: 0 <= i < j < |hits| ==> hits[i].score >= hits[j].score
  }

  lemma {:induction false} InsertNonIncreasing(x: Hit, ys: seq<Hit>)
    requires NonIncreasing(ys)
    ensures NonIncreasing(Insert(x, ys))
  {
    if ys != [] && ys[0].score > x.score {
      InsertNonIncreasing(x, ys[1..]);
      var r := Insert(x, ys[1..]);
      assert multiset(r) == multiset(ys[1..]) + multiset{x};
      forall j | 0 <= j < |r| ensures ys[0].score >= r[j].score {
        assert r[j] in multiset(r);
        if r[j] != x {
          assert r[j] in multiset(ys[1..]);
          var k :| 0 <= k < |ys[1..]| && ys[1..][k] == r[j];
          assert ys[k + 1] == r[j];
        }
      }
    }
  }

  /** The results with score `s`, in order. */
  function WithScore(hits: seq<Hit>, s: int): seq<Hit>
  {
    if hits == [] then []
    else (if hits[0].score == s then [hits[0]] else []) + WithScore(hits[1..], s)
  }

  lemma {:induction false} InsertWithScore(x: Hit, ys: seq<Hit>, s: int)
    ensures WithScore(Insert(x, ys), s)
         == if x.score == s then [x] + WithScore(ys, s) else WithScore(ys, s)
  {
    if ys == [] || ys[0].score <= x.score {
      assert ([x] + ys)[1..] == ys;
      if ys != [] && ys[0].score == s && x.score == s {
      }
    } else {
      InsertWithScore(x, ys[1..], s);
      assert ([ys[0]] + Insert(x, ys[1..]))[1..] == Insert(x, ys[1..]);
    }
  }

  lemma InsertWithScoreAll(x: Hit, ys: seq<Hit>)
    ensures forall s :: WithScore(Insert(x, ys), s)
                     == if x.score == s then [x] + WithScore(ys, s) else WithScore(ys, s)
  {
    forall s {
      InsertWithScore(x, ys, s);
    }
  }

  /** `results.sort((a, b) => b.searchScore - a.searchScore)`: the results in non-increasing order
      of score, none lost or added, and results with equal scores in their original order (the
      sort is stable). */
  function SortByScore(hits: seq<Hit>): (r: seq<Hit>)
    ensures NonIncreasing(r)
    ensures multiset(r) == multiset(hits)
    ensures forall s :: WithScore(r, s) == WithScore(hits, s)
  {
    if hits == [] then []
    else
      var rest := SortByScore(hits[1..]);
      SortStep(hits, rest);
      Insert(hits[0], rest)
  }

  /** Inserting the first result into the sorted rest sorts the whole. */
  lemma SortStep(hits: seq<Hit>, rest: seq<Hit>)
    requires hits != []
    requires NonIncreasing(rest) && multiset(rest) == multiset(hits[1..])
    requires forall s :: WithScore(rest, s) == WithScore(hits[1..], s)
    ensures NonIncreasing(Insert(hits[0], rest))
    ensures multiset(Insert(hits[0], rest)) == multiset(hits)
    ensures forall s :: WithScore(Insert(hits[0], rest), s) == WithScore(hits, s)
  {
    InsertNonIncreasing(hits[0], rest);
    InsertWithScoreAll(hits[0], rest);
    assert hits == [hits[0]] + hits[1..];
  }

  // ---------------------------------------------------------------------------------------------
  // GET

  /** A project row of the search query: its id and name. */
  datatype ProjectRow = ProjectRow(id: string, name: string)

  /** A document row of the search query: its id and title. */
  datatype DocumentRow = DocumentRow(id: string, title: string)

  datatype SearchResponse = Unauthorized | Results(hits: seq<Hit>)

  function ProjectHits(projects: seq<ProjectRow>, query: string): (r: seq<Hit>)
    ensures |r| == |projects|
    ensures forall i :: 0 <= i < |r| ==> r[i] == Hit(ProjectHit, projects[i].id, Score(projects[i].name, query))
    ensures forall i :: 0 <= i < |r| ==> r[i].kind == ProjectHit && ScoreTier(r[i].score, query)
  {
    seq(|projects|, i requires 0 <= i < |projects| => Hit(ProjectHit, projects[i].id, Score(projects[i].name, query)))
  }

  function DocumentHits(documents: seq<DocumentRow>, query: string): (r: seq<Hit>)
    ensures |r| == |documents|
    ensures forall i :: 0 <= i < |r| ==> r[i] == Hit(DocumentHit, documents[i].id, Score(documents[i].title, query))
    ensures forall i :: 0 <= i < |r| ==> r[i].kind == DocumentHit && ScoreTier(r[i].score, query)
  {
    seq(|documents|, i requires 0 <= i < |documents| => Hit(DocumentHit, documents[i].id, Score(documents[i].title, query)))
  }

  /** `q || ''` and `type || 'all'`. */
  function QueryOf(q: Option<string>): string
  {
    if q.Some? then q.value else ""
  }

  function TypeOf(t: Option<string>): string
  {
    if Present(t) then t.value else "all"
  }

  predicate SearchesProjects(t: Option<string>)
  {
    TypeOf(t) == "all" || TypeOf(t) == "projects"
  }

  predicate SearchesDocuments(t: Option<string>)
  {
    TypeOf(t) == "all" || TypeOf(t) == "documents"
  }

  /** The unsorted results: the projects' hits, then the documents'. */
  function Collected(query: string, t: Option<string>, projects: seq<ProjectRow>, documents: seq<DocumentRow>): seq<Hit>
  {
    (if SearchesProjects(t) then ProjectHits(projects, query) else [])
      + (if SearchesDocuments(t) then DocumentHits(documents, query) else [])
  }

  /** `GET /api/search`: `user` is the session's user id, `projects` and `documents` what the two
      queries return. Without a session user the answer is 401; a blank query returns no results
      whatever the database holds; otherwise the results are exactly the hits of the searched
      kinds, in non-increasing order of score, equal scores keeping projects before documents and
      the database's order. */
  function Search(user: Option<string>, q: Option<string>, t: Option<string>,
                  projects: seq<ProjectRow>, documents: seq<DocumentRow>): (r: SearchResponse)
    ensures r == Unauthorized <==> !Present(user)
    ensures Present(user) && IsBlank(QueryOf(q)) ==> r == Results([])
    ensures Present(user) && !IsBlank(QueryOf(q)) ==>
      var c := Collected(QueryOf(q), t, projects, documents);
      && r.Results?
      && NonIncreasing(r.hits)
      && multiset(r.hits) == multiset(c)
      && (forall s :: WithScore(r.hits, s) == WithScore(c, s))
  {
    if !Present(user) then Unauthorized
    else if IsBlank(QueryOf(q)) then Results([])
    else Results(SortByScore(Collected(QueryOf(q), t, projects, documents)))
  }

  /** `type=projects` gives only project results and `type=documents` only document results;
      an unknown type gives none. */
  lemma TypeFilter(query: string, t: Option<string>, projects: seq<ProjectRow>, documents: seq<DocumentRow>)
    ensures var c := Collected(query, t, projects, documents);
      && (TypeOf(t) == "projects" ==> forall h :: h in c ==> h.kind == ProjectHit)
      && (TypeOf(t) == "documents" ==> forall h :: h in c ==> h.kind == DocumentHit)
      && (TypeOf(t) == "all" ==> |c| == |projects| + |documents|)
      && (!SearchesProjects(t) && !SearchesDocuments(t) ==> c == [])
  {
  }
}

/** A search from the catalog's tables to the response: the candidate query, its cut, the ranks and the merge. */
module SearchResponses {
  import opened Songs
  import opened Sorting
  import opened Ranking
  import C = Catalog
  import F = Flights

  const MAX_CANDIDATES := 50

  /** Every row of the set once, in some order. */
  ghost predicate Lists(rows: seq<C.Key>, s: set<C.Key>) {
    (forall i, j :: 0 <= i < j < |rows| ==> rows[i] != rows[j]) && (forall k :: k in rows <==> k in s)
  }

  /** What the candidate query may answer: its rows, in an order that is the text index's, up to the limit. */
  ghost predicate Answered(db: C.Db, matching: C.Text -> bool, t: int, rows: seq<C.Key>) {
    exists all :: Lists(all, C.Candidates(db, matching, t)) && rows == Cut(all, MAX_CANDIDATES)
  }

  /** A row as the ranking sees it; starter text is curated. */
  function CandidateOf(db: C.Db, k: C.Key): Candidate
    requires k in db.metadata
  {
    var row := db.metadata[k];
    Candidate(Song(k.videoId, row.title, row.artist, row.thumbnail), k.origin.Starter?)
  }

  function CandidatesOf(db: C.Db, rows: seq<C.Key>): seq<Candidate>
    requires forall k :: k in rows ==> k in db.metadata
  {
    seq(|rows|, i requires 0 <= i < |rows| => CandidateOf(db, rows[i]))
  }

  lemma {:induction false} ListedCount(rows: seq<C.Key>, s: set<C.Key>)
    requires Lists(rows, s)
    ensures |rows| == |s|
  {
    if rows == [] {
      assert s == {};
    } else {
      var n := |rows| - 1;
      var last := rows[n];
      forall k ensures k in rows[..n] <==> k in s - {last} {
        if k in s - {last} { assert k in rows; }
      }
      ListedCount(rows[..n], s - {last});
    }
  }

  /**
   The query answers only eligible rows whose own text matches, no song twice, at most fifty; and all of them unless
   there are more than that.
   */
  lemma AnswerIsExact(rules: C.Rules, db: C.Db, matching: C.Text -> bool, t: int, rows: seq<C.Key>)
    requires C.DbInv(rules, db) && Answered(db, matching, t, rows)
    ensures forall k :: k in rows ==> k in db.metadata && matching(db.metadata[k].text) && C.Eligible(db, k, t)
    ensures OneToOne(CandidatesOf(db, rows), CandidateId())
    ensures var all := C.Candidates(db, matching, t);
      |rows| == (if |all| <= 50 then |all| else 50)
      && (|all| <= 50 ==> forall k :: k in rows <==> k in all)
  {
    C.CandidatesAreExact(rules, db, matching, t);
    var s := C.Candidates(db, matching, t);
    var all :| Lists(all, s) && rows == Cut(all, MAX_CANDIDATES);
    ListedCount(all, s);
    forall k | k in rows ensures k in s { assert k in all; }
    var cs := CandidatesOf(db, rows);
    forall i, j | 0 <= i < j < |cs| ensures CandidateId()(cs[i]) != CandidateId()(cs[j]) {
      assert rows[i] == all[i] && rows[j] == all[j];
      assert rows[i] in s && rows[j] in s;
    }
  }

  /** A result the catalog answered: an eligible row's own text, at its rank, as curated if it is starter text. */
  ghost predicate FromRow(lang: Language, db: C.Db, matching: C.Text -> bool, t: int, query: string, r: Result, rank: nat) {
    exists k :: k in db.metadata && C.Eligible(db, k, t) && matching(db.metadata[k].text)
                && r.song == Song(k.videoId, db.metadata[k].title, db.metadata[k].artist, db.metadata[k].thumbnail)
                && rank == Tier(lang, r.song, k.origin == C.Starter, query)
  }

  lemma TopHasARow(rules: C.Rules, db: C.Db, matching: C.Text -> bool, t: int, rows: seq<C.Key>, query: string,
                   c: Candidate, r: Result)
    requires forall k :: k in rows ==> k in db.metadata && matching(db.metadata[k].text) && C.Eligible(db, k, t)
    requires c in Top(rules.lang, CandidatesOf(db, rows), query) && r.song == c.song
    ensures FromRow(rules.lang, db, matching, t, query, r, Rank(rules.lang, query)(c))
  {
    var candidates := CandidatesOf(db, rows);
    TopIsRanked(rules.lang, candidates, query, c);
    var i :| 0 <= i < |candidates| && candidates[i] == c;
    assert rows[i] in rows && c == CandidateOf(db, rows[i]);
  }

  lemma TopIsRanked(lang: Language, candidates: seq<Candidate>, query: string, c: Candidate)
    requires c in Top(lang, candidates, query)
    ensures c in candidates
  {
    SortByKeyIsStable(candidates, Rank(lang, query));
    assert c in SortByKey(candidates, Rank(lang, query));
    assert c in multiset(SortByKey(candidates, Rank(lang, query)));
  }

  lemma TopIsBest(lang: Language, candidates: seq<Candidate>, query: string, c: Candidate, d: Candidate)
    requires c in Top(lang, candidates, query) && d in candidates && d !in Top(lang, candidates, query)
    ensures Rank(lang, query)(c) <= Rank(lang, query)(d)
  {
    var sorted := SortByKey(candidates, Rank(lang, query));
    SortByKeyIsStable(candidates, Rank(lang, query));
    assert d in multiset(sorted);
    CutKeepsTheBest(sorted, Rank(lang, query), CATALOG_RESULTS, c, d);
  }

  /**
   In every reachable catalog: the response holds every song once; a catalog result is the text of an eligible row and
   is sorted by that row's rank, any other is a found song at its uncurated rank; the catalog's results come in the
   order they were ranked in; and no row the query answered is left out for one that ranks worse.
   */
  lemma SearchAnswersFromTheCatalog(rules: C.Rules, db: C.Db, matching: C.Text -> bool, t: int, rows: seq<C.Key>,
                                    found: seq<Song>, cached: bool, query: string)
    requires C.DbInv(rules, db) && Answered(db, matching, t, rows)
    ensures forall k :: k in rows ==> k in db.metadata
    ensures
      var candidates := CandidatesOf(db, rows);
      var top := Top(rules.lang, candidates, query);
      var key := FinalRank(rules.lang, top, query);
      var response := Respond(rules.lang, candidates, found, cached, query);
      && Sorted(response, key) && OneToOne(response, ResultId())
      && From(response, Catalog) == Tagged(SongsOf(top), Catalog)
      && (forall r :: r in response && r.source == Catalog ==> FromRow(rules.lang, db, matching, t, query, r, key(r)))
      && (forall r :: r in response && r.source != Catalog ==> r.song in found && key(r) == Tier(rules.lang, r.song, false, query))
      && (forall c, d :: c in top && d in candidates && d !in top ==> Rank(rules.lang, query)(c) <= Rank(rules.lang, query)(d))
  {
    AnswerIsExact(rules, db, matching, t, rows);
    var candidates := CandidatesOf(db, rows);
    var top := Top(rules.lang, candidates, query);
    var key := FinalRank(rules.lang, top, query);
    var response := Respond(rules.lang, candidates, found, cached, query);
    SortByKeyIsStable(Merged(top, found, cached), key);
    EachSongOnceByItsOwnRank(rules.lang, candidates, found, cached, query);
    CatalogOrderStands(rules.lang, candidates, found, cached, query);
    forall r | r in response && r.source == Catalog ensures FromRow(rules.lang, db, matching, t, query, r, key(r)) {
      var c :| c in top && r.song == c.song && key(r) == Rank(rules.lang, query)(c);
      TopHasARow(rules, db, matching, t, rows, query, c, r);
    }
    forall c, d | c in top && d in candidates && d !in top
      ensures Rank(rules.lang, query)(c) <= Rank(rules.lang, query)(d)
    {
      TopIsBest(rules.lang, candidates, query, c, d);
    }
  }

  // ---------------------------------------------------------------- discovery

  /** What the response says of discovery: that the catalog had enough, or how asking went. */
  datatype Discovery = NotNeeded | Asked(status: F.Status)

  /** search(): `outcome` is what discovery answers if it is asked. */
  function Search(lang: Language, candidates: seq<Candidate>, more: bool, outcome: F.Outcome,
                  query: string): (seq<Result>, Discovery)
  {
    if Needs(Top(lang, candidates, query), more)
    then (Respond(lang, candidates, outcome.results, outcome.status.Cached?, query), Asked(outcome.status))
    else (Respond(lang, candidates, [], false, query), NotNeeded)
  }

  /**
   Discovery is spared exactly when five catalog songs matched and no more was asked for, and then only the catalog
   answers.  Otherwise its status is passed on; at most ten songs are the catalog's, and each result's source says where it
   came from.
   */
  lemma SourcesAreTrue(lang: Language, candidates: seq<Candidate>, more: bool, outcome: F.Outcome, query: string)
    requires OneToOne(candidates, CandidateId())
    ensures
      var answer := Search(lang, candidates, more, outcome, query);
      && (answer.1 == if |candidates| >= 5 && !more then NotNeeded else Asked(outcome.status))
      && |From(answer.0, Catalog)| == (if |candidates| <= 10 then |candidates| else 10)
      && (forall r :: r in answer.0 ==>
            match r.source
            case Catalog => exists c :: c in candidates && c.song == r.song
            case Youtube => r.song in outcome.results && answer.1.Asked? && outcome.status != F.Cached
            case YoutubeCache => r.song in outcome.results && answer.1 == Asked(F.Cached))
  {
    var answer := Search(lang, candidates, more, outcome, query);
    SortByKeyIsStable(candidates, Rank(lang, query));
    assert |SortByKey(candidates, Rank(lang, query))| == |candidates| by {
      assert |multiset(SortByKey(candidates, Rank(lang, query)))| == |multiset(candidates)|;
    }
    var found := if answer.1.Asked? then outcome.results else [];
    var cached := answer.1.Asked? && outcome.status.Cached?;
    EachSongOnceByItsOwnRank(lang, candidates, found, cached, query);
    CatalogOrderStands(lang, candidates, found, cached, query);
    forall r | r in answer.0
      ensures match r.source
              case Catalog => exists c :: c in candidates && c.song == r.song
              case Youtube => r.song in outcome.results && answer.1.Asked? && outcome.status != F.Cached
              case YoutubeCache => r.song in outcome.results && answer.1 == Asked(F.Cached)
    {
      ResultOf(lang, candidates, found, cached, query, r);
      if r.source == Catalog {
        var c :| c in Top(lang, candidates, query) && r.song == c.song;
        TopIsRanked(lang, candidates, query, c);
      }
    }
  }

  /** No result of one discovery carries the other kind's source. */
  lemma ResultOf(lang: Language, candidates: seq<Candidate>, found: seq<Song>, cached: bool, query: string, r: Result)
    requires r in Respond(lang, candidates, found, cached, query)
    ensures r.source == Catalog || r.source == (if cached then YoutubeCache else Youtube)
  {
    var top := Top(lang, candidates, query);
    SortByKeyIsStable(Merged(top, found, cached), FinalRank(lang, top, query));
    assert r in multiset(Merged(top, found, cached));
    var i :| 0 <= i < |Merged(top, found, cached)| && Merged(top, found, cached)[i] == r;
  }
}

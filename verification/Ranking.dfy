/** Which version of a song comes first: ranks by title and channel words, merging, and cutting. */
module Ranking {
  import opened Prelude
  import opened Sorting
  import opened Songs

  // ---------------------------------------------------------------- words

  function WordEnd(lang: Language, s: string, i: nat): (j: nat)
    requires i <= |s|
    ensures i <= j <= |s| && (j < |s| ==> !lang.alphanumeric(s[j]))
    ensures forall k :: i <= k < j ==> lang.alphanumeric(s[k])
    decreases |s| - i
  {
    if i < |s| && lang.alphanumeric(s[i]) then WordEnd(lang, s, i + 1) else i
  }

  function WordsFrom(lang: Language, s: string, i: nat): seq<string>
    requires i <= |s|
    decreases |s| - i
  {
    if i == |s| then []
    else if lang.alphanumeric(s[i]) then [s[i..WordEnd(lang, s, i)]] + WordsFrom(lang, s, WordEnd(lang, s, i))
    else WordsFrom(lang, s, i + 1)
  }

  /** `split` on what is not alphanumeric, dropping empty pieces. */
  function Words(lang: Language, s: string): seq<string> {
    WordsFrom(lang, s, 0)
  }

  /** A maximal run of alphanumeric characters. */
  predicate WordAt(lang: Language, s: string, i: int, j: int) {
    && 0 <= i < j <= |s| && (i == 0 || !lang.alphanumeric(s[i - 1])) && (j == |s| || !lang.alphanumeric(s[j]))
    && forall k :: i <= k < j ==> lang.alphanumeric(s[k])
  }

  lemma {:induction false} WordsFromExact(lang: Language, s: string, i: nat, w: string)
    requires i <= |s| && (i == 0 || i == |s| || !lang.alphanumeric(s[i - 1]) || !lang.alphanumeric(s[i]))
    ensures w in WordsFrom(lang, s, i) <==> exists a, b :: i <= a && WordAt(lang, s, a, b) && s[a..b] == w
    decreases |s| - i
  {
    if i < |s| {
      if lang.alphanumeric(s[i]) {
        var j := WordEnd(lang, s, i);
        WordsFromExact(lang, s, j, w);
        assert WordAt(lang, s, i, j);
        forall a, b | i <= a && WordAt(lang, s, a, b) ensures (a == i && b == j) || j <= a { }
      } else {
        WordsFromExact(lang, s, i + 1, w);
      }
    }
  }

  /** The words of a text are exactly its maximal alphanumeric runs. */
  lemma WordsAreMaximalRuns(lang: Language, s: string, w: string)
    ensures w in Words(lang, s) <==> exists a, b :: WordAt(lang, s, a, b) && s[a..b] == w
  {
    WordsFromExact(lang, s, 0, w);
  }

  // ---------------------------------------------------------------- tiers

  const DERIVATIVE := {"8d", "acapella", "cover", "covers", "instrumental", "karaoke", "mashup", "nightcore",
                       "parody", "reaction", "remix", "reverb", "slowed", "sped", "tribute"}

  predicate EndsWith(s: string, suffix: string) {
    |suffix| <= |s| && s[|s| - |suffix|..] == suffix
  }

  /** The query does not ask for some derivative word of the title or channel. */
  predicate Unrequested(lang: Language, title: string, channel: string, query: string) {
    exists w :: w in Words(lang, title) + Words(lang, channel) && w in DERIVATIVE && w !in Words(lang, query)
  }

  predicate Official(lang: Language, channel: string) {
    EndsWith(channel, "vevo") || EndsWith(channel, " - topic") || "official" in Words(lang, channel)
  }

  predicate Lyrics(lang: Language, title: string) {
    "lyrics" in Words(lang, title) || "lyric" in Words(lang, title)
  }

  predicate OwnUpload(lang: Language, title: string, channel: string) {
    && channel != [] && channel <= title
    && (|channel| == |title| || !lang.alphanumeric(title[|channel|]))
  }

  /** Lower is better; the query is already normalized. */
  function Tier(lang: Language, song: Song, curated: bool, query: string): nat {
    var title, channel := lang.normalize(song.title), lang.normalize(song.artist);
    if Unrequested(lang, title, channel, query) then 4
    else if curated then 0
    else if Official(lang, channel) then
      if Lyrics(lang, title) || ("live" in Words(lang, title) && "live" !in Words(lang, query)) then 1 else 0
    else if OwnUpload(lang, title, channel) || "official" in Words(lang, title) then 1
    else if Lyrics(lang, title) then 3
    else 2
  }

  /** Asking for more words never ranks a song worse, and curated text is ranked below nothing but what is unrequested. */
  lemma AskingForMoreHelps(lang: Language, song: Song, curated: bool, query: string, longer: string)
    requires forall w :: w in Words(lang, query) ==> w in Words(lang, longer)
    ensures Tier(lang, song, curated, longer) <= Tier(lang, song, curated, query) <= 4
    ensures Tier(lang, song, true, query) <= Tier(lang, song, false, query)
    ensures Tier(lang, song, true, query) in {0, 4}
  {
    var title, channel := lang.normalize(song.title), lang.normalize(song.artist);
    if Unrequested(lang, title, channel, longer) {
      var w :| w in Words(lang, title) + Words(lang, channel) && w in DERIVATIVE && w !in Words(lang, longer);
      assert w !in Words(lang, query);
    }
  }

  /** Checked by hand, or the artist's channel showing neither lyrics nor a concert nobody asked for. */
  predicate IsMain(lang: Language, song: Song, curated: bool, query: string) {
    var title, channel := lang.normalize(song.title), lang.normalize(song.artist);
    || curated
    || (Official(lang, channel) && !Lyrics(lang, title) && ("live" in Words(lang, title) ==> "live" in Words(lang, query)))
  }

  /** From the artist's channel, a channel of the name the title starts with, or said to be official. */
  predicate IsOfficial(lang: Language, song: Song) {
    var title, channel := lang.normalize(song.title), lang.normalize(song.artist);
    Official(lang, channel) || OwnUpload(lang, title, channel) || "official" in Words(lang, title)
  }

  /** What of a version decides: being asked for, being the main one, being official, and showing no lyrics, in this order. */
  predicate Better(lang: Language, x: Song, cx: bool, y: Song, cy: bool, query: string) {
    var ux := Unrequested(lang, lang.normalize(x.title), lang.normalize(x.artist), query);
    var uy := Unrequested(lang, lang.normalize(y.title), lang.normalize(y.artist), query);
    !ux && (uy
            || (IsMain(lang, x, cx, query) && !IsMain(lang, y, cy, query))
            || (!IsMain(lang, y, cy, query) && !IsOfficial(lang, y)
                && (IsOfficial(lang, x) || (!Lyrics(lang, lang.normalize(x.title)) && Lyrics(lang, lang.normalize(y.title))))))
  }

  /** Of any two versions, curated or not, the one ranked first is the better one; those alike rank alike. */
  lemma TiersOrderVersions(lang: Language, x: Song, cx: bool, y: Song, cy: bool, query: string)
    ensures Tier(lang, x, cx, query) < Tier(lang, y, cy, query) <==> Better(lang, x, cx, y, cy, query)
  {
    TierIs(lang, x, cx, query);
    TierIs(lang, y, cy, query);
  }

  lemma TierIs(lang: Language, song: Song, curated: bool, query: string)
    ensures var tier := Tier(lang, song, curated, query);
      var unrequested := Unrequested(lang, lang.normalize(song.title), lang.normalize(song.artist), query);
      && (tier == 4 <==> unrequested)
      && (tier == 0 <==> !unrequested && IsMain(lang, song, curated, query))
      && (tier == 1 <==> !unrequested && !IsMain(lang, song, curated, query) && IsOfficial(lang, song))
      && (tier in {2, 3} <==> !unrequested && !IsMain(lang, song, curated, query) && !IsOfficial(lang, song))
      && (tier == 3 ==> Lyrics(lang, lang.normalize(song.title))) && (tier == 2 ==> !Lyrics(lang, lang.normalize(song.title)))
  {
  }

  // ---------------------------------------------------------------- merging

  /** The songs whose ids have not been seen, each id once, first occurrence first. */
  function Unseen(songs: seq<Song>, seen: set<string>): seq<Song> {
    if songs == [] then []
    else if songs[0].videoId in seen then Unseen(songs[1..], seen)
    else [songs[0]] + Unseen(songs[1..], seen + {songs[0].videoId})
  }

  lemma {:induction false} UnseenExact(songs: seq<Song>, seen: set<string>)
    ensures DistinctIds(Unseen(songs, seen))
    ensures Ids(Unseen(songs, seen)) == Ids(songs) - seen
    ensures forall s :: s in Unseen(songs, seen) ==> s in songs
  {
    if songs != [] {
      var rest := songs[1..];
      assert songs == [songs[0]] + rest;
      if songs[0].videoId in seen {
        UnseenExact(rest, seen);
        assert Ids(songs) == Ids(rest) + {songs[0].videoId};
      } else {
        var more := seen + {songs[0].videoId};
        UnseenExact(rest, more);
        var r := Unseen(rest, more);
        assert Unseen(songs, seen) == [songs[0]] + r;
        forall s | s in r ensures s.videoId != songs[0].videoId { assert s.videoId in Ids(r); }
        assert Ids([songs[0]] + r) == {songs[0].videoId} + Ids(r);
        assert Ids(songs) == {songs[0].videoId} + Ids(rest);
      }
    }
  }

  lemma {:induction false} UnseenPushed(songs: seq<Song>, song: Song, seen: set<string>)
    ensures Unseen(songs + [song], seen) ==
            Unseen(songs, seen) + (if song.videoId in seen + Ids(songs) then [] else [song])
  {
    if songs == [] {
      assert [] + [song] == [song];
      assert Ids(songs) == {};
    } else {
      assert (songs + [song])[1..] == songs[1..] + [song];
      assert songs == [songs[0]] + songs[1..];
      UnseenPushed(songs[1..], song, seen);
      UnseenPushed(songs[1..], song, seen + {songs[0].videoId});
      assert Ids(songs) == {songs[0].videoId} + Ids(songs[1..]);
    }
  }

  /** The loop that keeps what a set of ids has not seen. */
  method KeepUnseen(songs: seq<Song>, known: set<string>) returns (kept: seq<Song>)
    ensures kept == Unseen(songs, known)
  {
    kept := [];
    var seen := known;
    for i := 0 to |songs|
      invariant kept == Unseen(songs[..i], known) && seen == known + Ids(songs[..i])
    {
      assert songs[..i + 1] == songs[..i] + [songs[i]];
      UnseenPushed(songs[..i], songs[i], known);
      assert Ids(songs[..i + 1]) == Ids(songs[..i]) + {songs[i].videoId};
      if songs[i].videoId !in seen {
        kept := kept + [songs[i]];
        seen := seen + {songs[i].videoId};
      }
    }
    assert songs[..|songs|] == songs;
  }

  // ---------------------------------------------------------------- the response

  const CATALOG_RESULTS := 10
  const ENOUGH := 5

  datatype Candidate = Candidate(song: Song, curated: bool)
  datatype Source = Catalog | Youtube | YoutubeCache
  datatype Result = Result(song: Song, source: Source)

  function Rank(lang: Language, query: string): Candidate -> nat {
    (c: Candidate) => Tier(lang, c.song, c.curated, query)
  }

  function Cut<T>(s: seq<T>, n: nat): seq<T> {
    if |s| <= n then s else s[..n]
  }

  function Top(lang: Language, candidates: seq<Candidate>, query: string): seq<Candidate> {
    Cut(SortByKey(candidates, Rank(lang, query)), CATALOG_RESULTS)
  }

  function SongsOf(candidates: seq<Candidate>): seq<Song> {
    seq(|candidates|, i requires 0 <= i < |candidates| => candidates[i].song)
  }

  /** Discovery is needed when the catalog has few songs or the caller asked for more. */
  predicate Needs(top: seq<Candidate>, more: bool) {
    |top| < ENOUGH || more
  }

  function Tagged(songs: seq<Song>, source: Source): seq<Result> {
    seq(|songs|, i requires 0 <= i < |songs| => Result(songs[i], source))
  }

  /** The rank kept for a catalog song, or the rank of a found one. */
  function Curated(top: seq<Candidate>, id: string): bool {
    if top == [] then false
    else if top[|top| - 1].song.videoId == id then top[|top| - 1].curated
    else Curated(top[..|top| - 1], id)
  }

  function FinalRank(lang: Language, top: seq<Candidate>, query: string): Result -> nat {
    (r: Result) => Tier(lang, r.song, Curated(top, r.song.videoId), query)
  }

  function Merged(top: seq<Candidate>, found: seq<Song>, cached: bool): seq<Result> {
    Tagged(SongsOf(top), Catalog) + Tagged(Unseen(found, Ids(SongsOf(top))), if cached then YoutubeCache else Youtube)
  }

  function Respond(lang: Language, candidates: seq<Candidate>, found: seq<Song>, cached: bool,
                   query: string): seq<Result> {
    var top := Top(lang, candidates, query);
    SortByKey(Merged(top, found, cached), FinalRank(lang, top, query))
  }

  lemma {:induction false} CuratedIs(top: seq<Candidate>, i: nat)
    requires i < |top| && DistinctIds(SongsOf(top))
    ensures Curated(top, top[i].song.videoId) == top[i].curated
  {
    var n := |top| - 1;
    if i < n {
      assert SongsOf(top)[i].videoId != SongsOf(top)[n].videoId;
      forall a, b | 0 <= a < b < n ensures SongsOf(top[..n])[a].videoId != SongsOf(top[..n])[b].videoId {
        assert SongsOf(top)[a].videoId != SongsOf(top)[b].videoId;
      }
      CuratedIs(top[..n], i);
    }
  }

  /** Cutting a sorted list drops nothing ranked better than what it keeps. */
  lemma CutKeepsTheBest<T>(s: seq<T>, key: T -> nat, n: nat, x: T, y: T)
    requires Sorted(s, key) && x in Cut(s, n) && y in s && y !in Cut(s, n)
    ensures key(x) <= key(y)
  {
    var c := Cut(s, n);
    assert forall k :: 0 <= k < |c| ==> c[k] == s[k] && c[k] in c;
    var i :| 0 <= i < |c| && c[i] == x;
    var j :| 0 <= j < |s| && s[j] == y;
  }

  /**
   The response: every catalog song kept, every found song the catalog lacks once, sorted by rank, and within a rank
   the catalog's songs first and each side in its own order.
   */
  lemma ResponseIsMergedByRank(lang: Language, candidates: seq<Candidate>, found: seq<Song>, cached: bool, query: string)
    ensures
      var top := Top(lang, candidates, query);
      var key := FinalRank(lang, top, query);
      var response := Respond(lang, candidates, found, cached, query);
      var source := if cached then YoutubeCache else Youtube;
      var added := Unseen(found, Ids(SongsOf(top)));
      && Sorted(response, key)
      && multiset(response) == multiset(Tagged(SongsOf(top), Catalog)) + multiset(Tagged(added, source))
      && Ids(added) == Ids(found) - Ids(SongsOf(top)) && DistinctIds(added)
      && (forall v :: WithKey(response, key, v) == WithKey(Tagged(SongsOf(top), Catalog), key, v) + WithKey(Tagged(added, source), key, v))
  {
    var top := Top(lang, candidates, query);
    var key := FinalRank(lang, top, query);
    var a, b := Tagged(SongsOf(top), Catalog), Tagged(Unseen(found, Ids(SongsOf(top))), if cached then YoutubeCache else Youtube);
    UnseenExact(found, Ids(SongsOf(top)));
    SortByKeyIsStable(a + b, key);
    forall v ensures WithKey(a + b, key, v) == WithKey(a, key, v) + WithKey(b, key, v) { WithKeyConcat(a, b, key, v); }
  }

  // ---------------------------------------------------------------- whose rank it is

  function CandidateId(): Candidate -> string {
    (c: Candidate) => c.song.videoId
  }

  function ResultId(): Result -> string {
    (r: Result) => r.song.videoId
  }

  /** The cut catalog songs are still distinct. */
  lemma TopIsDistinct(lang: Language, candidates: seq<Candidate>, query: string)
    requires OneToOne(candidates, CandidateId())
    ensures OneToOne(Top(lang, candidates, query), CandidateId()) && DistinctIds(SongsOf(Top(lang, candidates, query)))
  {
    SortKeepsOneToOne(candidates, Rank(lang, query), CandidateId());
    var top := Top(lang, candidates, query);
    assert OneToOne(top, CandidateId());
    forall i, j | 0 <= i < j < |top| ensures SongsOf(top)[i].videoId != SongsOf(top)[j].videoId {
      assert CandidateId()(top[i]) != CandidateId()(top[j]);
    }
  }

  lemma {:induction false} CuratedNone(top: seq<Candidate>, id: string)
    requires id !in Ids(SongsOf(top))
    ensures !Curated(top, id)
  {
    if top != [] {
      assert SongsOf(top)[|top| - 1] in SongsOf(top);
      forall s | s in SongsOf(top[..|top| - 1]) ensures s in SongsOf(top) {
        var i :| 0 <= i < |top| - 1 && SongsOf(top[..|top| - 1])[i] == s;
        assert SongsOf(top)[i] == s;
      }
      CuratedNone(top[..|top| - 1], id);
    }
  }

  /** In the response a catalog song has the rank it was first sorted by, and the catalog's part is still sorted. */
  lemma CatalogRanksStand(lang: Language, candidates: seq<Candidate>, query: string)
    requires OneToOne(candidates, CandidateId())
    ensures
      var top := Top(lang, candidates, query);
      && (forall i, s: Source :: 0 <= i < |top| ==> FinalRank(lang, top, query)(Result(top[i].song, s)) == Rank(lang, query)(top[i]))
      && Sorted(Tagged(SongsOf(top), Catalog), FinalRank(lang, top, query))
  {
    var top := Top(lang, candidates, query);
    TopIsDistinct(lang, candidates, query);
    forall i, s: Source | 0 <= i < |top|
      ensures FinalRank(lang, top, query)(Result(top[i].song, s)) == Rank(lang, query)(top[i])
    {
      CuratedIs(top, i);
    }
    SortByKeyIsStable(candidates, Rank(lang, query));
    assert Sorted(top, Rank(lang, query));
    var tagged, key := Tagged(SongsOf(top), Catalog), FinalRank(lang, top, query);
    forall i, j | 0 <= i < j < |tagged| ensures key(tagged[i]) <= key(tagged[j]) {
      assert tagged[i] == Result(top[i].song, Catalog) && tagged[j] == Result(top[j].song, Catalog);
    }
  }

  /** The results of one source, in their order. */
  function From(results: seq<Result>, source: Source): seq<Result> {
    if results == [] then []
    else (if results[0].source == source then [results[0]] else []) + From(results[1..], source)
  }

  lemma {:induction false} FromMembers(results: seq<Result>, source: Source)
    ensures forall r :: r in From(results, source) <==> r in results && r.source == source
  {
    if results != [] {
      FromMembers(results[1..], source);
      assert results == [results[0]] + results[1..];
    }
  }

  lemma {:induction false} FromOnly(results: seq<Result>, source: Source)
    ensures (forall r :: r in results ==> r.source == source) ==> From(results, source) == results
    ensures (forall r :: r in results ==> r.source != source) ==> From(results, source) == []
  {
    if results != [] {
      FromOnly(results[1..], source);
      assert results == [results[0]] + results[1..];
    }
  }

  lemma {:induction false} FromConcat(a: seq<Result>, b: seq<Result>, source: Source)
    ensures From(a + b, source) == From(a, source) + From(b, source)
  {
    if a == [] {
      assert a + b == b;
      assert [] + From(b, source) == From(b, source);
    } else {
      var first := if a[0].source == source then [a[0]] else [];
      assert (a + b)[0] == a[0] && (a + b)[1..] == a[1..] + b;
      FromConcat(a[1..], b, source);
      assert first + (From(a[1..], source) + From(b, source)) == (first + From(a[1..], source)) + From(b, source);
    }
  }

  lemma {:induction false} FromKeepsSorted(results: seq<Result>, source: Source, key: Result -> nat)
    requires Sorted(results, key)
    ensures Sorted(From(results, source), key)
  {
    if results != [] {
      FromKeepsSorted(results[1..], source, key);
      FromMembers(results[1..], source);
      forall r | r in From(results[1..], source) ensures key(results[0]) <= key(r) {
        assert r in results[1..];
      }
    }
  }

  lemma {:induction false} FromWithKey(results: seq<Result>, source: Source, key: Result -> nat, v: nat)
    ensures From(WithKey(results, key, v), source) == WithKey(From(results, source), key, v)
  {
    if results != [] {
      var x, rest := results[0], results[1..];
      FromWithKey(rest, source, key, v);
      FromConcat(if key(x) == v then [x] else [], WithKey(rest, key, v), source);
      WithKeyConcat(if x.source == source then [x] else [], From(rest, source), key, v);
      FromOnly([x], source);
      assert [x][1..] == [];
    }
  }

  /** One key's results of a source, before and after a stable sort. */
  lemma SortKeepsFrom(results: seq<Result>, key: Result -> nat, source: Source, v: nat)
    ensures WithKey(From(SortByKey(results, key), source), key, v) == WithKey(From(results, source), key, v)
  {
    SortByKeyIsStable(results, key);
    FromWithKey(SortByKey(results, key), source, key, v);
    FromWithKey(results, source, key, v);
  }

  /** A stable sort leaves what is sorted already in its order. */
  lemma SortLeavesSorted(a: seq<Result>, b: seq<Result>, key: Result -> nat, source: Source)
    requires Sorted(a, key)
    requires (forall r :: r in a ==> r.source == source) && (forall r :: r in b ==> r.source != source)
    ensures From(SortByKey(a + b, key), source) == a
  {
    FromOnly(a, source);
    FromOnly(b, source);
    FromConcat(a, b, source);
    assert From(a + b, source) == a;
    var kept := From(SortByKey(a + b, key), source);
    SortByKeyIsStable(a + b, key);
    FromKeepsSorted(SortByKey(a + b, key), source, key);
    forall v ensures WithKey(kept, key, v) == WithKey(a, key, v) { SortKeepsFrom(a + b, key, source, v); }
    StableSortIsUnique(kept, a, key);
  }

  /** The stable sort moves found songs only: the catalog's songs come in the order they were ranked in. */
  lemma CatalogOrderStands(lang: Language, candidates: seq<Candidate>, found: seq<Song>, cached: bool, query: string)
    requires OneToOne(candidates, CandidateId())
    ensures From(Respond(lang, candidates, found, cached, query), Catalog) ==
            Tagged(SongsOf(Top(lang, candidates, query)), Catalog)
  {
    var top := Top(lang, candidates, query);
    CatalogRanksStand(lang, candidates, query);
    SortLeavesSorted(Tagged(SongsOf(top), Catalog),
                     Tagged(Unseen(found, Ids(SongsOf(top))), if cached then YoutubeCache else Youtube),
                     FinalRank(lang, top, query), Catalog);
  }

  /** Every song comes once, and what is sorted by is each song's own rank: the candidate's, or a found song's uncurated one. */
  lemma EachSongOnceByItsOwnRank(lang: Language, candidates: seq<Candidate>, found: seq<Song>, cached: bool, query: string)
    requires OneToOne(candidates, CandidateId())
    ensures
      var top := Top(lang, candidates, query);
      var key := FinalRank(lang, top, query);
      var response := Respond(lang, candidates, found, cached, query);
      && OneToOne(response, ResultId())
      && (forall r :: r in response && r.source == Catalog ==>
            exists c :: c in top && r.song == c.song && key(r) == Rank(lang, query)(c))
      && (forall r :: r in response && r.source != Catalog ==> r.song in found && key(r) == Tier(lang, r.song, false, query))
  {
    var top := Top(lang, candidates, query);
    var key := FinalRank(lang, top, query);
    var response := Respond(lang, candidates, found, cached, query);
    var merged := Merged(top, found, cached);
    MergedIsDistinct(lang, candidates, found, cached, query);
    SortKeepsOneToOne(merged, key, ResultId());
    SortByKeyIsStable(merged, key);
    CatalogRanksStand(lang, candidates, query);
    forall r | r in response ensures r in merged { assert r in multiset(response); }
    forall r | r in response && r.source == Catalog
      ensures exists c :: c in top && r.song == c.song && key(r) == Rank(lang, query)(c)
    {
      var i := MergedCatalog(top, found, cached, r);
      assert top[i] in top;
    }
    forall r | r in response && r.source != Catalog ensures r.song in found && key(r) == Tier(lang, r.song, false, query) {
      MergedFound(top, found, cached, r);
      CuratedNone(top, r.song.videoId);
    }
  }

  lemma MergedCatalog(top: seq<Candidate>, found: seq<Song>, cached: bool, r: Result)
    returns (i: nat)
    requires r in Merged(top, found, cached) && r.source == Catalog
    ensures i < |top| && r == Result(top[i].song, Catalog)
  {
    var j :| 0 <= j < |Merged(top, found, cached)| && Merged(top, found, cached)[j] == r;
    i := j;
  }

  lemma MergedFound(top: seq<Candidate>, found: seq<Song>, cached: bool, r: Result)
    requires r in Merged(top, found, cached) && r.source != Catalog
    ensures r.song in found && r.song.videoId !in Ids(SongsOf(top))
  {
    var added := Unseen(found, Ids(SongsOf(top)));
    UnseenExact(found, Ids(SongsOf(top)));
    var j :| 0 <= j < |Merged(top, found, cached)| && Merged(top, found, cached)[j] == r;
    assert r.song == added[j - |top|];
    assert r.song.videoId in Ids(added);
  }

  lemma MergedIsDistinct(lang: Language, candidates: seq<Candidate>, found: seq<Song>, cached: bool, query: string)
    requires OneToOne(candidates, CandidateId())
    ensures OneToOne(Merged(Top(lang, candidates, query), found, cached), ResultId())
  {
    var top := Top(lang, candidates, query);
    var songs, added := SongsOf(top), Unseen(found, Ids(SongsOf(top)));
    var merged := Merged(top, found, cached);
    TopIsDistinct(lang, candidates, query);
    UnseenExact(found, Ids(songs));
    forall i, j | 0 <= i < j < |merged| ensures ResultId()(merged[i]) != ResultId()(merged[j]) {
      if i < |top| && |top| <= j {
        assert songs[i].videoId in Ids(songs) && added[j - |top|].videoId in Ids(added);
      } else if j < |top| {
        assert songs[i].videoId != songs[j].videoId;
      } else {
        assert added[i - |top|].videoId != added[j - |top|].videoId;
      }
    }
  }

  /** The merge as it is built: the cut catalog songs, then each found song pushed unless its id was seen, then sorted. */
  method MergeResults(lang: Language, candidates: seq<Candidate>, found: seq<Song>, cached: bool, query: string)
    returns (results: seq<Result>)
    ensures results == Respond(lang, candidates, found, cached, query)
  {
    var top := Cut(SortByKey(candidates, Rank(lang, query)), CATALOG_RESULTS);
    results := Tagged(SongsOf(top), Catalog);
    var source := if cached then YoutubeCache else Youtube;
    var added := KeepUnseen(found, Ids(SongsOf(top)));
    ghost var catalog := results;
    for i := 0 to |added|
      invariant results == catalog + Tagged(added[..i], source)
    {
      assert Tagged(added[..i + 1], source) == Tagged(added[..i], source) + [Result(added[i], source)];
      results := results + [Result(added[i], source)];
    }
    assert added[..|added|] == added;
    results := SortByKey(results, FinalRank(lang, top, query));
  }

  // ---------------------------------------------------------------- the provider's page

  const CANDIDATES := 25
  const MAX_RESULTS := 10

  function Valid(items: seq<Option<Song>>): seq<Song> {
    if items == [] then []
    else (if items[0].Some? then [items[0].value] else []) + Valid(items[1..])
  }

  function Retained(songs: seq<Song>, music: set<string>): seq<Song> {
    if songs == [] then []
    else (if songs[0].videoId in music then [songs[0]] else []) + Retained(songs[1..], music)
  }

  function Page(items: seq<Option<Song>>): seq<Song> {
    Cut(Unseen(Valid(items), {}), CANDIDATES)
  }

  function Plain(lang: Language, query: string): Song -> nat {
    (s: Song) => Tier(lang, s, false, query)
  }

  /** What the provider's search answers: None when the page was useless or its music lookup failed. */
  function Discovered(lang: Language, items: seq<Option<Song>>, music: Option<set<string>>,
                      query: string): Option<seq<Song>> {
    var page := Page(items);
    if items != [] && page == [] then None
    else if page == [] then Some([])
    else if music.None? then None
    else Some(Cut(SortByKey(Retained(page, music.value), Plain(lang, query)), MAX_RESULTS))
  }

  lemma {:induction false} RetainedMembers(songs: seq<Song>, music: set<string>)
    ensures forall s :: s in Retained(songs, music) <==> s in songs && s.videoId in music
  {
    if songs != [] {
      RetainedMembers(songs[1..], music);
      assert songs == [songs[0]] + songs[1..];
    }
  }

  /** A discovery holds only music of the page, at most ten songs, and leaves out no song of the page that ranks better. */
  lemma DiscoveryKeepsTheBest(lang: Language, items: seq<Option<Song>>, music: set<string>, query: string, x: Song,
                              y: Song)
    requires Discovered(lang, items, Some(music), query).Some?
    requires x in Discovered(lang, items, Some(music), query).value
    requires y in Page(items) && y.videoId in music && y !in Discovered(lang, items, Some(music), query).value
    ensures x in Page(items) && x.videoId in music
    ensures Tier(lang, x, false, query) <= Tier(lang, y, false, query)
  {
    var kept, key := Retained(Page(items), music), Plain(lang, query);
    RetainedMembers(Page(items), music);
    SortByKeyIsStable(kept, key);
    assert x in multiset(SortByKey(kept, key)) && y in multiset(SortByKey(kept, key));
    CutKeepsTheBest(SortByKey(kept, key), key, MAX_RESULTS, x, y);
  }

  /**
   A page is its first 25 valid songs of different ids.  A search answers nothing at all when none of a page's items is
   valid or the music of its songs is not known, and else at most ten of them, all of its music if that is no more.
   */
  lemma DiscoverySizes(lang: Language, items: seq<Option<Song>>, music: Option<set<string>>, query: string)
    ensures Page(items) <= Unseen(Valid(items), {})
    ensures |Page(items)| == (if |Unseen(Valid(items), {})| <= 25 then |Unseen(Valid(items), {})| else 25)
    ensures var found := Discovered(lang, items, music, query);
      && (found.None? <==> (items != [] && Page(items) == []) || (Page(items) != [] && music.None?))
      && (found.Some? ==>
            var kept := if Page(items) == [] then [] else Retained(Page(items), music.value);
            && |found.value| == (if |kept| <= 10 then |kept| else 10)
            && (|kept| <= 10 ==> multiset(found.value) == multiset(kept)))
  {
    if music.Some? {
      var kept, key := Retained(Page(items), music.value), Plain(lang, query);
      SortByKeyIsStable(kept, key);
      assert |SortByKey(kept, key)| == |kept| by { assert |multiset(SortByKey(kept, key))| == |multiset(kept)|; }
    }
  }

  lemma PagePushed(items: seq<Option<Song>>, item: Option<Song>)
    ensures
      var all := Unseen(Valid(items), {});
      var more := Unseen(Valid(items + [item]), {});
      && more == (if item.Some? && item.value.videoId !in Ids(Valid(items)) then all + [item.value] else all)
      && Ids(Valid(items + [item])) == Ids(Valid(items)) + (if item.Some? then {item.value.videoId} else {})
  {
    ValidPushed(items, item);
    if item.Some? {
      UnseenPushed(Valid(items), item.value, {});
      assert Ids(Valid(items) + [item.value]) == Ids(Valid(items)) + {item.value.videoId};
    } else {
      assert Valid(items) + [] == Valid(items);
    }
  }

  /** The page's loop stops pushing at the cap, and an id counts as seen only when its song was pushed. */
  method CollectPage(items: seq<Option<Song>>) returns (songs: seq<Song>)
    ensures songs == Page(items)
  {
    songs := [];
    var seen: set<string> := {};
    for i := 0 to |items|
      invariant songs == Page(items[..i])
      invariant |songs| < CANDIDATES ==> songs == Unseen(Valid(items[..i]), {}) && seen == Ids(Valid(items[..i]))
    {
      assert items[..i + 1] == items[..i] + [items[i]];
      PagePushed(items[..i], items[i]);
      if items[i].Some? && |songs| < CANDIDATES && items[i].value.videoId !in seen {
        seen := seen + {items[i].value.videoId};
        songs := songs + [items[i].value];
      }
    }
    assert items[..|items|] == items;
  }

  /** The rest of a provider search: look the page up, retain music, rank before cutting. */
  method SearchProvider(lang: Language, items: seq<Option<Song>>, music: Option<set<string>>, query: string)
    returns (r: Option<seq<Song>>)
    ensures r == Discovered(lang, items, music, query)
  {
    var songs := CollectPage(items);
    if items != [] && songs == [] { return None; }
    if songs != [] {
      if music.None? { return None; }
      songs := Retained(songs, music.value);
    }
    songs := SortByKey(songs, Plain(lang, query));
    r := Some(Cut(songs, MAX_RESULTS));
  }

  lemma {:induction false} ValidPushed(items: seq<Option<Song>>, item: Option<Song>)
    ensures Valid(items + [item]) == Valid(items) + (if item.Some? then [item.value] else [])
  {
    var last := if item.Some? then [item.value] else [];
    if items == [] {
      assert items + [item] == [item] && [item][1..] == [];
    } else {
      var first := if items[0].Some? then [items[0].value] else [];
      assert (items + [item])[0] == items[0] && (items + [item])[1..] == items[1..] + [item];
      ValidPushed(items[1..], item);
      assert first + (Valid(items[1..]) + last) == (first + Valid(items[1..])) + last;
    }
  }
}

/** What each change of the catalog leaves in it, row by row. */
module CatalogLaws {
  import opened Prelude
  import opened Songs
  import opened Catalog

  // ---------------------------------------------------------------- one song

  /** The row of this song and origin after its fetch at `now`: the fetched text, unless a later fetch was stored. */
  predicate Written(rules: Rules, db: Db, db': Db, song: Song, origin: Origin, now: int) {
    var k := Key(song.videoId, origin);
    && k in db'.metadata
    && (if k in db.metadata && now < db.metadata[k].fetchedAt then db'.metadata[k] == db.metadata[k]
        else
          var row := db'.metadata[k];
          && row.title == song.title && row.artist == song.artist && row.thumbnail == song.thumbnail
          && row.text.title == rules.lang.normalize(song.title) && row.text.artist == rules.lang.normalize(song.artist)
          && row.fetchedAt == now && row.expiresAt == (if origin.Youtube? then Some(now + MONTH) else None))
  }

  /** The song's entry: made with no submissions, or kept with its count and the later of the two update times. */
  predicate Touched(db: Db, db': Db, id: string, now: int) {
    && id in db'.songs
    && var e := db'.songs[id];
       if id !in db.songs then e.submissions == 0 && e.createdAt == e.updatedAt == now
       else e.submissions == db.songs[id].submissions && e.createdAt == db.songs[id].createdAt
            && e.updatedAt >= now && e.updatedAt >= db.songs[id].updatedAt && e.updatedAt in {now, db.songs[id].updatedAt}
  }

  predicate OthersStand(db: Db, db': Db, ids: set<string>, origin: Origin) {
    && (forall x :: x in db.songs && x !in ids ==> x in db'.songs && db'.songs[x] == db.songs[x])
    && (forall x :: x in db'.songs ==> x in db.songs || x in ids)
    && (forall k :: k in db.metadata && !(k.origin == origin && k.videoId in ids) ==>
          k in db'.metadata && db'.metadata[k] == db.metadata[k])
    && (forall k :: k in db'.metadata ==> k in db.metadata || (k.origin == origin && k.videoId in ids))
  }

  lemma TouchIsExact(db: Db, id: string, now: int)
    ensures
      var db' := TouchSong(db, id, now);
      && db'.metadata == db.metadata && db'.receipts == db.receipts && db'.cache == db.cache && Touched(db, db', id, now)
      && db'.songs.Keys == db.songs.Keys + {id} && forall x :: x in db.songs && x != id ==> db'.songs[x] == db.songs[x]
  {
  }

  lemma PutIsExact(rules: Rules, db: Db, song: Song, origin: Origin, now: int)
    ensures
      var k := Key(song.videoId, origin);
      var db' := PutRow(db, k, RowOf(rules, song, origin, now));
      && db'.songs == db.songs && db'.receipts == db.receipts && db'.cache == db.cache
      && Written(rules, db, db', song, origin, now)
      && db'.metadata.Keys == db.metadata.Keys + {k}
      && forall j :: j in db.metadata && j != k ==> db'.metadata[j] == db.metadata[j]
  {
  }

  /** A song is refused exactly when it is invalid or its expiry does not fit; otherwise its rows and no others change. */
  lemma UpsertIsExact(rules: Rules, db: Db, song: Song, origin: Origin, now: int)
    ensures Upsert(rules, db, song, origin, now).Some? <==> rules.valid(song) && (origin.Youtube? ==> now + MONTH <= MAX_INT)
    ensures Upsert(rules, db, song, origin, now).Some? ==>
              var db' := Upsert(rules, db, song, origin, now).value;
              && db'.receipts == db.receipts && db'.cache == db.cache
              && Written(rules, db, db', song, origin, now) && Touched(db, db', song.videoId, now)
              && OthersStand(db, db', {song.videoId}, origin)
  {
    TouchIsExact(db, song.videoId, now);
    PutIsExact(rules, TouchSong(db, song.videoId, now), song, origin, now);
  }

  // ---------------------------------------------------------------- several songs

  /** No later song of the list has this one's id. */
  predicate LastOfItsId(songs: seq<Song>, i: nat)
    requires i < |songs|
  {
    forall j :: i < j < |songs| ==> songs[j].videoId != songs[i].videoId
  }

  /** Each id's last song is written; nothing else changes. */
  ghost predicate AllWritten(rules: Rules, db: Db, db': Db, songs: seq<Song>, origin: Origin, now: int) {
    && db'.receipts == db.receipts && db'.cache == db.cache
    && (forall i :: 0 <= i < |songs| && LastOfItsId(songs, i) ==> Written(rules, db, db', songs[i], origin, now))
    && (forall x :: x in Ids(songs) ==> Touched(db, db', x, now))
    && OthersStand(db, db', Ids(songs), origin)
  }

  lemma WriteAgain(rules: Rules, db: Db, mid: Db, db': Db, before: Song, song: Song, origin: Origin, now: int)
    requires before.videoId == song.videoId
    requires Written(rules, db, mid, before, origin, now) && Written(rules, mid, db', song, origin, now)
    ensures Written(rules, db, db', song, origin, now)
  {
  }

  lemma WrittenThen(rules: Rules, db: Db, mid: Db, db': Db, songs: seq<Song>, song: Song, origin: Origin, now: int)
    requires forall i :: 0 <= i < |songs| && LastOfItsId(songs, i) ==> Written(rules, db, mid, songs[i], origin, now)
    requires Written(rules, mid, db', song, origin, now)
    requires OthersStand(db, mid, Ids(songs), origin) && OthersStand(mid, db', {song.videoId}, origin)
    requires song.videoId in Ids(songs) ==> exists j :: 0 <= j < |songs| && songs[j].videoId == song.videoId && LastOfItsId(songs, j)
    ensures forall i :: 0 <= i <= |songs| && LastOfItsId(songs + [song], i) ==>
              Written(rules, db, db', (songs + [song])[i], origin, now)
  {
    var all := songs + [song];
    forall i | 0 <= i < |all| && LastOfItsId(all, i) ensures Written(rules, db, db', all[i], origin, now) {
      if i < |songs| {
        assert all[|songs|].videoId != all[i].videoId;
        assert forall j :: i < j < |songs| ==> all[j] == songs[j];
        assert LastOfItsId(songs, i);
        WriteStays(rules, db, mid, db', songs[i], song.videoId, origin, now);
      } else if song.videoId in Ids(songs) {
        var j :| 0 <= j < |songs| && songs[j].videoId == song.videoId && LastOfItsId(songs, j);
        WriteAgain(rules, db, mid, db', songs[j], song, origin, now);
      }
    }
  }

  lemma WriteStays(rules: Rules, db: Db, mid: Db, db': Db, song: Song, other: string, origin: Origin, now: int)
    requires song.videoId != other
    requires Written(rules, db, mid, song, origin, now) && OthersStand(mid, db', {other}, origin)
    ensures Written(rules, db, db', song, origin, now)
  {
  }

  lemma TouchedThen(db: Db, mid: Db, db': Db, ids: set<string>, id: string, x: string, origin: Origin, now: int)
    requires OthersStand(db, mid, ids, origin) && OthersStand(mid, db', {id}, origin)
    requires forall y :: y in ids ==> Touched(db, mid, y, now)
    requires Touched(mid, db', id, now) && x in ids + {id}
    ensures Touched(db, db', x, now)
  {
    if x in ids { assert Touched(db, mid, x, now); }
  }

  lemma OthersThen(db: Db, mid: Db, db': Db, ids: set<string>, id: string, origin: Origin)
    requires OthersStand(db, mid, ids, origin) && OthersStand(mid, db', {id}, origin)
    ensures OthersStand(db, db', ids + {id}, origin)
  {
  }

  lemma OneMore(rules: Rules, db: Db, mid: Db, db': Db, songs: seq<Song>, song: Song, origin: Origin, now: int)
    requires AllWritten(rules, db, mid, songs, origin, now)
    requires mid.receipts == db'.receipts && mid.cache == db'.cache
    requires Written(rules, mid, db', song, origin, now) && Touched(mid, db', song.videoId, now)
    requires OthersStand(mid, db', {song.videoId}, origin)
    ensures AllWritten(rules, db, db', songs + [song], origin, now)
  {
    if song.videoId in Ids(songs) { LastExists(songs, song.videoId); }
    WrittenThen(rules, db, mid, db', songs, song, origin, now);
    assert Ids(songs + [song]) == Ids(songs) + {song.videoId};
    OthersThen(db, mid, db', Ids(songs), song.videoId, origin);
    forall x | x in Ids(songs + [song]) ensures Touched(db, db', x, now) {
      TouchedThen(db, mid, db', Ids(songs), song.videoId, x, origin, now);
    }
  }

  lemma {:induction false} LastExists(songs: seq<Song>, id: string)
    requires id in Ids(songs)
    ensures exists j :: 0 <= j < |songs| && songs[j].videoId == id && LastOfItsId(songs, j)
  {
    var n := |songs| - 1;
    if songs[n].videoId == id {
      assert LastOfItsId(songs, n);
    } else {
      assert songs == songs[..n] + [songs[n]];
      assert id in Ids(songs[..n]);
      LastExists(songs[..n], id);
      var j :| 0 <= j < n && songs[..n][j].videoId == id && LastOfItsId(songs[..n], j);
      assert forall i :: 0 <= i < n ==> songs[..n][i] == songs[i];
      assert LastOfItsId(songs, j);
    }
  }

  lemma {:induction false} UpsertAllIsExact(rules: Rules, db: Db, songs: seq<Song>, origin: Origin, now: int)
    ensures UpsertAll(rules, db, songs, origin, now).Some? <==>
              forall s :: s in songs ==> rules.valid(s) && (origin.Youtube? ==> now + MONTH <= MAX_INT)
    ensures UpsertAll(rules, db, songs, origin, now).Some? ==>
              AllWritten(rules, db, UpsertAll(rules, db, songs, origin, now).value, songs, origin, now)
  {
    if songs != [] {
      var n := |songs| - 1;
      var before := UpsertAll(rules, db, songs[..n], origin, now);
      assert songs == songs[..n] + [songs[n]];
      UpsertAllIsExact(rules, db, songs[..n], origin, now);
      if before.Some? {
        UpsertIsExact(rules, before.value, songs[n], origin, now);
        if UpsertAll(rules, db, songs, origin, now).Some? {
          OneMore(rules, db, before.value, UpsertAll(rules, db, songs, origin, now).value, songs[..n], songs[n], origin, now);
        }
      }
    }
  }

  // ---------------------------------------------------------------- importing starters

  predicate Usable(rules: Rules, e: Option<Song>) {
    e.Some? && rules.valid(e.value)
  }

  /** A valid entry with no earlier valid one of its id. */
  predicate Imports(rules: Rules, entries: seq<Option<Song>>, i: int) {
    && 0 <= i < |entries| && Usable(rules, entries[i])
    && forall j :: 0 <= j < i && Usable(rules, entries[j]) ==> entries[j].value.videoId != entries[i].value.videoId
  }

  ghost predicate ImportedAre(rules: Rules, entries: seq<Option<Song>>, songs: seq<Song>) {
    forall s :: s in songs <==> exists i :: Imports(rules, entries, i) && entries[i].value == s
  }

  ghost predicate CoverUsable(rules: Rules, entries: seq<Option<Song>>, songs: seq<Song>) {
    forall i :: 0 <= i < |entries| && Usable(rules, entries[i]) ==> entries[i].value.videoId in Ids(songs)
  }

  lemma LastImports(rules: Rules, entries: seq<Option<Song>>, before: seq<Song>)
    requires entries != []
    requires ImportedAre(rules, entries[..|entries| - 1], before) && CoverUsable(rules, entries[..|entries| - 1], before)
    ensures var n := |entries| - 1;
      Imports(rules, entries, n) <==> Usable(rules, entries[n]) && entries[n].value.videoId !in Ids(before)
  {
    var n := |entries| - 1;
    var init := entries[..n];
    if Usable(rules, entries[n]) && entries[n].value.videoId in Ids(before) {
      var s :| s in before && s.videoId == entries[n].value.videoId;
      var i :| Imports(rules, init, i) && init[i].value == s;
      assert entries[i] == init[i];
    }
    if Usable(rules, entries[n]) && !Imports(rules, entries, n) {
      var j :| 0 <= j < n && Usable(rules, entries[j]) && entries[j].value.videoId == entries[n].value.videoId;
      assert init[j] == entries[j];
    }
  }

  lemma OneMoreEntry(rules: Rules, entries: seq<Option<Song>>, before: seq<Song>)
    requires entries != []
    requires ImportedAre(rules, entries[..|entries| - 1], before)
    ensures var n := |entries| - 1;
      ImportedAre(rules, entries, before + (if Imports(rules, entries, n) then [entries[n].value] else []))
  {
    var n := |entries| - 1;
    var init := entries[..n];
    var all := before + (if Imports(rules, entries, n) then [entries[n].value] else []);
    forall s ensures s in all <==> exists i :: Imports(rules, entries, i) && entries[i].value == s {
      if s in before {
        var i :| Imports(rules, init, i) && init[i].value == s;
        assert Imports(rules, entries, i) && entries[i].value == s;
      }
      if i :| Imports(rules, entries, i) && entries[i].value == s {
        if i < n { assert Imports(rules, init, i) && init[i].value == s; }
      }
    }
  }

  /** What is imported is exactly the first valid entry of each id. */
  lemma {:induction false} StartersAreTheFirst(rules: Rules, entries: seq<Option<Song>>)
    ensures DistinctIds(Starters(rules, entries))
    ensures ImportedAre(rules, entries, Starters(rules, entries))
    ensures CoverUsable(rules, entries, Starters(rules, entries))
  {
    if entries != [] {
      var n := |entries| - 1;
      var before, all := Starters(rules, entries[..n]), Starters(rules, entries);
      StartersAreTheFirst(rules, entries[..n]);
      LastImports(rules, entries, before);
      OneMoreEntry(rules, entries, before);
      if Imports(rules, entries, n) {
        assert Ids(all) == Ids(before) + {entries[n].value.videoId};
        forall i | 0 <= i < |before| ensures before[i].videoId != entries[n].value.videoId {
          assert before[i].videoId in Ids(before);
        }
      } else {
        assert before + [] == before;
      }
      forall i | 0 <= i < |entries| && Usable(rules, entries[i]) ensures entries[i].value.videoId in Ids(all) {
        if i < n { assert entries[..n][i] == entries[i]; }
      }
    }
  }

  /** An import takes every starter or, when storage fails, none. */
  lemma ImportIsExact(rules: Rules, db: Db, entries: seq<Option<Song>>, now: int, storage: bool)
    ensures var r := Import(rules, db, entries, now, storage);
      && r.1 == storage && (!storage ==> r.0 == db)
      && (storage ==> AllWritten(rules, db, r.0, Starters(rules, entries), Starter, now))
  {
    StartersAreTheFirst(rules, entries);
    UpsertAllIsExact(rules, db, Starters(rules, entries), Starter, now);
  }

  // ---------------------------------------------------------------- saved searches, submissions, cleanup

  /** The searches saved: this one, unless one fetched no earlier was; and all others as they were. */
  predicate SavedAs(db: Db, db': Db, query: string, songs: seq<Song>, now: int) {
    && query in db'.cache
    && (if query in db.cache && now <= db.cache[query].fetchedAt then db'.cache[query] == db.cache[query]
        else db'.cache[query].songs == songs && db'.cache[query].fetchedAt == now && db'.cache[query].expiresAt == now + WEEK)
    && db'.cache.Keys == db.cache.Keys + {query}
    && forall q :: q in db.cache && q != query ==> db'.cache[q] == db.cache[q]
  }

  /** A search is saved, songs and all, exactly when it is small, valid, and its expiries fit; else nothing is. */
  lemma SaveIsExact(rules: Rules, db: Db, query: string, songs: seq<Song>, now: int, fits: bool, storage: bool)
    ensures var r := Save(rules, db, query, songs, now, fits, storage);
      && (r.1 <==>
            && storage && fits && |songs| <= 10 && (forall s :: s in songs ==> rules.valid(s))
            && now + WEEK <= MAX_INT && (songs != [] ==> now + MONTH <= MAX_INT))
      && (!r.1 ==> r.0 == db)
      && (r.1 ==> SavedAs(db, r.0, query, songs, now) && AllWritten(rules, db, r.0.(cache := db.cache), songs, Youtube, now))
  {
    UpsertAllIsExact(rules, db, songs, Youtube, now);
    if songs != [] { assert songs[0] in songs; }
    var r := UpsertAll(rules, db, songs, Youtube, now);
    if r.Some? && storage {
      var saved := PutSaved(r.value, query, Saved(songs, now, now + WEEK));
      assert saved.(cache := db.cache) == r.value;
    }
  }

  /** In a well-formed catalog a search is answered, and as it was saved, exactly until its week is over. */
  lemma ReadUntilItExpires(rules: Rules, db: Db, query: string, t: int)
    requires DbInv(rules, db)
    ensures Cached(rules, db, query, t).Some? <==> query in db.cache && t < db.cache[query].fetchedAt + 7 * 86400
    ensures Cached(rules, db, query, t).Some? ==> Cached(rules, db, query, t).value == db.cache[query].songs
  {
    if query in db.cache { assert SavedOk(rules, db.cache[query]); }
  }

  /** The entry's receipt is new, its song's count is one more, and no other count or receipt changes. */
  predicate Counted(db: Db, db': Db, entry: string, id: string, now: int) {
    && db'.receipts == db.receipts[entry := Receipt(id, now)]
    && db'.songs.Keys == db.songs.Keys + {id}
    && db'.songs[id].submissions == (if id in db.songs then db.songs[id].submissions else 0) + 1
    && forall x :: x in db.songs && x != id ==> db'.songs[x] == db.songs[x]
  }

  lemma CountingIsExact(db: Db, mid: Db, entry: string, id: string, now: int)
    requires mid.receipts == db.receipts && Touched(db, mid, id, now) && OthersStand(db, mid, {id}, Youtube)
    ensures var db' := Popularize(mid, entry, id, now);
      && Counted(db, db', entry, id, now) && db'.metadata == mid.metadata && db'.cache == mid.cache
  {
  }

  /**
   Recording an entry again succeeds exactly for the same song and changes nothing.  The first time it counts the entry
   and writes the song's text, unless the song is invalid, a number does not fit, or storage fails.
   */
  lemma RecordIsExact(rules: Rules, db: Db, entry: string, song: Song, now: int, storage: bool)
    ensures var r := Record(rules, db, entry, song, now, storage);
      var id := song.videoId;
      && (r.1 <==> && storage && rules.valid(song)
                   && (if entry in db.receipts then db.receipts[entry].videoId == id
                       else now + MONTH <= MAX_INT && (id in db.songs ==> db.songs[id].submissions < MAX_INT)))
      && (!r.1 || entry in db.receipts ==> r.0 == db)
      && (r.1 && entry !in db.receipts ==>
            && Counted(db, r.0, entry, id, now) && Written(rules, db, r.0, song, Youtube, now) && r.0.cache == db.cache
            && forall k :: k in db.metadata && k != Key(id, Youtube) ==> k in r.0.metadata && r.0.metadata[k] == db.metadata[k])
  {
    UpsertIsExact(rules, db, song, Youtube, now);
    if entry !in db.receipts && Upsert(rules, db, song, Youtube, now).Some? {
      CountingIsExact(db, Upsert(rules, db, song, Youtube, now).value, entry, song.videoId, now);
    }
  }

  /**
   Cleanup removes exactly what has expired: text from YouTube after its 29 days and searches after their week, with
   what the index held of them.  Starter text, songs, counts and receipts are for ever.
   */
  lemma CleanupIsExact(rules: Rules, db: Db, now: int)
    requires DbInv(rules, db)
    ensures Cleanup(db, now, false) == db
    ensures var db' := Cleanup(db, now, true);
      && db'.songs == db.songs && db'.receipts == db.receipts
      && (forall k :: k in db'.metadata <==> k in db.metadata && (k.origin.Youtube? ==> now < db.metadata[k].fetchedAt + 29 * 86400))
      && (forall k :: k in db'.metadata ==> db'.metadata[k] == db.metadata[k])
      && (forall x :: x in db'.index <==> x.0 in db'.metadata && x.1 == db'.metadata[x.0].text)
      && (forall q :: q in db'.cache <==> q in db.cache && now < db.cache[q].fetchedAt + 7 * 86400)
      && (forall q :: q in db'.cache ==> db'.cache[q] == db.cache[q])
  {
    var db' := Cleanup(db, now, true);
    CleanupKeeps(rules, db, now, true);
    assert forall k :: k in db.metadata ==> RowOk(rules, k, db.metadata[k]);
    assert forall q :: q in db.cache ==> SavedOk(rules, db.cache[q]);
    forall x ensures x in db'.index <==> x.0 in db'.metadata && x.1 == db'.metadata[x.0].text {
      assert x in Rebuilt(db'.metadata) <==> x.0 in db'.metadata && x.1 == db'.metadata[x.0].text;
    }
  }
}

/** The catalog tables as the object its transactions write, one statement after another, putting all back on failure. */
module CatalogStores {
  import opened Prelude
  import opened Songs
  import opened Catalog

  class CatalogStore {
    const rules: Rules
    var songs: map<string, Entry>
    var metadata: map<Key, Row>
    var index: set<(Key, Text)>
    var receipts: map<string, Receipt>
    var cache: map<string, Saved>

    ghost function Contents(): Db
      reads this
    {
      Db(songs, metadata, index, receipts, cache)
    }

    ghost predicate Valid()
      reads this
    {
      DbInv(rules, Contents())
    }

    constructor (rules: Rules)
      ensures this.rules == rules && Contents() == EMPTY && Valid()
    {
      this.rules := rules;
      songs, metadata, index, receipts, cache := map[], map[], {}, map[], map[];
    }

    /** Puts the tables back as they were. */
    method Rollback(db: Db)
      modifies this
      ensures Contents() == db
    {
      songs, metadata, index, receipts, cache := db.songs, db.metadata, db.index, db.receipts, db.cache;
    }

    method Begin() returns (db: Db)
      ensures db == Contents()
    {
      db := Db(songs, metadata, index, receipts, cache);
    }

    method UpsertSong(song: Song, origin: Origin, now: int) returns (ok: bool)
      modifies this
      ensures ok <==> Upsert(rules, old(Contents()), song, origin, now).Some?
      ensures Contents() == if ok then Upsert(rules, old(Contents()), song, origin, now).value else old(Contents())
    {
      if !rules.valid(song) { return false; }
      if origin.Youtube? && now + MONTH > MAX_INT { return false; }
      if song.videoId in songs {
        songs := songs[song.videoId := songs[song.videoId].(updatedAt := Max(songs[song.videoId].updatedAt, now))];
      } else {
        songs := songs[song.videoId := Catalog.Entry(0, now, now)];
      }
      var k := Key(song.videoId, origin);
      var row := RowOf(rules, song, origin, now);
      if k !in metadata {
        metadata := metadata[k := row];
        index := index + {(k, row.text)};
      } else if row.fetchedAt >= metadata[k].fetchedAt {
        index := index - {(k, metadata[k].text)};
        metadata := metadata[k := row];
        index := index + {(k, row.text)};
      }
      return true;
    }

    method UpsertSongs(list: seq<Song>, origin: Origin, now: int) returns (ok: bool)
      modifies this
      ensures ok <==> UpsertAll(rules, old(Contents()), list, origin, now).Some?
      ensures ok ==> Contents() == UpsertAll(rules, old(Contents()), list, origin, now).value
    {
      ok := true;
      ghost var db := Contents();
      for i := 0 to |list|
        invariant ok && UpsertAll(rules, db, list[..i], origin, now) == Some(Contents())
      {
        assert list[..i + 1][..i] == list[..i];
        var done := UpsertSong(list[i], origin, now);
        if !done {
          UpsertAllFails(rules, db, list, origin, now, i + 1);
          return false;
        }
      }
      assert list[..|list|] == list;
    }

    method ImportStarters(entries: seq<Option<Song>>, now: int, storage: bool) returns (ok: bool)
      requires Valid()
      modifies this
      ensures (Contents(), ok) == Import(rules, old(Contents()), entries, now, storage) && Valid()
    {
      var saved := Begin();
      ApplyKeeps(rules, saved, Importing(entries, now, storage));
      var starters: seq<Song> := [];
      var seen: set<string> := {};
      for i := 0 to |entries|
        invariant Contents() == saved && starters == Starters(rules, entries[..i]) && seen == Ids(starters)
      {
        assert entries[..i + 1][..i] == entries[..i];
        if entries[i].Some? && rules.valid(entries[i].value) && entries[i].value.videoId !in seen {
          assert Ids(starters + [entries[i].value]) == Ids(starters) + {entries[i].value.videoId};
          starters := starters + [entries[i].value];
          seen := seen + {entries[i].value.videoId};
        }
      }
      assert entries[..|entries|] == entries;
      ok := UpsertSongs(starters, Starter, now);
      if !ok || !storage {
        Rollback(saved);
        return false;
      }
    }

    method SaveSearch(query: string, list: seq<Song>, now: int, fits: bool, storage: bool) returns (ok: bool)
      requires Valid()
      modifies this
      ensures (Contents(), ok) == Save(rules, old(Contents()), query, list, now, fits, storage) && Valid()
    {
      var saved := Begin();
      ApplyKeeps(rules, saved, Saving(query, list, now, fits, storage));
      if now + WEEK > MAX_INT { return false; }
      if |list| > MAX_SAVED || !fits || !(forall s :: s in list ==> rules.valid(s)) { return false; }
      ok := UpsertSongs(list, Youtube, now);
      if !ok || !storage {
        Rollback(saved);
        return false;
      }
      if query !in cache || now > cache[query].fetchedAt {
        cache := cache[query := Saved(list, now, now + WEEK)];
      }
    }

    /** A receipt and its count go together. */
    method Count(entry: string, id: string, now: int)
      requires id in songs
      modifies this
      ensures Contents() == Popularize(old(Contents()), entry, id, now)
    {
      receipts := receipts[entry := Catalog.Receipt(id, now)];
      songs := songs[id := songs[id].(submissions := songs[id].submissions + 1)];
    }

    method RecordSubmission(entry: string, song: Song, now: int, storage: bool) returns (ok: bool)
      requires Valid()
      modifies this
      ensures (Contents(), ok) == Record(rules, old(Contents()), entry, song, now, storage) && Valid()
    {
      var saved := Begin();
      ApplyKeeps(rules, saved, Recording(entry, song, now, storage));
      if !rules.valid(song) { return false; }
      if entry in receipts { return storage && receipts[entry].videoId == song.videoId; }
      ok := UpsertSong(song, Youtube, now);
      if ok { UpsertKeeps(rules, saved, song, Youtube, now); }
      if !ok || !storage || songs[song.videoId].submissions >= MAX_INT {
        Rollback(saved);
        return false;
      }
      Count(entry, song.videoId, now);
    }

    method CleanupCatalog(now: int, storage: bool) returns (ok: bool)
      requires Valid()
      modifies this
      ensures Contents() == Cleanup(old(Contents()), now, storage) && ok == storage && Valid()
    {
      ApplyKeeps(rules, Contents(), Cleaning(now, storage));
      if !storage { return false; }
      index := index - (set k | k in metadata && Expired(metadata[k], now) :: (k, metadata[k].text));
      metadata := map k | k in metadata && !Expired(metadata[k], now) :: metadata[k];
      cache := map q | q in cache && now < cache[q].expiresAt :: cache[q];
      return true;
    }

    method CachedSearch(query: string, now: int) returns (r: Option<seq<Song>>)
      requires Valid()
      ensures r == Cached(rules, Contents(), query, now)
      ensures r.Some? <==> query in cache && now < cache[query].expiresAt
    {
      if query !in cache || cache[query].expiresAt <= now { return None; }
      var saved := cache[query];
      if saved.fetchedAt + WEEK == saved.expiresAt && |saved.songs| <= MAX_SAVED
         && (forall s :: s in saved.songs ==> rules.valid(s)) {
        return Some(saved.songs);
      }
      return None;
    }
  }

  /** A failed upsert fails the whole list. */
  lemma {:induction false} UpsertAllFails(rules: Rules, db: Db, list: seq<Song>, origin: Origin, now: int, n: nat)
    requires n <= |list| && UpsertAll(rules, db, list[..n], origin, now).None?
    ensures UpsertAll(rules, db, list, origin, now).None?
    decreases |list| - n
  {
    if n == |list| {
      assert list[..n] == list;
    } else {
      assert list[..n + 1][..n] == list[..n];
      UpsertAllFails(rules, db, list, origin, now, n + 1);
    }
  }
}

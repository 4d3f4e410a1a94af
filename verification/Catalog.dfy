/**
 The shared catalog: songs with a popularity count, their metadata with a text
 index kept by triggers, receipts of submissions, and saved searches.  Rows are
 known by their UNIQUE natural keys.
 */
module Catalog {
  import opened Prelude
  import opened Songs

  const WEEK := 604800
  const MONTH := 2505600
  const MAX_INT := 0x7fff_ffff_ffff_ffff
  const MAX_SAVED := 10

  datatype Origin = Starter | Youtube

  /** One metadata row per song and origin. */
  datatype Key = Key(videoId: string, origin: Origin)

  datatype Text = Text(title: string, artist: string)
  datatype Row = Row(title: string, artist: string, thumbnail: Option<string>, text: Text, fetchedAt: int, expiresAt: Option<int>)
  datatype Entry = Entry(submissions: int, createdAt: int, updatedAt: int)
  datatype Receipt = Receipt(videoId: string, recordedAt: int)
  datatype Saved = Saved(songs: seq<Song>, fetchedAt: int, expiresAt: int)

  datatype Db = Db(songs: map<string, Entry>, metadata: map<Key, Row>, index: set<(Key, Text)>,
                   receipts: map<string, Receipt>, cache: map<string, Saved>)

  /** Normalization, and what a valid song is, belong to libraries. */
  datatype Rules = Rules(lang: Language, valid: Song -> bool)

  const EMPTY := Db(map[], map[], {}, map[], map[])

  // ---------------------------------------------------------------- triggers

  function InsertRow(db: Db, k: Key, row: Row): Db {
    db.(metadata := db.metadata[k := row], index := db.index + {(k, row.text)})
  }

  function UpdateRow(db: Db, k: Key, row: Row): Db
    requires k in db.metadata
  {
    db.(metadata := db.metadata[k := row], index := db.index - {(k, db.metadata[k].text)} + {(k, row.text)})
  }

  /** The index as `rebuild` would make it. */
  function Rebuilt(metadata: map<Key, Row>): set<(Key, Text)> {
    set k | k in metadata :: (k, metadata[k].text)
  }

  // ---------------------------------------------------------------- statements

  function TextOf(rules: Rules, song: Song): Text {
    Text(rules.lang.normalize(song.title), rules.lang.normalize(song.artist))
  }

  function RowOf(rules: Rules, song: Song, origin: Origin, now: int): Row {
    Row(song.title, song.artist, song.thumbnail, TextOf(rules, song), now, if origin.Youtube? then Some(now + MONTH) else None)
  }

  function Max(a: int, b: int): int {
    if a < b then b else a
  }

  function TouchSong(db: Db, id: string, now: int): Db {
    db.(songs := db.songs[id := if id in db.songs then db.songs[id].(updatedAt := Max(db.songs[id].updatedAt, now))
                                else Entry(0, now, now)])
  }

  /** A newer or equally new fetch replaces the row; an older one does not, and fires no trigger. */
  function PutRow(db: Db, k: Key, row: Row): Db {
    if k !in db.metadata then InsertRow(db, k, row)
    else if row.fetchedAt >= db.metadata[k].fetchedAt then UpdateRow(db, k, row)
    else db
  }

  /** upsert_song; None when it fails. */
  function Upsert(rules: Rules, db: Db, song: Song, origin: Origin, now: int): Option<Db> {
    if !rules.valid(song) || (origin.Youtube? && now + MONTH > MAX_INT) then None
    else Some(PutRow(TouchSong(db, song.videoId, now), Key(song.videoId, origin), RowOf(rules, song, origin, now)))
  }

  function UpsertAll(rules: Rules, db: Db, songs: seq<Song>, origin: Origin, now: int): Option<Db> {
    if songs == [] then Some(db)
    else match UpsertAll(rules, db, songs[..|songs| - 1], origin, now)
      case None => None
      case Some(db1) => Upsert(rules, db1, songs[|songs| - 1], origin, now)
  }

  // ---------------------------------------------------------------- transactions

  /** The valid starter entries, the first of each id; an entry that does not parse is None. */
  function Starters(rules: Rules, entries: seq<Option<Song>>): seq<Song> {
    if entries == [] then []
    else
      var before := Starters(rules, entries[..|entries| - 1]);
      var e := entries[|entries| - 1];
      if e.None? || !rules.valid(e.value) || e.value.videoId in Ids(before) then before else before + [e.value]
  }

  function Import(rules: Rules, db: Db, entries: seq<Option<Song>>, now: int, storage: bool): (Db, bool) {
    var r := UpsertAll(rules, db, Starters(rules, entries), Starter, now);
    if r.None? || !storage then (db, false) else (r.value, true)
  }

  function PutSaved(db: Db, query: string, saved: Saved): Db {
    if query in db.cache && saved.fetchedAt <= db.cache[query].fetchedAt then db
    else db.(cache := db.cache[query := saved])
  }

  /** save_search; `fits` tells whether the encoded songs are within their size limit. */
  function Save(rules: Rules, db: Db, query: string, songs: seq<Song>, now: int, fits: bool, storage: bool): (Db, bool) {
    if now + WEEK > MAX_INT || |songs| > MAX_SAVED || !fits || !(forall s :: s in songs ==> rules.valid(s)) then (db, false)
    else
      var r := UpsertAll(rules, db, songs, Youtube, now);
      if r.None? || !storage then (db, false) else (PutSaved(r.value, query, Saved(songs, now, now + WEEK)), true)
  }

  /** cached_search. */
  function Cached(rules: Rules, db: Db, query: string, now: int): Option<seq<Song>> {
    if query !in db.cache || db.cache[query].expiresAt <= now then None
    else
      var saved := db.cache[query];
      if saved.fetchedAt + WEEK == saved.expiresAt && |saved.songs| <= MAX_SAVED
         && (forall s :: s in saved.songs ==> rules.valid(s))
      then Some(saved.songs) else None
  }

  function Popularize(db: Db, entry: string, id: string, now: int): Db
    requires id in db.songs
  {
    db.(receipts := db.receipts[entry := Receipt(id, now)],
        songs := db.songs[id := db.songs[id].(submissions := db.songs[id].submissions + 1)])
  }

  /** record_submission. */
  function Record(rules: Rules, db: Db, entry: string, song: Song, now: int, storage: bool): (Db, bool) {
    if !rules.valid(song) then (db, false)
    else if entry in db.receipts then (db, storage && db.receipts[entry].videoId == song.videoId)
    else match Upsert(rules, db, song, Youtube, now)
      case None => (db, false)
      case Some(db1) =>
        if !storage || db1.songs[song.videoId].submissions >= MAX_INT then (db, false)
        else (Popularize(db1, entry, song.videoId, now), true)
  }

  predicate Expired(row: Row, now: int) {
    row.expiresAt.Some? && row.expiresAt.value <= now
  }

  function Cleanup(db: Db, now: int, storage: bool): Db {
    if !storage then db
    else db.(metadata := map k | k in db.metadata && !Expired(db.metadata[k], now) :: db.metadata[k],
             index := db.index - (set k | k in db.metadata && Expired(db.metadata[k], now) :: (k, db.metadata[k].text)),
             cache := map q | q in db.cache && now < db.cache[q].expiresAt :: db.cache[q])
  }

  // ---------------------------------------------------------------- the invariant

  function ReceiptsOf(receipts: map<string, Receipt>, id: string): set<string> {
    set e | e in receipts && receipts[e].videoId == id
  }

  predicate RowOk(rules: Rules, k: Key, row: Row) {
    && row.expiresAt == (if k.origin.Youtube? then Some(row.fetchedAt + MONTH) else None)
    && row.text == Text(rules.lang.normalize(row.title), rules.lang.normalize(row.artist))
  }

  predicate SavedOk(rules: Rules, saved: Saved) {
    saved.expiresAt == saved.fetchedAt + WEEK && |saved.songs| <= MAX_SAVED && forall s :: s in saved.songs ==> rules.valid(s)
  }

  /** Metadata, receipts and counts agree, and the index is the one a rebuild would make. */
  ghost predicate DbInv(rules: Rules, db: Db) {
    && db.index == Rebuilt(db.metadata)
    && (forall k :: k in db.metadata ==> k.videoId in db.songs && RowOk(rules, k, db.metadata[k]))
    && (forall e :: e in db.receipts ==> db.receipts[e].videoId in db.songs)
    && (forall id :: id in db.songs ==> db.songs[id].submissions == |ReceiptsOf(db.receipts, id)|)
    && (forall q :: q in db.cache ==> SavedOk(rules, db.cache[q]))
  }

  lemma TriggersKeepTheIndex(db: Db, k: Key, row: Row)
    requires db.index == Rebuilt(db.metadata)
    ensures PutRow(db, k, row).index == Rebuilt(PutRow(db, k, row).metadata)
  {
    var db' := PutRow(db, k, row);
    forall x ensures x in db'.index <==> x in Rebuilt(db'.metadata) {
      assert x in Rebuilt(db.metadata) <==> x.0 in db.metadata && x.1 == db.metadata[x.0].text;
      assert x in Rebuilt(db'.metadata) <==> x.0 in db'.metadata && x.1 == db'.metadata[x.0].text;
    }
  }

  lemma TouchKeeps(rules: Rules, db: Db, id: string, now: int)
    requires DbInv(rules, db)
    ensures DbInv(rules, TouchSong(db, id, now))
  {
    if id !in db.songs { assert ReceiptsOf(db.receipts, id) == {}; }
  }

  lemma PutRowKeeps(rules: Rules, db: Db, k: Key, row: Row)
    requires DbInv(rules, db) && k.videoId in db.songs && RowOk(rules, k, row)
    ensures DbInv(rules, PutRow(db, k, row))
  {
    TriggersKeepTheIndex(db, k, row);
  }

  lemma UpsertKeeps(rules: Rules, db: Db, song: Song, origin: Origin, now: int)
    requires DbInv(rules, db) && Upsert(rules, db, song, origin, now).Some?
    ensures DbInv(rules, Upsert(rules, db, song, origin, now).value)
    ensures song.videoId in Upsert(rules, db, song, origin, now).value.songs
    ensures Upsert(rules, db, song, origin, now).value.receipts == db.receipts
  {
    TouchKeeps(rules, db, song.videoId, now);
    PutRowKeeps(rules, TouchSong(db, song.videoId, now), Key(song.videoId, origin), RowOf(rules, song, origin, now));
  }

  lemma {:induction false} UpsertAllKeeps(rules: Rules, db: Db, songs: seq<Song>, origin: Origin, now: int)
    requires DbInv(rules, db) && UpsertAll(rules, db, songs, origin, now).Some?
    ensures DbInv(rules, UpsertAll(rules, db, songs, origin, now).value)
  {
    if songs != [] {
      UpsertAllKeeps(rules, db, songs[..|songs| - 1], origin, now);
      UpsertKeeps(rules, UpsertAll(rules, db, songs[..|songs| - 1], origin, now).value, songs[|songs| - 1], origin, now);
    }
  }

  lemma ReceiptCounts(receipts: map<string, Receipt>, entry: string, id: string, now: int, x: string)
    requires entry !in receipts
    ensures |ReceiptsOf(receipts[entry := Receipt(id, now)], x)| == |ReceiptsOf(receipts, x)| + (if x == id then 1 else 0)
  {
    var more := receipts[entry := Receipt(id, now)];
    if x == id {
      assert ReceiptsOf(more, x) == ReceiptsOf(receipts, x) + {entry};
    } else {
      assert ReceiptsOf(more, x) == ReceiptsOf(receipts, x);
    }
  }

  lemma PopularizeKeeps(rules: Rules, db: Db, entry: string, id: string, now: int)
    requires DbInv(rules, db) && id in db.songs && entry !in db.receipts
    ensures DbInv(rules, Popularize(db, entry, id, now))
  {
    var db' := Popularize(db, entry, id, now);
    forall x | x in db'.songs ensures db'.songs[x].submissions == |ReceiptsOf(db'.receipts, x)| {
      ReceiptCounts(db.receipts, entry, id, now, x);
    }
  }

  lemma CleanupKeeps(rules: Rules, db: Db, now: int, storage: bool)
    requires DbInv(rules, db)
    ensures DbInv(rules, Cleanup(db, now, storage))
  {
    var db' := Cleanup(db, now, storage);
    forall x ensures x in db'.index <==> x in Rebuilt(db'.metadata) {
      assert x in Rebuilt(db.metadata) <==> x.0 in db.metadata && x.1 == db.metadata[x.0].text;
      assert x in Rebuilt(db'.metadata) <==> x.0 in db'.metadata && x.1 == db'.metadata[x.0].text;
    }
  }

  // ---------------------------------------------------------------- runs

  datatype Change =
    | Importing(entries: seq<Option<Song>>, now: int, storage: bool)
    | Saving(query: string, songs: seq<Song>, now: int, fits: bool, storage: bool)
    | Recording(entry: string, song: Song, now: int, storage: bool)
    | Cleaning(now: int, storage: bool)

  function Apply(rules: Rules, db: Db, c: Change): Db {
    match c
    case Importing(entries, now, ok) => Import(rules, db, entries, now, ok).0
    case Saving(query, songs, now, fits, ok) => Save(rules, db, query, songs, now, fits, ok).0
    case Recording(entry, song, now, ok) => Record(rules, db, entry, song, now, ok).0
    case Cleaning(now, ok) => Cleanup(db, now, ok)
  }

  lemma RecordKeeps(rules: Rules, db: Db, entry: string, song: Song, now: int, storage: bool)
    requires DbInv(rules, db)
    ensures DbInv(rules, Record(rules, db, entry, song, now, storage).0)
  {
    if entry !in db.receipts && Upsert(rules, db, song, Youtube, now).Some? {
      UpsertKeeps(rules, db, song, Youtube, now);
      PopularizeKeeps(rules, Upsert(rules, db, song, Youtube, now).value, entry, song.videoId, now);
    }
  }

  lemma ApplyKeeps(rules: Rules, db: Db, c: Change)
    requires DbInv(rules, db)
    ensures DbInv(rules, Apply(rules, db, c))
  {
    match c
    case Importing(entries, now, ok) =>
      if Import(rules, db, entries, now, ok).1 { UpsertAllKeeps(rules, db, Starters(rules, entries), Starter, now); }
    case Saving(query, songs, now, fits, ok) =>
      if Save(rules, db, query, songs, now, fits, ok).1 { UpsertAllKeeps(rules, db, songs, Youtube, now); }
    case Recording(entry, song, now, ok) => RecordKeeps(rules, db, entry, song, now, ok);
    case Cleaning(now, ok) => CleanupKeeps(rules, db, now, ok);
  }

  predicate Steps(rules: Rules, db: Db, c: Change, db': Db) {
    db' == Apply(rules, db, c)
  }

  ghost predicate Run(rules: Rules, dbs: seq<Db>, changes: seq<Change>) {
    && |dbs| == |changes| + 1 && dbs[0] == EMPTY
    && (forall i :: 0 <= i < |changes| ==> Steps(rules, dbs[i], changes[i], dbs[i + 1]))
  }

  lemma {:induction false} RunInv(rules: Rules, dbs: seq<Db>, changes: seq<Change>, n: nat)
    requires Run(rules, dbs, changes) && n <= |changes|
    ensures DbInv(rules, dbs[n])
  {
    if n > 0 {
      RunInv(rules, dbs, changes, n - 1);
      assert Steps(rules, dbs[n - 1], changes[n - 1], dbs[n]);
      ApplyKeeps(rules, dbs[n - 1], changes[n - 1]);
    }
  }

  /** In every reachable state each count is the number of its song's receipts, and the index is the rebuilt one. */
  lemma CatalogAgrees(rules: Rules, dbs: seq<Db>, changes: seq<Change>, n: nat, id: string)
    requires Run(rules, dbs, changes) && n <= |changes| && id in dbs[n].songs
    ensures dbs[n].songs[id].submissions == |ReceiptsOf(dbs[n].receipts, id)|
    ensures dbs[n].index == Rebuilt(dbs[n].metadata)
  {
    RunInv(rules, dbs, changes, n);
  }

  /** A receipt is for ever: its entry counts for one song once, whatever is recorded or cleaned later. */
  lemma {:induction false} ReceiptsAreForEver(rules: Rules, dbs: seq<Db>, changes: seq<Change>, i: nat, j: nat,
                                              entry: string)
    requires Run(rules, dbs, changes) && i <= j <= |changes| && entry in dbs[i].receipts
    ensures entry in dbs[j].receipts && dbs[j].receipts[entry] == dbs[i].receipts[entry]
    decreases j
  {
    if i < j {
      ReceiptsAreForEver(rules, dbs, changes, i, j - 1, entry);
      assert Steps(rules, dbs[j - 1], changes[j - 1], dbs[j]);
      RunInv(rules, dbs, changes, j - 1);
      ReceiptStays(rules, dbs[j - 1], changes[j - 1], entry);
    }
  }

  lemma {:induction false} UpsertAllReceipts(rules: Rules, db: Db, songs: seq<Song>, origin: Origin, now: int)
    requires UpsertAll(rules, db, songs, origin, now).Some?
    ensures UpsertAll(rules, db, songs, origin, now).value.receipts == db.receipts
  {
    if songs != [] { UpsertAllReceipts(rules, db, songs[..|songs| - 1], origin, now); }
  }

  lemma ReceiptStays(rules: Rules, db: Db, c: Change, entry: string)
    requires DbInv(rules, db) && entry in db.receipts
    ensures entry in Apply(rules, db, c).receipts && Apply(rules, db, c).receipts[entry] == db.receipts[entry]
  {
    match c
    case Importing(entries, now, ok) =>
      if Import(rules, db, entries, now, ok).1 { UpsertAllReceipts(rules, db, Starters(rules, entries), Starter, now); }
    case Saving(query, songs, now, fits, ok) =>
      if Save(rules, db, query, songs, now, fits, ok).1 { UpsertAllReceipts(rules, db, songs, Youtube, now); }
    case Recording(_, song, now, _) =>
      if Upsert(rules, db, song, Youtube, now).Some? { UpsertKeeps(rules, db, song, Youtube, now); }
    case Cleaning(_, _) =>
  }

  // ---------------------------------------------------------------- eligibility

  predicate Current(db: Db, k: Key, t: int) {
    k in db.metadata && !Expired(db.metadata[k], t)
  }

  /** The candidate query's filter: starter text gives way to unexpired text from YouTube. */
  predicate Eligible(db: Db, k: Key, t: int) {
    Current(db, k, t) && (k.origin.Youtube? || !Current(db, Key(k.videoId, Youtube), t))
  }

  /** At any time at most one row of a song is eligible: unexpired text from YouTube, else unexpired starter text, else none. */
  lemma OneEligibleRow(db: Db, id: string, t: int)
    ensures !(Eligible(db, Key(id, Starter), t) && Eligible(db, Key(id, Youtube), t))
    ensures (Eligible(db, Key(id, Starter), t) || Eligible(db, Key(id, Youtube), t))
            <==> Current(db, Key(id, Starter), t) || Current(db, Key(id, Youtube), t)
    ensures Key(id, Youtube) in db.metadata && !Expired(db.metadata[Key(id, Youtube)], t) ==> Eligible(db, Key(id, Youtube), t)
  {
    if Current(db, Key(id, Youtube), t) { assert Eligible(db, Key(id, Youtube), t); }
    else if Current(db, Key(id, Starter), t) { assert Eligible(db, Key(id, Starter), t); }
  }

  /** The rows a text query may return: indexed, matching, and eligible. */
  function Candidates(db: Db, matching: Text -> bool, t: int): set<Key> {
    set x | x in db.index && matching(x.1) && Eligible(db, x.0, t) :: x.0
  }

  /** Searching the index finds exactly the eligible rows whose own text matches, and no song twice. */
  lemma CandidatesAreExact(rules: Rules, db: Db, matching: Text -> bool, t: int)
    requires DbInv(rules, db)
    ensures forall k :: k in Candidates(db, matching, t) <==>
              k in db.metadata && matching(db.metadata[k].text) && Eligible(db, k, t)
    ensures forall j, k :: j in Candidates(db, matching, t) && k in Candidates(db, matching, t) && j.videoId == k.videoId ==> j == k
  {
    forall k ensures k in Candidates(db, matching, t) <==> k in db.metadata && matching(db.metadata[k].text) && Eligible(db, k, t) {
      if k in db.metadata && matching(db.metadata[k].text) && Eligible(db, k, t) {
        assert (k, db.metadata[k].text) in Rebuilt(db.metadata);
      }
    }
    forall j, k | j in Candidates(db, matching, t) && k in Candidates(db, matching, t) && j.videoId == k.videoId ensures j == k {
      OneEligibleRow(db, j.videoId, t);
      assert j == Key(j.videoId, j.origin) && k == Key(j.videoId, k.origin);
    }
  }

  /** Cleaning at `now` changes no candidate and no saved search at any time from `now` on. */
  lemma CleanupIsUnseen(rules: Rules, db: Db, now: int, storage: bool, t: int, matching: Text -> bool, query: string)
    requires DbInv(rules, db) && now <= t
    ensures forall k :: Eligible(Cleanup(db, now, storage), k, t) <==> Eligible(db, k, t)
    ensures Candidates(Cleanup(db, now, storage), matching, t) == Candidates(db, matching, t)
    ensures Cached(rules, Cleanup(db, now, storage), query, t) == Cached(rules, db, query, t)
  {
    var db' := Cleanup(db, now, storage);
    assert forall k :: Current(db', k, t) <==> Current(db, k, t);
    CleanupKeeps(rules, db, now, storage);
    CandidatesAreExact(rules, db, matching, t);
    CandidatesAreExact(rules, db', matching, t);
  }

  /** A search just saved reads back as it was for a week, unless a newer one had been saved before it. */
  lemma SavedReadsBack(rules: Rules, db: Db, query: string, songs: seq<Song>, now: int, t: int)
    requires DbInv(rules, db) && Save(rules, db, query, songs, now, true, true).1
    requires query in db.cache ==> db.cache[query].fetchedAt < now
    ensures Cached(rules, Save(rules, db, query, songs, now, true, true).0, query, t) ==
            if t < now + WEEK then Some(songs) else None
  {
    var r := UpsertAll(rules, db, songs, Youtube, now);
    UpsertAllCache(rules, db, songs, Youtube, now);
  }

  lemma {:induction false} UpsertAllCache(rules: Rules, db: Db, songs: seq<Song>, origin: Origin, now: int)
    requires UpsertAll(rules, db, songs, origin, now).Some?
    ensures UpsertAll(rules, db, songs, origin, now).value.cache == db.cache
  {
    if songs != [] { UpsertAllCache(rules, db, songs[..|songs| - 1], origin, now); }
  }

  /** Of two fetches of one song the newer text stands, in whichever order they are written. */
  lemma NewestTextStands(rules: Rules, db: Db, older: Song, newer: Song, t0: int, t1: int)
    requires older.videoId == newer.videoId && rules.valid(older) && rules.valid(newer) && t0 < t1 && t1 + MONTH <= MAX_INT
    requires Key(newer.videoId, Youtube) in db.metadata ==> db.metadata[Key(newer.videoId, Youtube)].fetchedAt <= t1
    ensures
      var a := Upsert(rules, Upsert(rules, db, older, Youtube, t0).value, newer, Youtube, t1).value;
      var b := Upsert(rules, Upsert(rules, db, newer, Youtube, t1).value, older, Youtube, t0).value;
      var k := Key(newer.videoId, Youtube);
      && k in a.metadata && k in b.metadata && a.metadata[k] == b.metadata[k] == RowOf(rules, newer, Youtube, t1)
  {
  }
}

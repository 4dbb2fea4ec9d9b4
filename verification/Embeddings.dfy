// The embedding index: chunks of notes and transcripts, each with a vector or
// waiting for one. Writers re-chunk their content at any time; the worker
// reads a batch, embeds it with no lock held, and stores what still matches.
module Embeddings {
  import opened Wrappers
  import Runs

  type Owner = string

  const EMBED_MODEL: string := "embeddinggemma:300m"

  /** `title` and `text`: what it was computed from. */
  datatype Vector = Vector(model: string, title: string, text: string, value: int)

  datatype Chunk = Chunk(text: string, ids: string, endMs: Option<nat>, polished: bool)

  datatype Row = Row(id: nat, title: string, text: string, ids: string, endMs: Option<nat>, polished: bool,
                     vec: Option<Vector>)

  /** Each owner's rows, in chunk order. */
  type Db = map<Owner, seq<Row>>

  datatype PendingChunk = PendingChunk(id: nat, title: string, text: string)

  function RowsOf(db: Db, owner: Owner): seq<Row> {
    if owner in db then db[owner] else []
  }

  /** The vector embeds what the row says now. */
  predicate Current(r: Row) {
    r.vec.Some? ==> r.vec.value.title == r.title && r.vec.value.text == r.text
  }

  predicate SameTitle(r: Row) {
    r.vec.Some? ==> r.vec.value.title == r.title
  }

  ghost predicate AllCurrent(db: Db) {
    forall o, i | o in db && 0 <= i < |db[o]| :: Current(db[o][i])
  }

  ghost predicate AllSameTitle(db: Db) {
    forall o, i | o in db && 0 <= i < |db[o]| :: SameTitle(db[o][i])
  }

  // -------------------------------------------------------------------------
  // Storing a batch
  // -------------------------------------------------------------------------

  predicate Still(r: Row, p: PendingChunk) {
    r.id == p.id && r.title == p.title && r.text == p.text
  }

  function MadeFrom(p: PendingChunk, value: int): Vector {
    Vector(EMBED_MODEL, p.title, p.text, value)
  }

  /** UPDATE ... WHERE id, title and text are those that were embedded. */
  function Updated(db: Db, p: PendingChunk, value: int): Db {
    map o | o in db ::
      seq(|db[o]|, i requires 0 <= i < |db[o]| =>
        if Still(db[o][i], p) then db[o][i].(vec := Some(MadeFrom(p, value))) else db[o][i])
  }

  function StoreAll(db: Db, batch: seq<PendingChunk>, values: seq<int>): Db
    requires |values| == |batch|
    decreases |batch|
  {
    if batch == [] then db
    else
      var n := |batch| - 1;
      Updated(StoreAll(db, batch[..n], values[..n]), batch[n], values[n])
  }

  ghost predicate SameShape(db: Db, db': Db) {
    db'.Keys == db.Keys && forall o | o in db :: |db'[o]| == |db[o]|
  }

  /** What a stored batch does to each row: its vector changes only to one made
      from the row's own text, and every row of the batch whose text is still
      what the vector was made from gets one. */
  lemma {:induction false} StoredRow(db: Db, batch: seq<PendingChunk>, values: seq<int>, o: Owner, i: nat)
    requires |values| == |batch| && o in db && i < |db[o]|
    ensures SameShape(db, StoreAll(db, batch, values))
    ensures var r, r' := db[o][i], StoreAll(db, batch, values)[o][i];
            && r' == r.(vec := r'.vec)
            && (r'.vec == r.vec || (r'.vec.Some? && r'.vec.value.model == EMBED_MODEL && Current(r')))
            && ((exists k :: 0 <= k < |batch| && Still(r, batch[k])) ==> r'.vec.Some? && r'.vec.value.model == EMBED_MODEL)
    decreases |batch|
  {
    if batch != [] {
      var n := |batch| - 1;
      StoredRow(db, batch[..n], values[..n], o, i);
      var r, mid := db[o][i], StoreAll(db, batch[..n], values[..n])[o][i];
      assert Still(mid, batch[n]) <==> Still(r, batch[n]);
      if k :| 0 <= k < |batch| && Still(r, batch[k]) && k < n {
        assert Still(r, batch[..n][k]);
      }
    }
  }

  /** The batch's last chunk that is this row, as it is now. */
  ghost predicate LastOf(batch: seq<PendingChunk>, r: Row, k: int) {
    && 0 <= k < |batch| && batch[k] == PendingChunk(r.id, r.title, r.text)
    && forall j | k < j < |batch| :: batch[j] != PendingChunk(r.id, r.title, r.text)
  }

  /** Such a row gets the vector that was computed from it, the last of them if
      there are more; every other row stays as it was. */
  lemma {:induction false} StoredRowIs(db: Db, batch: seq<PendingChunk>, values: seq<int>, o: Owner, i: nat)
    requires |values| == |batch| && o in db && i < |db[o]|
    ensures SameShape(db, StoreAll(db, batch, values))
    ensures forall k | LastOf(batch, db[o][i], k) ::
              StoreAll(db, batch, values)[o][i]
              == db[o][i].(vec := Some(Vector("embeddinggemma:300m", db[o][i].title, db[o][i].text, values[k])))
    ensures (forall k | 0 <= k < |batch| :: batch[k] != PendingChunk(db[o][i].id, db[o][i].title, db[o][i].text)) ==>
              StoreAll(db, batch, values)[o][i] == db[o][i]
    decreases |batch|
  {
    if batch != [] {
      var n, r := |batch| - 1, db[o][i];
      StoredRow(db, batch[..n], values[..n], o, i);
      StoredRowIs(db, batch[..n], values[..n], o, i);
      if batch[n] == PendingChunk(r.id, r.title, r.text) {
        assert forall k | LastOf(batch, r, k) :: k == n;
      } else {
        forall k | LastOf(batch, r, k)
          ensures LastOf(batch[..n], r, k)
        {
        }
      }
    }
  }

  lemma StoringKeeps(db: Db, batch: seq<PendingChunk>, values: seq<int>)
    requires |values| == |batch|
    ensures AllCurrent(db) ==> AllCurrent(StoreAll(db, batch, values))
    ensures AllSameTitle(db) ==> AllSameTitle(StoreAll(db, batch, values))
  {
    var db' := StoreAll(db, batch, values);
    StoringKeepsShape(db, batch, values);
    forall o, i | o in db' && 0 <= i < |db'[o]|
      ensures AllCurrent(db) ==> Current(db'[o][i])
      ensures AllSameTitle(db) ==> SameTitle(db'[o][i])
    {
      StoredRow(db, batch, values, o, i);
    }
  }

  lemma {:induction false} StoringKeepsShape(db: Db, batch: seq<PendingChunk>, values: seq<int>)
    requires |values| == |batch|
    ensures SameShape(db, StoreAll(db, batch, values))
    decreases |batch|
  {
    if batch != [] {
      StoringKeepsShape(db, batch[..|batch| - 1], values[..|batch| - 1]);
    }
  }

  // -------------------------------------------------------------------------
  // Re-chunking an owner
  // -------------------------------------------------------------------------

  predicate Same(r: Row, title: string, c: Chunk) {
    r.title == title && r.text == c.text && r.ids == c.ids && r.endMs == c.endMs && r.polished == c.polished
  }

  predicate Unchanged(rows: seq<Row>, title: string, chunks: seq<Chunk>) {
    |rows| == |chunks| && forall i | 0 <= i < |rows| :: Same(rows[i], title, chunks[i])
  }

  /** What a row's vector is looked up by: its content, or the segments it covers. */
  datatype Key = Content(title: string, text: string) | Span(title: string, ids: string)

  predicate Offers(r: Row, key: Key) {
    r.vec.Some? && r.title == key.title && (if key.Content? then r.text == key.text else r.ids == key.ids)
  }

  /** The last row that offers a vector for the key. */
  function Last(rows: seq<Row>, key: Key): (r: Option<Row>)
    ensures r.Some? ==> r.value in rows && Offers(r.value, key)
    ensures r.None? ==> forall x | x in rows :: !Offers(x, key)
  {
    if rows == [] then None
    else if Offers(rows[|rows| - 1], key) then Some(rows[|rows| - 1])
    else Last(rows[..|rows| - 1], key)
  }

  /** No row has this content, and the last one to cover these segments was
      polished, or the chunk is: a polish carries the vector over. */
  predicate ReusesThroughPolish(rows: seq<Row>, title: string, c: Chunk) {
    && Last(rows, Content(title, c.text)).None?
    && Last(rows, Span(title, c.ids)).Some?
    && (Last(rows, Span(title, c.ids)).value.polished || c.polished)
  }

  function Reuse(rows: seq<Row>, title: string, c: Chunk): Option<Vector> {
    if Last(rows, Content(title, c.text)).Some? then Last(rows, Content(title, c.text)).value.vec
    else if ReusesThroughPolish(rows, title, c) then Last(rows, Span(title, c.ids)).value.vec
    else None
  }

  function NewRow(rows: seq<Row>, title: string, c: Chunk, id: nat): Row {
    Row(id, title, c.text, c.ids, c.endMs, c.polished, Reuse(rows, title, c))
  }

  function NewRows(rows: seq<Row>, title: string, chunks: seq<Chunk>, ids: seq<nat>): (r: seq<Row>)
    requires |ids| == |chunks|
    ensures |r| == |chunks|
    ensures forall i | 0 <= i < |r| :: r[i] == NewRow(rows, title, chunks[i], ids[i])
  {
    seq(|chunks|, i requires 0 <= i < |chunks| => NewRow(rows, title, chunks[i], ids[i]))
  }

  /** `ids`: the row ids the database gives, old ones perhaps among them. */
  function Synced(db: Db, owner: Owner, title: string, chunks: seq<Chunk>, ids: seq<nat>): Db
    requires |ids| == |chunks|
  {
    if Unchanged(RowsOf(db, owner), title, chunks) then db
    else db[owner := NewRows(RowsOf(db, owner), title, chunks, ids)]
  }

  /** The sync carries some vector over to a text it wasn't made from. */
  predicate Drifts(db: Db, owner: Owner, title: string, chunks: seq<Chunk>) {
    && !Unchanged(RowsOf(db, owner), title, chunks)
    && exists i :: 0 <= i < |chunks| && ReusesThroughPolish(RowsOf(db, owner), title, chunks[i])
  }

  lemma ReusedIsCurrent(rows: seq<Row>, title: string, c: Chunk, id: nat)
    requires forall r | r in rows :: Current(r)
    ensures Current(NewRow(rows, title, c, id)) <==> !ReusesThroughPolish(rows, title, c)
  {
    if ReusesThroughPolish(rows, title, c) {
      var r := Last(rows, Span(title, c.ids)).value;
      assert r in rows && r.text != c.text;
    }
  }

  /** When every vector embeds its row's text, that stays so through a sync if
      and only if no new text takes over a vector through a polish. */
  lemma SyncKeepsCurrent(db: Db, owner: Owner, title: string, chunks: seq<Chunk>, ids: seq<nat>)
    requires |ids| == |chunks| && AllCurrent(db)
    ensures AllCurrent(Synced(db, owner, title, chunks, ids)) <==> !Drifts(db, owner, title, chunks)
  {
    var rows, db' := RowsOf(db, owner), Synced(db, owner, title, chunks, ids);
    if !Unchanged(rows, title, chunks) {
      forall i | 0 <= i < |chunks|
        ensures Current(db'[owner][i]) <==> !ReusesThroughPolish(rows, title, chunks[i])
      {
        ReusedIsCurrent(rows, title, chunks[i], ids[i]);
      }
      if !Drifts(db, owner, title, chunks) {
        forall o, i | o in db' && 0 <= i < |db'[o]|
          ensures Current(db'[o][i])
        {
          if o == owner {
            assert !ReusesThroughPolish(rows, title, chunks[i]);
          }
        }
      }
    }
  }

  lemma SyncKeepsTitles(db: Db, owner: Owner, title: string, chunks: seq<Chunk>, ids: seq<nat>)
    requires |ids| == |chunks| && AllSameTitle(db)
    ensures AllSameTitle(Synced(db, owner, title, chunks, ids))
  {
    var rows, db' := RowsOf(db, owner), Synced(db, owner, title, chunks, ids);
    if !Unchanged(rows, title, chunks) {
      forall i | 0 <= i < |chunks|
        ensures SameTitle(db'[owner][i])
      {
        assert forall r | r in rows :: SameTitle(r);
      }
    }
  }

  /** Content that had a vector isn't embedded again by a re-chunk that changes
      something, wherever its chunk moved; one that changes nothing leaves all
      rows alone, a pending copy of such content too. */
  lemma SyncKeepsVectors(db: Db, owner: Owner, title: string, chunks: seq<Chunk>, ids: seq<nat>, was: nat, now: nat)
    requires |ids| == |chunks| && was < |RowsOf(db, owner)| && now < |chunks|
    requires Offers(RowsOf(db, owner)[was], Content(title, chunks[now].text))
    requires forall r | r in RowsOf(db, owner) && r.vec.Some? :: r.vec.value.model == EMBED_MODEL
    ensures var db' := Synced(db, owner, title, chunks, ids);
            |RowsOf(db', owner)| == |chunks|
            && (if Unchanged(RowsOf(db, owner), title, chunks) then db' == db else !IsPending(RowsOf(db', owner)[now]))
  {
    var rows := RowsOf(db, owner);
    assert rows[was] in rows;
    assert Last(rows, Content(title, chunks[now].text)).Some?;
  }

  /** The rows are those of these chunks under this title, word for word. */
  ghost predicate AlreadySays(rows: seq<Row>, title: string, chunks: seq<Chunk>) {
    && |rows| == |chunks|
    && forall i | 0 <= i < |rows| ::
         rows[i] == Row(rows[i].id, title, chunks[i].text, chunks[i].ids, chunks[i].endMs, chunks[i].polished, rows[i].vec)
  }

  /** Row `k` is the last with a vector that has this title and text. */
  ghost predicate LastWithText(rows: seq<Row>, title: string, text: string, k: int) {
    && 0 <= k < |rows| && rows[k].vec.Some? && rows[k].title == title && rows[k].text == text
    && forall j | k < j < |rows| :: rows[j].vec.None? || rows[j].title != title || rows[j].text != text
  }

  /** Row `k` is the last with a vector that has this title and covers these segments. */
  ghost predicate LastCovering(rows: seq<Row>, title: string, ids: string, k: int) {
    && 0 <= k < |rows| && rows[k].vec.Some? && rows[k].title == title && rows[k].ids == ids
    && forall j | k < j < |rows| :: rows[j].vec.None? || rows[j].title != title || rows[j].ids != ids
  }

  ghost predicate LastOffer(rows: seq<Row>, key: Key, k: int) {
    0 <= k < |rows| && Offers(rows[k], key) && forall j | k < j < |rows| :: !Offers(rows[j], key)
  }

  lemma {:induction false} LastIs(rows: seq<Row>, key: Key, k: int)
    requires LastOffer(rows, key, k)
    ensures Last(rows, key) == Some(rows[k])
    decreases |rows|
  {
    if k < |rows| - 1 {
      LastIs(rows[..|rows| - 1], key, k);
    }
  }

  /** What a re-chunk that changes something makes of each chunk. Its text under
      its title had a vector: it keeps the last. It had none, but its segments
      did: it takes over the last of those, if that row or the chunk is
      polished, and only then. Other owners' rows stay as they are. */
  lemma SyncedRow(db: Db, owner: Owner, title: string, chunks: seq<Chunk>, ids: seq<nat>, i: nat)
    requires |ids| == |chunks| && i < |chunks| && !AlreadySays(RowsOf(db, owner), title, chunks)
    ensures var rows, db', c := RowsOf(db, owner), Synced(db, owner, title, chunks, ids), chunks[i];
            && owner in db' && |db'[owner]| == |chunks|
            && db' - {owner} == db - {owner}
            && var r := db'[owner][i];
            && r == Row(ids[i], title, c.text, c.ids, c.endMs, c.polished, r.vec)
            && (forall k | LastWithText(rows, title, c.text, k) :: r.vec == rows[k].vec)
            && ((forall k :: !LastWithText(rows, title, c.text, k)) ==>
                  && (forall k | LastCovering(rows, title, c.ids, k) ::
                        r.vec == if rows[k].polished || c.polished then rows[k].vec else None)
                  && ((forall k :: !LastCovering(rows, title, c.ids, k)) ==> r.vec == None))
  {
    var rows, c := RowsOf(db, owner), chunks[i];
    assert !Unchanged(rows, title, chunks);
    SomeLastWithText(rows, title, c.text);
    SomeLastCovering(rows, title, c.ids);
    forall k | LastWithText(rows, title, c.text, k)
      ensures Last(rows, Content(title, c.text)) == Some(rows[k])
    {
      OfferOfText(rows, title, c.text, k);
      LastIs(rows, Content(title, c.text), k);
    }
    forall k | LastCovering(rows, title, c.ids, k)
      ensures Last(rows, Span(title, c.ids)) == Some(rows[k])
    {
      OfferOfSpan(rows, title, c.ids, k);
      LastIs(rows, Span(title, c.ids), k);
    }
  }

  lemma {:induction false} SomeLast(rows: seq<Row>, key: Key) returns (k: int)
    requires Last(rows, key).Some?
    ensures LastOffer(rows, key, k)
    decreases |rows|
  {
    k := |rows| - 1;
    if !Offers(rows[k], key) {
      k := SomeLast(rows[..|rows| - 1], key);
      assert forall j | 0 <= j < |rows| - 1 :: rows[j] == rows[..|rows| - 1][j];
    }
  }

  lemma SomeLastWithText(rows: seq<Row>, title: string, text: string)
    ensures Last(rows, Content(title, text)).Some? ==> exists k :: LastWithText(rows, title, text, k)
  {
    if Last(rows, Content(title, text)).Some? {
      var k := SomeLast(rows, Content(title, text));
      OfferOfText(rows, title, text, k);
    }
  }

  lemma SomeLastCovering(rows: seq<Row>, title: string, ids: string)
    ensures Last(rows, Span(title, ids)).Some? ==> exists k :: LastCovering(rows, title, ids, k)
  {
    if Last(rows, Span(title, ids)).Some? {
      var k := SomeLast(rows, Span(title, ids));
      OfferOfSpan(rows, title, ids, k);
    }
  }

  lemma OfferOfText(rows: seq<Row>, title: string, text: string, k: int)
    ensures LastOffer(rows, Content(title, text), k) <==> LastWithText(rows, title, text, k)
  {
    assert forall j | 0 <= j < |rows| :: Offers(rows[j], Content(title, text)) <==>
      rows[j].vec.Some? && rows[j].title == title && rows[j].text == text;
  }

  lemma OfferOfSpan(rows: seq<Row>, title: string, ids: string, k: int)
    ensures LastOffer(rows, Span(title, ids), k) <==> LastCovering(rows, title, ids, k)
  {
    assert forall j | 0 <= j < |rows| :: Offers(rows[j], Span(title, ids)) <==>
      rows[j].vec.Some? && rows[j].title == title && rows[j].ids == ids;
  }

  /** An ordinary edit, of a text that wasn't and isn't polished, leaves its row
      waiting for a vector. */
  lemma EditIsPending(db: Db, owner: Owner, title: string, chunks: seq<Chunk>, ids: seq<nat>, i: nat)
    requires |ids| == |chunks| && i < |chunks| && !chunks[i].polished
    requires forall r | r in RowsOf(db, owner) :: !r.polished && (r.title != title || r.text != chunks[i].text)
    ensures var db' := Synced(db, owner, title, chunks, ids);
            owner in db' && |db'[owner]| == |chunks| && IsPending(db'[owner][i]) && (owner, i) in Pending(db', {}, false)
  {
    var rows := RowsOf(db, owner);
    assert i < |rows| ==> rows[i] in rows;
    SyncedRow(db, owner, title, chunks, ids, i);
    assert forall k :: !LastWithText(rows, title, chunks[i].text, k);
  }

  /** Re-chunking the same content again changes nothing, whatever ids the
      database would give. */
  lemma SyncIsIdempotent(db: Db, owner: Owner, title: string, chunks: seq<Chunk>, ids: seq<nat>, again: seq<nat>)
    requires |ids| == |chunks| && |again| == |chunks|
    ensures Synced(Synced(db, owner, title, chunks, ids), owner, title, chunks, again) == Synced(db, owner, title, chunks, ids)
  {
    var db' := Synced(db, owner, title, chunks, ids);
    assert Unchanged(RowsOf(db', owner), title, chunks);
  }

  // -------------------------------------------------------------------------
  // The pending queue
  // -------------------------------------------------------------------------

  /** A row: its owner and its place among the owner's rows. */
  type Place = (Owner, nat)

  predicate IsPending(r: Row) {
    r.vec.None? || r.vec.value.model != EMBED_MODEL
  }

  /** The rows waiting for a vector; of shareable owners only, if `remote`. */
  function Pending(db: Db, local: set<Owner>, remote: bool): set<Place> {
    set o, i | o in db && 0 <= i < |db[o]| && IsPending(db[o][i]) && !(remote && o in local) :: (o, i)
  }

  /** A row waits while it has no vector of the current model; one of an owner
      that is kept local doesn't wait to be sent to another machine. */
  lemma PendingExactly(db: Db, local: set<Owner>, remote: bool, o: Owner, i: nat)
    ensures (o, i) in Pending(db, local, remote) <==>
              && o in db && i < |db[o]|
              && (db[o][i].vec.None? || db[o][i].vec.value.model != "embeddinggemma:300m")
              && (remote ==> o !in local)
  {
  }

  function IdAt(db: Db, p: Place): nat
    requires p.0 in db && p.1 < |db[p.0]|
  {
    db[p.0][p.1].id
  }

  /** The newest `size` pending rows, newest first. */
  ghost predicate IsBatch(db: Db, local: set<Owner>, remote: bool, size: nat, places: seq<Place>) {
    var pending := Pending(db, local, remote);
    && (forall k | 0 <= k < |places| :: places[k] in pending)
    && (forall j, k | 0 <= j < k < |places| :: places[j] != places[k] && IdAt(db, places[j]) >= IdAt(db, places[k]))
    && |places| <= size
    && (|places| < size ==> forall p | p in pending :: p in places)
    && (forall p, k | p in pending && p !in places && 0 <= k < |places| :: IdAt(db, places[k]) >= IdAt(db, p))
  }

  function ChunkAt(db: Db, p: Place): PendingChunk
    requires p.0 in db && p.1 < |db[p.0]|
  {
    PendingChunk(db[p.0][p.1].id, db[p.0][p.1].title, db[p.0][p.1].text)
  }

  function ChunksAt(db: Db, places: seq<Place>): (r: seq<PendingChunk>)
    requires forall k | 0 <= k < |places| :: places[k].0 in db && places[k].1 < |db[places[k].0]|
    ensures |r| == |places|
    ensures forall k | 0 <= k < |places| :: r[k] == ChunkAt(db, places[k])
  {
    seq(|places|, k requires 0 <= k < |places| => ChunkAt(db, places[k]))
  }

  /** The rows a query answers with always exist. */
  lemma {:induction false} BatchExists(db: Db, local: set<Owner>, remote: bool, size: nat)
    ensures exists places :: IsBatch(db, local, remote, size, places)
  {
    if size == 0 {
      assert IsBatch(db, local, remote, 0, []);
    } else {
      BatchExists(db, local, remote, size - 1);
      var places :| IsBatch(db, local, remote, size - 1, places);
      var pending := Pending(db, local, remote);
      var rest := set p | p in pending && p !in places;
      if rest == {} {
        forall p | p in pending
          ensures p in places
        {
          assert p !in rest;
        }
        assert IsBatch(db, local, remote, size, places);
      } else {
        NewestExists(db, rest);
        var p :| p in rest && forall q | q in rest :: IdAt(db, p) >= IdAt(db, q);
        BatchGrows(db, local, remote, size, places, p);
      }
    }
  }

  lemma BatchGrows(db: Db, local: set<Owner>, remote: bool, size: nat, places: seq<Place>, p: Place)
    requires size > 0 && IsBatch(db, local, remote, size - 1, places)
    requires p in Pending(db, local, remote) && p !in places
    requires forall q | q in Pending(db, local, remote) && q !in places :: IdAt(db, p) >= IdAt(db, q)
    ensures IsBatch(db, local, remote, size, places + [p])
  {
    var more := places + [p];
    assert more[..|places|] == places && more[|places|] == p;
    forall j, k | 0 <= j < k < |more|
      ensures more[j] != more[k] && IdAt(db, more[j]) >= IdAt(db, more[k])
    {
      assert more[j] == places[j];
      assert k < |places| ==> more[k] == places[k];
    }
    assert forall q | q !in more :: q !in places;
  }

  lemma {:induction false} NewestExists(db: Db, places: set<Place>)
    requires places != {}
    requires forall p | p in places :: p.0 in db && p.1 < |db[p.0]|
    ensures exists p :: p in places && forall q | q in places :: IdAt(db, p) >= IdAt(db, q)
    decreases places
  {
    var p :| p in places;
    if places != {p} {
      NewestExists(db, places - {p});
      var q :| q in places - {p} && forall r | r in places - {p} :: IdAt(db, q) >= IdAt(db, r);
      var first := if IdAt(db, p) >= IdAt(db, q) then p else q;
      assert forall r | r in places :: r == p || r in places - {p};
      assert first in places && forall r | r in places :: IdAt(db, first) >= IdAt(db, r);
    }
  }

  /** Rows that are newer than the rest of the backlog, and no more than a
      batch, are all in the next batch. */
  lemma NewestRowsGoFirst(db: Db, local: set<Owner>, remote: bool, size: nat, places: seq<Place>, newest: set<Place>)
    requires IsBatch(db, local, remote, size, places)
    requires newest <= Pending(db, local, remote) && |newest| <= size
    requires forall p, q | p in newest && q in Pending(db, local, remote) && q !in newest :: IdAt(db, p) > IdAt(db, q)
    ensures forall p | p in newest :: p in places
  {
    if p :| p in newest && p !in places {
      assert |places| == size;
      forall k | 0 <= k < |places|
        ensures places[k] in newest - {p}
      {
        assert IdAt(db, places[k]) >= IdAt(db, p);
      }
      DistinctFit(places, newest - {p});
    }
  }

  lemma {:induction false} DistinctFit<T>(xs: seq<T>, s: set<T>)
    requires forall j, k | 0 <= j < k < |xs| :: xs[j] != xs[k]
    requires forall k | 0 <= k < |xs| :: xs[k] in s
    ensures |xs| <= |s|
  {
    if xs != [] {
      DistinctFit(xs[1..], s - {xs[0]});
    }
  }

  /** With no writer in between, a stored batch leaves pending exactly the rows
      that were pending and not in it, or fewer. */
  lemma StoredBatchShrinks(db: Db, local: set<Owner>, remote: bool, size: nat, places: seq<Place>, values: seq<int>)
    requires size > 0 && IsBatch(db, local, remote, size, places) && |values| == |places|
    ensures var left := Pending(StoreAll(db, ChunksAt(db, places), values), local, remote);
            && left <= Pending(db, local, remote)
            && (forall k | 0 <= k < |places| :: places[k] !in left)
            && (Pending(db, local, remote) != {} ==> left < Pending(db, local, remote))
  {
    var batch := ChunksAt(db, places);
    var db' := StoreAll(db, batch, values);
    var pending, left := Pending(db, local, remote), Pending(db', local, remote);
    StoringKeepsShape(db, batch, values);
    forall p | p in left
      ensures p in pending
    {
      StoredRow(db, batch, values, p.0, p.1);
    }
    forall k | 0 <= k < |places|
      ensures places[k] !in left
    {
      var p := places[k];
      assert p in pending;
      StoredRow(db, batch, values, p.0, p.1);
      assert Still(db[p.0][p.1], batch[k]);
    }
    if pending != {} {
      var p :| p in pending;
      assert places == [] ==> p in places;
      assert places[0] in pending && places[0] !in left;
    }
  }

  datatype Round = Round(places: seq<Place>, values: seq<int>)

  /** Batches read and stored one after another, with no writer in between. */
  ghost predicate Drains(db: Db, local: set<Owner>, remote: bool, size: nat, rounds: seq<Round>, db': Db)
    decreases |rounds|
  {
    if rounds == [] then db' == db
    else
      && IsBatch(db, local, remote, size, rounds[0].places)
      && |rounds[0].values| == |rounds[0].places|
      && Drains(StoreAll(db, ChunksAt(db, rounds[0].places), rounds[0].values), local, remote, size, rounds[1..], db')
  }

  lemma {:induction false} DrainEmpties(db: Db, local: set<Owner>, remote: bool, size: nat, rounds: seq<Round>, db': Db)
    requires size > 0 && Drains(db, local, remote, size, rounds, db')
    requires |rounds| >= |Pending(db, local, remote)|
    ensures Pending(db', local, remote) == {}
    decreases |rounds|
  {
    var pending := Pending(db, local, remote);
    if rounds != [] {
      var next := StoreAll(db, ChunksAt(db, rounds[0].places), rounds[0].values);
      StoredBatchShrinks(db, local, remote, size, rounds[0].places, rounds[0].values);
      var left := Pending(next, local, remote);
      if pending != {} {
        Smaller(left, pending);
      } else {
        assert left == {};
      }
      DrainEmpties(next, local, remote, size, rounds[1..], db');
    } else {
      assert |pending| == 0;
    }
  }

  lemma Smaller<T>(a: set<T>, b: set<T>)
    requires a < b
    ensures |a| < |b|
  {
    assert b == a + (b - a);
    assert b - a != {};
  }

  /** The vectors an owner's rows have to offer, a later row winning. */
  method Reusable(existing: seq<Row>)
    returns (byContent: map<(string, string), Vector>, bySpan: map<(string, string), (Vector, bool)>)
    ensures forall t, x :: (t, x) in byContent <==> Last(existing, Content(t, x)).Some?
    ensures forall t, x | (t, x) in byContent :: Some(byContent[(t, x)]) == Last(existing, Content(t, x)).value.vec
    ensures forall t, s :: (t, s) in bySpan <==> Last(existing, Span(t, s)).Some?
    ensures forall t, s | (t, s) in bySpan ::
      Some(bySpan[(t, s)].0) == Last(existing, Span(t, s)).value.vec
      && bySpan[(t, s)].1 == Last(existing, Span(t, s)).value.polished
  {
    byContent, bySpan := map[], map[];
    var i := 0;
    while i < |existing|
      invariant 0 <= i <= |existing|
      invariant forall t, x :: (t, x) in byContent <==> Last(existing[..i], Content(t, x)).Some?
      invariant forall t, x | (t, x) in byContent :: Some(byContent[(t, x)]) == Last(existing[..i], Content(t, x)).value.vec
      invariant forall t, s :: (t, s) in bySpan <==> Last(existing[..i], Span(t, s)).Some?
      invariant forall t, s | (t, s) in bySpan ::
        Some(bySpan[(t, s)].0) == Last(existing[..i], Span(t, s)).value.vec
        && bySpan[(t, s)].1 == Last(existing[..i], Span(t, s)).value.polished
    {
      var row := existing[i];
      assert existing[..i + 1][..i] == existing[..i];
      if row.vec.Some? {
        bySpan := bySpan[(row.title, row.ids) := (row.vec.value, row.polished)];
        byContent := byContent[(row.title, row.text) := row.vec.value];
      }
      i := i + 1;
    }
    assert existing[..i] == existing;
  }

  // -------------------------------------------------------------------------
  // The database
  // -------------------------------------------------------------------------

  class Index {
    var db: Db

    constructor ()
      ensures db == map[]
    {
      db := map[];
    }

    method StorePendingEmbeddings(batch: seq<PendingChunk>, values: seq<int>)
      requires |values| == |batch|
      modifies this
      ensures db == StoreAll(old(db), batch, values)
    {
      var i := 0;
      while i < |batch|
        invariant 0 <= i <= |batch|
        invariant db == StoreAll(old(db), batch[..i], values[..i])
      {
        db := Updated(db, batch[i], values[i]);
        i := i + 1;
        assert batch[..i][..i - 1] == batch[..i - 1] && values[..i][..i - 1] == values[..i - 1];
      }
      assert batch[..i] == batch && values[..i] == values;
    }

    /** Re-chunk one owner: rows keep their vectors by content, and through a
        polish by the segments they cover. */
    method SyncChunks(owner: Owner, title: string, chunks: seq<Chunk>, ids: seq<nat>)
      requires |ids| == |chunks|
      modifies this
      ensures db == Synced(old(db), owner, title, chunks, ids)
    {
      var existing := RowsOf(db, owner);
      if Unchanged(existing, title, chunks) {
        return;
      }
      var byContent, bySpan := Reusable(existing);
      var rows: seq<Row> := [];
      while |rows| < |chunks|
        invariant |rows| <= |chunks|
        invariant forall k | 0 <= k < |rows| :: rows[k] == NewRow(existing, title, chunks[k], ids[k])
      {
        var c := chunks[|rows|];
        var reuse: Option<Vector> := None;
        if (title, c.text) in byContent {
          reuse := Some(byContent[(title, c.text)]);
        } else if (title, c.ids) in bySpan {
          var (vec, wasPolished) := bySpan[(title, c.ids)];
          if wasPolished || c.polished {
            reuse := Some(vec);
          }
        }
        rows := rows + [Row(ids[|rows|], title, c.text, c.ids, c.endMs, c.polished, reuse)];
      }
      assert rows == NewRows(existing, title, chunks, ids);
      db := db[owner := rows];
    }
  }

  // -------------------------------------------------------------------------
  // Writers interleaved with the worker
  // -------------------------------------------------------------------------

  /** The batch being embedded, and whether it went to another machine. */
  datatype Flight = Flight(batch: seq<PendingChunk>, remote: bool)

  datatype State = State(db: Db, local: set<Owner>, flight: Option<Flight>)

  datatype Step =
    | Sync(owner: Owner, title: string, chunks: seq<Chunk>, ids: seq<nat>)
    | Forget(owner: Owner)
    | KeepLocal(owners: set<Owner>)
    | ReadBatch(places: seq<Place>, remote: bool, size: nat)
    | StoreBatch(values: seq<int>)
    | DropBatch // abandoned, or the embedder failed

  ghost predicate Enabled(s: State, step: Step) {
    match step
    case Sync(_, _, chunks, ids) => |ids| == |chunks|
    case Forget(_) => true
    case KeepLocal(_) => true
    case ReadBatch(places, remote, size) => s.flight.None? && IsBatch(s.db, s.local, remote, size, places)
    case StoreBatch(values) => s.flight.Some? && |values| == |s.flight.value.batch|
    case DropBatch => s.flight.Some?
  }

  ghost function After(s: State, step: Step): State
    requires Enabled(s, step)
  {
    match step
    case Sync(owner, title, chunks, ids) => s.(db := Synced(s.db, owner, title, chunks, ids))
    case Forget(owner) => s.(db := s.db - {owner})
    case KeepLocal(owners) => s.(local := owners)
    case ReadBatch(places, remote, _) => s.(flight := Some(Flight(ChunksAt(s.db, places), remote)))
    case StoreBatch(values) => s.(db := StoreAll(s.db, s.flight.value.batch, values), flight := None)
    case DropBatch => s.(flight := None)
  }

  /** A batch for another machine holds only text of owners that may leave this
      one when it is read. */
  lemma RemoteBatchIsShareable(s: State, places: seq<Place>, size: nat)
    requires Enabled(s, ReadBatch(places, true, size))
    ensures forall c | c in After(s, ReadBatch(places, true, size)).flight.value.batch ::
              exists o, i :: o in s.db && o !in s.local && 0 <= i < |s.db[o]| && Still(s.db[o][i], c)
  {
    var batch := ChunksAt(s.db, places);
    forall k | 0 <= k < |batch|
      ensures exists o, i :: o in s.db && o !in s.local && 0 <= i < |s.db[o]| && Still(s.db[o][i], batch[k])
    {
      var (o, i) := places[k];
      assert (o, i) in Pending(s.db, s.local, true);
      assert Still(s.db[o][i], batch[k]);
    }
  }

  /** With no writer in between, a batch that is read is stored, or dropped with
      nothing changed; either way the worker is free for the next one. */
  lemma RoundEnds(s: State, places: seq<Place>, remote: bool, size: nat, values: seq<int>) returns (stored: State, dropped: State)
    requires s.flight.None? && IsBatch(s.db, s.local, remote, size, places) && |values| == |places|
    ensures Runs.IsRun(Next, s, [ReadBatch(places, remote, size), StoreBatch(values)], stored)
    ensures stored == s.(db := StoreAll(s.db, ChunksAt(s.db, places), values))
    ensures Runs.IsRun(Next, s, [ReadBatch(places, remote, size), DropBatch], dropped) && dropped == s
  {
    var steps, read := Runs.OneMore(Next, s, [], s, ReadBatch(places, remote, size));
    var storing, dropping;
    storing, stored := Runs.OneMore(Next, s, steps, read, StoreBatch(values));
    dropping, dropped := Runs.OneMore(Next, s, steps, read, DropBatch);
    assert storing == [ReadBatch(places, remote, size), StoreBatch(values)];
    assert dropping == [ReadBatch(places, remote, size), DropBatch];
  }

  /** Writers change what they say and nothing of a batch in flight. */
  lemma WritersLeaveTheBatch(s: State, owner: Owner, owners: set<Owner>)
    ensures Next(s, Forget(owner)) == Some(s.(db := map o | o in s.db && o != owner :: s.db[o]))
    ensures Next(s, KeepLocal(owners)) == Some(s.(local := owners))
  {
    assert s.db - {owner} == map o | o in s.db && o != owner :: s.db[o];
  }

  predicate DriftsIn(s: State, step: Step) {
    step.Sync? && Drifts(s.db, step.owner, step.title, step.chunks)
  }

  ghost function Next(s: State, step: Step): Option<State> {
    if Enabled(s, step) then Some(After(s, step)) else None
  }

  ghost predicate NeverDrifts(s: State, steps: seq<Step>, s': State)
    requires Runs.IsRun(Next, s, steps, s')
    decreases |steps|
  {
    steps != [] ==> !DriftsIn(s, steps[0]) && NeverDrifts(After(s, steps[0]), steps[1..], s')
  }

  lemma StepKeepsCurrent(s: State, step: Step)
    requires Enabled(s, step) && AllCurrent(s.db)
    ensures AllCurrent(After(s, step).db) <==> !DriftsIn(s, step)
  {
    match step
    case Sync(owner, title, chunks, ids) => SyncKeepsCurrent(s.db, owner, title, chunks, ids);
    case StoreBatch(values) => StoringKeeps(s.db, s.flight.value.batch, values);
    case _ =>
  }

  /** Whatever is written while a batch is being embedded: in a run where no
      sync carries a vector over to another text, every stored vector embeds
      its row's current title and text. */
  lemma {:induction false} StoredVectorsAreCurrent(s: State, steps: seq<Step>, s': State)
    requires Runs.IsRun(Next, s, steps, s') && AllCurrent(s.db)
    requires NeverDrifts(s, steps, s')
    ensures AllCurrent(s'.db)
    decreases |steps|
  {
    if steps != [] {
      StepKeepsCurrent(s, steps[0]);
      StoredVectorsAreCurrent(After(s, steps[0]), steps[1..], s');
    }
  }

  /** In every run, a stored vector was made under its row's current title. */
  lemma {:induction false} TitlesAreCurrent(s: State, steps: seq<Step>, s': State)
    requires Runs.IsRun(Next, s, steps, s') && AllSameTitle(s.db)
    ensures AllSameTitle(s'.db)
    decreases |steps|
  {
    if steps != [] {
      match steps[0] {
        case Sync(owner, title, chunks, ids) => SyncKeepsTitles(s.db, owner, title, chunks, ids);
        case StoreBatch(values) => StoringKeeps(s.db, s.flight.value.batch, values);
        case _ =>
      }
      TitlesAreCurrent(After(s, steps[0]), steps[1..], s');
    }
  }

  /** A polish does carry a vector over, and so hides a later edit: raw text,
      polished, then edited keeps the vector of the first text. */
  lemma PolishHidesAnEdit(owner: Owner, title: string, ids: string, first: string, second: string, third: string, value: int)
    requires first != second && first != third && second != third
    ensures var made := MadeFrom(PendingChunk(1, title, first), value);
            var raw := map[owner := [Row(1, title, first, ids, None, false, Some(made))]];
            var polished := Synced(raw, owner, title, [Chunk(second, ids, None, true)], [1]);
            var edited := Synced(polished, owner, title, [Chunk(third, ids, None, false)], [1]);
            && AllCurrent(raw)
            && edited == map[owner := [Row(1, title, third, ids, None, false, Some(made))]]
            && !AllCurrent(edited) && Pending(edited, {}, false) == {}
  {
    var made := MadeFrom(PendingChunk(1, title, first), value);
    var row := Row(1, title, first, ids, None, false, Some(made));
    var raw := map[owner := [row]];
    assert Last([row], Content(title, second)).None? && Last([row], Span(title, ids)) == Some(row);
    var polished := Synced(raw, owner, title, [Chunk(second, ids, None, true)], [1]);
    var row2 := Row(1, title, second, ids, None, true, Some(made));
    assert polished[owner] == [row2];
    assert Last([row2], Content(title, third)).None? && Last([row2], Span(title, ids)) == Some(row2);
    var edited := Synced(polished, owner, title, [Chunk(third, ids, None, false)], [1]);
    var row3 := Row(1, title, third, ids, None, false, Some(made));
    assert edited[owner] == [row3];
    assert !Current(edited[owner][0]);
  }
}

/**
 Private class videos from upload to playback: uploads, conversion workers and clean-up workers that run in small
 steps, side by side, and may stop between any two of them. Object keys are a random base with one of two endings.
 */
module VideoPipeline {
  import opened Options
  import opened Chains

  datatype Ending = Mp4 | Webm

  datatype Key = Key(base: nat, ending: Ending)

  /** The key of a converted video: the same base with the other ending. */
  function Other(k: Key): Key {
    Key(k.base, if k.ending == Mp4 then Webm else Mp4)
  }

  datatype State = Processing | Ready | Failed

  /** How far a worker has come with a video: its source has been read, or also its output stored. */
  datatype Stage = Claimed | Opened | Stored

  datatype Row = Row(storage: Key, state: State, output: Option<Key>)

  /**
   The tables and the object store, and what the running processes hold: uploads stored but not yet inserted, rows
   locked by a worker (and how far it has come), outputs that workers without their lock may still store, keys that
   clean-up workers have read, and keys they have deleted. `orphans` are objects of uploads that never made it into
   the table. `doubted` are those of uploads whose insert was reported as failed: it may have taken effect all the
   same, or still do so, while the upload takes its object back; `taken` are those it has taken back.
   */
  datatype World = World(
    rows: map<int, Row>, store: set<Key>, queue: set<Key>,
    bases: set<nat>, uploads: set<Key>, orphans: set<Key>, doubted: set<Key>, taken: set<Key>,
    locked: map<int, Stage>, strays: set<Key>,
    condemned: set<Key>, deleted: set<Key>)

  datatype Step =
    | StoreUpload(key: Key)
    | InsertRow(id: int, key: Key)
    | DropUpload(key: Key, cleaned: bool)
    | DoubtInsert(key: Key)
    | InsertLate(id: int, key: Key)
    | TakeBack(key: Key)
    | Claim(id: int)
    | OpenSource(id: int)
    | StoreOutput(id: int)
    | Publish(id: int)
    | MarkFailed(id: int)
    | Release(id: int)
    | LoseLock(id: int)
    | StoreStray(key: Key)
    | ReadQueue(keys: set<Key>)
    | DeleteObject(key: Key)
    | DeleteQueued(key: Key)
    | ForgetKeys(keys: set<Key>)

  ghost predicate Next(w: World, s: Step, w': World) {
    match s
    case StoreUpload(key) =>
      key.base !in w.bases && w' == w.(store := w.store + {key}, uploads := w.uploads + {key}, bases := w.bases
        + {key.base})
    case InsertRow(id, key) =>
      && key in w.uploads && id !in w.rows
      && w' == w.(rows := w.rows[id := Row(key, Processing, Some(Other(key)))], uploads := w.uploads - {key})
    case DropUpload(key, cleaned) =>
      && key in w.uploads
      && w' == if cleaned then w.(uploads := w.uploads - {key}, store := w.store - {key})
               else w.(uploads := w.uploads - {key}, orphans := w.orphans + {key})
    case DoubtInsert(key) =>
      key in w.uploads && w' == w.(uploads := w.uploads - {key}, doubted := w.doubted + {key})
    case InsertLate(id, key) =>
      && key in w.doubted && id !in w.rows && (forall i :: i in w.rows ==> !SourceOf(w.rows[i], key))
      && w' == w.(rows := w.rows[id := Row(key, Processing, Some(Other(key)))])
    case TakeBack(key) =>
      key in w.doubted && w' == w.(store := w.store - {key}, taken := w.taken + {key})
    case Claim(id) =>
      && id in w.rows && id !in w.locked && w.rows[id].state == Processing && w.rows[id].output.Some?
      && w' == w.(locked := w.locked[id := Claimed])
    case OpenSource(id) =>
      && id in w.locked && w.locked[id].Claimed? && id in w.rows && w.rows[id].storage in w.store
      && w' == w.(locked := w.locked[id := Opened])
    case StoreOutput(id) =>
      && id in w.locked && !w.locked[id].Claimed? && id in w.rows && w.rows[id].output.Some?
      && w' == w.(store := w.store + {w.rows[id].output.value}, locked := w.locked[id := Stored])
    case Publish(id) =>
      && id in w.locked && w.locked[id].Stored? && id in w.rows && w.rows[id].output.Some?
      && w' == w.(rows := w.rows[id := Row(w.rows[id].output.value, Ready, None)], queue := w.queue
        + {w.rows[id].storage}, locked := w.locked - {id})
    case MarkFailed(id) =>
      && id in w.locked && id in w.rows
      && w' == w.(rows := w.rows[id := w.rows[id].(state := Failed)], locked := w.locked - {id})
    case Release(id) =>
      id in w.locked && w' == w.(locked := w.locked - {id})
    case LoseLock(id) =>
      && id in w.locked && id in w.rows && w.rows[id].output.Some?
      && w' == w.(locked := w.locked - {id}, strays := w.strays + {w.rows[id].output.value})
    case StoreStray(key) =>
      key in w.strays && w' == w.(store := w.store + {key})
    case ReadQueue(keys) =>
      keys <= w.queue && w' == w.(condemned := w.condemned + keys)
    case DeleteObject(key) =>
      key in w.condemned && w' == w.(store := w.store - {key}, deleted := w.deleted + {key})
    case DeleteQueued(key) =>
      key in w.condemned && key in w.deleted && w' == w.(queue := w.queue - {key})
    case ForgetKeys(keys) =>
      w' == w.(condemned := w.condemned - keys)
  }

  // ---------------------------------------------------------------- what always holds

  ghost predicate RefersTo(r: Row, k: Key) {
    r.storage == k || r.output == Some(k)
  }

  /** The key is what the row's video was uploaded as. */
  ghost predicate SourceOf(r: Row, k: Key) {
    r.storage == if r.state == Ready then Other(k) else k
  }

  ghost predicate Referenced(w: World, k: Key) {
    exists id :: id in w.rows && RefersTo(w.rows[id], k)
  }

  /** The key is where a row's video goes, or has gone, when converted. */
  ghost predicate Output(w: World, k: Key) {
    exists id :: id in w.rows && OutputOf(w.rows[id], k)
  }

  ghost predicate OutputOf(r: Row, k: Key) {
    r.output == Some(k) || (r.state == Ready && r.storage == k)
  }

  /** The key is the source of a video that has been published under its other key. */
  ghost predicate Replaced(w: World, k: Key) {
    exists id :: id in w.rows && w.rows[id].state == Ready && w.rows[id].storage == Other(k)
  }

  ghost predicate RowInv(w: World, id: int)
    requires id in w.rows
  {
    var r := w.rows[id];
    && (r.storage in w.store || (r.state != Ready && r.storage in w.taken)) && r.storage.base in w.bases
    && r.output == (if r.state == Ready then None else Some(Other(r.storage)))
    && (id in w.locked ==> r.state == Processing && (w.locked[id].Stored? ==> Other(r.storage) in w.store))
  }

  ghost predicate Unshared(w: World) {
    && (forall i, j :: i in w.rows && j in w.rows && w.rows[i].storage.base == w.rows[j].storage.base ==> i == j)
    && (forall k, id :: k in w.uploads + w.orphans && id in w.rows ==> w.rows[id].storage.base != k.base)
    && (forall k, id :: k in w.doubted && id in w.rows && w.rows[id].storage.base == k.base ==> SourceOf(w.rows[id], k))
  }

  /** No object belongs to two uploads, or to an upload and to somebody else's row. */
  ghost predicate Owned(w: World) {
    && Unshared(w)
    && (forall k :: k in w.uploads ==> k in w.store && k.base in w.bases)
    && (forall k :: k in w.orphans + w.doubted ==> k.base in w.bases)
    && w.uploads !! w.orphans && w.uploads !! w.doubted && w.orphans !! w.doubted
    && (forall k, l :: k in w.uploads + w.doubted && l in w.uploads + w.orphans + w.doubted && k.base == l.base ==>
      k == l)
  }

  /** What is deleted or may yet be stored, and where every stored object comes from. */
  ghost predicate Accounted(w: World) {
    && w.taken <= w.doubted && w.taken !! w.store
    && (forall k :: k in w.doubted ==> k in w.store + w.taken || Replaced(w, k))
    && (forall k :: k in w.queue + w.condemned + w.deleted ==> Replaced(w, k))
    && (forall k :: k in w.strays ==> Output(w, k))
    && (forall k :: k in w.deleted ==> k !in w.store)
    && (forall k :: k in w.store ==> k in w.uploads + w.orphans + w.doubted || k in w.queue || Referenced(w, k))
  }

  ghost predicate Inv(w: World) {
    && (forall id :: id in w.rows ==> RowInv(w, id))
    && (forall id :: id in w.locked ==> id in w.rows)
    && Owned(w) && Accounted(w)
  }

  const START := World(map[], {}, {}, {}, {}, {}, {}, {}, map[], {}, {}, {})

  lemma ReferenceHasBase(w: World, id: int, k: Key)
    requires Inv(w) && id in w.rows && RefersTo(w.rows[id], k)
    ensures w.rows[id].storage.base == k.base && k.base in w.bases
    ensures w.rows[id].state == Ready ==> w.rows[id].storage == k
  {
    assert RowInv(w, id);
  }

  lemma ReplacedHasBase(w: World, k: Key)
    requires Inv(w) && Replaced(w, k)
    ensures k.base in w.bases
  {
    var r :| r in w.rows && w.rows[r].state == Ready && w.rows[r].storage == Other(k);
    assert RowInv(w, r);
  }

  /** A replaced source is nobody's object any more. */
  lemma ReplacedIsUnreferenced(w: World, k: Key)
    requires Inv(w) && Replaced(w, k)
    ensures !Referenced(w, k) && k !in w.uploads && k !in w.orphans
  {
    var r :| r in w.rows && w.rows[r].state == Ready && w.rows[r].storage == Other(k);
    if id :| id in w.rows && RefersTo(w.rows[id], k) {
      ReferenceHasBase(w, id, k);
    }
  }

  /** Rows that stay the same keep their references; nothing else is needed to carry these facts over. */
  lemma RowsStay(w: World, w': World)
    requires forall id :: id in w.rows ==> id in w'.rows && w'.rows[id] == w.rows[id]
    ensures forall k :: Referenced(w, k) ==> Referenced(w', k)
    ensures forall k :: Replaced(w, k) ==> Replaced(w', k)
    ensures forall k :: Output(w, k) ==> Output(w', k)
  {
    forall k | Referenced(w, k)
      ensures Referenced(w', k)
    {
      var id :| id in w.rows && RefersTo(w.rows[id], k);
      assert id in w'.rows;
    }
    forall k | Output(w, k)
      ensures Output(w', k)
    {
      var id :| id in w.rows && OutputOf(w.rows[id], k);
      assert id in w'.rows;
    }
    forall k | Replaced(w, k)
      ensures Replaced(w', k)
    {
      var id :| id in w.rows && w.rows[id].state == Ready && w.rows[id].storage == Other(k);
      assert id in w'.rows;
    }
  }

  lemma NothingDeletedIsStored(w: World, key: Key)
    requires Inv(w) && key.base !in w.bases
    ensures key !in w.deleted
  {
    if key in w.deleted {
      ReplacedHasBase(w, key);
    }
  }

  lemma StoreUploadKeepsInv(w: World, key: Key, w': World)
    requires Inv(w) && Next(w, StoreUpload(key), w')
    ensures Inv(w')
  {
    RowsStay(w, w');
    NothingDeletedIsStored(w, key);
    forall id | id in w'.rows
      ensures RowInv(w', id)
    {
      assert RowInv(w, id);
    }
  }

  /** No row has the object of an upload under way. */
  lemma UploadIsNoRowsObject(w: World, key: Key, id: int)
    requires Inv(w) && key in w.uploads && id in w.rows
    ensures w.rows[id].storage.base != key.base
  {
  }

  lemma DropUploadKeepsInv(w: World, key: Key, cleaned: bool, w': World)
    requires Inv(w) && Next(w, DropUpload(key, cleaned), w')
    ensures Inv(w')
  {
    RowsStay(w, w');
    forall id | id in w'.rows
      ensures RowInv(w', id)
    {
      assert RowInv(w, id);
      UploadIsNoRowsObject(w, key, id);
    }
  }

  lemma DoubtInsertKeepsInv(w: World, key: Key, w': World)
    requires Inv(w) && Next(w, DoubtInsert(key), w')
    ensures Inv(w')
  {
    RowsStay(w, w');
    forall id | id in w'.rows
      ensures RowInv(w', id)
    {
      assert RowInv(w, id);
    }
  }

  /** An object whose row is yet to come is in the store, unless it has been taken back. */
  lemma ObjectAwaitsRow(w: World, s: Step, id: int, key: Key, w': World)
    requires Inv(w) && Next(w, s, w') && (s == InsertRow(id, key) || s == InsertLate(id, key))
    ensures key in w.store + w.taken && key.base in w.bases
    ensures forall i :: i in w.rows ==> w.rows[i].storage.base != key.base
  {
  }

  lemma InsertKeepsAccounts(w: World, s: Step, id: int, key: Key, w': World)
    requires Inv(w) && Next(w, s, w') && (s == InsertRow(id, key) || s == InsertLate(id, key))
    ensures Accounted(w')
  {
    RowsStay(w, w');
    assert RefersTo(w'.rows[id], key) && Referenced(w', key);
  }

  lemma InsertRowKeepsInv(w: World, s: Step, id: int, key: Key, w': World)
    requires Inv(w) && Next(w, s, w') && (s == InsertRow(id, key) || s == InsertLate(id, key))
    ensures Inv(w')
  {
    ObjectAwaitsRow(w, s, id, key, w');
    InsertKeepsAccounts(w, s, id, key, w');
    forall i | i in w'.rows
      ensures RowInv(w', i)
    {
      assert i in w.rows ==> RowInv(w, i);
    }
  }

  /** An object is taken back only from a row that is still unconverted. */
  lemma TakeBackKeepsInv(w: World, key: Key, w': World)
    requires Inv(w) && Next(w, TakeBack(key), w')
    ensures Inv(w')
  {
    RowsStay(w, w');
    forall i | i in w'.rows
      ensures RowInv(w', i)
    {
      assert RowInv(w, i);
    }
  }

  /** Steps that only move locks, queue entries or clean-up work around. */
  lemma QuietStepKeepsInv(w: World, s: Step, w': World)
    requires Inv(w) && Next(w, s, w')
    requires s.Claim? || s.OpenSource? || s.Release? || s.ReadQueue? || s.DeleteQueued? || s.ForgetKeys?
    ensures Inv(w')
  {
    RowsStay(w, w');
    forall i | i in w'.rows
      ensures RowInv(w', i)
    {
      assert RowInv(w, i);
    }
  }

  lemma LoseLockKeepsInv(w: World, id: int, w': World)
    requires Inv(w) && Next(w, LoseLock(id), w')
    ensures Inv(w')
  {
    RowsStay(w, w');
    forall i | i in w'.rows
      ensures RowInv(w', i)
    {
      assert RowInv(w, i);
    }
    assert OutputOf(w.rows[id], w.rows[id].output.value);
  }

  /** Where a video is converted to is neither the source of one nor an object of an upload. */
  lemma OutputIsNoSource(w: World, key: Key)
    requires Inv(w) && Output(w, key)
    ensures Referenced(w, key) && key !in w.doubted && key !in w.deleted
  {
    var id :| id in w.rows && OutputOf(w.rows[id], key);
    assert RowInv(w, id) && RefersTo(w.rows[id], key);
    if key in w.deleted {
      ReplacedIsUnreferenced(w, key);
    }
  }

  lemma StoreKeepsInv(w: World, key: Key, w': World)
    requires Inv(w) && Output(w, key) && w' == w.(store := w.store + {key}, locked := w'.locked)
    requires forall id :: id in w'.locked ==>
               id in w.locked && (w'.locked[id] == w.locked[id]
               || (w'.locked[id].Stored? && w.rows[id].output == Some(key)))
    ensures Inv(w')
  {
    RowsStay(w, w');
    OutputIsNoSource(w, key);
    forall i | i in w'.rows
      ensures RowInv(w', i)
    {
      assert RowInv(w, i);
    }
  }

  lemma DeletedIsNoRowsObject(w: World, key: Key, id: int)
    requires Inv(w) && Replaced(w, key) && id in w.rows
    ensures w.rows[id].storage != key
    ensures id in w.locked && w.locked[id].Stored? ==> Other(w.rows[id].storage) != key
  {
    ReplacedIsUnreferenced(w, key);
    assert RowInv(w, id);
    assert RefersTo(w.rows[id], w.rows[id].storage);
    assert w.rows[id].output.Some? ==> RefersTo(w.rows[id], w.rows[id].output.value);
  }

  lemma DeleteKeepsRow(w: World, key: Key, w': World, id: int)
    requires Inv(w) && Next(w, DeleteObject(key), w') && id in w'.rows
    ensures RowInv(w', id)
  {
    assert RowInv(w, id);
    DeletedIsNoRowsObject(w, key, id);
  }

  lemma DeleteKeepsAccounts(w: World, key: Key, w': World)
    requires Inv(w) && Next(w, DeleteObject(key), w')
    ensures Accounted(w')
  {
    RowsStay(w, w');
  }

  lemma DeleteObjectKeepsInv(w: World, key: Key, w': World)
    requires Inv(w) && Next(w, DeleteObject(key), w')
    ensures Inv(w')
  {
    ReplacedIsUnreferenced(w, key);
    DeleteKeepsAccounts(w, key, w');
    forall i | i in w'.rows
      ensures RowInv(w', i)
    {
      DeleteKeepsRow(w, key, w', i);
    }
  }

  lemma PublishMovesReferences(w: World, id: int, w': World)
    requires Inv(w) && Next(w, Publish(id), w')
    ensures forall k :: Replaced(w, k) ==> Replaced(w', k)
    ensures forall k :: Output(w, k) ==> Output(w', k)
    ensures forall k :: Referenced(w, k) ==> Referenced(w', k) || k == w.rows[id].storage
    ensures Replaced(w', w.rows[id].storage)
  {
    assert RowInv(w, id);
    assert w'.rows[id].storage == Other(w.rows[id].storage);
    forall k | Replaced(w, k)
      ensures Replaced(w', k)
    {
      var r :| r in w.rows && w.rows[r].state == Ready && w.rows[r].storage == Other(k);
      assert r in w'.rows && w'.rows[r] == w.rows[r];
    }
    forall k | Output(w, k)
      ensures Output(w', k)
    {
      var r :| r in w.rows && OutputOf(w.rows[r], k);
      assert r in w'.rows && OutputOf(w'.rows[r], k);
    }
    forall k | Referenced(w, k) && k != w.rows[id].storage
      ensures Referenced(w', k)
    {
      var r :| r in w.rows && RefersTo(w.rows[r], k);
      assert r in w'.rows && RefersTo(w'.rows[r], k);
    }
  }

  lemma PublishKeepsAccounts(w: World, id: int, w': World)
    requires Inv(w) && Next(w, Publish(id), w')
    ensures Accounted(w')
  {
    assert RowInv(w, id);
    PublishMovesReferences(w, id, w');
  }

  lemma PublishKeepsOwned(w: World, id: int, w': World)
    requires Inv(w) && Next(w, Publish(id), w')
    ensures Owned(w')
  {
    assert RowInv(w, id);
  }

  lemma PublishKeepsRow(w: World, id: int, w': World, i: int)
    requires Inv(w) && Next(w, Publish(id), w') && i in w'.rows
    ensures RowInv(w', i)
  {
    assert i in w.rows && RowInv(w, i) && RowInv(w, id);
  }

  lemma PublishKeepsInv(w: World, id: int, w': World)
    requires Inv(w) && Next(w, Publish(id), w')
    ensures Inv(w')
  {
    PublishKeepsOwned(w, id, w');
    PublishKeepsAccounts(w, id, w');
    forall i | i in w'.rows
      ensures RowInv(w', i)
    {
      PublishKeepsRow(w, id, w', i);
    }
  }

  lemma FailureKeepsAccounts(w: World, id: int, w': World)
    requires Inv(w) && Next(w, MarkFailed(id), w')
    ensures Accounted(w')
  {
    forall k | Referenced(w, k)
      ensures Referenced(w', k)
    {
      var r :| r in w.rows && RefersTo(w.rows[r], k);
      assert r in w'.rows && RefersTo(w'.rows[r], k);
    }
    forall k | Output(w, k)
      ensures Output(w', k)
    {
      var r :| r in w.rows && OutputOf(w.rows[r], k);
      assert RowInv(w, id);
      assert r in w'.rows && OutputOf(w'.rows[r], k);
    }
    forall k | Replaced(w, k)
      ensures Replaced(w', k)
    {
      var r :| r in w.rows && w.rows[r].state == Ready && w.rows[r].storage == Other(k);
      assert RowInv(w, id) && r != id;
      assert r in w'.rows && w'.rows[r] == w.rows[r];
    }
  }

  lemma MarkFailedKeepsInv(w: World, id: int, w': World)
    requires Inv(w) && Next(w, MarkFailed(id), w')
    ensures Inv(w')
  {
    FailureKeepsAccounts(w, id, w');
    forall i | i in w'.rows
      ensures RowInv(w', i)
    {
      assert i in w.rows && RowInv(w, i);
    }
  }

  lemma NextKeepsInv(w: World, s: Step, w': World)
    requires Inv(w) && Next(w, s, w')
    ensures Inv(w')
  {
    match s
    case StoreUpload(key) => StoreUploadKeepsInv(w, key, w');
    case DropUpload(key, cleaned) => DropUploadKeepsInv(w, key, cleaned, w');
    case DoubtInsert(key) => DoubtInsertKeepsInv(w, key, w');
    case InsertRow(id, key) => InsertRowKeepsInv(w, s, id, key, w');
    case InsertLate(id, key) => InsertRowKeepsInv(w, s, id, key, w');
    case TakeBack(key) => TakeBackKeepsInv(w, key, w');
    case StoreOutput(id) =>
      assert OutputOf(w.rows[id], w.rows[id].output.value);
      StoreKeepsInv(w, w.rows[id].output.value, w');
    case StoreStray(key) => StoreKeepsInv(w, key, w');
    case Publish(id) => PublishKeepsInv(w, id, w');
    case MarkFailed(id) => MarkFailedKeepsInv(w, id, w');
    case DeleteObject(key) => DeleteObjectKeepsInv(w, key, w');
    case Claim(_) => QuietStepKeepsInv(w, s, w');
    case OpenSource(_) => QuietStepKeepsInv(w, s, w');
    case Release(_) => QuietStepKeepsInv(w, s, w');
    case LoseLock(id) => LoseLockKeepsInv(w, id, w');
    case ReadQueue(_) => QuietStepKeepsInv(w, s, w');
    case DeleteQueued(_) => QuietStepKeepsInv(w, s, w');
    case ForgetKeys(_) => QuietStepKeepsInv(w, s, w');
  }

  // ---------------------------------------------------------------- every run

  ghost predicate Run(worlds: seq<World>, steps: seq<Step>) {
    Chain(Next, worlds, steps) && worlds[0] == START
  }

  lemma RunKeepsInv(worlds: seq<World>, steps: seq<Step>, n: nat)
    requires Run(worlds, steps) && n < |worlds|
    ensures Inv(worlds[n])
  {
    forall w, s, w' | Inv(w) && Next(w, s, w')
      ensures Inv(w')
    {
      NextKeepsInv(w, s, w');
    }
    ChainKeeps(Next, Inv, worlds, steps, n);
  }

  /**
   However the processes interleave and stop, the object of a row is in the store exactly if the video has been
   published or the upload has not taken the object back. That it does only when the insert was reported as failed.
   */
  lemma VideosKeepTheirObjects(worlds: seq<World>, steps: seq<Step>, n: nat, id: int)
    requires Run(worlds, steps) && n < |worlds| && id in worlds[n].rows
    ensures var w := worlds[n]; var r := w.rows[id];
            && (r.storage in w.store <==> r.state == Ready || r.storage !in w.taken)
            && w.taken <= w.doubted
  {
    RunKeepsInv(worlds, steps, n);
    assert RowInv(worlds[n], id);
  }

  /** The row has no object, and no worker has read one before. */
  ghost predicate WithoutObject(w: World, id: int) {
    id in w.rows && w.rows[id].storage !in w.store && Unopened(w, id)
  }

  lemma StaysWithoutObject(w: World, s: Step, w': World, id: int)
    requires Inv(w) && Next(w, s, w') && WithoutObject(w, id)
    ensures WithoutObject(w', id)
    ensures w'.rows[id] == w.rows[id] || w'.rows[id] == w.rows[id].(state := Failed)
  {
    assert RowInv(w, id);
    if s.StoreOutput? && s.id in w.rows {
      assert RowInv(w, s.id);
    }
    if s.StoreStray? {
      var i :| i in w.rows && OutputOf(w.rows[i], s.key);
      assert RowInv(w, i);
    }
  }

  /** A row without its object is never published: whatever happens, it stays as it is or is marked failed. */
  lemma {:induction false} WithoutObjectForGood(worlds: seq<World>, steps: seq<Step>, m: nat, n: nat, id: int)
    requires Run(worlds, steps) && m <= n < |worlds| && WithoutObject(worlds[m], id)
    ensures WithoutObject(worlds[n], id)
    ensures worlds[n].rows[id] == worlds[m].rows[id] || worlds[n].rows[id] == worlds[m].rows[id].(state := Failed)
  {
    if m < n {
      WithoutObjectForGood(worlds, steps, m, n - 1, id);
      RunKeepsInv(worlds, steps, n - 1);
      assert Linked(Next, worlds, steps, n - 1);
      StaysWithoutObject(worlds[n - 1], steps[n - 1], worlds[n], id);
    }
  }

  /** No worker holding the row has read its source. */
  ghost predicate Unopened(w: World, id: int) {
    id in w.locked ==> w.locked[id].Claimed?
  }

  /** Such rows do come about: an upload is stored and inserted, the answer is lost, and the object is taken back. */
  lemma AnswerLost(id: int, key: Key)
    ensures exists w :: Leads(Next, START, w) && id in w.rows && w.rows[id].storage == key && key !in w.store
  {
    var stored := START.(store := {key}, uploads := {key}, bases := {key.base});
    var doubted := stored.(uploads := {}, doubted := {key});
    var inserted := doubted.(rows := map[id := Row(key, Processing, Some(Other(key)))]);
    LeadsNowhere(Next, START);
    OneMoreStep(Next, START, START, StoreUpload(key), stored);
    OneMoreStep(Next, START, stored, DoubtInsert(key), doubted);
    OneMoreStep(Next, START, doubted, InsertLate(id, key), inserted);
    OneMoreStep(Next, START, inserted, TakeBack(key), inserted.(store := {}, taken := {key}));
  }

  /** No key that a row uses is ever queued for deletion or in the hands of a clean-up worker. */
  lemma NothingInUseIsCondemned(worlds: seq<World>, steps: seq<Step>, n: nat, key: Key)
    requires Run(worlds, steps) && n < |worlds|
    requires key in worlds[n].queue || key in worlds[n].condemned
    ensures !Referenced(worlds[n], key) && key !in worlds[n].uploads
  {
    RunKeepsInv(worlds, steps, n);
    ReplacedIsUnreferenced(worlds[n], key);
  }

  /**
   Every stored object belongs to a row, waits for deletion, or comes from an upload that is not, or never was,
   inserted.
   */
  lemma EveryObjectIsAccountedFor(worlds: seq<World>, steps: seq<Step>, n: nat, key: Key)
    requires Run(worlds, steps) && n < |worlds| && key in worlds[n].store
    ensures Referenced(worlds[n], key) || key in worlds[n].queue
              || key in worlds[n].uploads + worlds[n].orphans + worlds[n].doubted
  {
    RunKeepsInv(worlds, steps, n);
  }

  lemma PublishedStays(w: World, s: Step, w': World, id: int)
    requires Inv(w) && Next(w, s, w') && id in w.rows && w.rows[id].state == Ready
    ensures id in w'.rows && w'.rows[id] == w.rows[id]
  {
    assert RowInv(w, id);
  }

  /** A published video plays the same object for ever. */
  lemma {:induction false} PublishedForGood(worlds: seq<World>, steps: seq<Step>, m: nat, n: nat, id: int)
    requires Run(worlds, steps) && m <= n < |worlds| && id in worlds[m].rows && worlds[m].rows[id].state == Ready
    ensures id in worlds[n].rows && worlds[n].rows[id] == worlds[m].rows[id]
  {
    if m < n {
      PublishedForGood(worlds, steps, m, n - 1, id);
      RunKeepsInv(worlds, steps, n - 1);
      assert Linked(Next, worlds, steps, n - 1);
      PublishedStays(worlds[n - 1], steps[n - 1], worlds[n], id);
    }
  }
}

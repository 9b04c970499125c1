/** The class service's video operations, each run to its end or to the point where a fault stops it. */
module VideoService {
  import opened Options
  import opened Sets
  import opened Chains
  import opened VideoPipeline

  lemma LeadsKeepsInv(w: World, w': World)
    requires Inv(w) && Leads(Next, w, w')
    ensures Inv(w')
  {
    forall a, s, b | Inv(a) && Next(a, s, b)
      ensures Inv(b)
    {
      NextKeepsInv(a, s, b);
    }
    LeadsKeeps(Next, Inv, w, w');
  }

  lemma LastStep(w: World, w': World, s: Step, w'': World)
    requires Inv(w) && Leads(Next, w, w') && Next(w', s, w'')
    ensures Leads(Next, w, w'') && Inv(w'')
  {
    OneMoreStep(Next, w, w', s, w'');
    LeadsKeepsInv(w, w'');
  }

  // ---------------------------------------------------------------- the service

  const BATCH := 25

  /**
   How an upload may go wrong: nothing is stored, the insert does not happen, or it is reported as failed although it
   happened. In the last two cases the object is taken back unless that fails, too.
   */
  datatype UploadFault = NoFault | NotStored | NotInserted(cleaned: bool) | Unheard(cleaned: bool)

  datatype DeleteFault = Fine | ObjectKept | EntryKept

  /** What an upload leaves behind. An insert that took effect leaves its row, reported or not. */
  function AfterUpload(w: World, id: int, key: Key, fault: UploadFault): World {
    var stored := w.(store := w.store + {key}, bases := w.bases + {key.base});
    match fault
    case NotStored => w
    case NoFault => stored.(rows := w.rows[id := NewRow(key)])
    case NotInserted(cleaned) => if cleaned then stored.(store := w.store) else stored.(orphans := w.orphans + {key})
    case Unheard(cleaned) =>
      var heard := stored.(rows := w.rows[id := NewRow(key)], doubted := w.doubted + {key});
      if cleaned then heard.(store := w.store, taken := w.taken + {key}) else heard
  }

  function NewRow(key: Key): Row {
    Row(key, Processing, Some(Other(key)))
  }

  predicate Pending(r: Row) {
    r.state == Processing && r.output.Some?
  }

  /** The row once its video has been converted. */
  function Published(r: Row): Row
    requires r.output.Some?
  {
    Row(r.output.value, Ready, None)
  }

  ghost predicate NextPending(rows: map<int, Row>, id: int) {
    id in rows && Pending(rows[id]) && forall j :: j in rows && Pending(rows[j]) ==> id <= j
  }

  function Elements(keys: seq<Key>): set<Key> {
    set k | k in keys
  }

  /** The store without the objects of the first n keys. */
  function Without(store: set<Key>, keys: seq<Key>, n: nat): set<Key>
    requires n <= |keys|
  {
    store - Elements(keys[..n])
  }

  lemma OneMoreGone(store: set<Key>, keys: seq<Key>, n: nat)
    requires n < |keys|
    ensures Without(store, keys, n + 1) == Without(store, keys, n) - {keys[n]}
  {
    assert keys[..n + 1] == keys[..n] + [keys[n]];
    assert Elements(keys[..n + 1]) == Elements(keys[..n]) + {keys[n]};
  }

  ghost predicate Distinct(keys: seq<Key>) {
    forall i, j :: 0 <= i < j < |keys| ==> keys[i] != keys[j]
  }

  /**
   An accepted upload leaves its object and a row that waits to be converted; a refused one leaves nothing unless the
   clean-up fails; and one whose insert took effect unheard leaves the row, with the object only if that stayed.
   */
  lemma UploadLeaves(w: World, id: int, base: nat, ending: Ending, fault: UploadFault)
    requires Key(base, ending) !in w.store && id !in w.rows
    ensures var w', key := AfterUpload(w, id, Key(base, ending), fault), Key(base, ending);
            && (fault.NotStored? || fault == NotInserted(true) ==> w'.rows == w.rows && w'.store == w.store)
            && (fault == NotInserted(false) ==> w'.rows == w.rows && w'.store == w.store + {key} && key in w'.orphans)
            && (fault.NoFault? || fault.Unheard? ==>
                  w'.rows == w.rows[id := Row(key, Processing, Some(Key(base, if ending.Mp4? then Webm else Mp4)))])
            && (fault.NoFault? || fault == Unheard(false) ==> w'.store == w.store + {key})
            && (fault == Unheard(true) ==> w'.store == w.store && key in w'.taken)
            && w'.queue == w.queue && w'.locked == w.locked
  {
  }

  /** A published video is played from the key that its conversion was stored under, and waits for nothing more. */
  lemma PublishedPlays(base: nat, ending: Ending)
    ensures var other := Key(base, if ending.Mp4? then Webm else Mp4);
            && Published(Row(Key(base, ending), Processing, Some(other))) == Row(other, Ready, None)
            && Pending(Row(Key(base, ending), Processing, Some(other))) && !Pending(Row(other, Ready, None))
            && !Pending(Row(Key(base, ending), Failed, Some(other)))
  {
  }

  /** What the clean-up loop needs to know about the key it comes to after n others. */
  lemma KeyInTurn(keys: seq<Key>, n: nat, m: nat)
    requires Distinct(keys) && n < m <= |keys|
    ensures keys[n..] != [] && keys[n..][0] == keys[n] && keys[n..][0] in Elements(keys[..m])
    ensures keys[n..][0] !in keys[n..][1..] && keys[n..][1..] == keys[n + 1..]
  {
    assert keys[..m][n] == keys[n];
  }

  /** The world once an upload has stored its object under a new base. */
  ghost function Uploading(w: World, key: Key): World {
    w.(store := w.store + {key}, uploads := {key}, bases := w.bases + {key.base})
  }

  /** For each fault an upload is a run of the pipeline. */
  lemma UploadRun(w: World, id: int, key: Key, fault: UploadFault)
    requires Inv(w) && w.uploads == {} && key.base !in w.bases && id !in w.rows
    ensures var w' := AfterUpload(w, id, key, fault); Leads(Next, w, w') && Inv(w') && key !in w.store
  {
    var w' := AfterUpload(w, id, key, fault);
    UnusedBase(w, key);
    LeadsNowhere(Next, w);
    OneMoreStep(Next, w, w, StoreUpload(key), Uploading(w, key));
    match fault {
      case NotStored =>
      case NoFault => OneMoreStep(Next, w, Uploading(w, key), InsertRow(id, key), w');
      case NotInserted(cleaned) => OneMoreStep(Next, w, Uploading(w, key), DropUpload(key, cleaned), w');
      case Unheard(cleaned) => UnheardUpload(w, id, key, cleaned);
    }
    LeadsKeepsInv(w, w');
  }

  lemma UnheardUpload(w: World, id: int, key: Key, cleaned: bool)
    requires Inv(w) && key.base !in w.bases && id !in w.rows && Leads(Next, w, Uploading(w, key))
    ensures Leads(Next, w, AfterUpload(w, id, key, Unheard(cleaned)).(uploads := {}))
  {
    var doubted := Uploading(w, key).(uploads := {}, doubted := w.doubted + {key});
    var inserted := doubted.(rows := w.rows[id := NewRow(key)]);
    UnusedBase(w, key);
    OneMoreStep(Next, w, Uploading(w, key), DoubtInsert(key), doubted);
    OneMoreStep(Next, w, doubted, InsertLate(id, key), inserted);
    if cleaned {
      OneMoreStep(Next, w, inserted, TakeBack(key), inserted.(store := w.store, taken := w.taken + {key}));
    }
  }

  /** The world while a worker holds the row of a pending video, before or after it has stored the output. */
  function Held(w: World, id: int, stored: bool): World
    requires id in w.rows && Pending(w.rows[id])
  {
    w.(store := if stored then w.store + {w.rows[id].output.value}
      else w.store, locked := map[id := if stored then Stored else Claimed])
  }

  /** A worker that claims a pending video and perhaps reads it and stores its output. */
  lemma Conversion(w: World, id: int, stored: bool)
    requires Inv(w) && w.locked == map[] && id in w.rows && Pending(w.rows[id])
               && (stored ==> w.rows[id].storage in w.store)
    ensures Leads(Next, w, Held(w, id, stored))
  {
    LeadsNowhere(Next, w);
    OneMoreStep(Next, w, w, Claim(id), Held(w, id, false));
    if stored {
      StoredConversion(w, id);
    }
  }

  lemma StoredConversion(w: World, id: int)
    requires w.locked == map[] && id in w.rows && Pending(w.rows[id]) && w.rows[id].storage in w.store
    requires Leads(Next, w, Held(w, id, false))
    ensures Leads(Next, w, Held(w, id, true))
  {
    var reading := w.(locked := map[id := Opened]);
    OneMoreStep(Next, w, Held(w, id, false), OpenSource(id), reading);
    OneMoreStep(Next, w, reading, StoreOutput(id), Held(w, id, true));
  }

  /** The same, with one last step that settles the video. */
  lemma ConversionPass(w: World, id: int, stored: bool, s: Step, w': World)
    requires Inv(w) && w.locked == map[] && id in w.rows && Pending(w.rows[id])
               && (stored ==> w.rows[id].storage in w.store)
    requires Next(Held(w, id, stored), s, w')
    ensures Leads(Next, w, w') && Inv(w')
  {
    Conversion(w, id, stored);
    LastStep(w, Held(w, id, stored), s, w');
  }

  class Service {
    var rows: map<int, Row>
    var nextId: int
    var store: set<Key>
    var queue: seq<Key>
    ghost var bases: set<nat>
    ghost var orphans: set<Key>
    ghost var doubted: set<Key>
    ghost var taken: set<Key>
    ghost var strays: set<Key>
    ghost var deleted: set<Key>

    /** The world between operations: nothing is in flight. */
    ghost function View(): World
      reads this
    {
      World(rows, store, Elements(queue), bases, {}, orphans, doubted, taken, map[], strays, {}, deleted)
    }

    ghost predicate Valid()
      reads this
    {
      && Inv(View())
      && (forall id :: id in rows ==> id < nextId)
      && Distinct(queue)
    }

    /** An upload under a new random base. */
    method Upload(key: Key, fault: UploadFault) returns (id: Option<int>)
      requires Valid() && key.base !in bases
      modifies this
      ensures Valid() && Leads(Next, old(View()), View())
      ensures View() == AfterUpload(old(View()), old(nextId), key, fault) && queue == old(queue)
      ensures id == if fault.NoFault? then Some(old(nextId)) else None
    {
      UploadRun(View(), nextId, key, fault);
      id := StoreAndInsert(key, fault);
    }

    /** Store the object, insert the row, and take the object back on an error. */
    method StoreAndInsert(key: Key, fault: UploadFault) returns (id: Option<int>)
      requires key !in store
      modifies this
      ensures View() == AfterUpload(old(View()), old(nextId), key, fault) && queue == old(queue)
      ensures old(nextId) <= nextId <= old(nextId) + 1 && (rows != old(rows) ==> nextId == old(nextId) + 1)
      ensures id == if fault.NoFault? then Some(old(nextId)) else None
    {
      if fault.NotStored? {
        return None;
      }
      store := store + {key};
      bases := bases + {key.base};
      if fault.NoFault? || fault.Unheard? {
        rows := rows[nextId := NewRow(key)];
        nextId := nextId + 1;
      }
      if fault.NoFault? {
        return Some(nextId - 1);
      }
      CleanUp(key, fault.cleaned, fault.Unheard?);
      return None;
    }

    /** The deferred clean-up of an upload that was not reported as inserted. */
    method CleanUp(key: Key, cleaned: bool, ghost unheard: bool)
      modifies this`store, this`doubted, this`taken, this`orphans
      ensures store == if cleaned then old(store) - {key} else old(store)
      ensures doubted == if unheard then old(doubted) + {key} else old(doubted)
      ensures taken == if unheard && cleaned then old(taken) + {key} else old(taken)
      ensures orphans == if unheard || cleaned then old(orphans) else old(orphans) + {key}
    {
      if cleaned {
        store := store - {key};
      }
      if unheard {
        doubted := doubted + {key};
        taken := if cleaned then taken + {key} else taken;
      } else if !cleaned {
        orphans := orphans + {key};
      }
    }

    method FindPending() returns (found: Option<int>)
      ensures found.Some? ==> NextPending(rows, found.value)
      ensures found.None? ==> forall id :: id in rows ==> !Pending(rows[id])
    {
      found := None;
      var ids := rows.Keys;
      while ids != {}
        invariant ids <= rows.Keys
        invariant found.Some? ==> found.value in rows && Pending(rows[found.value])
        invariant forall j :: j in rows && j !in ids && Pending(rows[j]) ==> found.Some? && found.value <= j
        decreases ids
      {
        ghost var some := Pick(ids);
        var id :| id in ids;
        if Pending(rows[id]) && (found.None? || id < found.value) {
          found := Some(id);
        }
        ids := ids - {id};
      }
    }

    /**
     One pass of the conversion worker over the oldest waiting video, inside one transaction. Storing the output may
     fail, the process may be told to stop, and the commit may fail; the last two roll the transaction back.
     */
    method ProcessNextVideo(storeFails: bool, stopped: bool, commitFails: bool) returns (found: Option<int>)
      requires Valid()
      modifies this
      ensures Valid() && Leads(Next, old(View()), View())
      ensures found.None? ==> View() == old(View()) && forall id :: id in rows ==> !Pending(rows[id])
      ensures found.Some? ==> NextPending(old(rows), found.value)
      ensures found.Some? ==> var r := old(rows)[found.value]; var failed := storeFails || r.storage !in old(store);
                && store == old(store) + (if failed then {} else {r.output.value})
                && if stopped || commitFails then rows == old(rows) && queue == old(queue)
                   else if failed then rows == old(rows)[found.value := r.(state := Failed)] && queue == old(queue)
                   else rows == old(rows)[found.value := Published(r)] && queue == old(queue) + [r.storage]
    {
      ghost var w := View();
      LeadsNowhere(Next, w);
      found := FindPending();
      if found.None? {
        return;
      }
      Convert(found.value, storeFails, stopped || commitFails, w);
    }

    /** The conversion of one video: its source is read and its output stored, and the transaction settles it. */
    method Convert(id: int, storeFails: bool, undone: bool, ghost w: World)
      requires w == View() && Inv(w) && id in rows && Pending(rows[id])
      modifies this`rows, this`queue, this`store
      ensures Leads(Next, w, View()) && Inv(View())
      ensures var r := old(rows)[id]; var failed := storeFails || r.storage !in old(store);
              && store == old(store) + (if failed then {} else {r.output.value})
              && (!undone && !failed ==> r.storage !in old(queue))
              && if undone then rows == old(rows) && queue == old(queue)
                 else if failed then rows == old(rows)[id := r.(state := Failed)] && queue == old(queue)
                 else rows == old(rows)[id := Published(r)] && queue == old(queue) + [r.storage]
    {
      var failed := rows[id].storage !in store || storeFails;
      if !failed {
        store := store + {rows[id].output.value};
      }
      Settle(id, failed, undone, w);
    }

    /**
     The transaction's last statements: the video is published and its source queued, or it is marked failed. If the
     worker has been stopped or the commit fails, they are undone.
     */
    method Settle(id: int, failed: bool, undone: bool, ghost w: World)
      requires Inv(w) && w.locked == map[] && id in w.rows && Pending(w.rows[id])
      requires View() == Held(w, id, !failed).(locked := map[]) && (!failed ==> w.rows[id].storage in w.store)
      modifies this`rows, this`queue
      ensures Leads(Next, w, View()) && Inv(View())
      ensures var r := old(rows)[id];
              if undone then rows == old(rows) && queue == old(queue)
              else if failed then rows == old(rows)[id := r.(state := Failed)] && queue == old(queue)
              else rows == old(rows)[id := Published(r)] && queue == old(queue) + [r.storage]
      ensures !undone && !failed ==> old(rows)[id].storage !in old(queue)
    {
      if undone {
        ConversionPass(w, id, !failed, Release(id), View());
      } else if failed {
        rows := rows[id := rows[id].(state := Failed)];
        ConversionPass(w, id, false, MarkFailed(id), View());
      } else {
        InUseNotQueued(w, id);
        queue := queue + [rows[id].storage];
        rows := rows[id := Published(rows[id])];
        assert Elements(queue) == w.queue + {w.rows[id].storage};
        ConversionPass(w, id, true, Publish(id), View());
      }
    }

    /** Deleting the oldest queued object and its entry; `batch` is what the worker has read from the queue. */
    method DeleteOldest(fault: DeleteFault, ghost w: World, ghost batch: set<Key>) returns (ok: bool)
      requires queue != [] && queue[0] in batch && queue[0] !in queue[1..]
                 && Leads(Next, w, View().(condemned := batch))
      modifies this`store, this`queue, this`deleted
      ensures Leads(Next, w, View().(condemned := batch))
      ensures ok <==> fault == Fine
      ensures store == if fault == ObjectKept then old(store) else old(store) - {old(queue)[0]}
      ensures queue == if fault == Fine then old(queue)[1..] else old(queue)
    {
      ghost var w1 := View().(condemned := batch);
      var key := queue[0];
      if fault == ObjectKept {
        return false;
      }
      store := store - {key};
      deleted := deleted + {key};
      ghost var w2 := View().(condemned := batch);
      OneMoreStep(Next, w, w1, DeleteObject(key), w2);
      if fault == EntryKept {
        return false;
      }
      queue := queue[1..];
      assert Elements(queue) == w2.queue - {key};
      OneMoreStep(Next, w, w2, DeleteQueued(key), View().(condemned := batch));
      return true;
    }

    /** The loop of the clean-up worker over the first n queued keys. */
    method DeleteFirst(n: nat, faults: seq<DeleteFault>, ghost w: World, ghost batch: set<Key>) returns (done: nat)
      requires n <= |queue| && n <= |faults| && batch == Elements(queue[..n])
                 && Leads(Next, w, View().(condemned := batch))
      requires Distinct(queue)
      modifies this`store, this`queue, this`deleted
      ensures Leads(Next, w, View().(condemned := batch))
      ensures done <= n && queue == old(queue)[done..]
      ensures forall k :: 0 <= k < done ==> faults[k] == Fine
      ensures done < n ==> faults[done] != Fine
      ensures store == Without(old(store), old(queue), if done < n && faults[done] == EntryKept then done + 1 else done)
    {
      done := 0;
      while done < n
        invariant done <= n && queue == old(queue)[done..]
        invariant forall k :: 0 <= k < done ==> faults[k] == Fine
        invariant store == Without(old(store), old(queue), done)
        invariant Leads(Next, w, View().(condemned := batch))
      {
        KeyInTurn(old(queue), done, n);
        OneMoreGone(old(store), old(queue), done);
        var ok := DeleteOldest(faults[done], w, batch);
        if !ok {
          return;
        }
        done := done + 1;
      }
    }

    /**
     One pass of the clean-up worker over the oldest queued keys: delete the object, then the queue entry. The first
     fault ends the pass and leaves the rest queued.
     */
    method CleanupVideos(faults: seq<DeleteFault>) returns (done: nat)
      requires Valid() && |faults| >= BATCH
      modifies this
      ensures Valid() && Leads(Next, old(View()), View())
      ensures rows == old(rows)
      ensures done <= |old(queue)| && done <= 25 && queue == old(queue)[done..]
      ensures forall k :: 0 <= k < done ==> faults[k] == Fine
      ensures done == |old(queue)| || done == 25 || faults[done] != Fine
      ensures store == Without(old(store), old(queue), if done < |old(queue)| && done < BATCH
                && faults[done] == EntryKept then done + 1 else done)
    {
      ghost var w := View();
      var n := if |queue| <= BATCH then |queue| else BATCH;
      ghost var batch := Elements(queue[..n]);
      LeadsNowhere(Next, w);
      OneMoreStep(Next, w, w, ReadQueue(batch), w.(condemned := batch));
      done := DeleteFirst(n, faults, w, batch);
      ghost var held := View().(condemned := batch);
      assert held.condemned - batch == {};
      LastStep(w, held, ForgetKeys(batch), View());
    }
  }

  lemma UnusedBase(w: World, key: Key)
    requires Inv(w) && key.base !in w.bases
    ensures key !in w.store && key !in w.doubted
    ensures forall id :: id in w.rows ==> !SourceOf(w.rows[id], key)
  {
    forall id | id in w.rows
      ensures w.rows[id].storage.base != key.base
    {
      assert RowInv(w, id);
    }
    if key in w.queue {
      ReplacedHasBase(w, key);
    }
    if id :| id in w.rows && RefersTo(w.rows[id], key) {
      ReferenceHasBase(w, id, key);
    }
  }

  lemma InUseNotQueued(w: World, id: int)
    requires Inv(w) && id in w.rows
    ensures w.rows[id].storage !in w.queue
  {
    if w.rows[id].storage in w.queue {
      ReplacedIsUnreferenced(w, w.rows[id].storage);
      assert RefersTo(w.rows[id], w.rows[id].storage);
    }
  }
}

/**
 The gateway's wrong-room-code budget: failures counted in a fixed window that starts at the first of them.
 Time is in nanoseconds.
 */
module FailureWindow {
  import opened Options
  import opened Sets

  const SECOND := 1_000_000_000

  datatype Entry = Entry(windowStart: int, count: nat)

  type Entries = map<string, Entry>

  predicate Expired(e: Entry, window: int, now: int) {
    now - e.windowStart >= window
  }

  /** The wait reported to a blocked key, if it is blocked. */
  function BlockedFor(m: Entries, key: string, limit: int, window: int, now: int): Option<int> {
    if limit <= 0 || window <= 0 || key !in m || Expired(m[key], window, now) || m[key].count < limit then None
    else
      var wait := window - (now - m[key].windowStart);
      Some(if wait < SECOND then SECOND else wait)
  }

  function Swept(m: Entries, window: int, now: int): Entries {
    map key | key in m && !Expired(m[key], window, now) :: m[key]
  }

  /** The entries after one failure: an unknown key may sweep the map, and is not tracked when that does not help. */
  function Recorded(m: Entries, maxKeys: nat, key: string, window: int, now: int): Entries {
    var room := if key !in m && |m| >= maxKeys then Swept(m, window, now) else m;
    if key !in m && |room| >= maxKeys then room
    else room[key := if key in m && !Expired(m[key], window, now) then m[key].(count := m[key].count + 1)
      else Entry(now, 1)]
  }

  class FailureTracker {
    var entries: Entries
    const maxKeys: nat

    constructor (limit: int)
      ensures entries == map[]
      ensures maxKeys == if limit <= 0 then 100_000 else limit
    {
      maxKeys := if limit <= 0 then 100_000 else limit;
      entries := map[];
    }

    method Blocked(key: string, limit: int, window: int, now: int) returns (blocked: bool, wait: int)
      ensures blocked <==> BlockedFor(entries, key, limit, window, now).Some?
      ensures wait == if blocked then BlockedFor(entries, key, limit, window, now).value else 0
    {
      if limit <= 0 || window <= 0 {
        return false, 0;
      }
      if key !in entries || now - entries[key].windowStart >= window {
        return false, 0;
      }
      if entries[key].count < limit {
        return false, 0;
      }
      wait := window - (now - entries[key].windowStart);
      if wait < SECOND {
        wait := SECOND;
      }
      return true, wait;
    }

    method RecordFailure(key: string, window: int, now: int)
      modifies this
      ensures entries == Recorded(old(entries), maxKeys, key, window, now)
    {
      var known := key in entries;
      var entry := if known then entries[key] else Entry(now, 0);
      if !known {
        if |entries| >= maxKeys {
          Sweep(window, now);
        }
        if |entries| >= maxKeys {
          return;
        }
      }
      if !known || now - entry.windowStart >= window {
        entry := Entry(now, 0);
      }
      entries := entries[key := entry.(count := entry.count + 1)];
    }

    method Sweep(window: int, now: int)
      modifies this
      ensures entries == Swept(old(entries), window, now)
    {
      var keys := entries.Keys;
      while keys != {}
        invariant keys <= entries.Keys <= old(entries).Keys
        invariant forall key :: key in entries ==> entries[key] == old(entries)[key]
        invariant forall key :: key in old(entries) && key !in keys ==>
                    (key in entries <==> !Expired(old(entries)[key], window, now))
        decreases keys
      {
        var key :| key in keys;
        if now - entries[key].windowStart >= window {
          entries := entries - {key};
        }
        keys := keys - {key};
      }
    }
  }

  // ---------------------------------------------------------------- what callers see

  /** The failures of a key in its window that is still running. */
  function FailuresSoFar(m: Entries, key: string, window: int, now: int): nat {
    if key in m && now < m[key].windowStart + window then m[key].count else 0
  }

  /** The time since when they are counted. */
  function CountedSince(m: Entries, key: string, window: int, now: int): int {
    if key in m && now < m[key].windowStart + window then m[key].windowStart else now
  }

  predicate SomeExpired(m: Entries, window: int, now: int) {
    exists k :: k in m && m[k].windowStart + window <= now
  }

  lemma SweepMakesRoom(m: Entries, window: int, now: int)
    ensures Swept(m, window, now).Keys <= m.Keys && |Swept(m, window, now)| <= |m|
    ensures |Swept(m, window, now)| < |m| <==> SomeExpired(m, window, now)
  {
    var kept := Swept(m, window, now);
    SubsetSize(kept.Keys, m.Keys);
    if SomeExpired(m, window, now) {
      var k :| k in m && m[k].windowStart + window <= now;
      SubsetSize(kept.Keys, m.Keys - {k});
    } else {
      assert kept.Keys == m.Keys;
    }
  }

  /** A failure is on record unless its key is new in a full map whose windows are all still running. */
  ghost predicate OnRecord(m: Entries, maxKeys: nat, key: string, window: int, now: int) {
    key in m || |m| < maxKeys || SomeExpired(m, window, now)
  }

  /**
   One more failure of a key counts as one more in its running window, or as the first of a new one; the map stays
   within its ceiling; and no other key gets another answer from then on.
   */
  lemma OneMoreFailure(m: Entries, maxKeys: nat, key: string, window: int, now: int)
    requires |m| <= maxKeys && window > 0
    ensures var m' := Recorded(m, maxKeys, key, window, now);
            && |m'| <= maxKeys
            && FailuresSoFar(m', key, window, now) ==
               (if OnRecord(m, maxKeys, key, window, now) then FailuresSoFar(m, key, window, now) + 1 else 0)
            && CountedSince(m', key, window, now) == CountedSince(m, key, window, now)
  {
    SweepMakesRoom(m, window, now);
  }

  lemma FailureSparesOthers(m: Entries, maxKeys: nat, key: string, window: int, now: int, other: string, limit: int,
      later: int)
    requires other != key && now <= later
    ensures BlockedFor(Recorded(m, maxKeys, key, window, now), other, limit, window, later)
              == BlockedFor(m, other, limit, window, later)
  {
  }

  /** A key is blocked once its running window holds the limit, for as long as the window lasts, at least a second. */
  lemma BlockedWhileWindowLasts(m: Entries, key: string, limit: int, window: int, now: int)
    ensures BlockedFor(m, key, limit, window, now) ==
            if limit > 0 && window > 0 && FailuresSoFar(m, key, window, now) >= limit then
              var rest := CountedSince(m, key, window, now) + window - now;
              Some(if rest >= 1_000_000_000 then rest else 1_000_000_000)
            else None
  {
  }

  // ---------------------------------------------------------------- whole runs over all keys

  datatype Failure = Failure(key: string, at: int)

  datatype Setup = Setup(limit: int, window: int, maxKeys: nat)

  ghost predicate Ordered(run: seq<Failure>) {
    forall i, j :: 0 <= i < j < |run| ==> run[i].at <= run[j].at
  }

  ghost function EntriesAt(s: Setup, run: seq<Failure>, n: nat): Entries
    requires n <= |run|
  {
    if n == 0 then map[] else Recorded(EntriesAt(s, run, n - 1), s.maxKeys, run[n - 1].key, s.window, run[n - 1].at)
  }

  /**
   The key asked whether it was blocked, after the first p failures of the run and no later than failure n, and was
   let through.
   */
  ghost predicate LetThrough(s: Setup, run: seq<Failure>, p: nat, asked: int, n: nat)
    requires p <= n < |run|
  {
    && (p > 0 ==> run[p - 1].at <= asked) && asked <= run[n].at
    && BlockedFor(EntriesAt(s, run, p), run[n].key, s.limit, s.window, asked).None?
    && forall q :: p <= q < n ==> run[q].key != run[n].key
  }

  /** Every failure follows a false answer of its own, with no other failure of that key in between. */
  ghost predicate Guarded(s: Setup, run: seq<Failure>) {
    && s.limit > 0 && s.window > 0
    && Ordered(run)
    && forall n :: 0 <= n < |run| ==> GuardedAt(s, run, n)
  }

  ghost predicate GuardedAt(s: Setup, run: seq<Failure>, n: nat)
    requires n < |run|
  {
    exists p: nat, asked: int :: p <= n && LetThrough(s, run, p, asked, n)
  }

  /** Failure n was recorded, not dropped because the map was full. */
  ghost predicate Tracked(s: Setup, run: seq<Failure>, n: nat)
    requires n < |run|
  {
    run[n].key in EntriesAt(s, run, n + 1)
  }

  ghost function Recordings(s: Setup, run: seq<Failure>, key: string, a: nat, b: nat): nat
    requires b <= |run|
  {
    if b <= a then 0
    else Recordings(s, run, key, a, b - 1) + if run[b - 1].key == key && Tracked(s, run, b - 1) then 1 else 0
  }

  /** Between its own failures a key keeps its entry, or loses one that has expired by then. */
  lemma {:induction false} EntryWaits(s: Setup, run: seq<Failure>, key: string, p: nat, n: nat)
    requires Ordered(run) && p <= n <= |run|
    requires forall q :: p <= q < n ==> run[q].key != key
    ensures key in EntriesAt(s, run, n) ==>
              key in EntriesAt(s, run, p) && EntriesAt(s, run, n)[key] == EntriesAt(s, run, p)[key]
    ensures key in EntriesAt(s, run, p) && key !in EntriesAt(s, run, n) ==>
              n > p && Expired(EntriesAt(s, run, p)[key], s.window, run[n - 1].at)
  {
    if p < n {
      EntryWaits(s, run, key, p, n - 1);
      assert n > 1 ==> run[n - 2].at <= run[n - 1].at;
    }
  }

  /** In a guarded run no tracked key ever counts past the limit. */
  lemma {:induction false} CountStaysWithinLimit(s: Setup, run: seq<Failure>, key: string, n: nat)
    requires Guarded(s, run) && n <= |run|
    ensures key in EntriesAt(s, run, n) ==> 1 <= EntriesAt(s, run, n)[key].count <= s.limit
  {
    if n > 0 {
      CountStaysWithinLimit(s, run, key, n - 1);
      if run[n - 1].key == key && key in EntriesAt(s, run, n - 1) {
        assert GuardedAt(s, run, n - 1);
        var p: nat, asked: int :| p <= n - 1 && LetThrough(s, run, p, asked, n - 1);
        EntryWaits(s, run, key, p, n - 1);
      }
    }
  }

  /**
   Where the tally since time `start` stands. A window opened before then has counted more than the tally; one
   opened since comes on top of at most limit - 1 failures from before.
   */
  ghost predicate Tallied(s: Setup, m: Entries, key: string, start: int, tally: nat) {
    if key !in m then tally <= s.limit - 1
    else if m[key].windowStart < start then tally <= m[key].count - 1
    else tally <= s.limit - 1 + m[key].count
  }

  lemma TallyStep(s: Setup, m: Entries, failure: Failure, key: string, start: int, tally: nat)
    requires Tallied(s, m, key, start, tally) && start <= failure.at < start + s.window
    requires key in m ==> m[key].count <= s.limit
    ensures var after := Recorded(m, s.maxKeys, failure.key, s.window, failure.at);
            Tallied(s, after, key, start, tally + if failure.key == key && key in after then 1 else 0)
  {
  }

  lemma {:induction false} TallyHolds(s: Setup, run: seq<Failure>, key: string, a: nat, b: nat)
    requires Guarded(s, run) && a <= b <= |run| && a < |run|
    requires a < b ==> run[b - 1].at - run[a].at < s.window
    ensures Tallied(s, EntriesAt(s, run, b), key, run[a].at, Recordings(s, run, key, a, b))
  {
    if a < b {
      assert a < b - 1 ==> run[b - 2].at <= run[b - 1].at;
      TallyHolds(s, run, key, a, b - 1);
      CountStaysWithinLimit(s, run, key, b - 1);
      TallyStep(s, EntriesAt(s, run, b - 1), run[b - 1], key, run[a].at, Recordings(s, run, key, a, b - 1));
    } else {
      CountStaysWithinLimit(s, run, key, a);
    }
  }

  /** Any interval shorter than the window holds at most 2 * limit - 1 recorded failures of a key. */
  lemma FailuresPerWindow(s: Setup, run: seq<Failure>, key: string, a: nat, b: nat)
    requires Guarded(s, run) && a < b <= |run| && run[b - 1].at - run[a].at < s.window
    ensures Recordings(s, run, key, a, b) <= 2 * s.limit - 1
  {
    TallyHolds(s, run, key, a, b);
    CountStaysWithinLimit(s, run, key, b);
  }

  // ---------------------------------------------------------------- the bound is reached

  /** One failure, limit - 1 more just before the window closes, and limit when the next one opens. */
  ghost function Straddle(key: string, limit: nat, window: int): (run: seq<Failure>)
    requires limit >= 1
    ensures |run| == 2 * limit
    ensures forall n :: 0 <= n < 2 * limit ==>
              run[n] == Failure(key, if n == 0 then 0 else if n < limit then window - 1 else window)
  {
    seq(2 * limit, n => Failure(key, if n == 0 then 0 else if n < limit then window - 1 else window))
  }

  /** The entry after the first n failures of that run: first the old window fills, then the new one. */
  ghost function StraddleEntry(limit: nat, window: int, n: nat): Entry
    requires n >= 1
  {
    if n <= limit then Entry(0, n) else Entry(window, n - limit)
  }

  lemma FirstOfWindow(s: Setup, m: Entries, key: string, at: int)
    requires s.maxKeys >= 1 && (m == map[] || (m.Keys == {key} && at - m[key].windowStart >= s.window))
    ensures Recorded(m, s.maxKeys, key, s.window, at) == map[key := Entry(at, 1)]
  {
  }

  lemma NextInWindow(s: Setup, e: Entry, key: string, at: int)
    requires at - e.windowStart < s.window
    ensures Recorded(map[key := e], s.maxKeys, key, s.window, at) == map[key := Entry(e.windowStart, e.count + 1)]
  {
  }

  lemma {:induction false} StraddleCounts(s: Setup, key: string, n: nat)
    requires s.limit >= 1 && s.window >= 2 && s.maxKeys >= 1 && n <= 2 * s.limit
    ensures EntriesAt(s, Straddle(key, s.limit, s.window), n) == if n == 0 then map[]
              else map[key := StraddleEntry(s.limit, s.window, n)]
  {
    if n > 0 {
      var run := Straddle(key, s.limit, s.window);
      var m := EntriesAt(s, run, n - 1);
      StraddleCounts(s, key, n - 1);
      if n == 1 || n == s.limit + 1 {
        FirstOfWindow(s, m, key, run[n - 1].at);
      } else {
        NextInWindow(s, StraddleEntry(s.limit, s.window, n - 1), key, run[n - 1].at);
      }
    }
  }

  lemma {:induction false} StraddleRecordings(s: Setup, key: string, n: nat)
    requires s.limit >= 1 && s.window >= 2 && s.maxKeys >= 1 && 1 <= n <= 2 * s.limit
    ensures Recordings(s, Straddle(key, s.limit, s.window), key, 1, n) == n - 1
  {
    if n > 1 {
      StraddleRecordings(s, key, n - 1);
      StraddleCounts(s, key, n);
    }
  }

  /** No smaller bound would do: some guarded run records 2 * limit - 1 failures within less than one window. */
  lemma FailuresPerWindowIsTight(s: Setup, key: string) returns (run: seq<Failure>)
    requires s.limit >= 1 && s.window >= 2 && s.maxKeys >= 1
    ensures Guarded(s, run)
    ensures |run| == 2 * s.limit && run[|run| - 1].at - run[1].at < s.window
    ensures Recordings(s, run, key, 1, |run|) == 2 * s.limit - 1
  {
    run := Straddle(key, s.limit, s.window);
    forall n | 0 <= n < |run|
      ensures GuardedAt(s, run, n)
    {
      StraddleCounts(s, key, n);
      assert LetThrough(s, run, n, run[n].at, n);
    }
    StraddleRecordings(s, key, 2 * s.limit);
  }
}

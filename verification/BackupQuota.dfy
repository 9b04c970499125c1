/** One cycle of the storage backup: every object is reserved against the bucket's limit before it is copied. */
module BackupQuota {
  import opened Options
  import opened Strings

  const MAX_LIMIT := 9500000000
  const HEADER := 32
  const TAG := 16
  const BLOCK := 65536

  function EncryptedSize(size: nat): int {
    size + HEADER + TAG * ((size + BLOCK - 1) / BLOCK)
  }

  /** The encrypted format itself: a header, then blocks of up to 64 KiB, each with a tag. */
  function Blocks(size: nat): int {
    if size == 0 then 0 else if size <= BLOCK then TAG + size else TAG + BLOCK + Blocks(size - BLOCK)
  }

  lemma {:induction false} EncryptedSizeIsExact(size: nat)
    ensures EncryptedSize(size) == HEADER + Blocks(size)
  {
    if size > BLOCK {
      EncryptedSizeIsExact(size - BLOCK);
      assert (size + BLOCK - 1) / BLOCK == (size - BLOCK + BLOCK - 1) / BLOCK + 1;
    }
  }

  /** At the boundaries of the format: an empty object has its header, and each begun block of 64 KiB a tag. */
  lemma SizesAtBoundaries()
    ensures EncryptedSize(0) == 32 && EncryptedSize(1) == 49
    ensures EncryptedSize(65536) == 65584 && EncryptedSize(65537) == 65601
  {
  }

  // ---------------------------------------------------------------- what is to be copied

  datatype Object = Object(path: string, size: int)

  datatype Item = Item(source: string, path: string, size: int)

  predicate NameChar(c: char) {
    'a' <= c <= 'z' || '0' <= c <= '9'
  }

  predicate ValidSource(source: string) {
    && |source| >= 3 && NameChar(source[0]) && NameChar(source[|source| - 1])
    && forall i :: 0 <= i < |source| ==> NameChar(source[i]) || source[i] == '.' || source[i] == '-'
  }

  predicate ValidPath(path: string) {
    path != "" && path[0] != '/' && forall i :: 0 <= i < |Split(path, '/')| ==>
      Split(path, '/')[i] != "." && Split(path, '/')[i] != ".."
  }

  const ALPHANUMERIC := "abcdefghijklmnopqrstuvwxyz0123456789"

  lemma NameCharIs(c: char)
    ensures NameChar(c) <==> c in ALPHANUMERIC
  {
  }

  /** A bucket's name begins and ends with a letter or a digit; at least one letter, digit, dot or dash is between. */
  ghost predicate BucketName(s: string, a: char, middle: string, b: char) {
    && s == [a] + middle + [b] && a in ALPHANUMERIC && b in ALPHANUMERIC
    && middle != "" && forall i :: 0 <= i < |middle| ==> middle[i] in ALPHANUMERIC || middle[i] in ".-"
  }

  lemma BucketNamesAreValid(s: string, a: char, middle: string, b: char)
    requires BucketName(s, a, middle, b)
    ensures ValidSource(s)
  {
    NameCharIs(a);
    NameCharIs(b);
    forall i | 0 <= i < |s|
      ensures NameChar(s[i]) || s[i] == '.' || s[i] == '-'
    {
      if 0 < i < |s| - 1 {
        assert s[i] == middle[i - 1];
        NameCharIs(s[i]);
      }
    }
  }

  lemma ValidSourcesAreNames(s: string)
    requires ValidSource(s)
    ensures BucketName(s, s[0], s[1..|s| - 1], s[|s| - 1])
  {
    NameCharIs(s[0]);
    NameCharIs(s[|s| - 1]);
    var middle := s[1..|s| - 1];
    forall i | 0 <= i < |middle|
      ensures middle[i] in ALPHANUMERIC || middle[i] in ".-"
    {
      assert middle[i] == s[i + 1];
      NameCharIs(s[i + 1]);
    }
  }

  lemma SourceForms(s: string)
    ensures ValidSource(s) <==> exists a, middle, b :: BucketName(s, a, middle, b)
  {
    if ValidSource(s) {
      ValidSourcesAreNames(s);
    }
    if a, middle, b :| BucketName(s, a, middle, b) {
      BucketNamesAreValid(s, a, middle, b);
    }
  }

  /** Where a path leads from a directory, as a file system follows it. */
  function Resolved(directory: seq<string>, parts: seq<string>): seq<string> {
    if parts == [] then directory
    else
      var before, last := Resolved(directory, parts[..|parts| - 1]), parts[|parts| - 1];
      if last == "." then before
      else if last == ".." then if before == [] then [] else before[..|before| - 1]
      else before + [last]
  }

  predicate NoDots(parts: seq<string>) {
    forall i :: 0 <= i < |parts| ==> parts[i] != "." && parts[i] != ".."
  }

  lemma {:induction false} DotsLeadElsewhere(directory: seq<string>, parts: seq<string>)
    ensures |Resolved(directory, parts)| <= |directory| + |parts|
    ensures NoDots(parts) ==> Resolved(directory, parts) == directory + parts
    ensures !NoDots(parts) ==> |Resolved(directory, parts)| < |directory| + |parts|
  {
    if parts != [] {
      var n := |parts| - 1;
      DotsLeadElsewhere(directory, parts[..n]);
      assert NoDots(parts) <==> NoDots(parts[..n]) && parts[n] != "." && parts[n] != "..";
      assert parts == parts[..n] + [parts[n]];
    }
  }

  /** A path is accepted exactly if it is relative and leads down from its bucket's directory, part by part. */
  lemma ValidPathsLeadDown(bucket: string, path: string)
    ensures ValidPath(path) <==>
            path != "" && path[0] != '/' && Resolved([bucket], Split(path, '/')) == [bucket] + Split(path, '/')
  {
    DotsLeadElsewhere([bucket], Split(path, '/'));
  }

  function Items(source: string, objects: seq<Object>): (items: seq<Item>)
    ensures |items| == |objects|
  {
    seq(|objects|, i requires 0 <= i < |objects| => Item(source, objects[i].path, objects[i].size))
  }

  /** The objects of the first n sources; a source that cannot be listed contributes nothing. */
  function FirstSources(sources: seq<string>, listings: seq<Option<seq<Object>>>, n: nat): seq<Item>
    requires |listings| == |sources| && n <= |sources|
  {
    if n == 0 then []
    else
      var before := FirstSources(sources, listings, n - 1);
      if listings[n - 1].Some? then before + Items(sources[n - 1], listings[n - 1].value) else before
  }

  /** The whole enumeration, source by source. */
  function Enumeration(sources: seq<string>, listings: seq<Option<seq<Object>>>): seq<Item>
    requires |listings| == |sources|
  {
    FirstSources(sources, listings, |sources|)
  }

  predicate Acceptable(item: Item) {
    ValidPath(item.path) && item.size >= 0
  }

  /** From position `at` the enumeration goes on with these items. */
  predicate Next(all: seq<Item>, at: nat, items: seq<Item>) {
    at + |items| <= |all| && forall k :: 0 <= k < |items| ==> items[k] == all[at + k]
  }

  lemma {:induction false} FirstSourcesGrow(sources: seq<string>, listings: seq<Option<seq<Object>>>, n: nat, m: nat)
    requires |listings| == |sources| && n <= m <= |sources|
    ensures FirstSources(sources, listings, n) <= FirstSources(sources, listings, m)
  {
    if n < m {
      FirstSourcesGrow(sources, listings, n, m - 1);
    }
  }

  /** The enumeration lists the n-th source from position ends[n] to ends[n + 1]. */
  ghost predicate Laid(all: seq<Item>, sources: seq<string>, listings: seq<Option<seq<Object>>>, ends: seq<nat>) {
    && |listings| == |sources| && |ends| == |sources| + 1 && ends[0] == 0 && ends[|sources|] == |all|
    && forall n :: 0 <= n < |sources| ==> LaidAt(all, sources, listings, ends, n)
  }

  ghost predicate LaidAt(all: seq<Item>, sources: seq<string>, listings: seq<Option<seq<Object>>>, ends: seq<nat>,
      n: nat)
    requires |listings| == |sources| && |ends| == |sources| + 1 && n < |sources|
  {
    listings[n].Some? ==>
      && Next(all, ends[n], Items(sources[n], listings[n].value))
      && ends[n + 1] == ends[n] + |listings[n].value|
  }

  lemma EnumerationIsLaid(sources: seq<string>, listings: seq<Option<seq<Object>>>) returns (ends: seq<nat>)
    requires |listings| == |sources|
    ensures Laid(Enumeration(sources, listings), sources, listings, ends)
  {
    ends := seq(|sources| + 1, n requires 0 <= n <= |sources| => |FirstSources(sources, listings, n)|);
    forall n | 0 <= n < |sources|
      ensures LaidAt(Enumeration(sources, listings), sources, listings, ends, n)
    {
      FirstSourcesGrow(sources, listings, n + 1, |sources|);
    }
  }

  /** The objects of each source come in the order of its listing, after those of the sources before it. */
  lemma ListedInOrder(sources: seq<string>, listings: seq<Option<seq<Object>>>, n: nat, k: nat)
    requires |listings| == |sources| && n < |sources| && listings[n].Some? && k < |listings[n].value|
    ensures var at := |FirstSources(sources, listings, n)|;
            && at + |listings[n].value| == |FirstSources(sources, listings, n + 1)| <= |Enumeration(sources, listings)|
            && Enumeration(sources, listings)[at + k]
               == Item(sources[n], listings[n].value[k].path, listings[n].value[k].size)
  {
    FirstSourcesGrow(sources, listings, n + 1, |sources|);
  }

  /** What the items take up once encrypted. */
  function Reservation(items: seq<Item>): nat {
    if items == [] then 0
    else
      var last := items[|items| - 1];
      Reservation(items[..|items| - 1]) + if last.size >= 0 then EncryptedSize(last.size) else 0
  }

  function Destination(source: string, path: string): string {
    source + "/" + path
  }

  /** Objects of different buckets, or of different paths, are never copied over one another. */
  lemma DestinationNamesOneObject(source: string, path: string, source': string, path': string)
    requires ValidSource(source) && ValidSource(source') && Destination(source, path) == Destination(source', path')
    ensures source == source' && path == path'
  {
    assert Destination(source, path) == source + ['/'] + path && Destination(source', path') == source' + ['/'] + path';
    assert '/' !in source && '/' !in source';
    FirstSeparatorSplits(source, path, source', path', '/');
  }

  // ---------------------------------------------------------------- the cycle

  datatype Error =
    | LimitOutOfRange | CannotMeasure | LimitReached | InvalidSource | InvalidPath | InvalidSize
    | LimitExceeded | StorageFailed | SourceGrew

  /**
   What copying one object comes to: the bytes it adds to the bucket, whether it fails, and the size seen afterwards.
   */
  datatype Copy = Copy(added: int, failed: bool, sizeAfter: Option<int>)

  /** Reservations add up, object by object. */
  lemma {:induction false} ReservationsAdd(items: seq<Item>, more: seq<Item>)
    ensures Reservation(items + more) == Reservation(items) + Reservation(more)
    ensures forall item: Item :: item.size >= 0 ==> Reservation([item]) == EncryptedSize(item.size)
  {
    assert forall item: Item :: [item][..0] == [];
    if more == [] {
      assert items + more == items;
    } else {
      var n := |more| - 1;
      ReservationsAdd(items, more[..n]);
      assert (items + more)[..|items| + n] == items + more[..n];
    }
  }

  /** An object of one byte just fits into what 951 of 1000 bytes leave, and no longer when one more is used. */
  lemma ExactFit(item: Item)
    requires item.size == 1 && Acceptable(item)
    ensures Affordable(951, 1000, [item]) && !Affordable(952, 1000, [item])
  {
    ReservationsAdd([], [item]);
    SizesAtBoundaries();
  }

  /** Empty objects take room, too: after one of two the limit of 1000 is reached. */
  lemma EmptyObjectsTakeRoom(a: Item, b: Item)
    requires a.size == 0 && b.size == 0 && Acceptable(a)
    ensures Affordable(950, 1000, [a]) && !Affordable(950, 1000, [a, b])
  {
    assert [a] + [b] == [a, b];
    ReservationsAdd([a], [b]);
    SizesAtBoundaries();
  }

  /** A cycle starts below a limit that is positive and at most 9.5 GB, when the bucket could be measured. */
  lemma CyclesStart(limit: int, used: int)
    ensures Startable(limit, Some(used)) <==> 1 <= limit <= 9_500_000_000 && 0 <= used <= limit - 1
    ensures !Startable(limit, None)
  {
  }

  /** A copy is clean if the object is seen no larger afterwards than it was listed. */
  lemma GrowthIsNotClean(item: Item, added: int)
    ensures CleanCopy(item, Copy(added, false, Some(item.size)))
    ensures !CleanCopy(item, Copy(added, false, Some(item.size + 1)))
    ensures !CleanCopy(item, Copy(added, true, Some(item.size))) && !CleanCopy(item, Copy(added, false, None))
  {
  }

  predicate Flawless(items: seq<Item>, copies: nat -> Copy) {
    forall k :: 0 <= k < |items| ==> CleanCopy(items[k], copies(k))
  }

  predicate CleanCopy(item: Item, copy: Copy) {
    !copy.failed && copy.sizeAfter.Some? && copy.sizeAfter.value <= item.size
  }

  /** No copy adds more than the encrypted size of the object as it was listed. */
  predicate Bounded(item: Item, copy: Copy) {
    item.size >= 0 ==> 0 <= copy.added <= EncryptedSize(item.size)
  }

  predicate Cooperative(items: seq<Item>, copies: nat -> Copy) {
    forall k :: 0 <= k < |items| ==> Bounded(items[k], copies(k))
  }

  lemma {:induction false} ReservationIsMonotone(items: seq<Item>, m: nat)
    requires m <= |items|
    ensures Reservation(items[..m]) <= Reservation(items)
  {
    if m == |items| {
      assert items[..m] == items;
    } else {
      ReservationIsMonotone(items[..|items| - 1], m);
      assert items[..|items| - 1][..m] == items[..m];
    }
  }

  class Cycle {
    const limit: int
    const copies: nat -> Copy
    /** The reservation, the true size of the bucket, and the objects copied so far. */
    var used: int
    var stored: int
    var copied: seq<Item>

    constructor (limit: int, copies: nat -> Copy, stored: int)
      ensures this.limit == limit && this.copies == copies && this.stored == stored && copied == []
    {
      this.limit, this.copies, this.used, this.stored, this.copied := limit, copies, 0, stored, [];
    }

    /** The bucket never outgrows the reservation, nor the reservation the limit. */
    ghost predicate Within()
      reads this
    {
      stored <= used <= limit
    }

    /** The same, save that the copy that failed last may have added up to its own reservation, which fits as well. */
    ghost predicate Reserved(all: seq<Item>)
      reads this
    {
      || Within()
      || (|copied| < |all| && all[|copied|].size >= 0 && stored <= used + EncryptedSize(all[|copied|].size) <= limit)
    }

    method Upload(item: Item) returns (error: Option<Error>)
      requires Within() && Bounded(item, copies(|copied|))
      modifies this`used, this`stored, this`copied
      ensures old(stored) <= stored <= limit
      ensures stored == old(stored) + if Acceptable(item) && old(used) + EncryptedSize(item.size) <= limit
                                      then copies(|old(copied)|).added else 0
      ensures Within() || (copied == old(copied) && item.size >= 0
                && stored <= used + EncryptedSize(item.size) <= limit)
      ensures error.None? ==> Within()
      ensures error.None? ==> Acceptable(item) && CleanCopy(item, copies(|old(copied)|))
      ensures (copied == old(copied) && used == old(used))
                || (Acceptable(item) && copied == old(copied) + [item] && used == old(used) + EncryptedSize(item.size))
      ensures error.None? ==> copied != old(copied)
      ensures error == Some(InvalidPath) <==> !ValidPath(item.path)
      ensures error == Some(InvalidSize) <==> ValidPath(item.path) && item.size < 0
      ensures error == Some(LimitExceeded) <==> Acceptable(item) && old(used) + EncryptedSize(item.size) > limit
      ensures error == Some(SourceGrew) <==>
                && copied != old(copied) && copies(|old(copied)|).sizeAfter.Some?
                && copies(|old(copied)|).sizeAfter.value > item.size
      ensures error in {Some(InvalidPath), Some(InvalidSize), Some(LimitExceeded)} ==> stored == old(stored)
      ensures copied != old(copied) <==>
                && Acceptable(item) && old(used) + EncryptedSize(item.size) <= limit
                && !copies(|old(copied)|).failed
      ensures error.Some? && CleanCopy(item, copies(|old(copied)|)) ==>
                error == Some(LimitExceeded) || !Acceptable(item)
    {
      if !ValidPath(item.path) {
        return Some(InvalidPath);
      }
      if item.size < 0 {
        return Some(InvalidSize);
      }
      var reserve := EncryptedSize(item.size);
      if used + reserve > limit {
        return Some(LimitExceeded);
      }
      var copy := copies(|copied|);
      stored := stored + copy.added;
      if copy.failed {
        return Some(StorageFailed);
      }
      used := used + reserve;
      copied := copied + [item];
      if copy.sizeAfter.None? {
        return Some(StorageFailed);
      }
      if copy.sizeAfter.value > item.size {
        return Some(SourceGrew);
      }
      return None;
    }

    /** The objects of one source, which come next in the enumeration `all`. */
    method UploadAll(items: seq<Item>, ghost all: seq<Item>, ghost base: int) returns (error: Option<Error>)
      requires Within() && SoFar(all, base) && Cooperative(all, copies)
      requires Next(all, |copied|, items)
      modifies this`used, this`stored, this`copied
      ensures SoFar(all, base) && Reserved(all) && old(stored) <= stored
      ensures error.None? ==> Within() && |copied| == |old(copied)| + |items|
      ensures error.Some? && Flawless(all, copies) ==> !Affordable(base, limit, all)
    {
      var i := 0;
      while i < |items|
        invariant i <= |items| && Within() && old(stored) <= stored
        invariant SoFar(all, base) && |copied| == |old(copied)| + i
      {
        NextItem(all, |copied|);
        TooMuch(base, limit, all, |copied|);
        error := Upload(items[i]);
        if error.Some? {
          return;
        }
        i := i + 1;
      }
      return None;
    }

    /** What has been copied is a prefix of the enumeration, all of it reserved. */
    ghost predicate SoFar(all: seq<Item>, base: int)
      reads this
    {
      |copied| <= |all| && copied == all[..|copied|] && used == base + Reservation(copied) && AllAcceptable(copied)
    }

    method UploadSource(source: string, listing: Option<seq<Object>>, ghost all: seq<Item>, ghost base: int)
        returns (error: Option<Error>)
      requires Within() && SoFar(all, base) && Cooperative(all, copies)
      requires listing.Some? ==> Next(all, |copied|, Items(source, listing.value))
      modifies this`used, this`stored, this`copied
      ensures SoFar(all, base) && Reserved(all) && old(stored) <= stored
      ensures error.None? ==>
                && Within() && ValidSource(source) && listing.Some?
                && |copied| == |old(copied)| + |listing.value|
      ensures error.Some? && Flawless(all, copies) ==>
                !ValidSource(source) || listing.None? || !Affordable(base, limit, all)
    {
      if !ValidSource(source) {
        return Some(InvalidSource);
      }
      if listing.None? {
        return Some(StorageFailed);
      }
      error := UploadAll(Items(source, listing.value), all, base);
    }

    method UploadSources(sources: seq<string>, listings: seq<Option<seq<Object>>>, ghost all: seq<Item>,
        ghost base: int, ghost ends: seq<nat>)
      returns (error: Option<Error>)
      requires Laid(all, sources, listings, ends) && copied == [] && used == base && Within()
                 && Cooperative(all, copies)
      modifies this`used, this`stored, this`copied
      ensures SoFar(all, base) && Reserved(all) && old(stored) <= stored
      ensures error.None? ==> Within() && |copied| == |all| && AllListed(sources, listings)
      ensures error.Some? && Flawless(all, copies) ==> !AllListed(sources, listings) || !Affordable(base, limit, all)
    {
      var i := 0;
      while i < |sources|
        invariant i <= |sources| && Within() && old(stored) <= stored
        invariant SoFar(all, base) && |copied| == ends[i]
        invariant forall k :: 0 <= k < i ==> Listed(sources, listings, k)
      {
        assert LaidAt(all, sources, listings, ends, i);
        error := UploadSource(sources[i], listings[i], all, base);
        if error.Some? {
          assert AllListed(sources, listings) ==> Listed(sources, listings, i);
          return;
        }
        i := i + 1;
      }
      return None;
    }

    /** One cycle over all sources, after the bucket has been measured. */
    method Backup(measured: Option<int>, sources: seq<string>, listings: seq<Option<seq<Object>>>)
        returns (error: Option<Error>)
      requires |listings| == |sources| && copied == []
      requires measured.Some? && measured.value >= 0 ==> measured.value == stored
      requires Cooperative(Enumeration(sources, listings), copies)
      modifies this`used, this`stored, this`copied
      ensures copied <= Enumeration(sources, listings)
      ensures old(stored) <= stored
      ensures !(0 < limit <= 9_500_000_000) ==> error == Some(LimitOutOfRange)
      ensures 0 < limit <= 9_500_000_000 && measured.Some? && measured.value >= limit ==> error == Some(LimitReached)
      ensures if Startable(limit, measured) then Reserved(Enumeration(sources, listings))
                else stored == old(stored) && copied == []
      ensures error.None? ==>
                && copied == Enumeration(sources, listings) && used == old(stored) + Reservation(copied)
                && Within()
      ensures error.None? ==> Startable(limit, measured) && AllListed(sources, listings) && AllAcceptable(copied)
      ensures Flawless(Enumeration(sources, listings), copies) ==>
                (error.None? <==>
                  && Startable(limit, measured) && AllListed(sources, listings)
                  && Affordable(old(stored), limit, Enumeration(sources, listings)))
    {
      if !(0 < limit <= MAX_LIMIT) {
        return Some(LimitOutOfRange);
      }
      if measured.None? {
        return Some(StorageFailed);
      }
      if measured.value < 0 {
        return Some(CannotMeasure);
      }
      used := measured.value;
      if used >= limit {
        return Some(LimitReached);
      }
      ghost var ends := EnumerationIsLaid(sources, listings);
      error := UploadSources(sources, listings, Enumeration(sources, listings), stored, ends);
      assert error.None? ==> copied == Enumeration(sources, listings);
    }
  }

  predicate Startable(limit: int, measured: Option<int>) {
    0 < limit <= MAX_LIMIT && measured.Some? && 0 <= measured.value < limit
  }

  predicate Listed(sources: seq<string>, listings: seq<Option<seq<Object>>>, n: nat)
    requires |listings| == |sources| && n < |sources|
  {
    ValidSource(sources[n]) && listings[n].Some?
  }

  predicate AllListed(sources: seq<string>, listings: seq<Option<seq<Object>>>)
    requires |listings| == |sources|
  {
    forall i :: 0 <= i < |sources| ==> Listed(sources, listings, i)
  }

  predicate AllAcceptable(items: seq<Item>) {
    forall i :: 0 <= i < |items| ==> Acceptable(items[i])
  }

  predicate Affordable(base: int, limit: int, items: seq<Item>) {
    base + Reservation(items) <= limit && AllAcceptable(items)
  }

  lemma NextItem(all: seq<Item>, n: nat)
    requires n < |all|
    ensures all[..n] + [all[n]] == all[..n + 1]
    ensures AllAcceptable(all[..n]) && Acceptable(all[n]) ==> AllAcceptable(all[..n + 1])
    ensures Reservation(all[..n + 1]) == Reservation(all[..n]) + if all[n].size >= 0 then EncryptedSize(all[n].size)
              else 0
  {
    assert all[..n + 1][..n] == all[..n];
  }

  /** An object that does not fit makes the whole enumeration too large; one that is refused makes it unacceptable. */
  lemma TooMuch(base: int, limit: int, all: seq<Item>, n: nat)
    requires n < |all|
    ensures Affordable(base, limit, all) ==>
              Acceptable(all[n]) && base + Reservation(all[..n]) + EncryptedSize(all[n].size) <= limit
  {
    NextItem(all, n);
    ReservationIsMonotone(all, n + 1);
  }
}

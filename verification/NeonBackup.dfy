/**
 The Neon backup worker: each command it gives may fail or may be the last before it is killed, with or without
 effect.
 */
module NeonBackup {
  import opened Options
  import opened Chains
  import opened SnapshotHistory

  datatype Fate = Done | Failed(effect: bool) | Killed(effect: bool)

  predicate Happened(f: Fate) {
    f.Done? || f.effect
  }

  datatype Outcome = Fine | KeepOutOfRange | TargetChanged | InvalidHistory | Refused | MarkerChanged | CommandFailed
      | Dead

  function AfterFault(f: Fate): Outcome {
    match f
    case Done => Fine
    case Failed(_) => CommandFailed
    case Killed(_) => Dead
  }

  // ---------------------------------------------------------------- what is to be done

  /** The commands that the worker gives, to the dump tools, to the server and for its state file. */
  datatype Command =
    | DumpPrimary | ListDump
    | CreateDatabase(name: Name) | CommentOn(name: Name) | RestoreInto(name: Name) | CountTables(name: Name)
    | AnalyzeTables(name: Name)
    | ReadComment(name: Name) | DropDatabase(name: Name) | WriteState

  /** A snapshot: the primary is dumped and the dump looked through before anything is created for it. */
  function SnapshotPlan(name: Name): seq<Command> {
    [DumpPrimary, ListDump] + ([CreateDatabase(name)] + (FillPlan(name) + [WriteState]))
  }

  function FillPlan(name: Name): seq<Command> {
    [CommentOn(name), RestoreInto(name)] + [CountTables(name), AnalyzeTables(name)]
  }

  /** A snapshot goes after its comment has been looked at, and is struck from the file after that. */
  function RetirePlan(name: Name): seq<Command> {
    [ReadComment(name)] + [DropDatabase(name), WriteState]
  }

  function RetentionPlan(snapshots: seq<Name>, keep: int): seq<Command> {
    if keep >= 0 && |snapshots| > keep then RetirePlan(snapshots[0]) + RetentionPlan(snapshots[1..], keep) else []
  }

  /** At most one snapshot is ever due. */
  lemma OneRound(snapshots: seq<Name>, keep: int)
    requires 0 <= keep && |snapshots| <= keep + 1
    ensures RetentionPlan(snapshots, keep) == if |snapshots| > keep then RetirePlan(snapshots[0]) else []
  {
    if |snapshots| > keep {
      assert RetentionPlan(snapshots[1..], keep) == [];
    }
  }

  /** Everything that an attempt has to do: a first state file, retention, the snapshot, retention. */
  function AttemptPlan(first: bool, snapshots: seq<Name>, name: Name, keep: int): seq<Command> {
    (if first then [WriteState] else [])
    + (RetentionPlan(snapshots, keep) + (SnapshotPlan(name) + RetentionPlan(Newest(snapshots, keep) + [name], keep)))
  }

  /** A killed worker gives no more commands, only a killed one is called dead, and success needs every command done. */
  ghost predicate Lived(fates: nat -> Fate, from: nat, to: nat, outcome: Outcome) {
    && (outcome == Dead <==> from < to && fates(to - 1).Killed?)
    && (forall i :: from <= i < to - 1 ==> !fates(i).Killed?)
    && (outcome == Fine ==> forall i :: from <= i < to ==> fates(i).Done?)
  }

  /** For example the third snapshot where two are kept: everything in order, and the first one goes after that. */
  lemma ThirdOfTwo(first: Name, second: Name, third: Name)
    ensures AttemptPlan(false, [first, second], third, 2) ==
            [DumpPrimary, ListDump, CreateDatabase(third), CommentOn(third), RestoreInto(third), CountTables(third),
             AnalyzeTables(third), WriteState, ReadComment(first), DropDatabase(first), WriteState]
  {
    assert Newest([first, second], 2) + [third] == [first, second, third];
    OneRound([first, second, third], 2);
  }

  /** The very first attempt writes its state file before anything else. */
  lemma FirstOfAll(name: Name, keep: int)
    requires keep >= 1
    ensures AttemptPlan(true, [], name, keep) ==
            [WriteState, DumpPrimary, ListDump, CreateDatabase(name), CommentOn(name), RestoreInto(name),
             CountTables(name), AnalyzeTables(name), WriteState]
  {
    assert Newest([], keep) + [name] == [name];
  }

  lemma AttemptInTwo(snapshots: seq<Name>, name: Name, keep: int)
    ensures AttemptPlan(false, snapshots, name, keep)
              == RetentionPlan(snapshots, keep)
                + (SnapshotPlan(name) + RetentionPlan(Newest(snapshots, keep) + [name], keep))
    ensures AttemptPlan(true, snapshots, name, keep) == [WriteState] + AttemptPlan(false, snapshots, name, keep)
  {
  }

  /** The plan has been carried out, or as much of it as went well and the command after that. */
  ghost predicate Follows(given: seq<Command>, plan: seq<Command>, outcome: Outcome) {
    if outcome == Fine then given == plan else given <= plan
  }

  /** The same, save that the database has been dropped in the end. */
  ghost predicate FollowsOrDrops(given: seq<Command>, plan: seq<Command>, name: Name, outcome: Outcome) {
    || Follows(given, plan, outcome)
    || (outcome != Fine && given != [] && given[|given| - 1] == DropDatabase(name) && given[..|given| - 1] <= plan)
  }

  /** No database is dropped so that has not been created. */
  ghost predicate FollowsOrCleans(given: seq<Command>, plan: seq<Command>, name: Name, outcome: Outcome) {
    FollowsOrDrops(given, plan, name, outcome) && (Follows(given, plan, outcome) || CreateDatabase(name) in given)
  }

  /** Retention drops nothing but the oldest snapshot. */
  lemma NoDropOf(before: seq<Command>, given: seq<Command>, snapshots: seq<Name>, keep: int, name: Name)
    requires before <= given && given[|before|..] <= RetentionPlan(snapshots, keep)
    requires 0 <= keep && |snapshots| <= keep + 1 && (|snapshots| > keep ==> snapshots[0] != name)
    ensures |before| < |given| ==> given[|given| - 1] != DropDatabase(name)
  {
    OneRound(snapshots, keep);
    if |before| < |given| {
      assert given[|given| - 1] == given[|before|..][|given| - |before| - 1];
    }
  }

  lemma EndsWritten(before: seq<Command>, given: seq<Command>, name: Name)
    requires before <= given && given[|before|..] == SnapshotPlan(name)
    ensures |before| < |given| && given[|given| - 1] == WriteState
  {
    assert given[|given| - 1] == given[|before|..][|given| - |before| - 1];
  }

  /** What is left to do when filling has come to this. */
  function LastCommand(filled: Outcome, name: Name): seq<Command> {
    if filled == Fine then [WriteState] else if filled == Dead then [] else [DropDatabase(name)]
  }

  lemma TailGiven(fill: seq<Command>, name: Name, filled: Outcome, outcome: Outcome)
    requires Follows(fill, FillPlan(name), filled) && (filled != Fine ==> outcome != Fine)
    ensures FollowsOrDrops(fill + LastCommand(filled, name), FillPlan(name) + [WriteState], name, outcome)
  {
    var all := fill + LastCommand(filled, name);
    if filled != Fine && filled != Dead {
      assert all[..|all| - 1] == fill;
    }
  }

  lemma Furnished(fates: nat -> Fate, a: seq<Command>, b: seq<Command>, c: seq<Command>, name: Name, filled: Outcome,
      outcome: Outcome)
    requires a <= b && Follows(b[|a|..], FillPlan(name), filled) && c == b + LastCommand(filled, name)
    requires Lived(fates, |a|, |b|, filled)
    requires (filled != Fine ==> outcome != Fine) && (filled == Dead ==> outcome == Dead)
    requires filled != Dead ==>
               Lived(fates, |b|, |c|, if filled == Fine || outcome == Dead then outcome else CommandFailed)
    ensures Lived(fates, |a|, |c|, outcome)
    ensures FollowsOrDrops(c[|a|..], FillPlan(name) + [WriteState], name, outcome)
  {
    TailGiven(b[|a|..], name, filled, outcome);
    assert c[|a|..] == b[|a|..] + LastCommand(filled, name);
    if filled != Dead {
      var last := if filled == Fine || outcome == Dead then outcome else CommandFailed;
      LivedOn(fates, |a|, |b|, |c|, filled, last, outcome);
    }
  }

  lemma AllGiven(tail: seq<Command>, name: Name, outcome: Outcome)
    requires FollowsOrDrops(tail, FillPlan(name) + [WriteState], name, outcome)
    ensures FollowsOrCleans([CreateDatabase(name)] + tail, [CreateDatabase(name)] + (FillPlan(name) + [WriteState]),
                            name, outcome)
  {
    var all := [CreateDatabase(name)] + tail;
    assert all[0] == CreateDatabase(name);
    if tail != [] {
      assert all[..|all| - 1] == [CreateDatabase(name)] + tail[..|tail| - 1];
    }
  }

  lemma CreatedAndFurnished(fates: nat -> Fate, a: seq<Command>, c: seq<Command>, name: Name, outcome: Outcome)
    requires a + [CreateDatabase(name)] <= c && fates(|a|).Done? && Lived(fates, |a| + 1, |c|, outcome)
    requires FollowsOrDrops(c[|a| + 1..], FillPlan(name) + [WriteState], name, outcome)
    ensures Lived(fates, |a|, |c|, outcome)
    ensures FollowsOrCleans(c[|a|..], [CreateDatabase(name)] + (FillPlan(name) + [WriteState]), name, outcome)
  {
    AllGiven(c[|a| + 1..], name, outcome);
    LivedOn(fates, |a|, |a| + 1, |c|, Fine, outcome, outcome);
    assert c[|a|..] == [CreateDatabase(name)] + c[|a| + 1..];
  }

  lemma LivedOn(fates: nat -> Fate, from: nat, middle: nat, to: nat, first: Outcome, second: Outcome, outcome: Outcome)
    requires from <= middle <= to && Lived(fates, from, middle, first) && Lived(fates, middle, to, second)
    requires first != Dead && (outcome == Dead <==> second == Dead)
    requires outcome == Fine ==> first == Fine && second == Fine
    ensures Lived(fates, from, to, outcome)
  {
  }

  lemma FollowsOn(first: seq<Command>, rest: seq<Command>, second: seq<Command>, name: Name, outcome: Outcome)
    ensures Follows(rest, second, outcome) ==> Follows(first + rest, first + second, outcome)
    ensures FollowsOrDrops(rest, second, name, outcome) ==>
              FollowsOrDrops(first + rest, first + second, name, outcome)
  {
    if rest != [] {
      assert (first + rest)[..|first + rest| - 1] == first + rest[..|rest| - 1];
    }
  }

  /** One part of the work after another. */
  lemma DoneThen(fates: nat -> Fate, a: seq<Command>, b: seq<Command>, c: seq<Command>, first: seq<Command>,
      second: seq<Command>, name: Name, outcome: Outcome)
    requires a <= b <= c && b[|a|..] == first && Lived(fates, |a|, |b|, Fine) && Lived(fates, |b|, |c|, outcome)
    ensures Lived(fates, |a|, |c|, outcome)
    ensures Follows(c[|b|..], second, outcome) ==> Follows(c[|a|..], first + second, outcome)
    ensures FollowsOrCleans(c[|b|..], second, name, outcome) ==>
              FollowsOrCleans(c[|a|..], first + second, name, outcome)
  {
    var rest := c[|b|..];
    LivedOn(fates, |a|, |b|, |c|, Fine, outcome, outcome);
    FollowsOn(first, rest, second, name, outcome);
    assert c[|a|..] == first + rest;
    assert CreateDatabase(name) in rest ==> CreateDatabase(name) in first + rest;
  }

  lemma BuiltAndTrimmed(fates: nat -> Fate, a: seq<Command>, b: seq<Command>, c: seq<Command>, snapshots: seq<Name>,
      keep: int, name: Name, outcome: Outcome)
    requires a <= b <= c && b[|a|..] == SnapshotPlan(name) && Follows(c[|b|..], RetentionPlan(snapshots, keep), outcome)
    requires Lived(fates, |a|, |b|, Fine) && Lived(fates, |b|, |c|, outcome)
    requires 0 <= keep && |snapshots| <= keep + 1 && (|snapshots| > keep ==> snapshots[0] != name)
    ensures Lived(fates, |a|, |c|, outcome) && c[|c| - 1] != DropDatabase(name)
    ensures FollowsOrCleans(c[|a|..], SnapshotPlan(name) + RetentionPlan(snapshots, keep), name, outcome)
  {
    DoneThen(fates, a, b, c, SnapshotPlan(name), RetentionPlan(snapshots, keep), name, outcome);
    EndsWritten(a, b, name);
    NoDropOf(b, c, snapshots, keep, name);
  }

  lemma NotDone(given: seq<Command>, first: seq<Command>, second: seq<Command>, name: Name, outcome: Outcome)
    requires outcome != Fine
    ensures Follows(given, first, outcome) ==> Follows(given, first + second, outcome)
    ensures FollowsOrCleans(given, first, name, outcome) ==> FollowsOrCleans(given, first + second, name, outcome)
  {
  }

  // ---------------------------------------------------------------- the state file

  /** The text holds characters of the alphabet only. */
  predicate Over(alphabet: string, s: string) {
    forall i :: 0 <= i < |s| ==> s[i] in alphabet
  }

  predicate Decimal(s: string) {
    forall i :: 0 <= i < |s| ==> '0' <= s[i] <= '9'
  }

  predicate Hexadecimal(s: string) {
    forall i :: 0 <= i < |s| ==> '0' <= s[i] <= '9' || 'a' <= s[i] <= 'f'
  }

  predicate ValidOwner(owner: string) {
    |owner| == 32 && Hexadecimal(owner)
  }

  const NAME_PREFIX := "hquizlet_backup_"

  /** A snapshot's name: its time in 14 digits, and 8 random hexadecimal ones. */
  predicate ValidName(name: Name) {
    && |name| == |NAME_PREFIX| + 23 && name[..|NAME_PREFIX|] == NAME_PREFIX
    && var rest := name[|NAME_PREFIX|..]; Decimal(rest[..14]) && rest[14] == '_' && Hexadecimal(rest[15..])
  }

  lemma Digits(s: string)
    ensures Decimal(s) <==> Over("0123456789", s)
    ensures Hexadecimal(s) <==> Over("0123456789abcdef", s)
  {
    forall c: char
      ensures c in "0123456789" <==> '0' <= c <= '9'
      ensures c in "0123456789abcdef" <==> '0' <= c <= '9' || 'a' <= c <= 'f'
    {
      CharOf(c);
    }
  }

  lemma CharOf(c: char)
    ensures c in "0123456789" <==> '0' <= c <= '9'
    ensures c in "0123456789abcdef" <==> '0' <= c <= '9' || 'a' <= c <= 'f'
  {
  }

  /** A name is valid exactly if it is the worker's prefix, a time and a random part. */
  lemma NamesOfTheWorker(name: Name)
    ensures ValidName(name) <==>
            exists time, random :: IsTime(time) && IsRandom(random)
              && name == "hquizlet_backup_" + time + "_" + random
  {
    if ValidName(name) {
      ValidNameParts(name);
    }
    if time, random :| IsTime(time) && IsRandom(random) && name == "hquizlet_backup_" + time + "_" + random {
      PartsMakeName(name, time, random);
    }
  }

  lemma ValidNameParts(name: Name)
    requires ValidName(name)
    ensures IsTime(name[16..30]) && IsRandom(name[31..])
    ensures name == "hquizlet_backup_" + name[16..30] + "_" + name[31..]
  {
    var rest := name[16..];
    assert rest[..14] == name[16..30] && rest[15..] == name[31..];
    Digits(name[16..30]);
    Digits(name[31..]);
    assert name[..16] == "hquizlet_backup_" && name[30..31] == "_";
    assert name == name[..16] + name[16..30] + name[30..31] + name[31..];
  }

  lemma PartsMakeName(name: Name, time: string, random: string)
    requires IsTime(time) && IsRandom(random) && name == "hquizlet_backup_" + time + "_" + random
    ensures ValidName(name)
  {
    var rest := name[16..];
    assert rest == time + "_" + random;
    assert rest[..14] == time && rest[14] == '_' && rest[15..] == random;
    Digits(time);
    Digits(random);
  }

  lemma OwnersOfSnapshots(owner: string)
    ensures ValidOwner(owner) <==> |owner| == 32 && Over("0123456789abcdef", owner)
  {
    Digits(owner);
  }

  /** Different owners never leave the same comment. */
  lemma MarkerNamesOwner(a: string, b: string)
    ensures Marker(a) == Marker(b) <==> a == b
    ensures Marker(a) == "hquizlet-neon-backup:v1:" + a
  {
    assert Marker(a)[|"hquizlet-neon-backup:v1:"|..] == a && Marker(b)[|"hquizlet-neon-backup:v1:"|..] == b;
  }

  predicate IsTime(s: string) {
    |s| == 14 && Over("0123456789", s)
  }

  predicate IsRandom(s: string) {
    |s| == 8 && Over("0123456789abcdef", s)
  }

  predicate AllValid(names: seq<Name>) {
    forall i :: 0 <= i < |names| ==> ValidName(names[i])
  }

  /** The worker accepts the file as its own. */
  predicate Trusted(target: string, r: Record) {
    r.target == target && ValidOwner(r.owner) && AllValid(r.snapshots)
  }

  lemma TrustedGrows(target: string, r: Record, name: Name, time: int)
    requires Trusted(target, r) && ValidName(name)
    ensures Trusted(target, Recorded(r, name, time))
  {
  }

  lemma TrustedShrinks(target: string, r: Record, keep: int)
    requires Trusted(target, r)
    ensures Trusted(target, Trimmed(r, keep))
  {
  }

  /** The record as retention leaves it. */
  function Trimmed(r: Record, keep: int): Record {
    r.(snapshots := Newest(r.snapshots, keep))
  }

  class Worker {
    const target: string
    const admin: Name
    const keep: int
    /** What each command will come to, in the order in which they are given, and those given so far. */
    const fates: nat -> Fate
    var given: seq<Command>
    var file: Option<Record>
    var dbs: map<Name, Db>

    constructor (target: string, admin: Name, keep: int, fates: nat -> Fate, file: Option<Record>, dbs: map<Name, Db>)
      ensures this.target == target && this.admin == admin && this.keep == keep && this.fates == fates
      ensures this.file == file && this.dbs == dbs && this.given == []
    {
      this.target, this.admin, this.keep, this.fates, this.given := target, admin, keep, fates, [];
      this.file, this.dbs := file, dbs;
    }

    ghost function View(job: Job): World
      reads this
    {
      World(keep, admin, file, dbs, job)
    }

    method Give(command: Command) returns (fate: Fate)
      modifies this`given
      ensures fate == fates(|old(given)|) && given == old(given) + [command]
    {
      fate := fates(|given|);
      given := given + [command];
    }

    /** Since then the plan has been carried out, or its beginning. */
    ghost predicate Did(before: seq<Command>, plan: seq<Command>, outcome: Outcome)
      reads this
    {
      && before <= given && Follows(given[|before|..], plan, outcome)
      && Lived(fates, |before|, |given|, outcome)
    }

    ghost predicate DidOrCleaned(before: seq<Command>, plan: seq<Command>, name: Name, outcome: Outcome)
      reads this
    {
      && before <= given && FollowsOrCleans(given[|before|..], plan, name, outcome)
      && Lived(fates, |before|, |given|, outcome)
    }

    /** If the last command was to drop this database, and it has happened, then the database is gone. */
    ghost predicate Cleaned(before: seq<Command>, name: Name)
      reads this
    {
      |before| < |given| && given[|given| - 1] == DropDatabase(name) && Happened(fates(|given| - 1)) ==> name !in dbs
    }

    ghost predicate Flawless() {
      forall i: nat :: fates(i).Done?
    }

    /** The state file, created on the first start, and refused when it is another server's or malformed. */
    method LoadState(owner: string) returns (outcome: Outcome, r: Record)
      modifies this`given, this`file
      ensures outcome == Fine ==> file == Some(r)
      ensures old(file).Some? ==> file == old(file) && (outcome == Fine <==> Trusted(target, old(file).value))
      ensures old(file).None? ==>
                file == if Happened(fates(|old(given)|)) then Some(Record(target, owner, [], None, 0)) else None
      ensures old(file).None? && Flawless() ==> outcome == Fine
      ensures Did(old(given), if old(file).None? then [WriteState] else [], outcome)
      ensures outcome == TargetChanged <==>
                old(file).Some? && (old(file).value.target != target || !ValidOwner(old(file).value.owner))
      ensures outcome == InvalidHistory ==> old(file).Some?
    {
      if file.Some? {
        r := file.value;
        if r.target != target || !ValidOwner(r.owner) {
          return TargetChanged, r;
        }
        return if AllValid(r.snapshots) then Fine else InvalidHistory, r;
      }
      r := Record(target, owner, [], None, 0);
      var fate := Give(WriteState);
      if Happened(fate) {
        file := Some(r);
      }
      return AfterFault(fate), r;
    }

    /** One round of retention: the guards, the DROP, and the shorter list written to the file. */
    method RetireOldest(r: Record, ghost w: World) returns (outcome: Outcome)
      requires file == Some(r) && |r.snapshots| > keep >= 1 && Leads(Next, w, View(Busy))
      modifies this`given, this`file, this`dbs
      ensures Leads(Next, w, View(if outcome == Fine then Busy else Idle))
      ensures outcome == Fine ==> file == Some(Shortened(r)) && dbs == old(dbs) - {r.snapshots[0]}
      ensures file == old(file) || file == Some(Shortened(r))
      ensures dbs == old(dbs) || dbs == old(dbs) - {r.snapshots[0]}
      ensures Retirable(admin, r, old(dbs)) && Flawless() ==> outcome == Fine
      ensures !Retirable(admin, r, old(dbs)) ==> outcome != Fine && file == old(file) && dbs == old(dbs)
      ensures Did(old(given), RetirePlan(r.snapshots[0]), outcome)
    {
      OneMoreStep(Next, w, View(Busy), Stop, View(Idle));
      var oldest := r.snapshots[0];
      if oldest == admin || Some(oldest) == r.latest {
        return Refused;
      }
      ghost var start := given;
      var fate := Give(ReadComment(oldest));
      if !fate.Done? {
        return AfterFault(fate);
      }
      if Comment(dbs, oldest) != Marker(r.owner) {
        return MarkerChanged;
      }
      ghost var asked := given;
      outcome := DropOldest(r, w);
      DoneThen(fates, start, asked, given, [ReadComment(oldest)], [DropDatabase(oldest), WriteState], oldest, outcome);
    }

    /** The shorter list, written after the database is gone. */
    method ForgetDropped(r: Record, ghost w: World) returns (outcome: Outcome)
      requires file == Some(r) && r.snapshots != [] && Leads(Next, w, View(Retiring(r.snapshots[0])))
      modifies this`given, this`file
      ensures Leads(Next, w, View(if outcome == Fine then Busy else Idle))
      ensures file == if Happened(fates(|old(given)|)) then Some(Shortened(r)) else old(file)
      ensures Flawless() ==> outcome == Fine
      ensures Did(old(given), [WriteState], outcome)
    {
      ghost var before := View(Retiring(r.snapshots[0]));
      OneMoreStep(Next, w, before, Stop, View(Idle));
      var fate := Give(WriteState);
      if Happened(fate) {
        file := Some(Shortened(r));
        OneMoreStep(Next, w, before, ForgetOldest, View(Busy));
        OneMoreStep(Next, w, View(Busy), Stop, View(Idle));
      }
      return AfterFault(fate);
    }

    /** The DROP of the oldest recorded database. */
    method DropRecorded(r: Record, ghost w: World) returns (fate: Fate)
      requires file == Some(r) && |r.snapshots| > keep >= 1 && Leads(Next, w, View(Busy)) && Retirable(admin, r, dbs)
      modifies this`given, this`dbs
      ensures given == old(given) + [DropDatabase(r.snapshots[0])] && fate == fates(|old(given)|)
      ensures dbs == if Happened(fate) then old(dbs) - {r.snapshots[0]} else old(dbs)
      ensures Leads(Next, w, View(if fate.Done? then Retiring(r.snapshots[0]) else Idle))
    {
      ghost var before := View(Busy);
      OneMoreStep(Next, w, before, Stop, View(Idle));
      fate := Give(DropDatabase(r.snapshots[0]));
      if Happened(fate) {
        dbs := dbs - {r.snapshots[0]};
        OneMoreStep(Next, w, before, Step.DropOldest, View(Retiring(r.snapshots[0])));
        OneMoreStep(Next, w, View(Retiring(r.snapshots[0])), Stop, View(Idle));
      }
    }

    method DropOldest(r: Record, ghost w: World) returns (outcome: Outcome)
      requires file == Some(r) && |r.snapshots| > keep >= 1 && Leads(Next, w, View(Busy)) && Retirable(admin, r, dbs)
      modifies this`given, this`file, this`dbs
      ensures Leads(Next, w, View(if outcome == Fine then Busy else Idle))
      ensures outcome == Fine ==> file == Some(Shortened(r)) && dbs == old(dbs) - {r.snapshots[0]}
      ensures file == old(file) || file == Some(Shortened(r))
      ensures dbs == old(dbs) || dbs == old(dbs) - {r.snapshots[0]}
      ensures Flawless() ==> outcome == Fine
      ensures Did(old(given), [DropDatabase(r.snapshots[0]), WriteState], outcome)
    {
      var fate := DropRecorded(r, w);
      if !fate.Done? {
        return AfterFault(fate);
      }
      outcome := ForgetDropped(r, w);
    }

    /** Retention: the oldest recorded snapshots go, one round at a time, until no more than `keep` are left. */
    method Prune(r: Record, ghost w: World) returns (outcome: Outcome, left: Record)
      requires file == Some(r) && keep >= 1 && Inv(w) && Leads(Next, w, View(Busy))
      modifies this`given, this`file, this`dbs
      ensures Leads(Next, w, View(if outcome == Fine then Busy else Idle))
      ensures outcome == Fine ==> left == Trimmed(r, keep) && file == Some(left)
      ensures outcome == Fine ==> dbs == if |r.snapshots| > keep then old(dbs) - {r.snapshots[0]} else old(dbs)
      ensures file == Some(r) || file == Some(Trimmed(r, keep))
      ensures forall name :: name !in r.snapshots ==> Same(old(dbs), dbs, name)
      ensures Jammed(r, old(dbs), keep) ==> outcome != Fine && file == old(file) && dbs == old(dbs)
      ensures Flawless() && !Jammed(r, old(dbs), keep) ==> outcome == Fine
      ensures Did(old(given), RetentionPlan(r.snapshots, keep), outcome)
    {
      ghost var start, plan := given, RetentionPlan(r.snapshots, keep);
      left := r;
      while |left.snapshots| > keep
        invariant file == Some(left) && Leads(Next, w, View(Busy))
        invariant if left == r then given == start else Did(start, plan, Fine)
        invariant left == r || (left == Trimmed(r, keep) && |r.snapshots| > keep)
        invariant dbs == if left == r then old(dbs) else old(dbs) - {r.snapshots[0]}
        invariant forall name :: name !in r.snapshots ==> Same(old(dbs), dbs, name)
        invariant Jammed(r, old(dbs), keep) ==> left == r
        decreases |left.snapshots|
      {
        OneTooMany(w, View(Busy));
        OneRound(left.snapshots, keep);
        outcome := RetireOldest(left, w);
        if outcome != Fine {
          return;
        }
        left := Shortened(left);
      }
      return Fine, left;
    }

    /** A command on the new database that leaves this comment and this state of the dump, if it happens. */
    method Change(command: Command, name: Name, db: Db, ghost step: Step, ghost w: World) returns (fate: Fate)
      requires name in dbs && Leads(Next, w, View(Building(name)))
      requires Next(View(Building(name)), step, World(keep, admin, file, dbs[name := db], Building(name)))
      modifies this`given, this`dbs
      ensures given == old(given) + [command] && fate == fates(|old(given)|)
      ensures dbs == if Happened(fate) then old(dbs)[name := db] else old(dbs)
      ensures Leads(Next, w, View(Building(name)))
    {
      ghost var before := View(Building(name));
      fate := Give(command);
      if Happened(fate) {
        dbs := dbs[name := db];
        OneMoreStep(Next, w, before, step, View(Building(name)));
      }
    }

    /** Counting the tables and ANALYZE, which only have to succeed. */
    method Inspect(name: Name) returns (outcome: Outcome)
      modifies this`given
      ensures Did(old(given), [CountTables(name), AnalyzeTables(name)], outcome)
      ensures Flawless() ==> outcome == Fine
    {
      var fate := Give(CountTables(name));
      if !fate.Done? {
        return AfterFault(fate);
      }
      fate := Give(AnalyzeTables(name));
      return AfterFault(fate);
    }

    /** COMMENT and restore. */
    method MarkAndRestore(r: Record, name: Name, ghost w: World) returns (outcome: Outcome)
      requires file == Some(r) && name in dbs && dbs[name] == Db("", false) && Leads(Next, w, View(Building(name)))
      modifies this`given, this`dbs
      ensures Leads(Next, w, View(Building(name)))
      ensures name in dbs && dbs == old(dbs)[name := dbs[name]]
      ensures outcome == Fine ==> Usable(r, dbs, name)
      ensures Flawless() ==> outcome == Fine
      ensures Did(old(given), [CommentOn(name), RestoreInto(name)], outcome)
    {
      var fate := Change(CommentOn(name), name, Db(Marker(r.owner), false), Annotate, w);
      if !fate.Done? {
        return AfterFault(fate);
      }
      fate := Change(RestoreInto(name), name, Db(Marker(r.owner), true), Restore, w);
      return AfterFault(fate);
    }

    /** COMMENT, restore, count and ANALYZE on the database that has just been created. */
    method Fill(r: Record, name: Name, ghost w: World) returns (outcome: Outcome)
      requires file == Some(r) && name in dbs && dbs[name] == Db("", false) && Leads(Next, w, View(Building(name)))
      modifies this`given, this`dbs
      ensures Leads(Next, w, View(Building(name)))
      ensures name in dbs && dbs == old(dbs)[name := dbs[name]]
      ensures outcome == Fine ==> Usable(r, dbs, name)
      ensures Flawless() ==> outcome == Fine
      ensures Did(old(given), FillPlan(name), outcome)
    {
      ghost var start, inspect := given, [CountTables(name), AnalyzeTables(name)];
      outcome := MarkAndRestore(r, name, w);
      ghost var middle := given;
      if outcome == Fine {
        outcome := Inspect(name);
        DoneThen(fates, start, middle, given, [CommentOn(name), RestoreInto(name)], inspect, name, outcome);
      } else {
        NotDone(given[|start|..], [CommentOn(name), RestoreInto(name)], inspect, name, outcome);
      }
    }

    /**
     The end of an attempt whose database exists: it is recorded if complete, else dropped unless the worker is dead.
     */
    method Finish(r: Record, name: Name, time: int, filled: Outcome, ghost w: World) returns (outcome: Outcome)
      requires file == Some(r) && name in dbs && Leads(Next, w, View(Building(name)))
                 && (filled == Fine ==> Usable(r, dbs, name))
      modifies this`given, this`file, this`dbs
      ensures Leads(Next, w, View(if outcome == Fine then Busy else Idle))
      ensures outcome == Fine ==> file == Some(Recorded(r, name, time)) && dbs == old(dbs)
      ensures file == Some(if filled == Fine && Happened(fates(|old(given)|)) then Recorded(r, name, time) else r)
      ensures dbs == if filled in {Fine, Dead} || !Happened(fates(|old(given)|)) then old(dbs) else old(dbs) - {name}
      ensures filled != Fine ==> outcome != Fine
      ensures filled == Fine && Flawless() ==> outcome == Fine
      ensures given == old(given) + LastCommand(filled, name)
      ensures filled != Dead ==> Lived(fates, |old(given)|, |given|, if filled == Fine || outcome == Dead then outcome
                                         else CommandFailed)
      ensures filled == Dead ==> outcome == Dead
      ensures Cleaned(old(given), name)
    {
      ghost var before := View(Building(name));
      OneMoreStep(Next, w, before, Stop, View(Idle));
      if filled == Dead {
        return Dead;
      }
      var fate := Give(if filled == Fine then WriteState else DropDatabase(name));
      if Happened(fate) {
        if filled == Fine {
          file := Some(Recorded(r, name, time));
          OneMoreStep(Next, w, before, Complete(time), View(Busy));
        } else {
          dbs := dbs - {name};
          OneMoreStep(Next, w, before, DropOwn, View(Busy));
        }
        OneMoreStep(Next, w, View(Busy), Stop, View(Idle));
      }
      return if fate.Killed? then Dead else if filled == Fine then AfterFault(fate) else filled;
    }

    /** CREATE DATABASE, which the server refuses for a name it has. */
    method Create(name: Name, ghost w: World) returns (outcome: Outcome)
      requires file.Some? && |file.value.snapshots| <= keep && name !in file.value.snapshots
                 && Leads(Next, w, View(Busy))
      modifies this`given, this`dbs
      ensures Leads(Next, w, View(if outcome == Fine then Building(name) else Idle))
      ensures name in old(dbs) ==> outcome != Fine
      ensures dbs == if name !in old(dbs) && Happened(fates(|old(given)|)) then old(dbs)[name := Db("", false)]
                     else old(dbs)
      ensures outcome == Fine ==> name in dbs && dbs[name] == Db("", false)
      ensures Flawless() && name !in old(dbs) ==> outcome == Fine
      ensures given == old(given) + [CreateDatabase(name)] && Lived(fates, |old(given)|, |given|, outcome)
    {
      ghost var before := View(Busy);
      OneMoreStep(Next, w, before, Stop, View(Idle));
      var fate := Give(CreateDatabase(name));
      if name in dbs {
        return if fate.Killed? then Dead else CommandFailed;
      }
      if Happened(fate) {
        dbs := dbs[name := Db("", false)];
        OneMoreStep(Next, w, before, CreateDb(name), View(Building(name)));
        OneMoreStep(Next, w, View(Building(name)), Stop, View(Idle));
      }
      return AfterFault(fate);
    }

    /** pg_dump, and a look at what it has written. */
    method Dump() returns (outcome: Outcome)
      modifies this`given
      ensures Did(old(given), [DumpPrimary, ListDump], outcome)
      ensures Flawless() ==> outcome == Fine
      ensures |old(given)| < |given|
    {
      var fate := Give(DumpPrimary);
      if !fate.Done? {
        return AfterFault(fate);
      }
      fate := Give(ListDump);
      return AfterFault(fate);
    }

    /** Filling the database and what comes of it. */
    method Furnish(r: Record, name: Name, time: int, ghost w: World) returns (outcome: Outcome)
      requires file == Some(r) && name in dbs && dbs[name] == Db("", false) && Leads(Next, w, View(Building(name)))
      modifies this`given, this`file, this`dbs
      ensures Leads(Next, w, View(if outcome == Fine then Busy else Idle))
      ensures outcome == Fine ==> file == Some(Recorded(r, name, time)) && Usable(r, dbs, name)
      ensures file == Some(r) || file == Some(Recorded(r, name, time))
      ensures dbs == old(dbs) - {name} || (name in dbs && dbs == old(dbs)[name := dbs[name]])
      ensures Flawless() ==> outcome == Fine
      ensures old(given) <= given && Lived(fates, |old(given)|, |given|, outcome)
      ensures FollowsOrDrops(given[|old(given)|..], FillPlan(name) + [WriteState], name, outcome)
      ensures Cleaned(old(given), name)
    {
      ghost var start := given;
      var filled := Fill(r, name, w);
      ghost var middle := given;
      outcome := Finish(r, name, time, filled, w);
      Furnished(fates, start, middle, given, name, filled, outcome);
    }

    /** A database under the new name, filled from the dump and recorded. */
    method Make(r: Record, name: Name, time: int, ghost w: World) returns (outcome: Outcome)
      requires file == Some(r) && |r.snapshots| <= keep && name !in r.snapshots && Leads(Next, w, View(Busy))
      modifies this`given, this`file, this`dbs
      ensures Leads(Next, w, View(if outcome == Fine then Busy else Idle))
      ensures outcome == Fine ==> name !in old(dbs) && file == Some(Recorded(r, name, time)) && Usable(r, dbs, name)
      ensures file == Some(r) || file == Some(Recorded(r, name, time))
      ensures Untouched([], name, old(dbs), dbs)
      ensures Flawless() && name !in old(dbs) ==> outcome == Fine
      ensures DidOrCleaned(old(given), [CreateDatabase(name)] + (FillPlan(name) + [WriteState]), name, outcome)
      ensures Cleaned(old(given), name)
    {
      ghost var start := given;
      outcome := Create(name, w);
      if outcome == Fine {
        outcome := Furnish(r, name, time, w);
        CreatedAndFurnished(fates, start, given, name, outcome);
      }
    }

    /** One new snapshot: dump the primary database, create a database, fill it and record it. */
    method Build(r: Record, name: Name, time: int, ghost w: World) returns (outcome: Outcome)
      requires file == Some(r) && |r.snapshots| <= keep && name !in r.snapshots && Leads(Next, w, View(Busy))
      modifies this`given, this`file, this`dbs
      ensures Leads(Next, w, View(if outcome == Fine then Busy else Idle))
      ensures outcome == Fine ==> name !in old(dbs) && file == Some(Recorded(r, name, time)) && Usable(r, dbs, name)
      ensures file == Some(r) || file == Some(Recorded(r, name, time))
      ensures Untouched([], name, old(dbs), dbs)
      ensures Flawless() && name !in old(dbs) ==> outcome == Fine
      ensures DidOrCleaned(old(given), SnapshotPlan(name), name, outcome)
      ensures |old(given)| < |given| && Cleaned(old(given), name)
    {
      OneMoreStep(Next, w, View(Busy), Stop, View(Idle));
      ghost var plan := [CreateDatabase(name)] + (FillPlan(name) + [WriteState]);
      outcome := Dump();
      ghost var dumped := given;
      if outcome != Fine {
        NotDone(given[|old(given)|..], [DumpPrimary, ListDump], plan, name, outcome);
        return;
      }
      outcome := Make(r, name, time, w);
      DoneThen(fates, old(given), dumped, given, [DumpPrimary, ListDump], plan, name, outcome);
    }

    /** A new snapshot, and retention after it. */
    method BuildAndTrim(r: Record, name: Name, time: int, ghost w: World) returns (outcome: Outcome)
      requires file == Some(r) && 1 <= keep && |r.snapshots| <= keep && name !in r.snapshots
      requires Inv(w) && Leads(Next, w, View(Busy))
      modifies this`given, this`file, this`dbs
      ensures Leads(Next, w, View(Idle))
      ensures outcome == Fine ==> file == Some(Trimmed(Recorded(r, name, time), keep)) && Usable(r, dbs, name)
      ensures file in {Some(r), Some(Recorded(r, name, time)), Some(Trimmed(Recorded(r, name, time), keep))}
      ensures Untouched(r.snapshots, name, old(dbs), dbs)
      ensures Flawless() && name !in old(dbs) ==> outcome == Fine
      ensures DidOrCleaned(old(given), SnapshotPlan(name) + RetentionPlan(r.snapshots + [name], keep), name, outcome)
      ensures |old(given)| < |given| && Cleaned(old(given), name)
    {
      ghost var before, start := View(Busy), given;
      outcome := Build(r, name, time, w);
      if outcome != Fine {
        NotDone(given[|start|..], SnapshotPlan(name), RetentionPlan(r.snapshots + [name], keep), name, outcome);
        return;
      }
      ghost var middle := given;
      NothingToJam(w, before, r, name, time, dbs);
      ghost var built := dbs;
      var left;
      outcome, left := Prune(Recorded(r, name, time), w);
      BuiltAndTrimmed(fates, start, middle, given, r.snapshots + [name], keep, name, outcome);
      UntouchedThenPruned(r.snapshots, name, old(dbs), built, dbs);
      if outcome == Fine {
        OneMoreStep(Next, w, View(Busy), Stop, View(Idle));
      }
    }

    method Attempt(r: Record, name: Name, time: int, ghost w: World) returns (outcome: Outcome)
      requires file == Some(r) && 1 <= keep && name !in r.snapshots && Inv(w) && Leads(Next, w, View(Busy))
      modifies this`given, this`file, this`dbs
      ensures Leads(Next, w, View(Idle))
      ensures outcome == Fine ==> file == Some(Trimmed(Recorded(r, name, time), keep)) && Usable(r, dbs, name)
      ensures file.Some? && LeftBy(r, name, time, keep, file.value)
      ensures Untouched(r.snapshots, name, old(dbs), dbs)
      ensures Jammed(r, old(dbs), keep) ==> outcome != Fine && file == old(file) && dbs == old(dbs)
      ensures Flawless() && name !in old(dbs) ==> (outcome == Fine <==> !Jammed(r, old(dbs), keep))
      ensures DidOrCleaned(old(given), AttemptPlan(false, r.snapshots, name, keep), name, outcome)
      ensures Cleaned(old(given), name)
    {
      ghost var entry := View(Busy);
      ghost var start, snapshots := given, SnapshotPlan(name) + RetentionPlan(Newest(r.snapshots, keep) + [name], keep);
      var left;
      outcome, left := Prune(r, w);
      ghost var kept, middle := dbs, given;
      AttemptInTwo(r.snapshots, name, keep);
      assert Same(old(dbs), kept, name);
      if outcome == Fine {
        outcome := BuildAndTrim(left, name, time, w);
        DoneThen(fates, start, middle, given, RetentionPlan(r.snapshots, keep), snapshots, name, outcome);
        UntouchedTwice(r.snapshots, left.snapshots, name, old(dbs), kept, dbs);
        TrimTwice(r, name, time, keep);
      } else {
        AtMostOneDue(w, entry, r);
        NoDropOf(start, middle, r.snapshots, keep, name);
        NotDone(given[|start|..], RetentionPlan(r.snapshots, keep), snapshots, name, outcome);
      }
    }

    /** The start of an attempt, as steps of the history. */
    method Open(owner: string) returns (outcome: Outcome, r: Record)
      requires ValidOwner(owner)
      modifies this`given, this`file
      ensures old(file).Some? ==> file == old(file)
      ensures outcome == Fine ==> file == Some(r) && r == old(History(owner))
      ensures file == old(file) || (old(file).None? && file == Some(Record(target, owner, [], None, 0)))
      ensures outcome == Fine ==> Trusted(target, r)
      ensures Flawless() && (old(file).None? || Trusted(target, old(file).value)) ==> outcome == Fine
      ensures Leads(Next, old(View(Idle)), View(if outcome == Fine then Busy else Idle))
      ensures Did(old(given), if old(file).None? then [WriteState] else [], outcome)
    {
      ghost var w := View(Idle);
      LeadsNowhere(Next, w);
      outcome, r := LoadState(owner);
      if w.file != file {
        OneMoreStep(Next, w, w, Found(target, owner), View(Idle));
      }
      if outcome == Fine {
        OneMoreStep(Next, w, View(Idle), Step.Start, View(Busy));
      }
    }

    method OpenAndAttempt(owner: string, name: Name, time: int) returns (outcome: Outcome)
      requires 1 <= keep <= 30 && (Acceptable(owner) ==> Inv(View(Idle)))
      requires ValidOwner(owner) && ValidName(name) && name !in History(owner).snapshots
      modifies this`given, this`file, this`dbs
      ensures Leads(Next, old(View(Idle)), View(Idle))
      ensures old(Acceptable(owner)) ==> Acceptable(owner) && Inv(View(Idle))
      ensures !old(Acceptable(owner)) ==> outcome != Fine && file == old(file) && dbs == old(dbs)
      ensures outcome == Fine ==> file == Some(Trimmed(Recorded(old(History(owner)), name, time), keep))
      ensures outcome == Fine ==> Usable(old(History(owner)), dbs, name)
      ensures Untouched(old(History(owner)).snapshots, name, old(dbs), dbs)
      ensures Jammed(old(History(owner)), old(dbs), keep) ==> outcome != Fine && file == old(file) && dbs == old(dbs)
      ensures Flawless() && name !in old(dbs) ==>
                (outcome == Fine <==> old(Acceptable(owner)) && !Jammed(old(History(owner)), old(dbs), keep))
      ensures DidOrCleaned(old(given), AttemptPlan(old(file).None?, old(History(owner)).snapshots, name, keep), name,
                           outcome)
      ensures Cleaned(old(given), name)
    {
      ghost var w, start, rest := View(Idle), given, AttemptPlan(false, History(owner).snapshots, name, keep);
      ghost var first := if file.None? then [WriteState] else [];
      AttemptInTwo(History(owner).snapshots, name, keep);
      var r;
      outcome, r := Open(owner);
      if outcome != Fine {
        NotDone(given[|start|..], first, rest, name, outcome);
        if file.None? || Trusted(target, file.value) {
          LeadsKeepsInv(w, View(Idle));
        }
        return;
      }
      ghost var middle := given;
      outcome := Attempt(r, name, time, w);
      DoneThen(fates, start, middle, given, first, rest, name, outcome);
      StillTrusted(target, r, name, time, keep, file.value);
      LeadsKeepsInv(w, View(Idle));
    }

    /**
     One attempt at a snapshot, under a name not recorded before. Whatever its commands come to, it takes only the
     history's steps; it leaves alone every database that it neither recorded nor created.
     */
    method BackupOnce(owner: string, name: Name, time: int) returns (outcome: Outcome)
      requires Acceptable(owner) ==> Inv(View(Idle))
      requires ValidOwner(owner) && ValidName(name) && name !in History(owner).snapshots
      modifies this`given, this`file, this`dbs
      ensures Leads(Next, old(View(Idle)), View(Idle))
      ensures old(Acceptable(owner)) ==> Acceptable(owner) && Inv(View(Idle))
      ensures !old(Acceptable(owner)) ==> outcome != Fine && file == old(file) && dbs == old(dbs)
      ensures outcome == Fine ==> var r := old(History(owner));
                && file == Some(Record(target, r.owner, Newest(r.snapshots + [name], keep), Some(name), time))
                && Usable(r, dbs, name)
      ensures Untouched(old(History(owner)).snapshots, name, old(dbs), dbs)
      ensures Jammed(old(History(owner)), old(dbs), keep) ==> outcome != Fine && file == old(file) && dbs == old(dbs)
      ensures Flawless() && name !in old(dbs) ==>
                (outcome == Fine <==> old(Acceptable(owner)) && !Jammed(old(History(owner)), old(dbs), keep))
      ensures keep < 1 || 30 < keep ==> outcome == KeepOutOfRange && given == old(given)
      ensures 1 <= keep <= 30 ==>
                DidOrCleaned(old(given), AttemptPlan(old(file).None?, old(History(owner)).snapshots, name, keep), name,
                             outcome)
      ensures Cleaned(old(given), name)
    {
      LeadsNowhere(Next, View(Idle));
      if !(1 <= keep <= 30) {
        return KeepOutOfRange;
      }
      outcome := OpenAndAttempt(owner, name, time);
    }

    /** What an attempt starts from: the state file, or a new history. */
    function History(owner: string): Record
      reads this
    {
      if file.Some? then file.value else Record(target, owner, [], None, 0)
    }

    /** The settings and the state file let an attempt go ahead. */
    predicate Acceptable(owner: string)
      reads this
    {
      1 <= keep <= 30 && Trusted(target, History(owner))
    }
  }

  /** Every record that an attempt can leave behind is trusted as the one before. */
  lemma StillTrusted(target: string, r: Record, name: Name, time: int, keep: int, after: Record)
    requires Trusted(target, r) && ValidName(name)
    requires LeftBy(r, name, time, keep, after)
    ensures Trusted(target, after)
  {
    TrustedShrinks(target, r, keep);
    TrustedGrows(target, Trimmed(r, keep), name, time);
    TrustedShrinks(target, Recorded(Trimmed(r, keep), name, time), keep);
  }

  /** What the file may hold after an attempt, wherever it ended. */
  predicate LeftBy(r: Record, name: Name, time: int, keep: int, after: Record) {
    var trimmed := Trimmed(r, keep);
    || after == r || after == trimmed
    || after == Recorded(trimmed, name, time) || after == Trimmed(Recorded(trimmed, name, time), keep)
  }

  /** Databases other than these are as they were. */
  ghost predicate Untouched(recorded: seq<Name>, made: Name, dbs: map<Name, Db>, dbs': map<Name, Db>) {
    forall other :: other !in recorded && (other != made || made in dbs) ==> Same(dbs, dbs', other)
  }

  lemma UntouchedThenPruned(recorded: seq<Name>, made: Name, a: map<Name, Db>, b: map<Name, Db>, c: map<Name, Db>)
    requires Untouched([], made, a, b) && made !in a
    requires forall other :: other !in recorded + [made] ==> Same(b, c, other)
    ensures Untouched(recorded, made, a, c)
  {
    forall other | other !in recorded && other != made
      ensures Same(a, c, other)
    {
      assert Same(a, b, other) && Same(b, c, other);
    }
  }

  lemma UntouchedTwice(recorded: seq<Name>, fewer: seq<Name>, made: Name, a: map<Name, Db>, b: map<Name, Db>,
      c: map<Name, Db>)
    requires Untouched(recorded, made, a, b) && Untouched(fewer, made, b, c) && made !in recorded
    requires (forall other :: other in fewer ==> other in recorded) && (made in a ==> made in b)
    ensures Untouched(recorded, made, a, c)
  {
    forall other | other !in recorded && (other != made || made in a)
      ensures Same(a, c, other)
    {
      assert Same(a, b, other) && Same(b, c, other);
    }
  }

  lemma TrimTwice(r: Record, name: Name, time: int, keep: int)
    requires keep >= 1
    ensures Trimmed(Recorded(Trimmed(r, keep), name, time), keep) == Trimmed(Recorded(r, name, time), keep)
  {
    var once := Newest(r.snapshots, keep);
    assert Newest(once + [name], keep) == Newest(r.snapshots + [name], keep);
  }

  lemma NothingToJam(w: World, before: World, r: Record, name: Name, time: int, dbs: map<Name, Db>)
    requires Inv(w) && Leads(Next, w, before) && before.file == Some(r) && |r.snapshots| <= before.keep
               && before.keep >= 1
    requires name !in r.snapshots && Untouched([], name, before.dbs, dbs)
    ensures !Jammed(Recorded(r, name, time), dbs, before.keep)
  {
    LeadsKeepsInv(w, before);
    if r.snapshots != [] {
      assert Same(before.dbs, dbs, r.snapshots[0]);
    }
  }

  /** The record without its oldest snapshot. */
  function Shortened(r: Record): Record
    requires r.snapshots != []
  {
    r.(snapshots := r.snapshots[1..])
  }

  predicate Same(dbs: map<Name, Db>, dbs': map<Name, Db>, name: Name) {
    (name in dbs <==> name in dbs') && (name in dbs ==> dbs'[name] == dbs[name])
  }

  lemma AtMostOneDue(w: World, w': World, r: Record)
    requires Inv(w) && Leads(Next, w, w') && w'.file == Some(r)
    ensures |r.snapshots| <= w'.keep + 1
  {
    LeadsKeepsInv(w, w');
  }

  /** When retention has work at all, it is one snapshot, and its guards fail only if that is gone already. */
  lemma OneTooMany(w: World, w': World)
    requires Inv(w) && Leads(Next, w, w') && w'.file.Some? && |w'.file.value.snapshots| > w'.keep
    ensures w'.file.value.snapshots != [] && Shortened(w'.file.value) == Trimmed(w'.file.value, w'.keep)
    ensures Retirable(w'.admin, w'.file.value, w'.dbs) <==> !Jammed(w'.file.value, w'.dbs, w'.keep)
  {
    LeadsKeepsInv(w, w');
  }
}

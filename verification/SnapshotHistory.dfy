/**
 The Neon snapshot databases and the worker's record of them, in small steps that may end after any of them. Databases
 are named; the worker recognises its own by their comment.
 */
module SnapshotHistory {
  import opened Options
  import opened Chains

  type Name = string

  /** `restored`: the dump has been restored into the database as a whole. */
  datatype Db = Db(comment: string, restored: bool)

  /** The state file: which server it belongs to, who owns the snapshots, and the snapshots, oldest first. */
  datatype Record = Record(target: string, owner: string, snapshots: seq<Name>, latest: Option<Name>, lastSuccess: int)

  function Marker(owner: string): string {
    "hquizlet-neon-backup:v1:" + owner
  }

  /** What a query for the comment answers: nothing for a database without one, or for none at all. */
  function Comment(dbs: map<Name, Db>, name: Name): string {
    if name in dbs then dbs[name].comment else ""
  }

  /** Where the worker stands, in its memory only: it forgets this when it stops. */
  datatype Job = Idle | Busy | Building(name: Name) | Retiring(name: Name)

  /** The number of snapshots to keep, the database the worker connects to, the state file, the server, the worker. */
  datatype World = World(keep: int, admin: Name, file: Option<Record>, dbs: map<Name, Db>, job: Job)

  datatype Step =
    | Found(target: string, owner: string)
    | Start
    | CreateDb(name: Name)
    | Annotate
    | Restore
    | Complete(time: int)
    | DropOwn
    | DropOldest
    | ForgetOldest
    | Stop
    | Elsewhere(dbs: map<Name, Db>)

  /** The record after a snapshot has been completed. */
  function Recorded(r: Record, name: Name, time: int): Record {
    r.(snapshots := r.snapshots + [name], latest := Some(name), lastSuccess := time)
  }

  ghost predicate Next(w: World, s: Step, w': World) {
    match s
    case Found(target, owner) =>
      w.file == None && w' == w.(file := Some(Record(target, owner, [], None, 0)))
    case Start =>
      w.file.Some? && w' == w.(job := Busy)
    case CreateDb(name) =>
      && w.job == Busy && w.file.Some? && |w.file.value.snapshots| <= w.keep
      && name !in w.dbs && name !in w.file.value.snapshots
      && w' == w.(dbs := w.dbs[name := Db("", false)], job := Building(name))
    case Annotate =>
      && w.job.Building? && w.file.Some? && w.job.name in w.dbs
      && w' == w.(dbs := w.dbs[w.job.name := w.dbs[w.job.name].(comment := Marker(w.file.value.owner))])
    case Restore =>
      && w.job.Building? && w.job.name in w.dbs
      && w' == w.(dbs := w.dbs[w.job.name := w.dbs[w.job.name].(restored := true)])
    case Complete(time) =>
      && w.job.Building? && w.file.Some? && w.job.name in w.dbs
        && w.dbs[w.job.name] == Db(Marker(w.file.value.owner), true)
      && w' == w.(file := Some(Recorded(w.file.value, w.job.name, time)), job := Busy)
    case DropOwn =>
      w.job.Building? && w' == w.(dbs := w.dbs - {w.job.name}, job := Busy)
    case DropOldest =>
      && w.job == Busy && w.file.Some? && |w.file.value.snapshots| > w.keep && w.file.value.snapshots != []
      && Retirable(w.admin, w.file.value, w.dbs)
      && w' == w.(dbs := w.dbs - {w.file.value.snapshots[0]}, job := Retiring(w.file.value.snapshots[0]))
    case ForgetOldest =>
      && w.job.Retiring? && w.file.Some? && w.file.value.snapshots != []
      && w' == w.(file := Some(w.file.value.(snapshots := w.file.value.snapshots[1..])), job := Busy)
    case Stop =>
      w' == w.(job := Idle)
    case Elsewhere(dbs) =>
      && (forall name :: OfWorker(w, name) ==>
        (name in dbs <==> name in w.dbs) && (name in dbs ==> dbs[name] == w.dbs[name]))
      && w' == w.(dbs := dbs)
  }

  /** The guards that retention checks before it drops the oldest recorded database. */
  predicate Retirable(admin: Name, r: Record, dbs: map<Name, Db>)
    requires r.snapshots != []
  {
    && r.snapshots[0] != admin && r.latest != Some(r.snapshots[0])
    && Comment(dbs, r.snapshots[0]) == Marker(r.owner)
  }

  /**
   Databases that others leave alone: the one the worker connects to, those it has recorded, and the one it builds.
   */
  ghost predicate OfWorker(w: World, name: Name) {
    name == w.admin || (w.file.Some? && name in w.file.value.snapshots) || w.job == Building(name)
  }

  // ---------------------------------------------------------------- what always holds

  predicate Usable(r: Record, dbs: map<Name, Db>, name: Name) {
    name in dbs && dbs[name] == Db(Marker(r.owner), true)
  }

  ghost predicate Distinct(names: seq<Name>) {
    forall i, j :: 0 <= i < j < |names| ==> names[i] != names[j]
  }

  ghost predicate RecordInv(keep: int, admin: Name, r: Record, dbs: map<Name, Db>) {
    && |r.snapshots| <= keep + 1
    && Distinct(r.snapshots) && admin !in r.snapshots
    && r.latest == (if r.snapshots == [] then None else Some(r.snapshots[|r.snapshots| - 1]))
    && (forall i :: 0 <= i < |r.snapshots| && (i > 0 || |r.snapshots| <= keep) ==> Usable(r, dbs, r.snapshots[i]))
    && (r.snapshots != [] && r.snapshots[0] in dbs ==> Usable(r, dbs, r.snapshots[0]))
  }

  ghost predicate JobInv(keep: int, admin: Name, r: Record, dbs: map<Name, Db>, job: Job) {
    && (job.Building? ==> job.name in dbs && job.name != admin && job.name !in r.snapshots && |r.snapshots| <= keep)
    && (job.Retiring? ==> |r.snapshots| > keep && r.snapshots != [] && r.snapshots[0] == job.name)
  }

  ghost predicate Inv(w: World) {
    && w.keep >= 1 && w.admin in w.dbs
    && (w.file.None? ==> w.job == Idle)
    && (w.file.Some? ==>
      && RecordInv(w.keep, w.admin, w.file.value, w.dbs)
      && JobInv(w.keep, w.admin, w.file.value, w.dbs, w.job))
  }

  lemma BuildingKeepsInv(w: World, s: Step, w': World)
    requires Inv(w) && Next(w, s, w') && (s.CreateDb? || s.Annotate? || s.Restore? || s.DropOwn? || s.Elsewhere?)
    ensures Inv(w')
  {
    if w.file.Some? {
      var r := w.file.value;
      forall i | 0 <= i < |r.snapshots|
        ensures r.snapshots[i] in w'.dbs <==> r.snapshots[i] in w.dbs
        ensures r.snapshots[i] in w.dbs ==> w'.dbs[r.snapshots[i]] == w.dbs[r.snapshots[i]]
      {
        assert s.Elsewhere? ==> OfWorker(w, r.snapshots[i]);
      }
    }
    assert s.Elsewhere? ==> OfWorker(w, w.admin);
    assert s.Elsewhere? && w.job.Building? ==> OfWorker(w, w.job.name);
  }

  lemma CompleteKeepsInv(w: World, time: int, w': World)
    requires Inv(w) && Next(w, Complete(time), w')
    ensures Inv(w')
  {
  }

  lemma RetiringKeepsInv(w: World, s: Step, w': World)
    requires Inv(w) && Next(w, s, w') && (s.DropOldest? || s.ForgetOldest?)
    ensures Inv(w')
  {
    var r := w.file.value;
    forall i | 0 < i < |r.snapshots|
      ensures Usable(r, w'.dbs, r.snapshots[i])
    {
    }
  }

  lemma NextKeepsInv(w: World, s: Step, w': World)
    requires Inv(w) && Next(w, s, w')
    ensures Inv(w')
  {
    match s
    case Complete(time) => CompleteKeepsInv(w, time, w');
    case DropOldest => RetiringKeepsInv(w, s, w');
    case ForgetOldest => RetiringKeepsInv(w, s, w');
    case Found(_, _) =>
    case Start =>
    case Stop =>
    case CreateDb(_) => BuildingKeepsInv(w, s, w');
    case Annotate => BuildingKeepsInv(w, s, w');
    case Restore => BuildingKeepsInv(w, s, w');
    case DropOwn => BuildingKeepsInv(w, s, w');
    case Elsewhere(_) => BuildingKeepsInv(w, s, w');
  }

  lemma LeadsKeepsInv(w: World, w': World)
    requires Inv(w) && Leads(Next, w, w')
    ensures Inv(w')
  {
    forall a, s, b | Inv(a) && Next(a, s, b)
      ensures Inv(b)
    {
      NextKeepsInv(a, s, b);
    }
    LeadsKeeps(Next, Inv, w, w');
  }

  // ---------------------------------------------------------------- every run

  /** Runs begin before the worker's first start, on a server that has the database it connects to. */
  ghost predicate Run(worlds: seq<World>, steps: seq<Step>) {
    && Chain(Next, worlds, steps)
    && worlds[0].keep >= 1 && worlds[0].file == None && worlds[0].job == Idle && worlds[0].admin in worlds[0].dbs
  }

  lemma RunKeepsInv(worlds: seq<World>, steps: seq<Step>, n: nat)
    requires Run(worlds, steps) && n < |worlds|
    ensures Inv(worlds[n])
  {
    forall w, s, w' | Inv(w) && Next(w, s, w')
      ensures Inv(w')
    {
      NextKeepsInv(w, s, w');
    }
    ChainKeeps(Next, Inv, worlds, steps, n);
  }

  /** The step is a DROP DATABASE of the worker that removes this database. */
  ghost predicate Drops(w: World, s: Step, w': World, name: Name) {
    Next(w, s, w') && !s.Elsewhere? && name in w.dbs && name !in w'.dbs
  }

  /**
   Every database that the worker drops is the one it is building, which is not recorded, or the oldest recorded one,
   which carries the worker's marker and is not the latest. The database it connects to is never dropped.
   */
  lemma EveryDropIsOurs(worlds: seq<World>, steps: seq<Step>, n: nat, name: Name)
    requires Run(worlds, steps) && n < |steps| && Drops(worlds[n], steps[n], worlds[n + 1], name)
    ensures name != worlds[n].admin && worlds[n].file.Some? && worlds[n].file.value.latest != Some(name)
    ensures var r := worlds[n].file.value;
            || (worlds[n].job == Building(name) && name !in r.snapshots)
            || (|r.snapshots| > worlds[n].keep && r.snapshots[0] == name
              && worlds[n].dbs[name].comment == Marker(r.owner))
  {
    RunKeepsInv(worlds, steps, n);
  }

  /**
   Whatever the state file says, retention drops neither the database it connects to nor the latest snapshot, nor one
   without the worker's mark.
   */
  lemma GuardedAnyway(w: World, w': World, name: Name)
    requires Next(w, DropOldest, w') && name in w.dbs && name !in w'.dbs
    ensures name != w.admin && w.file.Some? && w.file.value.latest != Some(name)
    ensures w.dbs[name].comment == "hquizlet-neon-backup:v1:" + w.file.value.owner
  {
  }

  /** The newest `keep` of the recorded snapshots, or all of them when there are fewer. */
  function Newest<T>(items: seq<T>, keep: int): (r: seq<T>)
    ensures |items| <= keep ==> r == items
    ensures 0 <= keep <= |items| ==> |r| == keep
  {
    if 0 <= keep < |items| then items[|items| - keep..] else items
  }

  /**
   Wherever the worker was interrupted, at most keep + 1 snapshots are recorded, and of these the newest min(keep, n)
   are there with the whole dump, the latest one being last.
   */
  lemma NewestSnapshotsAreUsable(worlds: seq<World>, steps: seq<Step>, n: nat)
    requires Run(worlds, steps) && n < |worlds| && worlds[n].file.Some?
    ensures var r := worlds[n].file.value;
            && |r.snapshots| <= worlds[n].keep + 1
            && (forall name :: name in Newest(r.snapshots, worlds[n].keep) ==> Usable(r, worlds[n].dbs, name))
            && (r.snapshots != [] ==>
              && r.latest == Some(r.snapshots[|r.snapshots| - 1])
              && Usable(r, worlds[n].dbs, r.latest.value))
  {
    RunKeepsInv(worlds, steps, n);
  }

  // ---------------------------------------------------------------- interrupted retention

  /** The oldest recorded database is due for removal but no longer there. */
  predicate Jammed(r: Record, dbs: map<Name, Db>, keep: int) {
    |r.snapshots| > keep && r.snapshots != [] && r.snapshots[0] !in dbs
  }

  /** The worker has stopped, and finds retention jammed when it starts again. */
  ghost predicate StoppedJammed(w: World) {
    Inv(w) && w.file.Some? && Jammed(w.file.value, w.dbs, w.keep) && !w.job.Building? && !w.job.Retiring?
  }

  lemma JamPersists(w: World, s: Step, w': World)
    requires StoppedJammed(w) && Next(w, s, w')
    ensures StoppedJammed(w') && w'.file == w.file && (s.Elsewhere? || w'.dbs == w.dbs)
  {
    NextKeepsInv(w, s, w');
    if s.Elsewhere? {
      assert OfWorker(w, w.file.value.snapshots[0]);
    }
  }

  /** A worker that stops between a DROP of its retention and the following write is jammed when it starts again. */
  lemma InterruptedRetentionJams(w: World, dropped: World, stopped: World)
    requires Inv(w) && Next(w, DropOldest, dropped) && Next(dropped, Stop, stopped)
    ensures StoppedJammed(stopped)
  {
    NextKeepsInv(w, DropOldest, dropped);
    NextKeepsInv(dropped, Stop, stopped);
  }

  /** From then on the record never changes again, whatever the worker tries: no snapshot is ever added. */
  lemma {:induction false} JammedForGood(worlds: seq<World>, steps: seq<Step>, n: nat)
    requires Chain(Next, worlds, steps) && StoppedJammed(worlds[0]) && n < |worlds|
    ensures StoppedJammed(worlds[n]) && worlds[n].file == worlds[0].file
  {
    if n > 0 {
      JammedForGood(worlds, steps, n - 1);
      assert Linked(Next, worlds, steps, n - 1);
      JamPersists(worlds[n - 1], steps[n - 1], worlds[n]);
    }
  }

  // ---------------------------------------------------------------- how it comes about

  /** A server with the worker's own database only, before the worker's first start. */
  function NewServer(keep: int, admin: Name): World {
    World(keep, admin, None, map[admin := Db("", false)], Idle)
  }

  /** The world after snapshots under these names have been completed, all at time 1. */
  function Completed(keep: int, admin: Name, owner: string, names: seq<Name>): World {
    var file := Record("", owner, names, if names == [] then None else Some(names[|names| - 1]), if names == [] then 0
      else 1);
    World(keep, admin, Some(file), (map name | name in names :: Db(Marker(owner), true))[admin := Db("", false)], Busy)
  }

  /** The world while the next snapshot is being built, with this much done. */
  function Underway(w: World, name: Name, db: Db): World {
    w.(dbs := w.dbs[name := db], job := Building(name))
  }

  lemma FilledSnapshot(w: World, owner: string, name: Name)
    requires w.job == Busy && w.file.Some? && w.file.value.owner == owner && |w.file.value.snapshots| <= w.keep
    requires name !in w.dbs && name !in w.file.value.snapshots
    ensures Leads(Next, w, Underway(w, name, Db(Marker(owner), true)))
  {
    LeadsNowhere(Next, w);
    OneMoreStep(Next, w, w, CreateDb(name), Underway(w, name, Db("", false)));
    OneMoreStep(Next, w, Underway(w, name, Db("", false)), Annotate, Underway(w, name, Db(Marker(owner), false)));
    OneMoreStep(Next, w, Underway(w, name, Db(Marker(owner), false)), Restore,
      Underway(w, name, Db(Marker(owner), true)));
  }

  lemma OneSnapshot(keep: int, admin: Name, owner: string, names: seq<Name>, name: Name)
    requires |names| <= keep && name !in names && name != admin
    ensures Leads(Next, Completed(keep, admin, owner, names), Completed(keep, admin, owner, names + [name]))
  {
    var w, done := Completed(keep, admin, owner, names), Completed(keep, admin, owner, names + [name]);
    FilledSnapshot(w, owner, name);
    assert done.dbs == w.dbs[name := Db(Marker(owner), true)];
    OneMoreStep(Next, w, Underway(w, name, Db(Marker(owner), true)), Complete(1), done);
  }

  lemma {:induction false} ManySnapshots(keep: int, admin: Name, owner: string, names: seq<Name>)
    requires 0 <= |names| <= keep + 1 && Distinct(names) && admin !in names
    ensures Leads(Next, NewServer(keep, admin), Completed(keep, admin, owner, names))
  {
    var start := NewServer(keep, admin);
    if names == [] {
      var founded := start.(file := Some(Record("", owner, [], None, 0)));
      assert (map name | name in names :: Db(Marker(owner), true)) == map[];
      LeadsNowhere(Next, start);
      OneMoreStep(Next, start, start, Found("", owner), founded);
      OneMoreStep(Next, start, founded, Start, Completed(keep, admin, owner, []));
    } else {
      var n := |names| - 1;
      ManySnapshots(keep, admin, owner, names[..n]);
      OneSnapshot(keep, admin, owner, names[..n], names[n]);
      assert names == names[..n] + [names[n]];
      LeadsFurther(Next, start, Completed(keep, admin, owner, names[..n]), Completed(keep, admin, owner, names));
    }
  }

  /** For every number of snapshots to keep, a run from the first start ends with retention jammed. */
  lemma JamIsReachable(keep: int, admin: Name, owner: string, names: seq<Name>) returns (stopped: World)
    requires keep >= 1 && |names| == keep + 1 && Distinct(names) && admin !in names
    ensures Leads(Next, NewServer(keep, admin), stopped) && StoppedJammed(stopped)
  {
    var start, full := NewServer(keep, admin), Completed(keep, admin, owner, names);
    ManySnapshots(keep, admin, owner, names);
    var dropped := full.(dbs := full.dbs - {names[0]}, job := Retiring(names[0]));
    stopped := dropped.(job := Idle);
    LeadsKeepsInv(start, full);
    OneMoreStep(Next, start, full, DropOldest, dropped);
    OneMoreStep(Next, start, dropped, Stop, stopped);
    InterruptedRetentionJams(full, dropped, stopped);
  }
}

/** From the grant table to the services: a user's organization rows, listed, formatted, joined and parsed again. */
module RoleHeaders {
  import opened Options
  import opened Strings
  import opened Authz
  import opened Decimal
  import opened OrgRoles
  import opened Grants
  import GrantTheorems

  /** The text of a role. */
  function RoleKey(role: Role): string {
    match role
    case PlatformAdmin => "PlatformAdmin"
    case PlatformSupport => "PlatformSupport"
    case Teacher => "Teacher"
    case Student => "Student"
    case ClassOwner => "ClassOwner"
    case ClassTeacher => "ClassTeacher"
    case ClassStudent => "ClassStudent"
    case OrgAdmin => "OrgAdmin"
    case OrgTeacher => "OrgTeacher"
    case OrgStudent => "OrgStudent"
    case UnknownRole(key) => key
  }

  /** The texts that the services exchange. */
  lemma RoleTexts()
    ensures RoleKey(PlatformAdmin) == "PlatformAdmin" && RoleKey(PlatformSupport) == "PlatformSupport"
    ensures RoleKey(Teacher) == "Teacher" && RoleKey(Student) == "Student"
    ensures RoleKey(OrgAdmin) == "OrgAdmin" && RoleKey(OrgTeacher) == "OrgTeacher"
    ensures RoleKey(OrgStudent) == "OrgStudent"
  {
  }

  /** The organization role that a text stands for, or none of them. */
  function OrgRoleOf(key: string): Role {
    if key == "OrgAdmin" then OrgAdmin
    else if key == "OrgTeacher" then OrgTeacher
    else if key == "OrgStudent" then OrgStudent
    else UnknownRole(key)
  }

  /** The entry of a row in an organization. */
  function EntryOf(r: Row): Option<Entry> {
    if r.scope.InOrg? then Some(Entry(r.scope.org, RoleKey(r.role))) else None
  }

  /** The entries are those of the user's current organization rows, in any order. */
  ghost predicate Lists(db: Db, user: int, entries: seq<Entry>) {
    forall e :: e in entries <==> exists id :: ListedRow(db, user, id) && EntryOf(db.grants[id]) == Some(e)
  }

  ghost predicate ListedRow(db: Db, user: int, id: int) {
    id in db.grants && db.grants[id].user == user && db.grants[id].scope.InOrg? && Current(db.grants[id], db.now)
  }

  /** The organization roles that a service reads from the header. */
  function RolesFrom(header: string): map<int, seq<Role>> {
    var m := Parsed(header);
    map org | org in m :: seq(|m[org]|, i requires 0 <= i < |m[org]| => OrgRoleOf(m[org][i]))
  }

  lemma OrgRoleText(role: Role)
    requires role.Org()
    ensures OrgRoleOf(RoleKey(role)) == role && Tight(RoleKey(role)) && ',' !in RoleKey(role)
  {
  }

  lemma {:induction false} RolesInEntries(entries: seq<Entry>, org: int, role: string)
    ensures role in RolesIn(entries, org) <==> Entry(org, role) in entries
    ensures Entry(org, role) in entries ==> org in Orgs(entries)
  {
    if entries != [] {
      var n := |entries| - 1;
      RolesInEntries(entries[..n], org, role);
      assert entries == entries[..n] + [entries[n]];
    }
  }

  /** With the roles at their scopes, of a listed row: it is an organization role in an organization there is. */
  lemma ListedRowFits(db: Db, user: int, id: int)
    requires GrantTheorems.Fitting(db) && ListedRow(db, user, id)
    ensures var r := db.grants[id]; r.role.Org() && r.scope.org > 0 && r.scope.org in db.orgs
  {
    assert GrantTheorems.FitsScope(db, db.grants[id].role, db.grants[id].scope);
  }

  lemma ListedEntriesAreSendable(db: Db, user: int, entries: seq<Entry>)
    requires GrantTheorems.Fitting(db) && Lists(db, user, entries) && forall org :: org in db.orgs ==> org <= INT64_MAX
    ensures forall e :: e in entries ==> Sendable(e)
  {
    forall e | e in entries
      ensures Sendable(e)
    {
      var id :| ListedRow(db, user, id) && EntryOf(db.grants[id]) == Some(e);
      ListedRowFits(db, user, id);
      OrgRoleText(db.grants[id].role);
      TrimmedIsTight(e.role);
    }
  }

  lemma EntryOfActive(db: Db, user: int, entries: seq<Entry>, org: int, role: Role)
    requires GrantTheorems.Fitting(db) && Lists(db, user, entries) && role.Org()
    ensures Entry(org, RoleKey(role)) in entries <==> Active(db, user, role, InOrg(org))
  {
    if Entry(org, RoleKey(role)) in entries {
      var id :| ListedRow(db, user, id) && EntryOf(db.grants[id]) == Some(Entry(org, RoleKey(role)));
      ListedRowFits(db, user, id);
      OrgRoleText(db.grants[id].role);
      OrgRoleText(role);
      assert RowAt(db, id, user, role, InOrg(org));
    }
    if Active(db, user, role, InOrg(org)) {
      var id :| RowAt(db, id, user, role, InOrg(org)) && Current(db.grants[id], db.now);
      assert ListedRow(db, user, id) && EntryOf(db.grants[id]) == Some(Entry(org, RoleKey(role)));
    }
  }

  /** A list of keys, read as organization roles, holds the role exactly if the keys hold its text. */
  lemma RolesOfKeys(keys: seq<string>, role: Role)
    requires role.Org()
    ensures role in seq(|keys|, i requires 0 <= i < |keys| => OrgRoleOf(keys[i])) <==> RoleKey(role) in keys
  {
    var roles := seq(|keys|, i requires 0 <= i < |keys| => OrgRoleOf(keys[i]));
    if role in roles {
      var i :| 0 <= i < |roles| && roles[i] == role;
      assert keys[i] == RoleKey(role);
    }
    if RoleKey(role) in keys {
      var i :| 0 <= i < |keys| && keys[i] == RoleKey(role);
      OrgRoleText(role);
      assert roles[i] == role;
    }
  }

  /** The parsed header holds the role exactly if its entries do. */
  lemma ParsedHolds(entries: seq<Entry>, org: int, role: Role)
    requires (forall e :: e in entries ==> Sendable(e)) && role.Org()
    ensures var roles := RolesFrom(Join(Formatted(entries), ','));
            (org in roles && role in roles[org]) <==> Entry(org, RoleKey(role)) in entries
  {
    var m := Parsed(Join(Formatted(entries), ','));
    HeaderRoundTrip(entries);
    RolesInEntries(entries, org, RoleKey(role));
    if org in m {
      FirstOccurrencesAre(RolesIn(entries, org));
      RolesOfKeys(m[org], role);
    }
  }

  /**
   With the roles at their scopes, what a service parses from a user's header are in every reachable state exactly the
   roles of the user's current organization rows.
   */
  lemma HeaderRolesAreCurrentRows(states: seq<Db>, ops: seq<GrantTheorems.Op>, n: nat, user: int, entries: seq<Entry>,
      org: int, role: Role)
    requires GrantTheorems.Run(states, ops) && GrantTheorems.Fitting(states[0]) && n < |states|
    requires Lists(states[n], user, entries) && role.Org()
    requires forall o :: o in states[n].orgs ==> o <= INT64_MAX
    ensures var roles := RolesFrom(Join(Formatted(entries), ','));
            (org in roles && role in roles[org]) <==> Active(states[n], user, role, InOrg(org))
  {
    GrantTheorems.RunKeepsFitting(states, ops, n);
    ListedEntriesAreSendable(states[n], user, entries);
    ParsedHolds(entries, org, role);
    EntryOfActive(states[n], user, entries, org, role);
  }
}

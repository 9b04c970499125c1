/** The headers that carry roles between services: "<org>:<role>" entries, or plain role keys, and commas. */
module OrgRoles {
  import opened Options
  import opened Strings
  import opened Decimal

  // ---------------------------------------------------------------- text

  function TrimSpace(s: string): string {
    Strip(s, IsSpace)
  }

  // ---------------------------------------------------------------- the header

  datatype Entry = Entry(org: int, role: string)

  function FormatOrgRole(e: Entry): string {
    FormatInt(e.org) + ":" + e.role
  }

  /** One entry, or nothing when it cannot be understood. */
  function ParseEntry(raw: string): Option<Entry> {
    var entry := TrimSpace(raw);
    if ':' !in entry then None
    else
      var idx := IndexOf(entry, ':');
      if idx == 0 || idx == |entry| - 1 then None
      else
        var org := ParseInt64(TrimSpace(entry[..idx]));
        var role := TrimSpace(entry[idx + 1..]);
        if org.None? || org.value <= 0 || role == "" then None else Some(Entry(org.value, role))
  }

  /** The entry is made of these two texts, with a colon between them. */
  ghost predicate MadeOf(raw: string, e: Entry, org: string, role: string) {
    && TrimSpace(raw) == org + ":" + role && ':' !in org && org != "" && role != ""
    && ParseInt64(TrimSpace(org)) == Some(e.org) && TrimSpace(role) == e.role
  }

  lemma UnderstoodEntry(raw: string, e: Entry)
    requires ParseEntry(raw) == Some(e)
    ensures e.org > 0 && e.role != "" && exists org, role :: MadeOf(raw, e, org, role)
  {
    var entry := TrimSpace(raw);
    var k := Strings.IndexOf(entry, ':');
    assert entry == entry[..k] + ":" + entry[k + 1..];
    assert MadeOf(raw, e, entry[..k], entry[k + 1..]);
  }

  lemma MadeEntry(raw: string, e: Entry, org: string, role: string)
    requires MadeOf(raw, e, org, role) && e.org > 0 && e.role != ""
    ensures ParseEntry(raw) == Some(e)
  {
    assert TrimSpace(raw) == org + [':'] + role;
    IndexOfSeparator(org, ':', role);
  }

  /** Exactly these entries are understood: a positive 64-bit number, a colon and a role, with spaces around them. */
  lemma EntryForms(raw: string, e: Entry)
    ensures ParseEntry(raw) == Some(e) <==>
            e.org > 0 && e.role != "" && exists org, role :: MadeOf(raw, e, org, role)
  {
    if ParseEntry(raw) == Some(e) {
      UnderstoodEntry(raw, e);
    }
    if e.org > 0 && e.role != "" {
      if org, role :| MadeOf(raw, e, org, role) {
        MadeEntry(raw, e, org, role);
      }
    }
  }

  function Added(m: map<int, seq<string>>, e: Entry): map<int, seq<string>> {
    var roles := if e.org in m then m[e.org] else [];
    if e.role in roles then m else m[e.org := roles + [e.role]]
  }

  function AddedAll(raws: seq<string>): map<int, seq<string>> {
    if raws == [] then map[]
    else
      var m := AddedAll(raws[..|raws| - 1]);
      match ParseEntry(raws[|raws| - 1])
      case None => m
      case Some(e) => Added(m, e)
  }

  lemma OneMoreAdded(raws: seq<string>, n: nat)
    requires n < |raws|
    ensures AddedAll(raws[..n + 1]) == match ParseEntry(raws[n]) case None => AddedAll(raws[..n]) case Some(e) =>
              Added(AddedAll(raws[..n]), e)
  {
    assert raws[..n + 1][..n] == raws[..n];
  }

  function Parsed(header: string): map<int, seq<string>> {
    if TrimSpace(header) == "" then map[] else AddedAll(Split(TrimSpace(header), ','))
  }

  method ParseOrgRoles(header: string) returns (m: map<int, seq<string>>)
    ensures m == Parsed(header)
  {
    m := map[];
    var text := TrimSpace(header);
    if text == "" {
      return;
    }
    var entries := Split(text, ',');
    for i := 0 to |entries|
      invariant m == AddedAll(entries[..i])
    {
      OneMoreAdded(entries, i);
      var e := ParseEntry(entries[i]);
      if e.Some? {
        var roles := if e.value.org in m then m[e.value.org] else [];
        if e.value.role !in roles {
          m := m[e.value.org := roles + [e.value.role]];
        }
      }
    }
    assert entries[..|entries|] == entries;
  }

  // ---------------------------------------------------------------- what should come back

  /** Entries that the service sends: an existing organization and a plain role key. */
  ghost predicate Sendable(e: Entry) {
    1 <= e.org <= INT64_MAX && e.role != "" && ',' !in e.role && TrimSpace(e.role) == e.role
  }

  ghost function RolesIn(entries: seq<Entry>, org: int): seq<string> {
    if entries == [] then []
    else
      var last := entries[|entries| - 1];
      RolesIn(entries[..|entries| - 1], org) + if last.org == org then [last.role] else []
  }

  /** The items of s in the order of their first occurrence, once each. */
  ghost function FirstOccurrences(s: seq<string>): seq<string> {
    if s == [] then []
    else FirstOccurrences(s[..|s| - 1]) + if s[|s| - 1] in s[..|s| - 1] then [] else [s[|s| - 1]]
  }

  ghost function Orgs(entries: seq<Entry>): set<int> {
    if entries == [] then {} else Orgs(entries[..|entries| - 1]) + {entries[|entries| - 1].org}
  }

  /** The map has each organization of the entries with its roles in first-occurrence order. */
  ghost predicate Grouped(m: map<int, seq<string>>, entries: seq<Entry>) {
    m.Keys == Orgs(entries) && forall org :: org in m ==> m[org] == FirstOccurrences(RolesIn(entries, org))
  }

  // ---------------------------------------------------------------- the first occurrences

  ghost predicate FirstAt(s: seq<string>, x: string, k: nat) {
    k < |s| && s[k] == x && x !in s[..k]
  }

  /** It has the items of s and no others, none twice, ordered by where they first occur. */
  lemma {:induction false} FirstOccurrencesAre(s: seq<string>)
    ensures forall x :: x in FirstOccurrences(s) <==> x in s
    ensures forall i, j :: 0 <= i < j < |FirstOccurrences(s)| ==> FirstOccurrences(s)[i] != FirstOccurrences(s)[j]
    ensures forall i, j, k, l ::
              && 0 <= i < j < |FirstOccurrences(s)|
              && FirstAt(s, FirstOccurrences(s)[i], k) && FirstAt(s, FirstOccurrences(s)[j], l)
              ==> k < l
  {
    if s != [] {
      var init, last := s[..|s| - 1], s[|s| - 1];
      FirstOccurrencesAre(init);
      var d := FirstOccurrences(init);
      assert s == init + [last];
      forall i, j, k, l | 0 <= i < j < |FirstOccurrences(s)| && FirstAt(s, FirstOccurrences(s)[i], k)
        && FirstAt(s, FirstOccurrences(s)[j], l)
        ensures k < l
      {
        FirstStays(init, last, d[i], k);
        if j < |d| {
          FirstStays(init, last, d[j], l);
        } else {
          assert last !in init;
        }
      }
    }
  }

  lemma FirstStays(init: seq<string>, last: string, x: string, k: nat)
    requires FirstAt(init + [last], x, k) && x in init
    ensures FirstAt(init, x, k)
  {
    var s := init + [last];
    assert s[..|init|] == init;
    if k < |init| {
      assert s[..k] == init[..k];
    }
  }

  // ---------------------------------------------------------------- text facts

  ghost predicate Tight(s: string) {
    s != "" && !IsSpace(s[0]) && !IsSpace(s[|s| - 1])
  }

  /** Trimming leaves exactly the texts alone that neither begin nor end with white space. */
  lemma TrimmedIsTight(s: string)
    requires s != ""
    ensures TrimSpace(s) == s <==> Tight(s)
  {
    StripLeftShape(s, IsSpace);
    StripRightShape(StripLeft(s, IsSpace), IsSpace);
  }

  lemma NumberIsTight(n: nat)
    ensures Tight(FormatInt(n)) && ':' !in FormatInt(n) && ',' !in FormatInt(n)
              && TrimSpace(FormatInt(n)) == FormatInt(n)
  {
    var digits := FormatNat(n);
    assert IsDigit(digits[0]) && IsDigit(digits[|digits| - 1]);
    TrimmedIsTight(digits);
  }

  lemma FormattedIsTight(e: Entry)
    requires Sendable(e)
    ensures Tight(FormatOrgRole(e)) && ',' !in FormatOrgRole(e) && TrimSpace(FormatOrgRole(e)) == FormatOrgRole(e)
  {
    var digits, text := FormatInt(e.org), FormatOrgRole(e);
    NumberIsTight(e.org);
    TrimmedIsTight(e.role);
    assert text[0] == digits[0] && text[|text| - 1] == e.role[|e.role| - 1];
    TrimmedIsTight(text);
  }

  lemma FormattedEntry(e: Entry)
    requires Sendable(e)
    ensures Tight(FormatOrgRole(e)) && ',' !in FormatOrgRole(e)
    ensures ParseEntry(FormatOrgRole(e)) == Some(e)
  {
    FormattedIsTight(e);
    NumberIsTight(e.org);
    assert FormatOrgRole(e) == FormatInt(e.org) + [':'] + e.role;
    IndexOfSeparator(FormatInt(e.org), ':', e.role);
    ParseFormatted(e.org);
  }

  ghost function Formatted(entries: seq<Entry>): seq<string> {
    seq(|entries|, i requires 0 <= i < |entries| => FormatOrgRole(entries[i]))
  }

  lemma {:induction false} JoinIsTight(parts: seq<string>)
    requires parts != [] && forall p :: p in parts ==> Tight(p)
    ensures Tight(Join(parts, ','))
  {
    assert parts[0] in parts;
    if |parts| > 1 {
      JoinIsTight(parts[1..]);
    }
  }

  // ---------------------------------------------------------------- the round trip

  lemma OneMoreOccurrence(s: seq<string>, x: string)
    ensures FirstOccurrences(s + [x]) == FirstOccurrences(s) + if x in FirstOccurrences(s) then [] else [x]
  {
    assert (s + [x])[..|s|] == s;
    FirstOccurrencesAre(s);
  }

  lemma {:induction false} RolesNeedEntries(entries: seq<Entry>, org: int)
    ensures org !in Orgs(entries) ==> RolesIn(entries, org) == []
  {
    if entries != [] {
      RolesNeedEntries(entries[..|entries| - 1], org);
    }
  }

  lemma GroupOneMore(m: map<int, seq<string>>, entries: seq<Entry>)
    requires entries != [] && Grouped(m, entries[..|entries| - 1])
    ensures Grouped(Added(m, entries[|entries| - 1]), entries)
  {
    var init, last := entries[..|entries| - 1], entries[|entries| - 1];
    var after := Added(m, last);
    RolesNeedEntries(init, last.org);
    OneMoreOccurrence(RolesIn(init, last.org), last.role);
    assert (if last.org in m then m[last.org] else []) == FirstOccurrences(RolesIn(init, last.org));
    assert after.Keys == m.Keys + {last.org};
    forall org | org in after
      ensures after[org] == FirstOccurrences(RolesIn(entries, org))
    {
      if org != last.org {
        assert RolesIn(entries, org) == RolesIn(init, org);
      }
    }
  }

  /** The entries that are understood, in their order. */
  ghost function Understood(raws: seq<string>): seq<Entry> {
    if raws == [] then []
    else
      var last := ParseEntry(raws[|raws| - 1]);
      Understood(raws[..|raws| - 1]) + if last.Some? then [last.value] else []
  }

  /** Of any header the organizations and roles of the entries that are understood are kept, and nothing else. */
  lemma {:induction false} UnderstoodAreGrouped(raws: seq<string>)
    ensures Grouped(AddedAll(raws), Understood(raws))
  {
    if raws != [] {
      var n := |raws| - 1;
      UnderstoodAreGrouped(raws[..n]);
      var entries := Understood(raws);
      if ParseEntry(raws[n]).Some? {
        assert entries[..|entries| - 1] == Understood(raws[..n]);
        GroupOneMore(AddedAll(raws[..n]), entries);
      } else {
        assert entries == Understood(raws[..n]);
      }
    }
  }

  lemma {:induction false} ParsedIsGrouped(entries: seq<Entry>)
    requires forall e :: e in entries ==> Sendable(e)
    ensures Grouped(AddedAll(Formatted(entries)), entries)
  {
    if entries != [] {
      var n := |entries| - 1;
      ParsedIsGrouped(entries[..n]);
      assert Formatted(entries)[..n] == Formatted(entries[..n]);
      FormattedEntry(entries[n]);
      GroupOneMore(AddedAll(Formatted(entries[..n])), entries);
    }
  }

  /**
   Parsing the joined entries gives back, for each organization, its roles in the order of their first occurrence
   and without repeats.
   */
  lemma HeaderRoundTrip(entries: seq<Entry>)
    requires forall e :: e in entries ==> Sendable(e)
    ensures Grouped(Parsed(Join(Formatted(entries), ',')), entries)
  {
    var parts := Formatted(entries);
    if entries != [] {
      forall p | p in parts
        ensures Tight(p) && ',' !in p
      {
        var i :| 0 <= i < |parts| && parts[i] == p;
        FormattedEntry(entries[i]);
      }
      JoinIsTight(parts);
      TrimmedIsTight(Join(parts, ','));
      SplitOfJoin(parts, ',');
      ParsedIsGrouped(entries);
    }
  }

  // ---------------------------------------------------------------- platform roles

  function NonBlank(raws: seq<string>): seq<string> {
    if raws == [] then []
    else
      var role := TrimSpace(raws[|raws| - 1]);
      NonBlank(raws[..|raws| - 1]) + if role == "" then [] else [role]
  }

  function ParsedRoles(header: string): seq<string> {
    if TrimSpace(header) == "" then [] else NonBlank(Split(TrimSpace(header), ','))
  }

  method ParsePlatformRoles(header: string) returns (roles: seq<string>)
    ensures roles == ParsedRoles(header)
  {
    roles := [];
    var text := TrimSpace(header);
    if text == "" {
      return;
    }
    var parts := Split(text, ',');
    for i := 0 to |parts|
      invariant roles == NonBlank(parts[..i])
    {
      assert parts[..i + 1][..i] == parts[..i];
      var role := TrimSpace(parts[i]);
      if role != "" {
        roles := roles + [role];
      }
    }
    assert parts[..|parts|] == parts;
  }

  /** A role that survives the trip: trimmed, not empty, and without a comma. */
  ghost predicate Plain(role: string) {
    Tight(role) && ',' !in role
  }

  lemma {:induction false} PlainStay(roles: seq<string>)
    requires forall r :: r in roles ==> Plain(r)
    ensures NonBlank(roles) == roles
  {
    if roles != [] {
      var n := |roles| - 1;
      PlainStay(roles[..n]);
      assert Plain(roles[n]);
      TrimmedIsTight(roles[n]);
      assert roles == roles[..n] + [roles[n]];
    }
  }

  /** Parsing the joined list gives back the list, repeats and order included. */
  lemma RolesRoundTrip(roles: seq<string>)
    requires forall r :: r in roles ==> Plain(r)
    ensures ParsedRoles(Join(roles, ',')) == roles
  {
    if roles != [] {
      JoinIsTight(roles);
      TrimmedIsTight(Join(roles, ','));
      SplitOfJoin(roles, ',');
      PlainStay(roles);
    }
  }

  lemma TrimmedIsPlain(s: string)
    requires ',' !in s && TrimSpace(s) != ""
    ensures Plain(TrimSpace(s))
  {
    StripLeftShape(s, IsSpace);
    StripRightShape(StripLeft(s, IsSpace), IsSpace);
    StripLeftWithin(s, IsSpace, ',');
    StripRightWithin(StripLeft(s, IsSpace), IsSpace, ',');
  }

  lemma {:induction false} NonBlankArePlain(raws: seq<string>)
    requires forall s :: s in raws ==> ',' !in s
    ensures forall r :: r in NonBlank(raws) ==> Plain(r)
  {
    if raws != [] {
      var n := |raws| - 1;
      NonBlankArePlain(raws[..n]);
      if TrimSpace(raws[n]) != "" {
        TrimmedIsPlain(raws[n]);
      }
    }
  }

  lemma {:induction false} NonBlankParts(raws: seq<string>, role: string)
    ensures role in NonBlank(raws) <==> role != "" && exists i :: 0 <= i < |raws| && TrimSpace(raws[i]) == role
  {
    if raws != [] {
      var n := |raws| - 1;
      NonBlankParts(raws[..n], role);
      assert forall i :: 0 <= i < n ==> raws[..n][i] == raws[i];
    }
  }

  /** Whatever the header, sending on what was parsed changes nothing. */
  lemma ParsingSettles(header: string)
    ensures ParsedRoles(Join(ParsedRoles(header), ',')) == ParsedRoles(header)
  {
    if TrimSpace(header) != "" {
      JoinOfSplit(TrimSpace(header), ',');
      NonBlankArePlain(Split(TrimSpace(header), ','));
    }
    RolesRoundTrip(ParsedRoles(header));
  }
}

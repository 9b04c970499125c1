/**
 Installing backup settings into an environment file: a payload of assignments replaces the same variables in place.
 */
module EnvMerge {
  import opened Options
  import opened Strings

  const PASSWORD := "BACKUP_ENCRYPTION_PASSWORD"
  const SALT := "BACKUP_ENCRYPTION_SALT"
  const REQUIRED := {"R2_ACCESS_KEY_ID", "R2_SECRET_ACCESS_KEY", "R2_BUCKET_NAME", PASSWORD, SALT}
  const ALLOWED := REQUIRED + {
    "R2_ACCOUNT_ID", "R2_ENDPOINT", "BACKUP_PROVIDER", "BACKUP_ENABLED", "BACKUP_PREFIX", "BACKUP_INTERVAL_SECONDS",
    "BACKUP_MAX_STORAGE_BYTES", "BACKUP_BWLIMIT", "BACKUP_TPSLIMIT", "BACKUP_SOURCE_BUCKETS", "NEON_BACKUP_URL",
    "POSTGRES_URL", "NEON_BACKUP_ENABLED", "NEON_BACKUP_INTERVAL_SECONDS", "NEON_BACKUP_RETRY_SECONDS",
    "NEON_BACKUP_KEEP", "NEON_BACKUP_TIMEOUT_SECONDS"
  }

  const SECRETS := {PASSWORD, SALT}

  datatype Variable = Variable(key: string, value: string)

  predicate KeyChar(c: char) {
    'A' <= c <= 'Z' || c == '_' || '0' <= c <= '9'
  }

  predicate IsKey(s: string) {
    s != "" && forall i :: 0 <= i < |s| ==> KeyChar(s[i])
  }

  /** The assignment that a line makes, if it is one. */
  function ParseLine(line: string): Option<Variable> {
    if '=' in line && IsKey(line[..IndexOf(line, '=')])
      then Some(Variable(line[..IndexOf(line, '=')], line[IndexOf(line, '=') + 1..]))
    else None
  }

  function FormatLine(v: Variable): string {
    v.key + "=" + v.value
  }

  lemma ParseFormatted(v: Variable)
    requires IsKey(v.key)
    ensures ParseLine(FormatLine(v)) == Some(v)
  {
    var line := FormatLine(v);
    assert line == v.key + ['='] + v.value;
    IndexOfSeparator(v.key, '=', v.value);
  }

  lemma ParsedLine(line: string)
    requires ParseLine(line).Some?
    ensures IsKey(ParseLine(line).value.key) && FormatLine(ParseLine(line).value) == line
  {
  }

  predicate Assigns(line: string, key: string) {
    ParseLine(line).Some? && ParseLine(line).value.key == key
  }

  /** The values that the lines give a variable, in order. */
  function Assigned(lines: seq<string>, key: string): seq<string> {
    if lines == [] then []
    else
      var n := |lines| - 1;
      Assigned(lines[..n], key) + if Assigns(lines[n], key) then [ParseLine(lines[n]).value.value] else []
  }

  predicate Replaces(line: string, incoming: map<string, string>) {
    ParseLine(line).Some? && ParseLine(line).value.key in incoming
  }

  /** The lines that are none of the payload's business. */
  function Others(lines: seq<string>, incoming: map<string, string>): seq<string> {
    if lines == [] then []
    else
      var n := |lines| - 1;
      Others(lines[..n], incoming) + if Replaces(lines[n], incoming) then [] else [lines[n]]
  }

  // ---------------------------------------------------------------- the merge

  /** The variables of the payload that the lines assign. */
  function Emitted(lines: seq<string>, incoming: map<string, string>): set<string> {
    if lines == [] then {}
    else
      var n := |lines| - 1;
      Emitted(lines[..n], incoming) + if Replaces(lines[n], incoming) then {ParseLine(lines[n]).value.key} else {}
  }

  /** The old lines: a variable of the payload gets its new value at its first place and loses the others. */
  function Kept(lines: seq<string>, incoming: map<string, string>): seq<string> {
    if lines == [] then []
    else
      var n := |lines| - 1;
      var line := lines[n];
      var rest := Kept(lines[..n], incoming);
      if !Replaces(line, incoming) then rest + [line]
      else
        var key := ParseLine(line).value.key;
        if key in Emitted(lines[..n], incoming) then rest else rest + [FormatLine(NewValue(incoming, key))]
  }

  /** The variables that were not assigned before, in the payload's order. */
  function Added(order: seq<string>, incoming: map<string, string>, emitted: set<string>): seq<string> {
    if order == [] then []
    else
      var n := |order| - 1;
      Added(order[..n], incoming, emitted) + if order[n] in emitted then []
        else [FormatLine(NewValue(incoming, order[n]))]
  }

  function NewValue(incoming: map<string, string>, key: string): Variable {
    Variable(key, if key in incoming then incoming[key] else "")
  }

  ghost predicate Keys(order: seq<string>) {
    && (forall i :: 0 <= i < |order| ==> IsKey(order[i]))
    && (forall i, j :: 0 <= i < j < |order| ==> order[i] != order[j])
  }

  ghost predicate Payload(order: seq<string>, incoming: map<string, string>) {
    Keys(order) && forall k :: k in order <==> k in incoming
  }

  function Merged(lines: seq<string>, order: seq<string>, incoming: map<string, string>): seq<string>
    requires Payload(order, incoming)
  {
    Kept(lines, incoming) + Added(order, incoming, Emitted(lines, incoming))
  }

  method MergeLines(lines: seq<string>, order: seq<string>, incoming: map<string, string>) returns (output: seq<string>)
    requires Payload(order, incoming)
    ensures output == Merged(lines, order, incoming)
  {
    output := [];
    var emitted := {};
    for i := 0 to |lines|
      invariant output == Kept(lines[..i], incoming) && emitted == Emitted(lines[..i], incoming)
    {
      assert lines[..i + 1][..i] == lines[..i];
      var line := ParseLine(lines[i]);
      if line.Some? && line.value.key in incoming {
        if line.value.key !in emitted {
          output := output + [FormatLine(NewValue(incoming, line.value.key))];
          emitted := emitted + {line.value.key};
        }
      } else {
        output := output + [lines[i]];
      }
    }
    assert lines[..|lines|] == lines;
    for i := 0 to |order|
      invariant output == Kept(lines, incoming) + Added(order[..i], incoming, emitted)
    {
      assert order[..i + 1][..i] == order[..i];
      if order[i] !in emitted {
        output := output + [FormatLine(NewValue(incoming, order[i]))];
      }
    }
    assert order[..|order|] == order;
  }

  lemma {:induction false} KeptAssigns(lines: seq<string>, incoming: map<string, string>, key: string)
    requires forall k :: k in incoming ==> IsKey(k)
    ensures Assigned(Kept(lines, incoming), key)
            == if key !in incoming then Assigned(lines, key)
              else if key in Emitted(lines, incoming) then [incoming[key]] else []
  {
    if lines != [] {
      var n := |lines| - 1;
      KeptAssigns(lines[..n], incoming, key);
      var rest, now := Kept(lines[..n], incoming), Kept(lines, incoming);
      if now != rest {
        assert now[..|rest|] == rest;
      }
      if Replaces(lines[n], incoming) {
        var k := ParseLine(lines[n]).value.key;
        ParseFormatted(NewValue(incoming, k));
      }
    }
  }

  lemma OneMoreAssigned(lines: seq<string>, line: string, key: string)
    ensures Assigned(lines + [line], key) == Assigned(lines, key) +
              if Assigns(line, key) then [ParseLine(line).value.value] else []
  {
    assert (lines + [line])[..|lines|] == lines;
  }

  lemma OneMoreFormatted(lines: seq<string>, v: Variable, key: string)
    requires IsKey(v.key)
    ensures Assigned(lines + [FormatLine(v)], key) == Assigned(lines, key) + if v.key == key then [v.value] else []
  {
    ParseFormatted(v);
    OneMoreAssigned(lines, FormatLine(v), key);
  }

  lemma LastKey(order: seq<string>)
    requires Keys(order) && order != []
    ensures var n := |order| - 1;
            && Keys(order[..n]) && order[n] !in order[..n]
            && forall key :: key in order <==> key in order[..n] || key == order[n]
  {
    var n := |order| - 1;
    assert order == order[..n] + [order[n]];
  }

  lemma {:induction false} AddedAssigns(order: seq<string>, incoming: map<string, string>, emitted: set<string>,
      key: string)
    requires Keys(order)
    ensures Assigned(Added(order, incoming, emitted), key) ==
              if key in order && key !in emitted then [NewValue(incoming, key).value] else []
  {
    if order != [] {
      var n := |order| - 1;
      var rest := Added(order[..n], incoming, emitted);
      LastKey(order);
      AddedAssigns(order[..n], incoming, emitted, key);
      if order[n] in emitted {
        assert Added(order, incoming, emitted) == rest;
      } else {
        OneMoreFormatted(rest, NewValue(incoming, order[n]), key);
      }
    }
  }

  lemma {:induction false} AssignedTogether(a: seq<string>, b: seq<string>, key: string)
    ensures Assigned(a + b, key) == Assigned(a, key) + Assigned(b, key)
  {
    if b == [] {
      assert a + b == a;
    } else {
      var init, line := b[..|b| - 1], b[|b| - 1];
      AssignedTogether(a, init, key);
      assert b == init + [line] && a + b == a + init + [line];
      OneMoreAssigned(init, line, key);
      OneMoreAssigned(a + init, line, key);
    }
  }

  /**
   Afterwards each variable of the payload is assigned exactly once, to its new value, and every other one as before.
   */
  lemma MergedAssigns(lines: seq<string>, order: seq<string>, incoming: map<string, string>, key: string)
    requires Payload(order, incoming)
    ensures Assigned(Merged(lines, order, incoming), key) == if key in incoming then [incoming[key]]
              else Assigned(lines, key)
  {
    KeptAssigns(lines, incoming, key);
    AssignedTogether(Kept(lines, incoming), Added(order, incoming, Emitted(lines, incoming)), key);
    AddedAssigns(order, incoming, Emitted(lines, incoming), key);
    EmittedAreIncoming(lines, incoming);
  }

  lemma {:induction false} EmittedAreIncoming(lines: seq<string>, incoming: map<string, string>)
    ensures Emitted(lines, incoming) <= incoming.Keys
  {
    if lines != [] {
      EmittedAreIncoming(lines[..|lines| - 1], incoming);
    }
  }

  lemma OneMoreOther(lines: seq<string>, line: string, incoming: map<string, string>)
    ensures Others(lines + [line], incoming) == Others(lines, incoming) + if Replaces(line, incoming) then []
              else [line]
  {
    assert (lines + [line])[..|lines|] == lines;
  }

  lemma {:induction false} KeptOthers(lines: seq<string>, incoming: map<string, string>)
    requires forall k :: k in incoming ==> IsKey(k)
    ensures Others(Kept(lines, incoming), incoming) == Others(lines, incoming)
  {
    if lines != [] {
      var n := |lines| - 1;
      KeptOthers(lines[..n], incoming);
      OneMoreOther(Kept(lines[..n], incoming), lines[n], incoming);
      if Replaces(lines[n], incoming) {
        var k := ParseLine(lines[n]).value.key;
        ParseFormatted(NewValue(incoming, k));
        OneMoreOther(Kept(lines[..n], incoming), FormatLine(NewValue(incoming, k)), incoming);
      }
    }
  }

  lemma AddedLast(before: seq<string>, order: seq<string>, incoming: map<string, string>, emitted: set<string>)
    requires order != []
    ensures var n := |order| - 1;
            var rest := before + Added(order[..n], incoming, emitted);
            before + Added(order, incoming, emitted)
              == if order[n] in emitted then rest else rest + [FormatLine(NewValue(incoming, order[n]))]
  {
  }

  lemma {:induction false} AddedOthers(before: seq<string>, order: seq<string>, incoming: map<string, string>,
      emitted: set<string>)
    requires Keys(order) && forall k :: k in order ==> k in incoming
    ensures Others(before + Added(order, incoming, emitted), incoming) == Others(before, incoming)
  {
    if order == [] {
      assert before + Added(order, incoming, emitted) == before;
    } else {
      var n := |order| - 1;
      LastKey(order);
      AddedOthers(before, order[..n], incoming, emitted);
      var v := NewValue(incoming, order[n]);
      ParseFormatted(v);
      var rest := before + Added(order[..n], incoming, emitted);
      OneMoreOther(rest, FormatLine(v), incoming);
      AddedLast(before, order, incoming, emitted);
    }
  }

  /** The lines that the payload has nothing to say about stay, in their order: comments, blanks, other settings. */
  lemma MergedOthers(lines: seq<string>, order: seq<string>, incoming: map<string, string>)
    requires Payload(order, incoming)
    ensures Others(Merged(lines, order, incoming), incoming) == Others(lines, incoming)
  {
    KeptOthers(lines, incoming);
    AddedOthers(Kept(lines, incoming), order, incoming, Emitted(lines, incoming));
  }

  // ---------------------------------------------------------------- places

  datatype Slot = Text(line: string) | Setting(key: string)

  /** What stands where: other lines as they are, and each variable of the payload where it is first assigned. */
  function Outline(lines: seq<string>, incoming: map<string, string>): seq<Slot> {
    if lines == [] then []
    else
      var n := |lines| - 1;
      Outline(lines[..n], incoming) + SlotOf(lines[n], Emitted(lines[..n], incoming), incoming)
  }

  function SlotOf(line: string, emitted: set<string>, incoming: map<string, string>): seq<Slot> {
    if !Replaces(line, incoming) then [Text(line)]
    else if ParseLine(line).value.key in emitted then []
    else [Setting(ParseLine(line).value.key)]
  }

  lemma OutlineOneMore(lines: seq<string>, line: string, incoming: map<string, string>)
    ensures Outline(lines + [line], incoming) == Outline(lines, incoming)
              + SlotOf(line, Emitted(lines, incoming), incoming)
    ensures Emitted(lines + [line], incoming) == Emitted(lines, incoming) +
              if Replaces(line, incoming) then {ParseLine(line).value.key} else {}
  {
    assert (lines + [line])[..|lines|] == lines;
  }

  lemma {:induction false} KeptOutline(lines: seq<string>, incoming: map<string, string>)
    requires forall k :: k in incoming ==> IsKey(k)
    ensures Outline(Kept(lines, incoming), incoming) == Outline(lines, incoming)
    ensures Emitted(Kept(lines, incoming), incoming) == Emitted(lines, incoming)
  {
    if lines != [] {
      var n := |lines| - 1;
      var rest := Kept(lines[..n], incoming);
      KeptOutline(lines[..n], incoming);
      OutlineOneMore(rest, lines[n], incoming);
      if Replaces(lines[n], incoming) {
        var v := NewValue(incoming, ParseLine(lines[n]).value.key);
        ParseFormatted(v);
        OutlineOneMore(rest, FormatLine(v), incoming);
      }
    }
  }

  lemma {:induction false} OutlineGrows(lines: seq<string>, more: seq<string>, incoming: map<string, string>)
    ensures Outline(lines, incoming) <= Outline(lines + more, incoming)
  {
    if more == [] {
      assert lines + more == lines;
    } else {
      var n := |more| - 1;
      OutlineGrows(lines, more[..n], incoming);
      OutlineOneMore(lines + more[..n], more[n], incoming);
      assert lines + more == lines + more[..n] + [more[n]];
    }
  }

  /** Every line and every variable that was in the file keeps its place; only new variables come after them. */
  lemma MergedKeepsPlaces(lines: seq<string>, order: seq<string>, incoming: map<string, string>)
    requires Payload(order, incoming)
    ensures Outline(lines, incoming) <= Outline(Merged(lines, order, incoming), incoming)
  {
    KeptOutline(lines, incoming);
    OutlineGrows(Kept(lines, incoming), Added(order, incoming, Emitted(lines, incoming)), incoming);
  }

  // ---------------------------------------------------------------- twice

  /** The lines give the variable its new value at most once, and no other value. */
  predicate Settled(lines: seq<string>, key: string, value: string) {
    Assigned(lines, key) == [] || Assigned(lines, key) == [value]
  }

  lemma SettledBefore(lines: seq<string>, line: string, key: string, value: string)
    requires Settled(lines + [line], key, value)
    ensures Settled(lines, key, value)
    ensures Assigns(line, key) ==> Assigned(lines, key) == [] && ParseLine(line).value.value == value
  {
    OneMoreAssigned(lines, line, key);
    assert Assigns(line, key) ==> Assigned(lines + [line], key)[|Assigned(lines, key)|] == ParseLine(line).value.value;
  }

  lemma {:induction false} EmittedAreAssigned(lines: seq<string>, incoming: map<string, string>, key: string)
    requires key in incoming
    ensures key in Emitted(lines, incoming) <==> Assigned(lines, key) != []
  {
    if lines != [] {
      EmittedAreAssigned(lines[..|lines| - 1], incoming, key);
    }
  }

  /** Settled lines are left as they are. */
  lemma {:induction false} SettledStays(lines: seq<string>, incoming: map<string, string>)
    requires forall k :: k in incoming ==> Settled(lines, k, incoming[k])
    ensures Kept(lines, incoming) == lines
  {
    if lines != [] {
      var init, line := lines[..|lines| - 1], lines[|lines| - 1];
      assert lines == init + [line];
      forall k | k in incoming
        ensures Settled(init, k, incoming[k])
      {
        SettledBefore(init, line, k, incoming[k]);
      }
      SettledStays(init, incoming);
      if Replaces(line, incoming) {
        var v := ParseLine(line).value;
        ParsedLine(line);
        SettledBefore(init, line, v.key, incoming[v.key]);
        EmittedAreAssigned(init, incoming, v.key);
      }
    }
  }

  lemma {:induction false} NothingToAdd(order: seq<string>, incoming: map<string, string>, emitted: set<string>)
    requires forall k :: k in order ==> k in emitted
    ensures Added(order, incoming, emitted) == []
  {
    if order != [] {
      NothingToAdd(order[..|order| - 1], incoming, emitted);
    }
  }

  /** Installing the same payload again changes nothing. */
  lemma MergeTwice(lines: seq<string>, order: seq<string>, incoming: map<string, string>)
    requires Payload(order, incoming)
    ensures Merged(Merged(lines, order, incoming), order, incoming) == Merged(lines, order, incoming)
  {
    var once := Merged(lines, order, incoming);
    forall k | k in incoming
      ensures Settled(once, k, incoming[k]) && k in Emitted(once, incoming)
    {
      MergedAssigns(lines, order, incoming, k);
      EmittedAreAssigned(once, incoming, k);
    }
    SettledStays(once, incoming);
    NothingToAdd(order, incoming, Emitted(once, incoming));
  }

  // ---------------------------------------------------------------- the payload

  predicate IsBlank(c: char) {
    IsSpace(c) || 0x1C <= c as int <= 0x1F
  }

  predicate Ignored(line: string) {
    var text := StripLeft(line, IsBlank);
    text == "" || text[0] == '#'
  }

  /** The value of a variable without the blanks and the quotes around it. */
  function Effective(value: string): string {
    Strip(Strip(value, IsBlank), c => c == '"' || c == '\'')
  }

  function ValueOf(incoming: map<string, string>, key: string): string {
    if key in incoming then Effective(incoming[key]) else ""
  }

  function Incoming(payload: seq<string>): map<string, string> {
    if payload == [] then map[]
    else
      var n := |payload| - 1;
      var v := if Ignored(payload[n]) then None else ParseLine(payload[n]);
      if v.None? then Incoming(payload[..n]) else Incoming(payload[..n])[v.value.key := v.value.value]
  }

  function Order(payload: seq<string>): seq<string> {
    if payload == [] then []
    else
      var n := |payload| - 1;
      var v := if Ignored(payload[n]) then None else ParseLine(payload[n]);
      if v.None? then Order(payload[..n]) else Order(payload[..n]) + [v.value.key]
  }

  /** The n-th line is ignored, or assigns an allowed variable for the first time. */
  predicate LineOk(payload: seq<string>, allowed: set<string>, n: nat)
    requires n < |payload|
  {
    || Ignored(payload[n])
    || (ParseLine(payload[n]).Some? && ParseLine(payload[n]).value.key in allowed
      && ParseLine(payload[n]).value.key !in Incoming(payload[..n]))
  }

  predicate WellFormed(payload: seq<string>, allowed: set<string>) {
    forall n :: 0 <= n < |payload| ==> LineOk(payload, allowed, n)
  }

  method ReadPayload(payload: seq<string>, allowed: set<string>)
      returns (ok: bool, order: seq<string>, incoming: map<string, string>)
    ensures ok <==> WellFormed(payload, allowed)
    ensures ok ==> order == Order(payload) && incoming == Incoming(payload) && Payload(order, incoming)
    ensures ok ==> incoming.Keys <= allowed
  {
    order, incoming := [], map[];
    for i := 0 to |payload|
      invariant order == Order(payload[..i]) && incoming == Incoming(payload[..i]) && Payload(order, incoming)
      invariant forall n :: 0 <= n < i ==> LineOk(payload, allowed, n)
      invariant incoming.Keys <= allowed
    {
      assert payload[..i + 1][..i] == payload[..i];
      if !Ignored(payload[i]) {
        var v := ParseLine(payload[i]);
        if v.None? || v.value.key !in allowed || v.value.key in incoming {
          assert !LineOk(payload, allowed, i);
          return false, order, incoming;
        }
        order, incoming := order + [v.value.key], incoming[v.value.key := v.value.value];
      }
    }
    assert payload[..|payload|] == payload;
    return true, order, incoming;
  }

  predicate Complete(incoming: map<string, string>) {
    && (forall k :: k in REQUIRED ==> ValueOf(incoming, k) != "")
    && (ValueOf(incoming, "R2_ACCOUNT_ID") != "" || ValueOf(incoming, "R2_ENDPOINT") != "")
    && |ValueOf(incoming, PASSWORD)| >= 32 && |ValueOf(incoming, SALT)| >= 32
    && ValueOf(incoming, "BACKUP_PROVIDER") == "r2" && ValueOf(incoming, "BACKUP_ENABLED") == "true"
  }

  /** The line holds an encryption secret other than the payload's. */
  predicate Rotates(line: string, incoming: map<string, string>, secrets: set<string>) {
    && ParseLine(line).Some? && ParseLine(line).value.key in secrets
    && Effective(ParseLine(line).value.value) !in {"", ValueOf(incoming, ParseLine(line).value.key)}
  }

  /** The payload is accepted for these lines. */
  predicate Accepted(payload: seq<string>, lines: seq<string>, allowed: set<string>,
      complete: map<string, string> -> bool, secrets: set<string>) {
    && WellFormed(payload, allowed) && complete(Incoming(payload))
    && forall n :: 0 <= n < |lines| ==> !Rotates(lines[n], Incoming(payload), secrets)
  }

  method InstallAllowed(payload: seq<string>, lines: seq<string>, allowed: set<string>,
      complete: map<string, string> -> bool, secrets: set<string>)
    returns (output: Option<seq<string>>)
    ensures output.Some? <==> Accepted(payload, lines, allowed, complete, secrets)
    ensures output.Some? ==>
              && Payload(Order(payload), Incoming(payload))
              && output.value == Merged(lines, Order(payload), Incoming(payload))
  {
    var ok, order, incoming := ReadPayload(payload, allowed);
    if !ok || !complete(incoming) {
      return None;
    }
    for i := 0 to |lines|
      invariant forall n :: 0 <= n < i ==> !Rotates(lines[n], incoming, secrets)
    {
      if Rotates(lines[i], incoming, secrets) {
        return None;
      }
    }
    var merged := MergeLines(lines, order, incoming);
    return Some(merged);
  }

  /** The new lines of the file, or nothing when the payload is refused. */
  method Install(payload: seq<string>, lines: seq<string>) returns (output: Option<seq<string>>)
    ensures output.Some? <==> Accepted(payload, lines, ALLOWED, Complete, SECRETS)
    ensures output.Some? ==>
              && Payload(Order(payload), Incoming(payload))
              && output.value == Merged(lines, Order(payload), Incoming(payload))
  {
    output := InstallAllowed(payload, lines, ALLOWED, Complete, SECRETS);
  }

  lemma {:induction false} AssignedLine(lines: seq<string>, key: string, j: nat)
    requires j < |Assigned(lines, key)|
    ensures exists n :: 0 <= n < |lines| && Assigns(lines[n], key)
              && ParseLine(lines[n]).value.value == Assigned(lines, key)[j]
  {
    var m := |lines| - 1;
    if j < |Assigned(lines[..m], key)| {
      AssignedLine(lines[..m], key, j);
      var n :| 0 <= n < m && Assigns(lines[..m][n], key)
        && ParseLine(lines[..m][n]).value.value == Assigned(lines[..m], key)[j];
      assert Assigns(lines[n], key);
    } else {
      assert Assigns(lines[m], key);
    }
  }

  /** An accepted payload sets both encryption secrets. */
  lemma CompleteSetsSecrets(incoming: map<string, string>, key: string)
    requires Complete(incoming) && key in SECRETS
    ensures ValueOf(incoming, key) != ""
  {
    assert key in REQUIRED;
  }

  /** An installation never replaces a secret that is set: afterwards it is assigned once, as it was. */
  lemma SecretsStay(lines: seq<string>, order: seq<string>, incoming: map<string, string>, secrets: set<string>,
      key: string, j: nat)
    requires Payload(order, incoming) && key in secrets && ValueOf(incoming, key) != ""
    requires forall n :: 0 <= n < |lines| ==> !Rotates(lines[n], incoming, secrets)
    requires j < |Assigned(lines, key)| && Effective(Assigned(lines, key)[j]) != ""
    ensures var after := Assigned(Merged(lines, order, incoming), key);
              |after| == 1 && Effective(after[0]) == Effective(Assigned(lines, key)[j])
  {
    MergedAssigns(lines, order, incoming, key);
    AssignedLine(lines, key, j);
  }
}

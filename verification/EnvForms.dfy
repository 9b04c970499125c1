/** Which texts make an acceptable payload of backup settings, and what the environment file says afterwards. */
module EnvForms {
  import opened Options
  import opened Strings
  import opened EnvMerge

  // ---------------------------------------------------------------- lines

  const KEY_ALPHABET := "ABCDEFGHIJKLMNOPQRSTUVWXYZ_0123456789"

  lemma KeyCharIs(c: char)
    ensures KeyChar(c) <==> c in KEY_ALPHABET
  {
  }

  predicate KeyText(key: string) {
    key != "" && forall i :: 0 <= i < |key| ==> key[i] in KEY_ALPHABET
  }

  lemma KeyTexts(key: string)
    ensures IsKey(key) <==> KeyText(key)
  {
    forall i | 0 <= i < |key|
      ensures KeyChar(key[i]) <==> key[i] in KEY_ALPHABET
    {
      KeyCharIs(key[i]);
    }
  }

  /** A line assigns a variable exactly if it is the variable's name, an equals sign and the value. */
  lemma AssignmentForms(line: string, v: Variable)
    ensures ParseLine(line) == Some(v) <==> KeyText(v.key) && line == v.key + "=" + v.value
  {
    KeyTexts(v.key);
    if ParseLine(line) == Some(v) {
      ParsedLine(line);
    }
    if IsKey(v.key) && line == FormatLine(v) {
      ParseFormatted(v);
    }
  }

  lemma {:induction false} StripLeftOf(a: string, rest: string, drop: char -> bool)
    requires (forall c :: c in a ==> drop(c)) && (rest != "" ==> !drop(rest[0]))
    ensures StripLeft(a + rest, drop) == rest
  {
    if a == "" {
      assert a + rest == rest;
    } else {
      assert (a + rest)[1..] == a[1..] + rest;
      StripLeftOf(a[1..], rest, drop);
    }
  }

  lemma {:induction false} StripRightOf(rest: string, b: string, drop: char -> bool)
    requires (forall c :: c in b ==> drop(c)) && (rest != "" ==> !drop(rest[|rest| - 1]))
    ensures StripRight(rest + b, drop) == rest
  {
    if b == "" {
      assert rest + b == rest;
    } else {
      assert (rest + b)[..|rest + b| - 1] == rest + b[..|b| - 1];
      StripRightOf(rest, b[..|b| - 1], drop);
    }
  }

  lemma StripOf(a: string, inner: string, b: string, drop: char -> bool)
    requires forall c :: c in a || c in b ==> drop(c)
    requires inner != "" ==> !drop(inner[0]) && !drop(inner[|inner| - 1])
    ensures Strip(a + inner + b, drop) == inner
  {
    if inner == "" {
      assert a + inner + b == (a + b) + "";
      StripLeftOf(a + b, "", drop);
    } else {
      assert a + inner + b == a + (inner + b);
      StripLeftOf(a, inner + b, drop);
      StripRightOf(inner, b, drop);
    }
  }

  /** The characters that count as blank, control characters that separate files and records among them. */
  lemma BlankCharacters(c: char)
    ensures IsBlank(c) <==>
            || c as int in {0x20, 0x85, 0xA0, 0x1680, 0x2028, 0x2029, 0x202F, 0x205F, 0x3000}
            || 9 <= c as int < 14 || 28 <= c as int < 32 || 0x2000 <= c as int < 0x200B
  {
  }

  predicate AllBlank(s: string) {
    forall c :: c in s ==> IsBlank(c)
  }

  predicate AllQuotes(s: string) {
    forall c :: c in s ==> c == '"' || c == '\''
  }

  /** A line is ignored exactly if it is blank, or a comment with blanks before it. */
  lemma IgnoredForms(line: string)
    ensures Ignored(line) <==> exists a, rest :: line == a + rest && AllBlank(a) && (rest == "" || rest[0] == '#')
  {
    var a := StrippedLeft(line, IsBlank);
    assert line == a + StripLeft(line, IsBlank) && AllBlank(a);
    if a, rest :| line == a + rest && AllBlank(a) && (rest == "" || rest[0] == '#') {
      StripLeftOf(a, rest, IsBlank);
    }
  }

  /** The value that counts is the text without the blanks around it, and then without the quotes. */
  lemma EffectiveOf(a: string, q: string, inner: string, p: string, b: string)
    requires AllBlank(a) && AllBlank(b) && AllQuotes(q) && AllQuotes(p)
    requires inner != "" ==> inner[0] !in "\"'" && inner[|inner| - 1] !in "\"'"
    requires var quoted := q + inner + p; quoted != "" ==> !IsBlank(quoted[0]) && !IsBlank(quoted[|quoted| - 1])
    ensures Effective(a + (q + inner + p) + b) == inner
  {
    StripOf(a, q + inner + p, b, IsBlank);
    StripOf(q, inner, p, c => c == '"' || c == '\'');
  }

  // ---------------------------------------------------------------- the payload

  /** The lines that are not ignored assign allowed variables. */
  predicate Assigning(payload: seq<string>, allowed: set<string>) {
    forall n :: 0 <= n < |payload| && !Ignored(payload[n]) ==>
      ParseLine(payload[n]).Some? && ParseLine(payload[n]).value.key in allowed
  }

  /** The line assigns this variable. */
  predicate Names(line: string, key: string) {
    !Ignored(line) && Assigns(line, key)
  }

  ghost predicate NoneTwice(payload: seq<string>) {
    forall i, j, key :: 0 <= i < j < |payload| && Names(payload[i], key) ==> !Names(payload[j], key)
  }

  lemma {:induction false} IncomingKeys(payload: seq<string>, n: nat, key: string)
    requires n <= |payload|
    ensures key in Incoming(payload[..n]) <==> exists i :: 0 <= i < n && Names(payload[i], key)
  {
    if n > 0 {
      IncomingKeys(payload, n - 1, key);
      assert payload[..n][..n - 1] == payload[..n - 1];
    }
  }

  lemma LineIsOk(payload: seq<string>, allowed: set<string>, n: nat)
    requires n < |payload|
    ensures LineOk(payload, allowed, n) <==>
            || Ignored(payload[n])
            || (ParseLine(payload[n]).Some? && ParseLine(payload[n]).value.key in allowed
              && forall i :: 0 <= i < n ==> !Names(payload[i], ParseLine(payload[n]).value.key))
  {
    if ParseLine(payload[n]).Some? {
      IncomingKeys(payload, n, ParseLine(payload[n]).value.key);
    }
  }

  /** A payload is well formed exactly if its assignments are of allowed variables, and none assigns one again. */
  lemma WellFormedPayloads(payload: seq<string>, allowed: set<string>)
    ensures WellFormed(payload, allowed) <==> Assigning(payload, allowed) && NoneTwice(payload)
  {
    forall n | 0 <= n < |payload|
      ensures LineOk(payload, allowed, n) <==>
              || Ignored(payload[n])
              || (ParseLine(payload[n]).Some? && ParseLine(payload[n]).value.key in allowed
                && forall i :: 0 <= i < n ==> !Names(payload[i], ParseLine(payload[n]).value.key))
    {
      LineIsOk(payload, allowed, n);
    }
  }

  // ---------------------------------------------------------------- the file afterwards

  /** The one value that the lines give a variable, as the jobs read it; nothing unless it is assigned just once. */
  function Setting(lines: seq<string>, key: string): string {
    if |Assigned(lines, key)| == 1 then Effective(Assigned(lines, key)[0]) else ""
  }

  lemma PayloadSets(payload: seq<string>, lines: seq<string>, key: string)
    requires Payload(Order(payload), Incoming(payload)) && ValueOf(Incoming(payload), key) != ""
    ensures Setting(Merged(lines, Order(payload), Incoming(payload)), key) == ValueOf(Incoming(payload), key)
  {
    MergedAssigns(lines, Order(payload), Incoming(payload), key);
  }

  /** After an accepted installation the backup jobs find everything that they need in the file. */
  lemma InstalledServes(payload: seq<string>, lines: seq<string>)
    requires Accepted(payload, lines, ALLOWED, Complete, SECRETS) && Payload(Order(payload), Incoming(payload))
    ensures var after := Merged(lines, Order(payload), Incoming(payload));
            && Setting(after, "R2_ACCESS_KEY_ID") != "" && Setting(after, "R2_SECRET_ACCESS_KEY") != ""
            && Setting(after, "R2_BUCKET_NAME") != ""
            && (Setting(after, "R2_ACCOUNT_ID") != "" || Setting(after, "R2_ENDPOINT") != "")
            && |Setting(after, "BACKUP_ENCRYPTION_PASSWORD")| >= 32 && |Setting(after, "BACKUP_ENCRYPTION_SALT")| >= 32
            && Setting(after, "BACKUP_PROVIDER") == "r2" && Setting(after, "BACKUP_ENABLED") == "true"
  {
    var incoming := Incoming(payload);
    assert forall k :: k in REQUIRED ==> ValueOf(incoming, k) != "";
    PayloadSets(payload, lines, "R2_ACCESS_KEY_ID");
    PayloadSets(payload, lines, "R2_SECRET_ACCESS_KEY");
    PayloadSets(payload, lines, "R2_BUCKET_NAME");
    if ValueOf(incoming, "R2_ACCOUNT_ID") != "" {
      PayloadSets(payload, lines, "R2_ACCOUNT_ID");
    } else {
      PayloadSets(payload, lines, "R2_ENDPOINT");
    }
    PayloadSets(payload, lines, "BACKUP_ENCRYPTION_PASSWORD");
    PayloadSets(payload, lines, "BACKUP_ENCRYPTION_SALT");
    PayloadSets(payload, lines, "BACKUP_PROVIDER");
    PayloadSets(payload, lines, "BACKUP_ENABLED");
  }

  /** Nothing more is asked of a payload. */
  lemma EnoughIsComplete(incoming: map<string, string>)
    requires ValueOf(incoming, "R2_ACCESS_KEY_ID") != "" && ValueOf(incoming, "R2_SECRET_ACCESS_KEY") != ""
    requires ValueOf(incoming, "R2_BUCKET_NAME") != ""
    requires ValueOf(incoming, "R2_ACCOUNT_ID") != "" || ValueOf(incoming, "R2_ENDPOINT") != ""
    requires |ValueOf(incoming, "BACKUP_ENCRYPTION_PASSWORD")| >= 32
    requires |ValueOf(incoming, "BACKUP_ENCRYPTION_SALT")| >= 32
    requires ValueOf(incoming, "BACKUP_PROVIDER") == "r2" && ValueOf(incoming, "BACKUP_ENABLED") == "true"
    ensures Complete(incoming)
  {
    assert forall k :: k in REQUIRED ==>
      k in {"R2_ACCESS_KEY_ID", "R2_SECRET_ACCESS_KEY", "R2_BUCKET_NAME", PASSWORD, SALT};
  }

  lemma {:induction false} AssignedValues(lines: seq<string>, key: string, value: string)
    ensures value in Assigned(lines, key) <==>
            exists n :: 0 <= n < |lines| && Assigns(lines[n], key) && ParseLine(lines[n]).value.value == value
  {
    if lines != [] {
      var n := |lines| - 1;
      AssignedValues(lines[..n], key, value);
      assert forall i :: 0 <= i < n ==> lines[..n][i] == lines[i];
    }
  }

  /** No value that the lines give a secret is set and differs from the payload's. */
  ghost predicate SecretsAgree(lines: seq<string>, incoming: map<string, string>, secrets: set<string>) {
    forall key, value :: key in secrets && value in Assigned(lines, key) ==>
      Effective(value) == "" || Effective(value) == ValueOf(incoming, key)
  }

  lemma NoneRotates(lines: seq<string>, incoming: map<string, string>, secrets: set<string>)
    ensures (forall n :: 0 <= n < |lines| ==> !Rotates(lines[n], incoming, secrets))
            <==> SecretsAgree(lines, incoming, secrets)
  {
    forall key, value
      ensures value in Assigned(lines, key) <==>
              exists n :: 0 <= n < |lines| && Assigns(lines[n], key) && ParseLine(lines[n]).value.value == value
    {
      AssignedValues(lines, key, value);
    }
    if SecretsAgree(lines, incoming, secrets) {
      forall n | 0 <= n < |lines|
        ensures !Rotates(lines[n], incoming, secrets)
      {
        var v := ParseLine(lines[n]);
        if v.Some? {
          assert Assigns(lines[n], v.value.key);
          assert v.value.value in Assigned(lines, v.value.key);
        }
      }
    }
  }

  /** A payload is installed exactly if it is well formed and complete and agrees with every secret that is set. */
  lemma InstalledExactlyWhen(payload: seq<string>, lines: seq<string>, allowed: set<string>,
      complete: map<string, string> -> bool, secrets: set<string>)
    ensures Accepted(payload, lines, allowed, complete, secrets) <==>
            && Assigning(payload, allowed) && NoneTwice(payload)
            && complete(Incoming(payload)) && SecretsAgree(lines, Incoming(payload), secrets)
  {
    WellFormedPayloads(payload, allowed);
    NoneRotates(lines, Incoming(payload), secrets);
  }

  /** Everything that the two backup jobs read can be set by a payload. */
  lemma JobSettingsAllowed()
    ensures {"R2_ACCOUNT_ID", "R2_ENDPOINT", "R2_BUCKET_NAME", "BACKUP_PROVIDER", "BACKUP_ENABLED", "BACKUP_PREFIX",
             "BACKUP_INTERVAL_SECONDS", "BACKUP_MAX_STORAGE_BYTES", "BACKUP_BWLIMIT", "BACKUP_TPSLIMIT",
             "BACKUP_SOURCE_BUCKETS"} <= ALLOWED
    ensures {"NEON_BACKUP_URL", "POSTGRES_URL", "NEON_BACKUP_ENABLED", "NEON_BACKUP_INTERVAL_SECONDS",
             "NEON_BACKUP_RETRY_SECONDS", "NEON_BACKUP_KEEP", "NEON_BACKUP_TIMEOUT_SECONDS"} <= ALLOWED
  {
  }

  /** A payload reaches the settings of the backups only. */
  lemma BackupSettingsOnly(key: string)
    ensures key in ALLOWED ==>
              || key == "POSTGRES_URL" || HasPrefix(key, "R2_") || HasPrefix(key, "BACKUP_")
              || HasPrefix(key, "NEON_BACKUP_")
    ensures SECRETS == {"BACKUP_ENCRYPTION_PASSWORD", "BACKUP_ENCRYPTION_SALT"} && SECRETS <= REQUIRED <= ALLOWED
  {
  }
}

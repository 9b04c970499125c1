/**
 The textual form of resources and resource patterns, and the proof that matching the texts is what the policy
 evaluator's comparison of kinds stands for.
 */
module ResourceNames {
  import opened Authz
  import opened Decimal
  import opened Strings

  function KindName(kind: Kind): string {
    match kind
    case Untyped => ""
    case StudySet => "study-set"
    case ClassKind => "class"
    case User => "user"
    case Organization => "org"
    case Platform => "platform"
    case OtherKind(name) => name
  }

  function Arn(res: Resource): string {
    var kind := KindName(res.kind);
    if kind == "" then "hq:*"
    else if res.id <= 0 then "hq:" + kind + "/*"
    else "hq:" + kind + "/" + FormatInt(res.id)
  }

  /** The names as the services write them. */
  lemma NamesOfResources(owner: int, classId: int, orgId: int)
    ensures Arn(Resource(StudySet, 42, owner, classId, orgId)) == "hq:study-set/42"
    ensures Arn(Resource(ClassKind, 7, owner, classId, orgId)) == "hq:class/7"
    ensures Arn(Resource(Organization, 3, owner, classId, orgId)) == "hq:org/3"
  {
  }

  /** Without an id a name stands for all of its kind, and without a kind for everything. */
  lemma NamesOfKinds(owner: int, classId: int, orgId: int)
    ensures Arn(Resource(User, 0, owner, classId, orgId)) == "hq:user/*"
    ensures Arn(Resource(Platform, 0, owner, classId, orgId)) == "hq:platform/*"
    ensures Arn(Resource(Untyped, 5, owner, classId, orgId)) == "hq:*"
  {
  }

  function PatternText(pattern: ResourcePattern): string {
    match pattern
    case Everything => "hq:*"
    case OfKind(kind) => "hq:" + KindName(kind) + "/*"
  }

  predicate TextMatches(p: string, arn: string) {
    p == "hq:*" || p == "*" ||
    if HasSuffix(p, "/*") then
      var prefix := p[..|p| - 2];
      HasPrefix(arn, prefix + "/") || arn == prefix + "/*"
    else p == arn
  }

  method MatchResource(patterns: seq<string>, res: Resource) returns (found: bool)
    ensures found <==> exists p :: p in patterns && TextMatches(p, Arn(res))
  {
    var arn := Arn(res);
    for i := 0 to |patterns|
      invariant forall k :: 0 <= k < i ==> !TextMatches(patterns[k], arn)
    {
      var p := patterns[i];
      if p == "hq:*" || p == "*" {
        assert TextMatches(p, arn);
        return true;
      }
      if HasSuffix(p, "/*") {
        var prefix := p[..|p| - 2];
        if HasPrefix(arn, prefix + "/") || arn == prefix + "/*" {
          assert TextMatches(p, arn);
          return true;
        }
      } else if p == arn {
        assert TextMatches(p, arn);
        return true;
      }
    }
    return false;
  }

  /** The name is the kind itself, or the kind and more after a slash. */
  predicate Covers(kind: string, name: string) {
    name == kind || HasPrefix(name, kind + "/")
  }

  /** What follows the kind in a path: the kind is over at the first slash. */
  lemma PathBeginsWith(kind: string, name: string, tail: string)
    requires '/' !in kind
    ensures HasPrefix(name + "/" + tail, kind + "/") <==> Covers(kind, name)
  {
    var path, start := name + "/" + tail, kind + "/";
    assert path[|name|] == '/';
    if HasPrefix(path, start) {
      assert path[..|kind|] == start[..|kind|] == kind;
      assert forall i :: 0 <= i < |kind| ==> kind[i] == path[i];
      if |name| == |kind| {
        assert path[..|name|] == name;
      } else if |name| > |kind| {
        assert path[..|start|] == name[..|start|];
      }
    }
    if Covers(kind, name) {
      assert path[..|start|] == start;
    }
  }

  /** A pattern text covers the resources of its kind, and those whose kind goes on after a slash, and no others. */
  lemma KindPatternText(kind: string, name: string, tail: string)
    requires kind != "" && '/' !in kind
    ensures TextMatches("hq:" + kind + "/*", "hq:" + name + "/" + tail) <==> Covers(kind, name)
  {
    var p, arn, start := "hq:" + kind + "/*", "hq:" + name + "/" + tail, "hq:" + kind + "/";
    assert p[|p| - 2..] == "/*" && p[..|p| - 2] == "hq:" + kind;
    assert p[|p| - 2] == '/' && |p| > 4;
    assert p != "hq:*" && p != "*";
    assert p[..|p| - 2] + "/" == start;
    assert arn[3..] == name + "/" + tail && start[3..] == kind + "/";
    if HasPrefix(arn, start) {
      assert arn[..|start|][3..] == arn[3..][..|start| - 3];
    }
    if HasPrefix(arn[3..], start[3..]) {
      assert arn[..|start|] == arn[..3] + arn[3..][..|start| - 3];
    }
    PathBeginsWith(kind, name, tail);
  }

  /** For the kinds of the managed patterns and every resource type there can be. */
  lemma TextMatchesExactly(kind: Kind, res: Resource)
    requires kind in {StudySet, ClassKind, Organization}
    ensures TextMatches(PatternText(OfKind(kind)), Arn(res)) <==> Covers(KindName(kind), KindName(res.kind))
  {
    var text, name := KindName(kind), KindName(res.kind);
    assert '/' !in text;
    if name == "" {
      var p := PatternText(OfKind(kind));
      assert p[|p| - 2..] == "/*" && p[..|p| - 2] == "hq:" + text;
      assert |p| > 4 && (p[..|p| - 2] + "/")[3] != '*' && "hq:*"[3] == '*';
    } else {
      var tail := if res.id <= 0 then "*" else FormatInt(res.id);
      assert Arn(res) == "hq:" + name + "/" + tail by {
        assert "/*" == "/" + "*";
      }
      assert PatternText(OfKind(kind)) == "hq:" + text + "/*";
      KindPatternText(text, name, tail);
    }
  }

  /** The kind's text tells it from every other kind. */
  ghost predicate WellNamed(kind: Kind) {
    kind.OtherKind? ==>
      forall k: Kind :: !k.OtherKind? ==> KindName(k) != kind.name && !HasPrefix(kind.name, KindName(k) + "/")
  }

  lemma NoKindWithinAnother(a: Kind, b: Kind)
    requires !a.OtherKind? && WellNamed(b)
    ensures !HasPrefix(KindName(b), KindName(a) + "/")
  {
    if !b.OtherKind? {
      assert '/' !in KindName(b);
      assert (KindName(a) + "/")[|KindName(a)|] == '/';
    }
  }

  lemma KindNamesDiffer(a: Kind, b: Kind)
    requires WellNamed(a) && WellNamed(b) && KindName(a) == KindName(b)
    ensures a == b
  {
    if !a.OtherKind? && !b.OtherKind? {
      assert |KindName(a)| == |KindName(b)|;
      assert |KindName(a)| == 5 || |KindName(a)| == 4 || |KindName(a)| == 3 || |KindName(a)| == 0
        || |KindName(a)| == 8 || |KindName(a)| == 9;
    }
  }

  /**
   Matching the texts of a managed pattern and a resource is comparing their kinds, for every resource type that the
   program has, and for any other whose name neither is one of these nor goes on from one after a slash.
   */
  lemma TextMatchesKind(pattern: ResourcePattern, res: Resource)
    requires WellNamed(res.kind)
    requires pattern.OfKind? ==> pattern.kind in {StudySet, ClassKind, Organization}
    ensures TextMatches(PatternText(pattern), Arn(res)) <==> MatchesResource(pattern, res)
  {
    if pattern.OfKind? {
      TextMatchesExactly(pattern.kind, res);
      NoKindWithinAnother(pattern.kind, res.kind);
      if KindName(res.kind) == KindName(pattern.kind) {
        KindNamesDiffer(pattern.kind, res.kind);
      }
    }
  }
}

/** Splitting a username at its colons, and the service accounts the mutator ignores. */
module Usernames {

  const DEPLOYER_NAMESPACE := "rcs-deployer-system"
  const PARTS_COUNT := 4
  const NAMESPACE_INDEX := 2

  /** The service account under which both controllers write. */
  const CONTROLLER :=
    "system" + ":" + ("serviceaccount" + ":" + (DEPLOYER_NAMESPACE + ":" + "rcs-deployer-controller-manager"))

  function SplitSpec(s: string, c: char): (parts: seq<string>)
    ensures |parts| > 0
    ensures forall p :: p in parts ==> c !in p
  {
    if s == [] then [""]
    else
      var rest := SplitSpec(s[1..], c);
      if s[0] == c then [""] + rest else [[s[0]] + rest[0]] + rest[1..]
  }

  function Join(parts: seq<string>, c: char): string
    requires |parts| > 0
  {
    if |parts| == 1 then parts[0] else parts[0] + [c] + Join(parts[1..], c)
  }

  lemma {:induction false} JoinSplit(s: string, c: char)
    ensures Join(SplitSpec(s, c), c) == s
  {
    if s != [] {
      var rest := SplitSpec(s[1..], c);
      JoinSplit(s[1..], c);
      if s[0] == c {
        assert ([""] + rest)[1..] == rest;
      } else {
        assert ([[s[0]] + rest[0]] + rest[1..])[1..] == rest[1..];
      }
      assert s == [s[0]] + s[1..];
    }
  }

  lemma {:induction false} SplitPrefix(pre: string, c: char, post: string)
    requires c !in pre
    ensures SplitSpec(pre + [c] + post, c) == [pre] + SplitSpec(post, c)
  {
    var s := pre + [c] + post;
    if pre == [] {
      assert s[1..] == post;
    } else {
      SplitPrefix(pre[1..], c, post);
      assert s[1..] == pre[1..] + [c] + post;
      assert [pre[0]] + pre[1..] == pre;
    }
  }

  lemma {:induction false} SplitFree(s: string, c: char)
    requires c !in s
    ensures SplitSpec(s, c) == [s]
  {
    if s != [] {
      SplitFree(s[1..], c);
      assert [s[0]] + s[1..] == s;
    }
  }

  lemma {:induction false} SplitJoin(parts: seq<string>, c: char)
    requires |parts| > 0
    requires forall p :: p in parts ==> c !in p
    ensures SplitSpec(Join(parts, c), c) == parts
  {
    if |parts| == 1 {
      SplitFree(parts[0], c);
    } else {
      SplitJoin(parts[1..], c);
      SplitPrefix(parts[0], c, Join(parts[1..], c));
    }
  }

  lemma SplitAt(s: string, start: nat, i: nat, c: char)
    requires start <= i < |s| && s[i] == c && c !in s[start..i]
    ensures SplitSpec(s[start..], c) == [s[start..i]] + SplitSpec(s[i + 1..], c)
  {
    assert s[start..] == s[start..i] + [c] + s[i + 1..];
    SplitPrefix(s[start..i], c, s[i + 1..]);
  }

  lemma Regroup(a: seq<string>, b: string, c: seq<string>)
    ensures a + ([b] + c) == (a + [b]) + c
  {
  }

  /** strings.Split for a one-character separator. */
  method Split(s: string, c: char) returns (parts: seq<string>)
    ensures parts == SplitSpec(s, c)
  {
    parts := [];
    var start, i := 0, 0;
    while i < |s|
      invariant 0 <= start <= i <= |s|
      invariant c !in s[start..i]
      invariant SplitSpec(s, c) == parts + SplitSpec(s[start..], c)
    {
      if s[i] == c {
        SplitAt(s, start, i, c);
        Regroup(parts, s[start..i], SplitSpec(s[i + 1..], c));
        parts := parts + [s[start..i]];
        start := i + 1;
      }
      i := i + 1;
    }
    assert s[start..i] == s[start..];
    SplitFree(s[start..], c);
    parts := parts + [s[start..]];
  }

  /** The usernames the mutator treats as the deployer's own. */
  ghost predicate ExcludedAccount(username: string) {
    exists parts: seq<string> ::
      && |parts| == PARTS_COUNT
      && (forall p :: p in parts ==> ':' !in p)
      && parts[NAMESPACE_INDEX] == DEPLOYER_NAMESPACE
      && username == Join(parts, ':')
  }

  /** What the recogniser computes from the split. */
  predicate Excluded(username: string) {
    var parts := SplitSpec(username, ':');
    |parts| == PARTS_COUNT && parts[NAMESPACE_INDEX] == DEPLOYER_NAMESPACE
  }

  lemma JoinFour(parts: seq<string>)
    requires |parts| == 4
    ensures Join(parts, ':') == parts[0] + ":" + parts[1] + ":" + parts[2] + ":" + parts[3]
  {
    var rest := parts[1..];
    assert rest[1..] == parts[2..] && parts[2..][1..] == parts[3..] && parts[3..][0] == parts[3];
    assert Join(parts[2..], ':') == parts[2] + ":" + parts[3];
    assert Join(rest, ':') == parts[1] + ":" + (parts[2] + ":" + parts[3]);
    assert Join(parts, ':') == parts[0] + ":" + (parts[1] + ":" + (parts[2] + ":" + parts[3]));
  }

  lemma NamespaceInside(a: string, b: string, d: string)
    ensures a + ":" + b + ":" + DEPLOYER_NAMESPACE + ":" + d == a + ":" + b + ":rcs-deployer-system:" + d
  {
    assert ":" + DEPLOYER_NAMESPACE + ":" == ":rcs-deployer-system:";
    assert a + ":" + b + ":" + DEPLOYER_NAMESPACE + ":" + d == a + ":" + b + (":" + DEPLOYER_NAMESPACE + ":") + d;
  }

  /** The username in full: two parts, the deployer's namespace, and one more part. */
  lemma FourParts(username: string)
    ensures ExcludedAccount(username) <==>
      exists a: string, b: string, d: string ::
        ':' !in a && ':' !in b && ':' !in d && username == a + ":" + b + ":rcs-deployer-system:" + d
  {
    if ExcludedAccount(username) {
      var parts: seq<string> :|
        && |parts| == PARTS_COUNT
        && (forall p :: p in parts ==> ':' !in p)
        && parts[NAMESPACE_INDEX] == DEPLOYER_NAMESPACE
        && username == Join(parts, ':');
      JoinFour(parts);
      NamespaceInside(parts[0], parts[1], parts[3]);
      assert ':' !in parts[0] && ':' !in parts[1] && ':' !in parts[3];
    }
    if a: string, b: string, d: string :|
      ':' !in a && ':' !in b && ':' !in d && username == a + ":" + b + ":rcs-deployer-system:" + d {
      var parts := [a, b, DEPLOYER_NAMESPACE, d];
      JoinFour(parts);
      NamespaceInside(a, b, d);
      NoColonInside();
      assert username == Join(parts, ':');
    }
  }

  lemma NoColonInside()
    ensures ':' !in DEPLOYER_NAMESPACE
  {
  }

  method IsExcludedServiceAccount(username: string) returns (excluded: bool)
    ensures excluded == Excluded(username)
    ensures excluded <==> ExcludedAccount(username)
    ensures excluded <==>
      exists a: string, b: string, d: string ::
        ':' !in a && ':' !in b && ':' !in d && username == a + ":" + b + ":rcs-deployer-system:" + d
  {
    var parts := Split(username, ':');
    ExcludedIff(username);
    FourParts(username);
    if |parts| == PARTS_COUNT && parts[NAMESPACE_INDEX] == DEPLOYER_NAMESPACE {
      return true;
    }
    return false;
  }

  lemma ExcludedIff(username: string)
    ensures Excluded(username) <==> ExcludedAccount(username)
  {
    var split := SplitSpec(username, ':');
    if Excluded(username) {
      JoinSplit(username, ':');
      assert username == Join(split, ':');
    }
    if ExcludedAccount(username) {
      var parts: seq<string> :|
        && |parts| == PARTS_COUNT
        && (forall p :: p in parts ==> ':' !in p)
        && parts[NAMESPACE_INDEX] == DEPLOYER_NAMESPACE
        && username == Join(parts, ':');
      SplitJoin(parts, ':');
    }
  }

  /** The controllers' own writes are never recorded as user updates. */
  lemma ControllerIsExcluded()
    ensures Excluded(CONTROLLER)
  {
    var parts := ["system", "serviceaccount", DEPLOYER_NAMESPACE, "rcs-deployer-controller-manager"];
    calc {
      Join(parts, ':');
      { assert parts[1..] == [parts[1], parts[2], parts[3]]; }
      parts[0] + ":" + Join([parts[1], parts[2], parts[3]], ':');
      { assert [parts[1], parts[2], parts[3]][1..] == [parts[2], parts[3]]; }
      parts[0] + ":" + (parts[1] + ":" + Join([parts[2], parts[3]], ':'));
      { assert [parts[2], parts[3]][1..] == [parts[3]]; }
      parts[0] + ":" + (parts[1] + ":" + (parts[2] + ":" + parts[3]));
      CONTROLLER;
    }
    SplitJoin(parts, ':');
  }
}

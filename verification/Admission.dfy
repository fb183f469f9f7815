/** The two webhooks that every main-resource write of a Capp passes. */
module Admission {
  import opened Objects
  import opened Heap
  import opened Usernames
  import opened References

  datatype Dns = NoSuchHost | HostResolves | LookupError

  /** What the webhooks read. Predicates on strings that the program takes from libraries are given by
      their extension: the fully qualified names, the (pattern, name) pairs that match. */
  datatype AdmissionEnv = AdmissionEnv(config: Option<RcsConfig>, clusters: seq<string>, fqdns: set<string>,
                                       matching: set<(string, string)>, localDomain: string, dns: map<string, Dns>)

  const CPU := "cpu"
  const MEMORY := "memory"

  /* ----- Mutation: specification ----- */

  /** Existing entries stay; a missing entry with one of the names takes its default. */
  function Filled(entries: map<string, string>, defaults: map<string, string>, names: seq<string>): map<string, string>
  {
    (map x | x in defaults && x in names :: defaults[x]) + entries
  }

  /** An absent list stays absent: the source fills only its copy of the container. */
  function FilledList(list: ResourceList, defaults: map<string, string>): ResourceList {
    if list.None? then None else Some(Filled(list.value, defaults, [CPU, MEMORY]))
  }

  function MutateContainers(cs: seq<Container>, cfg: RcsConfig): (r: seq<Container>)
    ensures |r| == |cs|
    ensures forall i :: 0 <= i < |cs| ==>
      r[i] == cs[i].(requests := FilledList(cs[i].requests, cfg.defaultRequests),
                     limits := FilledList(cs[i].limits, cfg.defaultLimits))
  {
    if cs == [] then []
    else
      [cs[0].(requests := FilledList(cs[0].requests, cfg.defaultRequests),
              limits := FilledList(cs[0].limits, cfg.defaultLimits))] + MutateContainers(cs[1..], cfg)
  }

  function MutateSpec(spec: CappSpec, cfg: RcsConfig): CappSpec {
    spec.(containers := MutateContainers(spec.containers, cfg))
  }

  function MutatedAnnotations(annotations: map<string, string>, username: string): map<string, string> {
    if Excluded(username) then annotations else annotations[LAST_UPDATED_BY := username]
  }

  /** Defaulting twice is defaulting once. */
  lemma MutateIdempotent(spec: CappSpec, cfg: RcsConfig)
    ensures MutateSpec(MutateSpec(spec, cfg), cfg) == MutateSpec(spec, cfg)
  {
    var once := MutateContainers(spec.containers, cfg);
    var twice := MutateContainers(once, cfg);
    forall i | 0 <= i < |once|
      ensures twice[i] == once[i]
    {
      FilledListIdempotent(spec.containers[i].requests, cfg.defaultRequests);
      FilledListIdempotent(spec.containers[i].limits, cfg.defaultLimits);
    }
    assert twice == once;
  }

  lemma FilledListIdempotent(list: ResourceList, defaults: map<string, string>)
    ensures FilledList(FilledList(list, defaults), defaults) == FilledList(list, defaults)
  {
    if list.Some? {
      var once := Filled(list.value, defaults, [CPU, MEMORY]);
      assert Filled(once, defaults, [CPU, MEMORY]) == once;
    }
  }

  /** Every entry that has a default is present. */
  predicate Defaulted(list: ResourceList, defaults: map<string, string>) {
    forall n :: n in [CPU, MEMORY] && n in defaults ==> list.Some? && n in list.value
  }

  /** Resources that do not exist are meant to be set to their defaults. They are exactly when the Capp had a
      resource list at all, or there is no default to set. */
  lemma DefaultedIff(list: ResourceList, defaults: map<string, string>)
    ensures Defaulted(FilledList(list, defaults), defaults)
       <==> list.Some? || (CPU !in defaults && MEMORY !in defaults)
  {
    assert [CPU, MEMORY][0] == CPU && [CPU, MEMORY][1] == MEMORY;
  }

  /** A container without requests stays without, whatever is configured. */
  lemma AbsentRequestsStayAbsent(quantity: string)
    ensures !Defaulted(FilledList(None, map[CPU := quantity]), map[CPU := quantity])
  {
    DefaultedIff(None, map[CPU := quantity]);
  }

  /* ----- Mutation: the program, on shared maps ----- */

  datatype ContainerRef = ContainerRef(requests: StringMap?, limits: StringMap?)

  ghost function ListView(m: StringMap?): ResourceList
    reads m
  {
    if m == null then None else Some(m.entries)
  }

  ghost function MapsOf(cs: seq<ContainerRef>): set<StringMap> {
    (set i | 0 <= i < |cs| && cs[i].requests != null :: cs[i].requests)
    + (set i | 0 <= i < |cs| && cs[i].limits != null :: cs[i].limits)
  }

  /** No map is shared between two lists, as in a freshly decoded object. */
  ghost predicate Unaliased(cs: seq<ContainerRef>) {
    && (forall i, j :: 0 <= i < |cs| && 0 <= j < |cs| && cs[i].requests != null ==> cs[i].requests != cs[j].limits)
    && (forall i, j :: 0 <= i < j < |cs| && cs[i].requests != null ==> cs[i].requests != cs[j].requests)
    && (forall i, j :: 0 <= i < j < |cs| && cs[i].limits != null ==> cs[i].limits != cs[j].limits)
  }

  /** The result is the pointer's target after the call: a new map when there was none and a default applies. */
  method SetResourceQuantity(list: StringMap?, defaults: map<string, string>, names: seq<string>)
    returns (target: StringMap?)
    modifies list
    ensures list != null ==> target == list && list.entries == Filled(old(list.entries), defaults, names)
    ensures list == null ==> target == null || fresh(target)
    ensures list == null && target == null ==> forall n :: n in names ==> n !in defaults
    ensures list == null && target != null ==>
      && (exists n :: n in names && n in defaults)
      && target.entries == Filled(map[], defaults, names)
  {
    target := list;
    ghost var start := if list == null then map[] else list.entries;
    for i := 0 to |names|
      invariant list != null ==> target == list
      invariant list == null && target != null ==> fresh(target)
      invariant target == null ==> forall n :: n in names[..i] ==> n !in defaults
      invariant list == null && target != null ==> exists n :: n in names[..i] && n in defaults
      invariant target != null ==> target.entries == Filled(start, defaults, names[..i])
    {
      var name := names[i];
      FilledNext(start, defaults, names, i);
      if name in defaults {
        if target == null {
          target := new StringMap(map[]);
          assert Filled(start, defaults, names[..i]) == map[];
        }
        if name !in target.entries {
          target.entries := target.entries[name := defaults[name]];
        }
      }
      assert names[..i + 1] == names[..i] + [name];
    }
    assert names[..|names|] == names;
  }

  lemma FilledNext(entries: map<string, string>, defaults: map<string, string>, names: seq<string>, i: nat)
    requires i < |names|
    ensures var before := Filled(entries, defaults, names[..i]);
      Filled(entries, defaults, names[..i + 1])
      == if names[i] in defaults && names[i] !in before then before[names[i] := defaults[names[i]]] else before
  {
    assert names[..i + 1] == names[..i] + [names[i]];
  }

  /** What one container does to the entries of the map `m`. */
  function FillOne(c: ContainerRef, cfg: RcsConfig, m: StringMap, entries: map<string, string>): map<string, string> {
    var filled := if c.requests == m then Filled(entries, cfg.defaultRequests, [CPU, MEMORY]) else entries;
    if c.limits == m then Filled(filled, cfg.defaultLimits, [CPU, MEMORY]) else filled
  }

  /** What all containers do, in order, to the entries of the map `m`, which any of their lists may be. */
  function Fills(cs: seq<ContainerRef>, cfg: RcsConfig, m: StringMap, entries: map<string, string>): map<string, string>
  {
    if cs == [] then entries
    else FillOne(cs[|cs| - 1], cfg, m, Fills(cs[..|cs| - 1], cfg, m, entries))
  }

  lemma {:induction false} NotFilled(cs: seq<ContainerRef>, cfg: RcsConfig, m: StringMap, entries: map<string, string>)
    requires forall i :: 0 <= i < |cs| ==> cs[i].requests != m && cs[i].limits != m
    ensures Fills(cs, cfg, m, entries) == entries
  {
    if cs != [] {
      NotFilled(cs[..|cs| - 1], cfg, m, entries);
    }
  }

  /** A map that is one list of one container and nothing else is filled once. */
  lemma {:induction false} FilledOnce(cs: seq<ContainerRef>, cfg: RcsConfig, at: nat, m: StringMap,
                                      entries: map<string, string>)
    requires at < |cs| && (cs[at].requests == m) != (cs[at].limits == m)
    requires forall i :: 0 <= i < |cs| && i != at ==> cs[i].requests != m && cs[i].limits != m
    ensures Fills(cs, cfg, m, entries)
         == Filled(entries, if cs[at].requests == m then cfg.defaultRequests else cfg.defaultLimits, [CPU, MEMORY])
  {
    var rest := cs[..|cs| - 1];
    if at == |rest| {
      NotFilled(rest, cfg, m, entries);
    } else {
      FilledOnce(rest, cfg, at, m, entries);
    }
  }

  lemma UnaliasedFills(cs: seq<ContainerRef>, cfg: RcsConfig, at: nat, requests: map<string, string>,
                       limits: map<string, string>)
    requires at < |cs| && Unaliased(cs)
    ensures cs[at].requests != null ==>
      Fills(cs, cfg, cs[at].requests, requests) == Filled(requests, cfg.defaultRequests, [CPU, MEMORY])
    ensures cs[at].limits != null ==>
      Fills(cs, cfg, cs[at].limits, limits) == Filled(limits, cfg.defaultLimits, [CPU, MEMORY])
  {
    if cs[at].requests != null {
      FilledOnce(cs, cfg, at, cs[at].requests, requests);
    }
    if cs[at].limits != null {
      FilledOnce(cs, cfg, at, cs[at].limits, limits);
    }
  }

  /** The entries of all resource lists, taken at some moment. */
  ghost function Entries(cs: seq<ContainerRef>): map<StringMap, map<string, string>>
    reads MapsOf(cs)
  {
    map m | m in MapsOf(cs) :: m.entries
  }

  /** Every map holds what the containers, in order, make of what it held. */
  ghost predicate FilledIn(cs: seq<ContainerRef>, cfg: RcsConfig, was: map<StringMap, map<string, string>>)
    reads MapsOf(cs)
  {
    was.Keys == MapsOf(cs) && forall m :: m in MapsOf(cs) ==> m.entries == Fills(cs, cfg, m, was[m])
  }

  ghost function ListWas(m: StringMap?, was: map<StringMap, map<string, string>>): ResourceList {
    if m == null || m !in was then None else Some(was[m])
  }

  /** Each list that existed has its old entries and the defaults; a list that did not exist still does not. */
  ghost predicate EachFilled(cs: seq<ContainerRef>, cfg: RcsConfig, was: map<StringMap, map<string, string>>)
    reads MapsOf(cs)
  {
    forall i :: 0 <= i < |cs| ==>
      && ListView(cs[i].requests) == FilledList(ListWas(cs[i].requests, was), cfg.defaultRequests)
      && ListView(cs[i].limits) == FilledList(ListWas(cs[i].limits, was), cfg.defaultLimits)
  }

  /** Without sharing, each list is filled with its own defaults alone. */
  lemma UnaliasedResult(cs: seq<ContainerRef>, cfg: RcsConfig, was: map<StringMap, map<string, string>>)
    requires Unaliased(cs) && FilledIn(cs, cfg, was)
    ensures EachFilled(cs, cfg, was)
  {
    forall i | 0 <= i < |cs|
      ensures ListView(cs[i].requests) == FilledList(ListWas(cs[i].requests, was), cfg.defaultRequests)
      ensures ListView(cs[i].limits) == FilledList(ListWas(cs[i].limits, was), cfg.defaultLimits)
    {
      var c := cs[i];
      UnaliasedFills(cs, cfg, i, if c.requests in was then was[c.requests] else map[],
                     if c.limits in was then was[c.limits] else map[]);
    }
  }

  lemma FillsNext(cs: seq<ContainerRef>, cfg: RcsConfig, i: nat, m: StringMap, entries: map<string, string>)
    requires i < |cs|
    ensures Fills(cs[..i + 1], cfg, m, entries) == FillOne(cs[i], cfg, m, Fills(cs[..i], cfg, m, entries))
  {
    assert cs[..i + 1][..i] == cs[..i];
  }

  /** The body of the loop over the containers, on its copy of one of them. */
  method MutateContainer(c: ContainerRef, cfg: RcsConfig)
    modifies c.requests, c.limits
    ensures c.requests != null ==> c.requests.entries == FillOne(c, cfg, c.requests, old(c.requests.entries))
    ensures c.limits != null ==> c.limits.entries == FillOne(c, cfg, c.limits, old(c.limits.entries))
  {
    var container, resources := c, [CPU, MEMORY];
    var requests := SetResourceQuantity(container.requests, cfg.defaultRequests, resources);
    container := container.(requests := requests);
    var limits := SetResourceQuantity(container.limits, cfg.defaultLimits, resources);
    container := container.(limits := limits);
  }

  /** The loop ranges over copies of the containers: maps are written in place, whoever shares them, but a list that
      was absent stays absent in the array. */
  method MutateResources(containers: array<ContainerRef>, cfg: RcsConfig)
    modifies MapsOf(containers[..])
    ensures FilledIn(containers[..], cfg, old(Entries(containers[..])))
    ensures Unaliased(containers[..]) ==> EachFilled(containers[..], cfg, old(Entries(containers[..])))
  {
    ghost var cs := containers[..];
    ghost var was := Entries(cs);
    for i := 0 to containers.Length
      invariant forall m :: m in MapsOf(cs) ==> m.entries == Fills(cs[..i], cfg, m, was[m])
    {
      var container := containers[i];
      assert container == cs[i];
      MutateContainer(container, cfg);
      forall m | m in MapsOf(cs)
        ensures m.entries == Fills(cs[..i + 1], cfg, m, was[m])
      {
        FillsNext(cs, cfg, i, m, was[m]);
      }
    }
    assert cs[..containers.Length] == cs;
    if Unaliased(cs) {
      UnaliasedResult(cs, cfg, was);
    }
  }

  /** `annotations` is the Capp's annotation map; the result is the map the Capp holds afterwards. */
  method MutateAnnotations(annotations: StringMap?, username: string) returns (target: StringMap)
    modifies annotations
    ensures annotations != null ==> target == annotations
    ensures annotations == null ==> fresh(target)
    ensures target.entries
         == MutatedAnnotations(if annotations == null then map[] else old(annotations.entries), username)
    ensures var before := if annotations == null then map[] else old(annotations.entries);
      target.entries == if Excluded(username) then before else before[LAST_UPDATED_BY := username]
  {
    if annotations == null {
      target := new StringMap(map[]);
    } else {
      target := annotations;
    }
    var excluded := IsExcludedServiceAccount(username);
    if !excluded {
      target.entries := target.entries[LAST_UPDATED_BY := username];
    }
  }

  /* ----- Validation ----- */

  datatype HostError = NotFullyQualified | Matches(pattern: string) | LocalDomain | CheckFailed | Taken

  predicate HasSuffix(s: string, suffix: string): (b: bool)
    ensures b <==> exists p: string :: s == p + suffix
  {
    assert |suffix| <= |s| && s[|s| - |suffix|..] == suffix ==> s == s[..|s| - |suffix|] + suffix;
    |suffix| <= |s| && s[|s| - |suffix|..] == suffix
  }

  function DnsOf(env: AdmissionEnv, host: string): Dns {
    if host in env.dns then env.dns[host] else NoSuchHost
  }

  function PatternErrors(env: AdmissionEnv, host: string, patterns: seq<string>): seq<HostError> {
    if patterns == [] then []
    else
      var last := patterns[|patterns| - 1];
      PatternErrors(env, host, patterns[..|patterns| - 1])
      + if last != "" && (last, host) in env.matching then [Matches(last)] else []
  }

  function NameErrors(env: AdmissionEnv, host: string): seq<HostError> {
    if host in env.fqdns then [] else [NotFullyQualified]
  }

  function DomainErrors(env: AdmissionEnv, host: string): seq<HostError> {
    if HasSuffix(host, "." + env.localDomain) then [LocalDomain] else []
  }

  function LookupErrors(env: AdmissionEnv, host: string): seq<HostError> {
    match DnsOf(env, host)
    case NoSuchHost => []
    case HostResolves => [Taken]
    case LookupError => [CheckFailed]
  }

  function HostErrors(env: AdmissionEnv, host: string, patterns: seq<string>): seq<HostError> {
    if host == "" then []
    else
      NameErrors(env, host) + PatternErrors(env, host, patterns) + DomainErrors(env, host) + LookupErrors(env, host)
  }

  /** The hostname passes every check. */
  ghost predicate HostnameOk(env: AdmissionEnv, host: string, patterns: seq<string>) {
    host != "" ==>
      && host in env.fqdns
      && (forall i :: 0 <= i < |patterns| && patterns[i] != "" ==> (patterns[i], host) !in env.matching)
      && (forall p: string :: host != p + ("." + env.localDomain))
      && (host in env.dns ==> env.dns[host] == NoSuchHost)
  }

  lemma {:induction false} NoPatternErrors(env: AdmissionEnv, host: string, patterns: seq<string>)
    ensures PatternErrors(env, host, patterns) == []
       <==> forall p :: p in patterns && p != "" ==> (p, host) !in env.matching
  {
    if patterns != [] {
      var n := |patterns| - 1;
      NoPatternErrors(env, host, patterns[..n]);
      assert patterns == patterns[..n] + [patterns[n]];
    }
  }

  lemma NoHostErrors(env: AdmissionEnv, host: string, patterns: seq<string>)
    ensures HostErrors(env, host, patterns) == [] <==> HostnameOk(env, host, patterns)
  {
    NoPatternErrors(env, host, patterns);
  }

  lemma PatternErrorsNext(env: AdmissionEnv, host: string, patterns: seq<string>, i: nat)
    requires i < |patterns|
    ensures PatternErrors(env, host, patterns[..i + 1])
         == PatternErrors(env, host, patterns[..i])
            + if patterns[i] != "" && (patterns[i], host) in env.matching then [Matches(patterns[i])] else []
  {
    assert patterns[..i + 1][..i] == patterns[..i];
  }

  lemma {:induction false} MatchesAre(env: AdmissionEnv, host: string, patterns: seq<string>, e: HostError)
    ensures e in PatternErrors(env, host, patterns) <==>
      exists i :: 0 <= i < |patterns| && patterns[i] != "" && (patterns[i], host) in env.matching
                  && e == Matches(patterns[i])
  {
    if patterns != [] {
      var n := |patterns| - 1;
      MatchesAre(env, host, patterns[..n], e);
      if e in PatternErrors(env, host, patterns[..n]) {
        var i :| 0 <= i < n && patterns[..n][i] != "" && (patterns[..n][i], host) in env.matching
                 && e == Matches(patterns[..n][i]);
        assert patterns[i] == patterns[..n][i];
      }
      if i :| 0 <= i < n && patterns[i] != "" && (patterns[i], host) in env.matching && e == Matches(patterns[i]) {
        assert patterns[..n][i] == patterns[i];
      }
    }
  }

  /** Each check has its own error. */
  ghost predicate ErrorsSay(env: AdmissionEnv, host: string, patterns: seq<string>, errs: seq<HostError>) {
    && (NotFullyQualified in errs <==> host !in env.fqdns)
    && (forall p :: Matches(p) in errs <==> p in patterns && p != "" && (p, host) in env.matching)
    && (LocalDomain in errs <==> exists p: string :: host == p + ("." + env.localDomain))
    && (CheckFailed in errs <==> host in env.dns && env.dns[host] == LookupError)
    && (Taken in errs <==> host in env.dns && env.dns[host] == HostResolves)
  }

  lemma InOneOf(a: seq<HostError>, b: seq<HostError>, c: seq<HostError>, d: seq<HostError>, e: HostError)
    ensures e in a + b + c + d <==> e in a || e in b || e in c || e in d
  {
  }

  lemma ErrorIn(env: AdmissionEnv, host: string, patterns: seq<string>, e: HostError)
    requires host != ""
    ensures e in HostErrors(env, host, patterns) <==>
      || (e == NotFullyQualified && host !in env.fqdns)
      || (exists i :: 0 <= i < |patterns| && patterns[i] != "" && (patterns[i], host) in env.matching
                      && e == Matches(patterns[i]))
      || (e == LocalDomain && HasSuffix(host, "." + env.localDomain))
      || (e == CheckFailed && host in env.dns && env.dns[host] == LookupError)
      || (e == Taken && host in env.dns && env.dns[host] == HostResolves)
  {
    InOneOf(NameErrors(env, host), PatternErrors(env, host, patterns), DomainErrors(env, host),
            LookupErrors(env, host), e);
    MatchesAre(env, host, patterns, e);
  }

  lemma ErrorsAre(env: AdmissionEnv, host: string, patterns: seq<string>)
    requires host != ""
    ensures ErrorsSay(env, host, patterns, HostErrors(env, host, patterns))
  {
    ErrorIn(env, host, patterns, NotFullyQualified);
    ErrorIn(env, host, patterns, LocalDomain);
    ErrorIn(env, host, patterns, CheckFailed);
    ErrorIn(env, host, patterns, Taken);
    forall p
      ensures Matches(p) in HostErrors(env, host, patterns) <==> p in patterns && p != "" && (p, host) in env.matching
    {
      ErrorIn(env, host, patterns, Matches(p));
    }
  }

  method ValidateDomainName(env: AdmissionEnv, host: string, patterns: seq<string>) returns (errs: seq<HostError>)
    ensures errs == HostErrors(env, host, patterns)
    ensures errs == [] <==> HostnameOk(env, host, patterns)
    ensures host != "" ==> ErrorsSay(env, host, patterns, errs)
  {
    NoHostErrors(env, host, patterns);
    if host != "" {
      ErrorsAre(env, host, patterns);
    }
    errs := [];
    if host == "" {
      return;
    }
    if host !in env.fqdns {
      errs := errs + [NotFullyQualified];
    }
    assert errs == NameErrors(env, host);
    for i := 0 to |patterns|
      invariant errs == NameErrors(env, host) + PatternErrors(env, host, patterns[..i])
    {
      PatternErrorsNext(env, host, patterns, i);
      if patterns[i] != "" {
        if (patterns[i], host) in env.matching {
          errs := errs + [Matches(patterns[i])];
        }
      }
    }
    assert patterns[..|patterns|] == patterns;
    ghost var errs1 := errs;
    if HasSuffix(host, "." + env.localDomain) {
      errs := errs + [LocalDomain];
    }
    assert errs == errs1 + DomainErrors(env, host);
    ghost var errs2 := errs;
    var answer := DnsOf(env, host);
    if answer == LookupError {
      errs := errs + [CheckFailed];
    }
    if answer == HostResolves {
      errs := errs + [Taken];
    }
    assert errs == errs2 + LookupErrors(env, host);
  }

  const REQUIRED_FIELDS := ["Host", "Index", "User", "PasswordSecret"]

  function FieldValues(l: LogSpec): map<string, string> {
    map["Host" := l.host, "Index" := l.index, "User" := l.user, "PasswordSecret" := l.passwordSecret]
  }

  predicate IsMissing(l: LogSpec, field: string) {
    field in FieldValues(l) ==> FieldValues(l)[field] == ""
  }

  /** The required fields that are missing, in order and with repetitions. */
  function MissingOf(l: LogSpec, required: seq<string>): seq<string> {
    Refs(required, f => if IsMissing(l, f) then Some(f) else None)
  }

  method FindMissingFields(l: LogSpec, required: seq<string>) returns (missing: seq<string>)
    ensures missing == MissingOf(l, required)
    ensures forall f :: f in missing <==> f in required && IsMissing(l, f)
  {
    missing := [];
    var values := FieldValues(l);
    for i := 0 to |required|
      invariant missing == MissingOf(l, required[..i])
      invariant forall f :: f in missing <==> f in required[..i] && IsMissing(l, f)
    {
      RefsNext(required, i, f => if IsMissing(l, f) then Some(f) else None);
      if required[i] !in values || values[required[i]] == "" {
        missing := missing + [required[i]];
      }
      assert required[..i + 1] == required[..i] + [required[i]];
    }
    assert required[..|required|] == required;
  }

  predicate LogSpecOk(l: LogSpec) {
    l.kind == "elastic" && l.host != "" && l.index != "" && l.user != "" && l.passwordSecret != ""
  }

  method ValidateLogSpec(l: LogSpec) returns (ok: bool)
    ensures ok <==> LogSpecOk(l)
    ensures ok <==> l.kind == "elastic" && l.host != "" && l.index != "" && l.user != "" && l.passwordSecret != ""
  {
    if l.kind != "elastic" {
      return false;
    }
    var missing := FindMissingFields(l, REQUIRED_FIELDS);
    NothingMissing(l, missing);
    return |missing| == 0;
  }

  lemma NothingMissing(l: LogSpec, missing: seq<string>)
    requires forall f :: f in missing <==> f in REQUIRED_FIELDS && IsMissing(l, f)
    ensures missing == [] <==> l.host != "" && l.index != "" && l.user != "" && l.passwordSecret != ""
  {
    var v := FieldValues(l);
    assert v["PasswordSecret"] == l.passwordSecret && v["User"] == l.user && v["Index"] == l.index;
    assert v["Host"] == l.host by {
      assert "Host"[0] != "Index"[0] && "Host"[0] != "User"[0] && "Host"[0] != "PasswordSecret"[0];
    }
    assert IsMissing(l, "Host") == (l.host == "") && IsMissing(l, "Index") == (l.index == "");
    assert IsMissing(l, "User") == (l.user == "") && IsMissing(l, "PasswordSecret") == (l.passwordSecret == "");
    assert REQUIRED_FIELDS[0] == "Host" && REQUIRED_FIELDS[1] == "Index";
    assert REQUIRED_FIELDS[2] == "User" && REQUIRED_FIELDS[3] == "PasswordSecret";
    if missing != [] {
      assert missing[0] in REQUIRED_FIELDS;
    }
  }

  const EMPTY_LOG_SPEC := LogSpec("", "", "", "", "")

  /** The site is empty, a managed cluster or a configured placement. */
  predicate SiteOk(env: AdmissionEnv, site: string): (ok: bool)
    ensures ok <==>
      || site == ""
      || (exists i :: 0 <= i < |env.clusters| && env.clusters[i] == site)
      || (env.config.Some?
          && exists i :: 0 <= i < |env.config.value.placements| && env.config.value.placements[i] == site)
  {
    site == "" || site in env.clusters || (env.config.Some? && site in env.config.value.placements)
  }

  /** The admission decision; on a create the old hostname is empty. */
  predicate Valid(env: AdmissionEnv, spec: CappSpec, oldHostname: string) {
    && env.config.Some?
    && SiteOk(env, spec.site)
    && (spec.hostname != oldHostname ==>
          HostErrors(env, spec.hostname, env.config.value.invalidHostnamePatterns) == [])
    && (spec.logSpec != EMPTY_LOG_SPEC ==> LogSpecOk(spec.logSpec))
  }

  method Handle(env: AdmissionEnv, spec: CappSpec, oldHostname: string) returns (allowed: bool)
    ensures allowed <==> Valid(env, spec, oldHostname)
    ensures allowed <==>
      && env.config.Some?
      && (|| spec.site == ""
          || (exists i :: 0 <= i < |env.clusters| && env.clusters[i] == spec.site)
          || exists i :: 0 <= i < |env.config.value.placements| && env.config.value.placements[i] == spec.site)
      && (spec.hostname != oldHostname ==>
            HostnameOk(env, spec.hostname, env.config.value.invalidHostnamePatterns))
      && (spec.logSpec != LogSpec("", "", "", "", "") ==>
            && spec.logSpec.kind == "elastic" && spec.logSpec.host != "" && spec.logSpec.index != ""
            && spec.logSpec.user != "" && spec.logSpec.passwordSecret != "")
  {
    if env.config.Some? {
      NoHostErrors(env, spec.hostname, env.config.value.invalidHostnamePatterns);
    }
    if env.config.None? {
      return false;
    }
    if !SiteOk(env, spec.site) {
      return false;
    }
    if spec.hostname != oldHostname {
      var errs := ValidateDomainName(env, spec.hostname, env.config.value.invalidHostnamePatterns);
      if errs != [] {
        return false;
      }
    }
    if spec.logSpec != EMPTY_LOG_SPEC {
      var ok := ValidateLogSpec(spec.logSpec);
      if !ok {
        return false;
      }
    }
    return true;
  }

  /* ----- A write through both webhooks ----- */

  /** The object that is stored for a requested write, or none when it is refused. Without a configuration
      neither webhook lets the write through. */
  function Admit(env: AdmissionEnv, username: string, oldHostname: string, req: Capp): (stored: Option<Capp>)
    ensures stored.Some? ==>
      && stored.value.(annotations := req.annotations, spec := req.spec) == req
      && stored.value.spec.(containers := req.spec.containers) == req.spec
      && Placement(stored.value) == Placement(req)
      && Valid(env, stored.value.spec, oldHostname)
  {
    if env.config.None? then None
    else
      var spec := MutateSpec(req.spec, env.config.value);
      KeysDiffer();
      if Valid(env, spec, oldHostname) then
        Some(req.(annotations := MutatedAnnotations(req.annotations, username), spec := spec))
      else None
  }

  lemma KeysDiffer()
    ensures HAS_PLACEMENT != LAST_UPDATED_BY
  {
    assert |HAS_PLACEMENT| != |LAST_UPDATED_BY|;
  }

  /* ----- What an admitted write stores, in the inputs alone ----- */

  /** An absent list stays absent. An existing list keeps its entries and gains the defaults for missing cpu and memory,
      and nothing else. */
  ghost predicate Supplied(before: ResourceList, after: ResourceList, defaults: map<string, string>) {
    && before.Some? == after.Some?
    && (before.Some? ==>
          && (forall n :: n in before.value ==> n in after.value && after.value[n] == before.value[n])
          && (forall n :: n in after.value && n !in before.value ==>
                (n == "cpu" || n == "memory") && n in defaults && after.value[n] == defaults[n])
          && (("cpu" in defaults ==> "cpu" in after.value) && ("memory" in defaults ==> "memory" in after.value)))
  }

  lemma FilledIsSupplied(list: ResourceList, defaults: map<string, string>)
    ensures Supplied(list, FilledList(list, defaults), defaults)
  {
    assert [CPU, MEMORY][0] == "cpu" && [CPU, MEMORY][1] == "memory";
  }

  /** Nothing but that list is supplied. */
  lemma SuppliedOnce(list: ResourceList, a: ResourceList, defaults: map<string, string>)
    requires Supplied(list, a, defaults)
    ensures a == FilledList(list, defaults)
  {
    FilledIsSupplied(list, defaults);
    if list.Some? {
      var b := FilledList(list, defaults).value;
      forall n
        ensures (n in a.value <==> n in b) && (n in b ==> a.value[n] == b[n])
      {
        assert n in [CPU, MEMORY] <==> n == "cpu" || n == "memory";
      }
      assert a.value == b;
    }
  }

  /** When requests and limits are one map, the requests' defaults come first. */
  lemma SharedListFilled(c: ContainerRef, cfg: RcsConfig, m: StringMap, entries: map<string, string>, n: string)
    requires c.requests == m && c.limits == m && n in [CPU, MEMORY] && n !in entries
    ensures var after := FillOne(c, cfg, m, entries);
      if n in cfg.defaultRequests then n in after && after[n] == cfg.defaultRequests[n]
      else if n in cfg.defaultLimits then n in after && after[n] == cfg.defaultLimits[n]
      else n !in after
  {
  }

  /** The annotation records the user unless the user is excluded; no other annotation differs. */
  ghost predicate Recorded(before: map<string, string>, after: map<string, string>, username: string) {
    && (forall x :: x != LAST_UPDATED_BY ==>
          (x in after <==> x in before) && (x in before ==> after[x] == before[x]))
    && (if Excluded(username) then
          && (LAST_UPDATED_BY in after <==> LAST_UPDATED_BY in before)
          && (LAST_UPDATED_BY in before ==> after[LAST_UPDATED_BY] == before[LAST_UPDATED_BY])
        else LAST_UPDATED_BY in after && after[LAST_UPDATED_BY] == username)
  }

  /** An admitted write stores the requested object, with the resources supplied and the user recorded. */
  ghost predicate StoredFor(req: Capp, stored: Capp, cfg: RcsConfig, username: string) {
    && stored.(annotations := req.annotations, spec := req.spec) == req
    && stored.spec.(containers := req.spec.containers) == req.spec
    && |stored.spec.containers| == |req.spec.containers|
    && (forall i :: 0 <= i < |req.spec.containers| ==>
          var before, after := req.spec.containers[i], stored.spec.containers[i];
          && after.(requests := before.requests, limits := before.limits) == before
          && Supplied(before.requests, after.requests, cfg.defaultRequests)
          && Supplied(before.limits, after.limits, cfg.defaultLimits))
    && Recorded(req.annotations, stored.annotations, username)
  }

  lemma MutatedIsStored(req: Capp, cfg: RcsConfig, username: string)
    ensures StoredFor(req, req.(annotations := MutatedAnnotations(req.annotations, username),
                                spec := MutateSpec(req.spec, cfg)), cfg, username)
  {
    forall i | 0 <= i < |req.spec.containers|
      ensures Supplied(req.spec.containers[i].requests, MutateSpec(req.spec, cfg).containers[i].requests,
                       cfg.defaultRequests)
      ensures Supplied(req.spec.containers[i].limits, MutateSpec(req.spec, cfg).containers[i].limits, cfg.defaultLimits)
    {
      FilledIsSupplied(req.spec.containers[i].requests, cfg.defaultRequests);
      FilledIsSupplied(req.spec.containers[i].limits, cfg.defaultLimits);
    }
  }

  /** Only one object is stored for a request. */
  lemma StoredOnce(req: Capp, a: Capp, cfg: RcsConfig, username: string)
    requires StoredFor(req, a, cfg, username)
    ensures a == req.(annotations := MutatedAnnotations(req.annotations, username), spec := MutateSpec(req.spec, cfg))
  {
    var containers := MutateSpec(req.spec, cfg).containers;
    forall i | 0 <= i < |containers|
      ensures a.spec.containers[i] == containers[i]
    {
      SuppliedOnce(req.spec.containers[i].requests, a.spec.containers[i].requests, cfg.defaultRequests);
      SuppliedOnce(req.spec.containers[i].limits, a.spec.containers[i].limits, cfg.defaultLimits);
    }
    assert a.spec.containers == containers;
    assert a.annotations == MutatedAnnotations(req.annotations, username);
  }

  /** A write is admitted exactly when there is a configuration and what would be stored passes the checks, and then
      that is stored. */
  lemma AdmitIff(env: AdmissionEnv, username: string, oldHostname: string, req: Capp, stored: Capp)
    ensures Admit(env, username, oldHostname, req) == Some(stored) <==>
      && env.config.Some? && StoredFor(req, stored, env.config.value, username)
      && Valid(env, stored.spec, oldHostname)
    ensures Admit(env, username, oldHostname, req).None? <==>
      env.config.None? || forall s :: StoredFor(req, s, env.config.value, username) ==> !Valid(env, s.spec, oldHostname)
  {
    if env.config.Some? {
      var cfg := env.config.value;
      var made := req.(annotations := MutatedAnnotations(req.annotations, username), spec := MutateSpec(req.spec, cfg));
      MutatedIsStored(req, cfg, username);
      forall s | StoredFor(req, s, cfg, username)
        ensures s == made
      {
        StoredOnce(req, s, cfg, username);
      }
    }
  }

  /* ----- The program stores the same ----- */

  /** The lists of a container as the heap held them. */
  ghost predicate Represents(cs: seq<ContainerRef>, was: map<StringMap, map<string, string>>,
                             containers: seq<Container>)
  {
    && |cs| == |containers|
    && forall i :: 0 <= i < |cs| ==>
         containers[i].requests == ListWas(cs[i].requests, was) && containers[i].limits == ListWas(cs[i].limits, was)
  }

  /** What is read back from the heap after the two mutations is what an admitted write stores: `annotations` as
      `MutateAnnotations` leaves them, the lists as `MutateResources` leaves them. */
  lemma HeapIsStored(env: AdmissionEnv, username: string, oldHostname: string, req: Capp, stored: Capp,
                     cs: seq<ContainerRef>, was: map<StringMap, map<string, string>>)
    requires env.config.Some? && Represents(cs, was, req.spec.containers) && EachFilled(cs, env.config.value, was)
    requires stored.annotations == MutatedAnnotations(req.annotations, username)
    requires stored.(annotations := req.annotations, spec := req.spec) == req
    requires stored.spec.(containers := req.spec.containers) == req.spec && |stored.spec.containers| == |cs|
    requires forall i :: 0 <= i < |cs| ==>
      stored.spec.containers[i]
      == req.spec.containers[i].(requests := ListView(cs[i].requests), limits := ListView(cs[i].limits))
    ensures StoredFor(req, stored, env.config.value, username)
    ensures Admit(env, username, oldHostname, req)
         == if Valid(env, stored.spec, oldHostname) then Some(stored) else None
  {
    var cfg := env.config.value;
    assert stored.spec.containers == MutateSpec(req.spec, cfg).containers;
    MutatedIsStored(req, cfg, username);
    assert stored == req.(annotations := MutatedAnnotations(req.annotations, username),
                          spec := MutateSpec(req.spec, cfg));
  }
}

/** Choosing the managed cluster for a Capp. */
module Decisions {
  import opened Objects

  const LOCAL_CLUSTER := "local-cluster"
  const DEFAULT_PLACEMENTS_NAMESPACE := "default"

  /** What the hub holds: the Placements, and for each one its PlacementDecisions, each a list of clusters. */
  datatype Lookup = Lookup(placements: set<Key>, decisions: map<Key, seq<seq<string>>>)

  datatype Choice = Cluster(name: string) | NoManagedCluster | Failed

  function FirstRemote(clusters: seq<string>): string {
    if clusters == [] then "" else if clusters[0] != LOCAL_CLUSTER then clusters[0] else FirstRemote(clusters[1..])
  }

  function DecisionSpec(items: seq<seq<string>>): string {
    if items == [] || items[0] == [] then "" else if |items[0]| == 1 then items[0][0] else FirstRemote(items[0])
  }

  /** `c` stands at position `i` of a decision list and everything that had to be skipped is the local cluster. */
  predicate ChosenAt(clusters: seq<string>, i: nat, c: string) {
    && i < |clusters| && clusters[i] == c
    && (|clusters| >= 2 ==> c != LOCAL_CLUSTER && forall j :: 0 <= j < i ==> clusters[j] == LOCAL_CLUSTER)
  }

  lemma {:induction false} FirstRemoteIs(clusters: seq<string>, i: nat, c: string)
    requires i < |clusters| && clusters[i] == c != LOCAL_CLUSTER
    requires forall j :: 0 <= j < i ==> clusters[j] == LOCAL_CLUSTER
    ensures FirstRemote(clusters) == c
  {
    if i > 0 {
      FirstRemoteIs(clusters[1..], i - 1, c);
    }
  }

  lemma {:induction false} FirstRemoteAt(clusters: seq<string>) returns (i: nat)
    requires FirstRemote(clusters) != ""
    ensures i < |clusters| && clusters[i] == FirstRemote(clusters) != LOCAL_CLUSTER
    ensures forall j :: 0 <= j < i ==> clusters[j] == LOCAL_CLUSTER
  {
    if clusters[0] != LOCAL_CLUSTER {
      i := 0;
    } else {
      i := FirstRemoteAt(clusters[1..]);
      i := i + 1;
    }
  }

  /** The decision taken is the one that stands first in the first list, past the local cluster. */
  lemma DecisionIff(c: string, items: seq<seq<string>>)
    requires c != ""
    ensures DecisionSpec(items) == c <==> items != [] && exists i: nat :: ChosenAt(items[0], i, c)
  {
    if DecisionSpec(items) == c {
      if |items[0]| == 1 {
        assert ChosenAt(items[0], 0, c);
      } else {
        var i := FirstRemoteAt(items[0]);
        assert ChosenAt(items[0], i, c);
      }
    }
    if items != [] && exists i: nat :: ChosenAt(items[0], i, c) {
      var i: nat :| ChosenAt(items[0], i, c);
      if |items[0]| >= 2 {
        FirstRemoteIs(items[0], i, c);
      }
    }
  }

  lemma DecisionFound(items: seq<seq<string>>)
    ensures var name := DecisionSpec(items);
      && (name != "" ==> items != [] && exists i: nat :: ChosenAt(items[0], i, name))
      && (name == "" ==> items == [] || forall i: nat, c :: ChosenAt(items[0], i, c) ==> c == "")
  {
    if DecisionSpec(items) != "" {
      DecisionIff(DecisionSpec(items), items);
    } else if items != [] {
      forall i: nat, c | ChosenAt(items[0], i, c)
        ensures c == ""
      {
        if c != "" { DecisionIff(c, items); }
      }
    }
  }

  method GetDecisionClusterName(items: seq<seq<string>>) returns (name: string)
    ensures name == DecisionSpec(items)
    ensures name != "" ==> items != [] && exists i: nat :: ChosenAt(items[0], i, name)
    ensures name == "" ==> items == [] || forall i: nat, c :: ChosenAt(items[0], i, c) ==> c == ""
  {
    DecisionFound(items);
    if |items| == 0 {
      return "";
    }
    var decisions := items[0];
    if |decisions| == 0 {
      return "";
    }
    if |decisions| == 1 {
      return decisions[0];
    }
    for i := 0 to |decisions|
      invariant FirstRemote(decisions) == FirstRemote(decisions[i..])
    {
      if decisions[i] != LOCAL_CLUSTER {
        return decisions[i];
      }
    }
    return "";
  }

  function NamespaceOf(cfg: RcsConfig): string {
    if cfg.placementsNamespace == "" then DEFAULT_PLACEMENTS_NAMESPACE else cfg.placementsNamespace
  }

  /** Whether the site asks for a Placement rather than naming a cluster. */
  predicate ByPlacement(cfg: RcsConfig, site: string) {
    site == "" || site in cfg.placements
  }

  /** The Placement consulted for a site. */
  function PlacementFor(cfg: RcsConfig, site: string): Key
    requires site != "" || cfg.placements != []
  {
    Key(NamespaceOf(cfg), if site == "" then cfg.placements[0] else site)
  }

  function DecisionsFor(p: Key, lookup: Lookup): seq<seq<string>> {
    if p in lookup.decisions then lookup.decisions[p] else []
  }

  function PickSpec(cfg: RcsConfig, site: string, lookup: Lookup): Choice
    requires site != "" || cfg.placements != []
  {
    var p := PlacementFor(cfg, site);
    if p !in lookup.placements then Failed
    else
      var name := DecisionSpec(DecisionsFor(p, lookup));
      if name == "" then NoManagedCluster else Cluster(name)
  }

  /** The cluster a placement reconcile settles on; the source indexes an empty list in the excluded case. */
  function Resolve(cfg: RcsConfig, site: string, lookup: Lookup): Choice
    requires site != "" || cfg.placements != []
  {
    if ByPlacement(cfg, site) then PickSpec(cfg, site, lookup) else Cluster(site)
  }

  /* ----- Where a chosen cluster comes from, in the inputs alone ----- */

  /** `c` is decided for the Placement: it stands in the first list of its decisions, alone, or as the first entry that
      is not the local cluster. */
  ghost predicate DecidedFor(p: Key, c: string, lookup: Lookup) {
    && c != "" && p in lookup.placements && p in lookup.decisions && lookup.decisions[p] != []
    && var clusters := lookup.decisions[p][0];
    && exists i: nat ::
         && i < |clusters| && clusters[i] == c
         && (|clusters| >= 2 ==>
               c != "local-cluster" && forall j :: 0 <= j < i ==> clusters[j] == "local-cluster")
  }

  /** A site that is neither empty nor a configured placement is the cluster itself. A configured placement is looked up
      under its own name, an empty site under the first configured placement; both in the configured namespace or else
      in "default". */
  ghost predicate Provenance(c: string, cfg: RcsConfig, site: string, lookup: Lookup) {
    var namespace := if cfg.placementsNamespace == "" then "default" else cfg.placementsNamespace;
    if site == "" then cfg.placements != [] && DecidedFor(Key(namespace, cfg.placements[0]), c, lookup)
    else if exists i :: 0 <= i < |cfg.placements| && cfg.placements[i] == site then
      DecidedFor(Key(namespace, site), c, lookup)
    else c == site
  }

  lemma DecidedIff(p: Key, c: string, lookup: Lookup)
    requires c != "" && p in lookup.placements
    ensures DecidedFor(p, c, lookup) <==> DecisionSpec(DecisionsFor(p, lookup)) == c
  {
    var items := DecisionsFor(p, lookup);
    DecisionIff(c, items);
    if items != [] {
      if DecidedFor(p, c, lookup) {
        var i: nat :|
          && i < |items[0]| && items[0][i] == c
          && (|items[0]| >= 2 ==>
                c != "local-cluster" && forall j :: 0 <= j < i ==> items[0][j] == "local-cluster");
        assert ChosenAt(items[0], i, c);
      }
      if DecisionSpec(items) == c {
        var i: nat :| ChosenAt(items[0], i, c);
        assert i < |items[0]| && items[0][i] == c;
      }
    }
  }

  /** A Placement that exists and for which nothing is decided is told from one that does not exist. */
  lemma PickAt(p: Key, cfg: RcsConfig, site: string, lookup: Lookup)
    requires site != "" || cfg.placements != []
    requires p == Key(if cfg.placementsNamespace == "" then "default" else cfg.placementsNamespace,
                      if site == "" then cfg.placements[0] else site)
    ensures forall c :: PickSpec(cfg, site, lookup) == Cluster(c) <==> DecidedFor(p, c, lookup)
    ensures PickSpec(cfg, site, lookup) == Failed <==> p !in lookup.placements
    ensures PickSpec(cfg, site, lookup) == NoManagedCluster <==>
      p in lookup.placements && forall c :: !DecidedFor(p, c, lookup)
  {
    assert p == PlacementFor(cfg, site);
    forall c
      ensures PickSpec(cfg, site, lookup) == Cluster(c) <==> DecidedFor(p, c, lookup)
    {
      if c != "" && p in lookup.placements {
        DecidedIff(p, c, lookup);
      }
    }
  }

  method PickDecision(cfg: RcsConfig, site: string, lookup: Lookup) returns (choice: Choice)
    requires site != "" || cfg.placements != []
    ensures choice == PickSpec(cfg, site, lookup)
    ensures var p := Key(if cfg.placementsNamespace == "" then "default" else cfg.placementsNamespace,
                         if site == "" then cfg.placements[0] else site);
      match choice
      case Failed => p !in lookup.placements
      case NoManagedCluster => p in lookup.placements && forall c :: !DecidedFor(p, c, lookup)
      case Cluster(c) => DecidedFor(p, c, lookup)
  {
    PickAt(PlacementFor(cfg, site), cfg, site, lookup);
    var placementRef := site;
    if site == "" {
      placementRef := cfg.placements[0];
    }
    var p := Key(NamespaceOf(cfg), placementRef);
    if p !in lookup.placements {
      return Failed;
    }
    var items := DecisionsFor(p, lookup);
    if |items| == 0 {
      return NoManagedCluster;
    }
    var name := GetDecisionClusterName(items);
    if name == "" {
      return NoManagedCluster;
    }
    return Cluster(name);
  }

  /* ----- Where a chosen cluster comes from ----- */

  /** A cluster is the one resolved exactly when it has that provenance. */
  lemma ResolveIffProvenance(c: string, cfg: RcsConfig, site: string, lookup: Lookup)
    requires site != "" || cfg.placements != []
    ensures Resolve(cfg, site, lookup) == Cluster(c) <==> Provenance(c, cfg, site, lookup)
    ensures Provenance(c, cfg, site, lookup) ==> c != ""
  {
    if site == "" || site in cfg.placements {
      PickAt(PlacementFor(cfg, site), cfg, site, lookup);
    }
  }

  /** A site that no configured placement bears is the cluster itself. */
  lemma RequestedCluster(cfg: RcsConfig, site: string, lookup: Lookup)
    requires site != "" && forall i :: 0 <= i < |cfg.placements| ==> cfg.placements[i] != site
    ensures Resolve(cfg, site, lookup) == Cluster(site)
  {
  }

  /** A configured placement that does not exist is an error; one that exists without a decision is waited for. */
  lemma RequestedPlacement(cfg: RcsConfig, site: string, lookup: Lookup, namespace: string)
    requires site != "" && exists i :: 0 <= i < |cfg.placements| && cfg.placements[i] == site
    requires namespace == if cfg.placementsNamespace == "" then "default" else cfg.placementsNamespace
    ensures Resolve(cfg, site, lookup) == Failed <==> Key(namespace, site) !in lookup.placements
    ensures Resolve(cfg, site, lookup) == NoManagedCluster <==>
      Key(namespace, site) in lookup.placements && forall c :: !DecidedFor(Key(namespace, site), c, lookup)
  {
    PickAt(Key(namespace, site), cfg, site, lookup);
  }

  /** So is the first configured placement for a Capp without a site. */
  lemma DefaultPlacement(cfg: RcsConfig, lookup: Lookup, namespace: string)
    requires cfg.placements != []
    requires namespace == if cfg.placementsNamespace == "" then "default" else cfg.placementsNamespace
    ensures var p := Key(namespace, cfg.placements[0]);
      && (Resolve(cfg, "", lookup) == Failed <==> p !in lookup.placements)
      && (Resolve(cfg, "", lookup) == NoManagedCluster <==>
            p in lookup.placements && forall c :: !DecidedFor(p, c, lookup))
  {
    PickAt(Key(namespace, cfg.placements[0]), cfg, "", lookup);
  }

  /** Only the namespace and the first placement of the configuration matter to a Capp without a site. */
  lemma FirstPlacementDecides(a: RcsConfig, b: RcsConfig, lookup: Lookup)
    requires a.placements != [] && b.placements != [] && a.placements[0] == b.placements[0]
    requires a.placementsNamespace == b.placementsNamespace
    ensures Resolve(a, "", lookup) == Resolve(b, "", lookup)
  {
  }
}

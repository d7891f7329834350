/** The request-path classifier of `ParsePerms` (pkg/plugin/plugin.go).

    The source runs two POSIX regular expressions over the request path:

      namespaced:  apis?/(.*)/namespaces/([^/]+)/([^/?]+)(/[^/?]*)?(\?.*)?
      cluster:     apis?/([^/?]+(/[^/?]+)?)/([^/?]+)(/[^/?]+)?

    Neither is anchored. Go's POSIX matcher picks the leftmost start, then the
    longest match from there, and among equally long matches the one a
    backtracking search meets first (so greedy groups take as much as they
    can). This module states those rules over the '/'-separated segments of the
    path and computes the same captures without a regex engine. An `api(s)/`
    always ends a segment, so "the match starts at segment a" means segment `a`
    ends with `api` or `apis`. */
module Classify {
  import opened Strings
  import opened Wrappers

  /** A permission inferred from one request (the Go `Perm` struct). */
  datatype Perm = Perm(verb: string, resource: string, api: string, namespace: string, namespaced: bool)

  /** Segment `a` ends with the `apis?` that both patterns begin with. */
  predicate IsApiSegment(seg: string) {
    EndsWith(seg, "api") || EndsWith(seg, "apis")
  }

  // ---------------------------------------------------------------------
  // The namespaced pattern
  // ---------------------------------------------------------------------

  /** From the `api(s)/` ending segment `a`, the text `/namespaces/` starting
      after segment `n - 1` can complete the namespaced pattern: the
      group/version `(.*)` is `segs[a+1..n]` (at least one, possibly empty,
      segment), the namespace `([^/]+)` is the whole non-empty segment `n + 1`
      and the resource `([^/?]+)` is a non-empty run at the head of segment `n + 2`. */
  predicate NsCandidate(segs: seq<string>, a: nat, n: nat) {
    && a + 2 <= n
    && n + 2 < |segs|
    && segs[n] == "namespaces"
    && segs[n + 1] != ""
    && BeforeQuery(segs[n + 2]) != ""
  }

  /** The offset in the text at which the namespaced match through candidate
      `n` ends, following the greedy optional groups: a '?' in the resource
      segment starts the query group, which runs to the end of the text;
      otherwise the instance group `(/[^/?]*)` takes the next segment up to a
      '?' (whereupon the query group again runs to the end) or to its end. */
  function NsMatchEnd(segs: seq<string>, n: nat): int
    requires n + 2 < |segs|
  {
    if !Clean(segs[n + 2]) then TextLen(segs)
    else if n + 3 == |segs| then Start(segs, n + 2) + |segs[n + 2]|
    else if !Clean(segs[n + 3]) then TextLen(segs)
    else Start(segs, n + 3) + |segs[n + 3]|
  }

  /** Candidate `n` is the one Go's matcher reports for the start at `a`: no
      other candidate gives a longer match, and among equally long ones it has
      the longest, greedy, group/version. */
  ghost predicate BestNsCandidate(segs: seq<string>, a: nat, n: nat) {
    && NsCandidate(segs, a, n)
    && forall m: nat :: NsCandidate(segs, a, m) ==>
         NsMatchEnd(segs, m) < NsMatchEnd(segs, n) || (NsMatchEnd(segs, m) == NsMatchEnd(segs, n) && m <= n)
  }

  /** The match through candidate `n` runs to the end of the text. */
  predicate ReachesEnd(segs: seq<string>, n: nat)
    requires n + 2 < |segs|
  {
    !Clean(segs[n + 2]) || n + 4 >= |segs| || !Clean(segs[n + 3])
  }

  /** The last candidate at or below `hi` (only those reaching the end of the
      text when `full` holds). */
  function LastCandidate(segs: seq<string>, a: nat, hi: int, full: bool): (r: Option<nat>)
    decreases hi - a
    ensures r.Some? ==> r.value <= hi && NsCandidate(segs, a, r.value) && (full ==> ReachesEnd(segs, r.value))
    ensures forall m: nat :: m <= hi && (r.None? || r.value < m) && NsCandidate(segs, a, m) ==>
              full && !ReachesEnd(segs, m)
  {
    if hi < a + 2 then None
    else if NsCandidate(segs, a, hi) && (!full || ReachesEnd(segs, hi)) then Some(hi)
    else LastCandidate(segs, a, hi - 1, full)
  }

  /** Where a candidate's match ends: at the end of the text when it reaches
      it, and otherwise one before the segment after its instance segment. */
  lemma NsMatchEndFacts(segs: seq<string>, a: nat, n: nat)
    requires NsCandidate(segs, a, n)
    ensures ReachesEnd(segs, n) ==> NsMatchEnd(segs, n) == TextLen(segs)
    ensures !ReachesEnd(segs, n) ==> NsMatchEnd(segs, n) == Start(segs, n + 4) - 1 < TextLen(segs)
  {
    if n + 3 == |segs| {
      assert Start(segs, n + 3) == Start(segs, n + 2) + |segs[n + 2]| + 1;
    }
    if !ReachesEnd(segs, n) {
      StartMonotone(segs, n + 4, |segs|);
    }
  }

  /** A candidate reaching the end of the text beats every other candidate
      when no later one also reaches it. */
  lemma FullCandidateIsBest(segs: seq<string>, a: nat, n: nat)
    requires NsCandidate(segs, a, n) && ReachesEnd(segs, n)
    requires forall m: nat :: n < m && NsCandidate(segs, a, m) ==> !ReachesEnd(segs, m)
    ensures BestNsCandidate(segs, a, n)
  {
    NsMatchEndFacts(segs, a, n);
    forall m: nat | NsCandidate(segs, a, m)
      ensures NsMatchEnd(segs, m) < NsMatchEnd(segs, n) || (NsMatchEnd(segs, m) == NsMatchEnd(segs, n) && m <= n)
    {
      NsMatchEndFacts(segs, a, m);
    }
  }

  /** When no candidate reaches the end of the text, the last one is best:
      its instance segment ends furthest to the right. */
  lemma LastCandidateIsBest(segs: seq<string>, a: nat, n: nat)
    requires NsCandidate(segs, a, n)
    requires forall m: nat :: NsCandidate(segs, a, m) ==> !ReachesEnd(segs, m)
    requires forall m: nat :: n < m ==> !NsCandidate(segs, a, m)
    ensures BestNsCandidate(segs, a, n)
  {
    NsMatchEndFacts(segs, a, n);
    forall m: nat | NsCandidate(segs, a, m)
      ensures NsMatchEnd(segs, m) < NsMatchEnd(segs, n) || (NsMatchEnd(segs, m) == NsMatchEnd(segs, n) && m <= n)
    {
      NsMatchEndFacts(segs, a, m);
      if m < n {
        StartMonotone(segs, m + 4, n + 4);
      }
    }
  }

  /** The candidate Go's matcher picks for a start at segment `a`, if the
      namespaced pattern can start there at all. */
  function NsChoice(segs: seq<string>, a: nat): (r: Option<nat>)
    requires a < |segs|
    ensures r.Some? ==> IsApiSegment(segs[a]) && BestNsCandidate(segs, a, r.value)
    ensures r.None? ==> !IsApiSegment(segs[a]) || forall m: nat :: !NsCandidate(segs, a, m)
  {
    if !IsApiSegment(segs[a]) then None
    else
      match LastCandidate(segs, a, |segs| - 3, true)
      case Some(n) =>
        FullCandidateIsBest(segs, a, n);
        Some(n)
      case None =>
        match LastCandidate(segs, a, |segs| - 3, false)
        case Some(n) =>
          LastCandidateIsBest(segs, a, n);
          Some(n)
        case None => None
  }

  /** The leftmost start, at or after segment `from`, from which the
      namespaced pattern matches, with the candidate chosen there. */
  function FirstNs(segs: seq<string>, from: nat): (r: Option<(nat, nat)>)
    requires from <= |segs|
    decreases |segs| - from
    ensures r.Some? ==> from <= r.value.0 < |segs| && NsChoice(segs, r.value.0) == Some(r.value.1)
    ensures forall a: nat :: from <= a < |segs| && (r.None? || a < r.value.0) ==> NsChoice(segs, a).None?
  {
    if from == |segs| then None
    else
      match NsChoice(segs, from)
      case Some(n) => Some((from, n))
      case None => FirstNs(segs, from + 1)
  }

  // ---------------------------------------------------------------------
  // The cluster-scoped pattern
  // ---------------------------------------------------------------------

  /** The cluster pattern fits at `a` with a one-segment group/version: a
      whole clean non-empty segment `a + 1`, then a non-empty resource run at
      the head of segment `a + 2`. */
  predicate OneSegmentGv(segs: seq<string>, a: nat) {
    && a + 2 < |segs|
    && IsApiSegment(segs[a])
    && segs[a + 1] != "" && Clean(segs[a + 1])
    && BeforeQuery(segs[a + 2]) != ""
  }

  /** The cluster pattern fits at `a` with a two-segment group/version
      `segs[a+1]/segs[a+2]`, both whole, clean and non-empty, then a non-empty
      resource run at the head of segment `a + 3`. */
  predicate TwoSegmentGv(segs: seq<string>, a: nat) {
    && a + 3 < |segs|
    && IsApiSegment(segs[a])
    && segs[a + 1] != "" && Clean(segs[a + 1])
    && segs[a + 2] != "" && Clean(segs[a + 2])
    && BeforeQuery(segs[a + 3]) != ""
  }

  /** With the resource at segment `ri`, the optional instance group
      `(/[^/?]+)` matches: the resource is the whole segment and the next
      segment starts with a non-empty clean run. */
  predicate ClusterHasName(segs: seq<string>, ri: nat)
    requires ri < |segs|
  {
    Clean(segs[ri]) && ri + 1 < |segs| && BeforeQuery(segs[ri + 1]) != ""
  }

  /** The offset at which the cluster match with its resource at `ri` ends. */
  function ClusterMatchEnd(segs: seq<string>, ri: nat): int
    requires ri < |segs|
  {
    if ClusterHasName(segs, ri) then Start(segs, ri + 1) + |BeforeQuery(segs[ri + 1])|
    else Start(segs, ri) + |BeforeQuery(segs[ri])|
  }

  /** The segment holding the resource when the cluster pattern starts at
      `a`: the two-segment reading when it fits, since it is never shorter
      and the optional inner group is greedy on a tie. */
  function ClusterChoice(segs: seq<string>, a: nat): (r: Option<nat>)
    requires a < |segs|
    ensures r.Some? <==> OneSegmentGv(segs, a)
    ensures r.Some? ==> r.value == a + 2 || r.value == a + 3
    ensures r.Some? ==> (r.value == a + 3 <==> TwoSegmentGv(segs, a))
    ensures r.Some? ==> r.value < |segs| && ClusterMatchEnd(segs, r.value) >= ClusterMatchEnd(segs, a + 2)
    ensures r.Some? && r.value == a + 2 ==> !ClusterHasName(segs, a + 2)
  {
    if TwoSegmentGv(segs, a) then
      StartMonotone(segs, a + 2, a + 3);
      Some(a + 3)
    else if OneSegmentGv(segs, a) then Some(a + 2)
    else None
  }

  /** The leftmost start, at or after segment `from`, from which the cluster
      pattern matches. */
  function FirstCluster(segs: seq<string>, from: nat): (r: Option<nat>)
    requires from <= |segs|
    decreases |segs| - from
    ensures r.Some? ==> from <= r.value < |segs| && OneSegmentGv(segs, r.value)
    ensures forall a: nat :: from <= a < |segs| && (r.None? || a < r.value) ==> !OneSegmentGv(segs, a)
  {
    if from == |segs| then None
    else if OneSegmentGv(segs, from) then Some(from)
    else FirstCluster(segs, from + 1)
  }

  // ---------------------------------------------------------------------
  // ParsePerms
  // ---------------------------------------------------------------------

  /** Some `api(s)/` is followed by a place where the namespaced pattern fits. */
  ghost predicate HasNamespacedShape(segs: seq<string>) {
    exists a: nat, n: nat :: a < |segs| && IsApiSegment(segs[a]) && NsCandidate(segs, a, n)
  }

  /** Some `api(s)/` is followed by a place where the cluster pattern fits. */
  ghost predicate HasClusterShape(segs: seq<string>) {
    exists a: nat :: OneSegmentGv(segs, a)
  }

  /** The leftmost-start search finds a namespaced match exactly when the
      namespaced pattern fits somewhere. */
  lemma FirstNsFindsShape(segs: seq<string>)
    ensures FirstNs(segs, 0).Some? <==> HasNamespacedShape(segs)
  {
    if FirstNs(segs, 0).None? {
      forall a: nat, n: nat | a < |segs| && IsApiSegment(segs[a])
        ensures !NsCandidate(segs, a, n)
      {
        assert NsChoice(segs, a).None?;
      }
    } else {
      var (a, n) := FirstNs(segs, 0).value;
      assert NsCandidate(segs, a, n);
    }
  }

  /** Likewise for the cluster pattern. */
  lemma FirstClusterFindsShape(segs: seq<string>)
    ensures FirstCluster(segs, 0).Some? <==> HasClusterShape(segs)
  {
    if FirstCluster(segs, 0).Some? {
      assert OneSegmentGv(segs, FirstCluster(segs, 0).value);
    }
  }

  /** When the cluster pattern fits at `p` and nowhere before it, the
      search reports `p`. */
  lemma FirstClusterAt(segs: seq<string>, p: nat)
    requires p < |segs| && OneSegmentGv(segs, p)
    requires forall a: nat :: a < p ==> !OneSegmentGv(segs, a)
    ensures FirstCluster(segs, 0) == Some(p)
  {
    var first := FirstCluster(segs, 0);
    assert first.Some? && first.value <= p;
    assert OneSegmentGv(segs, first.value);
  }

  /** When exactly one candidate exists and its start is the first API
      segment, the namespaced search reports that start and candidate. */
  lemma SoleCandidateChosen(segs: seq<string>, p: nat, n: nat)
    requires p < |segs| && IsApiSegment(segs[p]) && NsCandidate(segs, p, n)
    requires forall a: nat :: a < p ==> !IsApiSegment(segs[a])
    requires forall a: nat, m: nat :: a < |segs| && IsApiSegment(segs[a]) && NsCandidate(segs, a, m) ==> m == n
    ensures FirstNs(segs, 0) == Some((p, n))
  {
    var choice := NsChoice(segs, p);
    assert choice.Some? && NsCandidate(segs, p, choice.value);
    var first := FirstNs(segs, 0);
    assert first.Some? && first.value.0 <= p;
    var (a, m) := first.value;
    assert NsCandidate(segs, a, m);
  }

  /** The RBAC verb: the lower-cased HTTP verb, except that a GET without an
      instance name is a `list`. */
  function RbacVerb(verb: string, named: bool): string {
    if !named && verb == "get" then "list" else verb
  }

  /** Classifies the segments of a request path, `verb` already lower-cased. */
  function ClassifySegments(verb: string, segs: seq<string>): (r: (Perm, bool))
    ensures r.0.verb == verb || (verb == "get" && r.0.verb == "list")
    ensures r.0.namespaced <==> HasNamespacedShape(segs)
    ensures r.1 <==> HasNamespacedShape(segs) || HasClusterShape(segs)
    ensures !r.0.namespaced ==> r.0.namespace == ""
    ensures r.0.namespaced ==> r.0.namespace != ""
    ensures !r.1 ==> r.0 == Perm(verb, "", "", "", false)
  {
    FirstNsFindsShape(segs);
    FirstClusterFindsShape(segs);
    match FirstNs(segs, 0)
    case Some((a, n)) =>
      (NamespacedPerm(verb, segs, a, n), true)
    case None =>
      match FirstCluster(segs, 0)
      case Some(a) =>
        (ClusterPerm(verb, segs, a, ClusterChoice(segs, a).value), true)
      case None =>
        (Perm(verb, "", "", "", false), false)
  }

  /** The captures of the namespaced pattern starting at `a` with the scope
      marker at `n`: group/version, namespace, resource, and whether the
      optional instance group took a name. */
  function NamespacedPerm(verb: string, segs: seq<string>, a: nat, n: nat): Perm
    requires a + 1 <= n && n + 2 < |segs|
  {
    var named := Clean(segs[n + 2]) && n + 3 < |segs|;
    Perm(RbacVerb(verb, named), BeforeQuery(segs[n + 2]), Join(segs[a + 1..n]), segs[n + 1], true)
  }

  /** The captures of the cluster pattern starting at `a` with the resource
      at `ri`. */
  function ClusterPerm(verb: string, segs: seq<string>, a: nat, ri: nat): Perm
    requires ri < |segs| && a + 2 < |segs|
  {
    var gv := if ri == a + 3 then segs[a + 1] + "/" + segs[a + 2] else segs[a + 1];
    Perm(RbacVerb(verb, ClusterHasName(segs, ri)), BeforeQuery(segs[ri]), gv, "", false)
  }

  /** The namespaced branch of `ClassifySegments`, for a known match. */
  lemma ClassifyNamespaced(verb: string, segs: seq<string>, a: nat, n: nat)
    requires FirstNs(segs, 0) == Some((a, n))
    requires a + 1 <= n && n + 2 < |segs|
    ensures ClassifySegments(verb, segs) == (NamespacedPerm(verb, segs, a, n), true)
  {
  }

  /** The cluster branch of `ClassifySegments`, for a known match. */
  lemma ClassifyCluster(verb: string, segs: seq<string>, a: nat, ri: nat)
    requires FirstNs(segs, 0).None? && FirstCluster(segs, 0) == Some(a)
    requires a < |segs| && ClusterChoice(segs, a) == Some(ri)
    requires ri < |segs| && a + 2 < |segs|
    ensures ClassifySegments(verb, segs) == (ClusterPerm(verb, segs, a, ri), true)
  {
  }

  /** Classifies one request: `httpVerb` and `path` are the second and third
      elements of the source's match tuple. The namespaced pattern is tried
      first; the flag is false when neither pattern matches, and then only the
      verb is filled in. */
  function ParsePerms(httpVerb: string, path: string): (r: (Perm, bool))
    ensures r.0.verb == Lower(httpVerb) || (Lower(httpVerb) == "get" && r.0.verb == "list")
    ensures r.0.namespaced <==> HasNamespacedShape(Split(path))
    ensures r.1 <==> HasNamespacedShape(Split(path)) || HasClusterShape(Split(path))
    ensures !r.0.namespaced ==> r.0.namespace == ""
    ensures r.0.namespaced ==> r.0.namespace != ""
    ensures !r.1 ==> r.0 == Perm(Lower(httpVerb), "", "", "", false)
  {
    ClassifySegments(Lower(httpVerb), Split(path))
  }

  /** A named object of a cluster-scoped core kind, `api/<g>/<kind>/<name>`
      (`api/v1/nodes/n1`): there is no `namespaces` segment, so only the
      cluster pattern fits, and it takes the two-segment reading: the
      group/version comes out as `<g>/<kind>`, the resource kind as the
      object's name, and a GET as a `list`. */
  lemma NamedCoreObjectMisread(httpVerb: string, g: string, kind: string, name: string)
    requires g != "" && kind != "" && name != ""
    requires '/' !in g && '/' !in kind && '/' !in name
    requires Clean(g) && Clean(kind) && Clean(name)
    ensures ParsePerms(httpVerb, Join(["api", g, kind, name]))
         == (Perm(RbacVerb(Lower(httpVerb), false), name, g + "/" + kind, "", false), true)
  {
    var segs := ["api", g, kind, name];
    SplitJoin(segs);
    forall a: nat, n: nat | a < |segs| && IsApiSegment(segs[a])
      ensures !NsCandidate(segs, a, n)
    {
    }
    FirstNsFindsShape(segs);
    assert EndsWith("api", "api");
    assert TwoSegmentGv(segs, 0);
    assert FirstCluster(segs, 0) == Some(0);
    assert !ClusterHasName(segs, 3);
    BeforeQueryClean(name);
  }
}

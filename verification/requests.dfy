/** Request paths built from their parts, and the round trip through the
    classifier: for every well-formed API request path, `ParsePerms` recovers
    the group/version, namespace and resource kind the path was built from,
    and turns a GET into `list` exactly when no instance name is present. */
module Requests {
  import opened Strings
  import opened Wrappers
  import opened Classify

  /** Whether the request names a namespace. */
  datatype Scope = InNamespace(ns: string) | ClusterWide

  /** An API request path in parts:
      host/apis/<groupVersion...>[/namespaces/<ns>]/<resource>[/<name>[/<subresource...>]][?<query>]
      where `host` holds the segments before the API root (empty for the path
      the trace matcher extracts, `["https:", "", "host:port"]` for a full URL). */
  datatype Request = Request(
    host: seq<string>,
    plural: bool,
    groupVersion: seq<string>,
    scope: Scope,
    resource: string,
    name: Option<string>,
    subresource: seq<string>,
    query: Option<string>)

  /** The segments of the request, before the query is attached. */
  function PathSegments(req: Request): seq<string> {
    req.host + CoreSegments(req) + req.subresource
  }

  /** Attaches `?query` to the last segment. */
  function WithQuery(segs: seq<string>, query: Option<string>): seq<string>
    requires |segs| >= 1
  {
    match query
    case None => segs
    case Some(q) => segs[..|segs| - 1] + [segs[|segs| - 1] + "?" + q]
  }

  /** The request path as text. */
  function Render(req: Request): string {
    Join(WithQuery(PathSegments(req), req.query))
  }

  /** No segment is a `namespaces` marker. */
  predicate NoMarker(segs: seq<string>) {
    forall i :: 0 <= i < |segs| ==> segs[i] != "namespaces"
  }

  /** The parts form a path the way the API server lays them out, and no part
      could be mistaken for the API root or a `namespaces` marker. */
  predicate WellFormed(req: Request) {
    && NoSlash(req.host)
    && (forall i :: 0 <= i < |req.host| ==> !IsApiSegment(req.host[i]))
    && |req.groupVersion| >= 1 && NoSlash(req.groupVersion) && NoMarker(req.groupVersion)
    && req.resource != "" && '/' !in req.resource && Clean(req.resource)
    && (req.resource == "namespaces" ==> req.name.None?)
    && (req.name.Some? ==> '/' !in req.name.value && Clean(req.name.value) && req.name.value != "namespaces")
    && NoSlash(req.subresource) && NoMarker(req.subresource)
    && (|req.subresource| > 0 ==> req.name.Some?)
    && (req.query.Some? ==> '/' !in req.query.value)
    && match req.scope
       case InNamespace(ns) => ns != "" && '/' !in ns && ns != "namespaces"
       case ClusterWide =>
         && |req.groupVersion| <= 2
         && (forall i :: 0 <= i < |req.groupVersion| ==> req.groupVersion[i] != "" && Clean(req.groupVersion[i]))
         && (|req.groupVersion| == 1 ==> req.name.None?)
         && (req.name.Some? ==> req.name.value != "")
  }

  /** The permission a request stands for, given its lower-cased verb. */
  function Expected(verb: string, req: Request): Perm {
    Perm(
      RbacVerb(verb, req.name.Some?),
      req.resource,
      Join(req.groupVersion),
      match req.scope case InNamespace(ns) => ns case ClusterWide => "",
      req.scope.InNamespace?)
  }

  /** Index of the resource segment in `PathSegments(req)`. */
  function ResourceIndex(req: Request): nat {
    |req.host| + 1 + |req.groupVersion| + (if req.scope.InNamespace? then 2 else 0)
  }

  /** The segments up to the resource kind: host, API root, group/version
      and the namespace marker with its namespace. */
  function Front(req: Request): seq<string> {
    req.host + [Root(req)] + req.groupVersion + ScopeSegments(req.scope)
  }

  /** The segments from the resource kind on. */
  function Back(req: Request): seq<string> {
    [req.resource] + NameSegments(req.name) + req.subresource
  }

  lemma FrontBack(req: Request)
    ensures PathSegments(req) == Front(req) + Back(req)
    ensures |Front(req)| == ResourceIndex(req)
  {
  }

  lemma FrontLayout(req: Request)
    ensures var f := Front(req); var p := |req.host|;
      && p + 1 + |req.groupVersion| <= |f|
      && (forall i :: 0 <= i < p ==> f[i] == req.host[i])
      && f[p] == Root(req)
      && f[p + 1..p + 1 + |req.groupVersion|] == req.groupVersion
      && (req.scope.InNamespace? ==> f[|f| - 2] == "namespaces" && f[|f| - 1] == req.scope.ns)
  {
    var hr := req.host + [Root(req)];
    var g := hr + req.groupVersion;
    assert Front(req) == g + ScopeSegments(req.scope);
    assert g[|hr|..] == req.groupVersion;
  }

  lemma BackLayout(req: Request)
    ensures var b := Back(req);
      && |b| == 1 + (if req.name.Some? then 1 else 0) + |req.subresource|
      && b[0] == req.resource
      && (req.name.Some? ==> b[1] == req.name.value)
      && (req.name.Some? ==> forall j :: 0 <= j < |req.subresource| ==> b[2 + j] == req.subresource[j])
  {
    if req.name.Some? {
      assert Back(req) == [req.resource, req.name.value] + req.subresource;
    }
  }

  /** Where each part sits in the segments of a request. */
  lemma Layout(req: Request)
    ensures var base := PathSegments(req); var p := |req.host|; var k := ResourceIndex(req);
      && |base| == k + 1 + (if req.name.Some? then 1 else 0) + |req.subresource|
      && (forall i :: 0 <= i < p ==> base[i] == req.host[i])
      && base[p] == Root(req)
      && base[p + 1..p + 1 + |req.groupVersion|] == req.groupVersion
      && (req.scope.InNamespace? ==> base[k - 2] == "namespaces" && base[k - 1] == req.scope.ns)
      && base[k] == req.resource
      && (req.name.Some? ==> base[k + 1] == req.name.value)
      && (req.name.Some? ==> forall j :: 0 <= j < |req.subresource| ==> base[k + 2 + j] == req.subresource[j])
  {
    FrontBack(req);
    FrontLayout(req);
    BackLayout(req);
    var f := Front(req);
    var b := Back(req);
    var p := |req.host|;
    var k := ResourceIndex(req);
    assert PathSegments(req)[..k] == f;
    assert PathSegments(req)[k..] == b;
    assert PathSegments(req)[p + 1..p + 1 + |req.groupVersion|] == f[p + 1..p + 1 + |req.groupVersion|];
  }

  /** Attaching the query changes only the last segment. */
  lemma WithQueryFacts(segs: seq<string>, query: Option<string>)
    requires |segs| >= 1
    ensures |WithQuery(segs, query)| == |segs|
    ensures forall i :: 0 <= i < |segs| - 1 ==> WithQuery(segs, query)[i] == segs[i]
    ensures query.None? ==> WithQuery(segs, query)[|segs| - 1] == segs[|segs| - 1]
    ensures query.Some? ==> WithQuery(segs, query)[|segs| - 1] == segs[|segs| - 1] + "?" + query.value
  {
  }

  /** The segments the classifier sees for a request. */
  function ParsedSegments(req: Request): seq<string> {
    WithQuery(PathSegments(req), req.query)
  }

  /** Splitting the rendered path gives back its segments. */
  lemma SplitRender(req: Request)
    requires WellFormed(req)
    ensures Split(Render(req)) == ParsedSegments(req)
  {
    var base := PathSegments(req);
    Layout(req);
    WithQueryFacts(base, req.query);
    var p := |req.host|;
    var k := ResourceIndex(req);
    assert forall j :: 0 <= j < |req.groupVersion| ==> base[p + 1 + j] == req.groupVersion[j];
    assert NoSlash(base);
    SplitJoin(ParsedSegments(req));
  }

  /** In the segments of a well-formed request, a `namespaces` segment after
      the API root is the scope marker, or is the resource kind standing last. */
  lemma MarkerPlaces(req: Request, i: nat)
    requires WellFormed(req)
    requires |req.host| < i < |ParsedSegments(req)|
    requires ParsedSegments(req)[i] == "namespaces"
    ensures (req.scope.InNamespace? && i == ResourceIndex(req) - 2)
         || (i == ResourceIndex(req) && i == |ParsedSegments(req)| - 1)
  {
    var base := PathSegments(req);
    MarkerIsPlain(req, i);
    Layout(req);
    var p := |req.host|;
    var g := |req.groupVersion|;
    var k := ResourceIndex(req);
    assert forall j :: 0 <= j < g ==> base[p + 1 + j] == req.groupVersion[j];
    assert forall j :: p < j <= p + g ==> base[j] != "namespaces";
    assert req.scope.InNamespace? ==> base[k - 1] != "namespaces";
    assert forall j :: k < j < |base| ==> base[j] != "namespaces";
    assert base[k] == "namespaces" ==> |base| == k + 1;
  }

  /** A `namespaces` segment the classifier sees is one of the request's
      segments unchanged: the query, when attached, brings a '?' along. */
  lemma MarkerIsPlain(req: Request, i: nat)
    requires i < |ParsedSegments(req)|
    requires ParsedSegments(req)[i] == "namespaces"
    ensures i < |PathSegments(req)| && PathSegments(req)[i] == "namespaces"
  {
    QueryMarked(req);
    assert '?' !in "namespaces";
  }

  /** Each segment the classifier sees is the request's own segment, or
      carries the query marker. */
  lemma QueryMarked(req: Request)
    ensures |ParsedSegments(req)| == |PathSegments(req)|
    ensures forall i :: 0 <= i < |PathSegments(req)| ==>
              ParsedSegments(req)[i] == PathSegments(req)[i] || '?' in ParsedSegments(req)[i]
  {
    var base := PathSegments(req);
    WithQueryFacts(base, req.query);
    if req.query.Some? {
      var last := |base| - 1;
      assert ParsedSegments(req)[last][|base[last]|] == '?';
    }
  }

  /** No segment before the API root can start either pattern. */
  lemma HostIsInert(req: Request, a: nat)
    requires WellFormed(req)
    requires a < |req.host|
    ensures a < |ParsedSegments(req)| && !IsApiSegment(ParsedSegments(req)[a])
  {
    Layout(req);
    WithQueryFacts(PathSegments(req), req.query);
  }

  /** No host segment of the parsed request can start either pattern. */
  lemma HostSegmentsInert(req: Request)
    requires WellFormed(req)
    ensures |req.host| < |ParsedSegments(req)|
    ensures forall a: nat :: a < |req.host| ==> !IsApiSegment(ParsedSegments(req)[a])
  {
    Layout(req);
    WithQueryFacts(PathSegments(req), req.query);
  }

  /** The segment after the host is the API root. */
  lemma RootIsApi(req: Request)
    requires WellFormed(req)
    ensures |req.host| + 2 < |ParsedSegments(req)|
    ensures IsApiSegment(ParsedSegments(req)[|req.host|])
  {
    Layout(req);
    WithQueryFacts(PathSegments(req), req.query);
    assert EndsWith("api", "api") && EndsWith("apis", "apis");
  }

  /** The resource segment, cut at its query, is the resource kind; it is
      followed by another segment exactly when an instance name is present. */
  lemma ResourceSegment(req: Request)
    requires WellFormed(req)
    ensures ResourceIndex(req) < |ParsedSegments(req)|
    ensures BeforeQuery(ParsedSegments(req)[ResourceIndex(req)]) == req.resource
    ensures (Clean(ParsedSegments(req)[ResourceIndex(req)]) && ResourceIndex(req) + 1 < |ParsedSegments(req)|)
            == req.name.Some?
  {
    var base := PathSegments(req);
    var segs := ParsedSegments(req);
    Layout(req);
    WithQueryFacts(base, req.query);
    var k := ResourceIndex(req);
    if k == |segs| - 1 && req.query.Some? {
      BeforeQueryAppend(req.resource, req.query.value);
      assert !Clean(segs[k]);
    } else {
      BeforeQueryClean(req.resource);
    }
  }

  /** For a namespaced request, the scope marker two segments before the
      resource is the one and only candidate, and the group/version lies
      between the API root and it. */
  lemma NamespacedCandidate(req: Request)
    requires WellFormed(req) && req.scope.InNamespace?
    ensures var segs := ParsedSegments(req); var n := ResourceIndex(req) - 2;
      && NsCandidate(segs, |req.host|, n)
      && segs[n + 1] == req.scope.ns
      && segs[|req.host| + 1..n] == req.groupVersion
      && forall a: nat, m: nat :: a < |segs| && IsApiSegment(segs[a]) && NsCandidate(segs, a, m) ==>
           a >= |req.host| && m == n
  {
    var base := PathSegments(req);
    var segs := ParsedSegments(req);
    Layout(req);
    WithQueryFacts(base, req.query);
    ResourceSegment(req);
    var p := |req.host|;
    var n := ResourceIndex(req) - 2;
    assert segs[p + 1..n] == base[p + 1..n];
    forall a: nat, m: nat | a < |segs| && IsApiSegment(segs[a]) && NsCandidate(segs, a, m)
      ensures a >= p && m == n
    {
      if a < p {
        HostIsInert(req, a);
      }
      MarkerPlaces(req, m);
    }
  }

  /** For a namespaced request, the namespaced pattern starts at the API
      root and takes the scope marker. */
  lemma NamespacedMatch(req: Request)
    requires WellFormed(req) && req.scope.InNamespace?
    ensures FirstNs(ParsedSegments(req), 0) == Some((|req.host|, ResourceIndex(req) - 2))
  {
    NamespacedCandidate(req);
    RootIsApi(req);
    HostSegmentsInert(req);
    SoleCandidateChosen(ParsedSegments(req), |req.host|, ResourceIndex(req) - 2);
  }

  /** The captures the namespaced pattern takes from a namespaced request. */
  lemma NamespacedCaptures(req: Request)
    requires WellFormed(req) && req.scope.InNamespace?
    ensures var segs := ParsedSegments(req); var n := ResourceIndex(req) - 2;
      && |req.host| + 1 <= n && n + 2 < |segs|
      && BeforeQuery(segs[n + 2]) == req.resource
      && Join(segs[|req.host| + 1..n]) == Join(req.groupVersion)
      && segs[n + 1] == req.scope.ns
      && (Clean(segs[n + 2]) && n + 3 < |segs|) == req.name.Some?
  {
    NamespacedCandidate(req);
    ResourceSegment(req);
  }

  /** A namespaced request is classified back into its own parts. */
  lemma RoundTripNamespaced(verb: string, req: Request)
    requires WellFormed(req) && req.scope.InNamespace?
    ensures ClassifySegments(verb, ParsedSegments(req)) == (Expected(verb, req), true)
  {
    NamespacedMatch(req);
    NamespacedCaptures(req);
    ClassifyNamespaced(verb, ParsedSegments(req), |req.host|, ResourceIndex(req) - 2);
  }

  /** A cluster-wide request gives the namespaced pattern nowhere to fit. */
  lemma ClusterNoNamespaced(req: Request)
    requires WellFormed(req) && req.scope.ClusterWide?
    ensures FirstNs(ParsedSegments(req), 0).None?
  {
    var segs := ParsedSegments(req);
    forall a: nat, m: nat | a < |segs| && IsApiSegment(segs[a]) && NsCandidate(segs, a, m)
      ensures false
    {
      if a < |req.host| {
        HostIsInert(req, a);
      }
      MarkerPlaces(req, m);
    }
    FirstNsFindsShape(segs);
  }

  /** The group/version segments of a cluster-wide request, in place. */
  lemma ClusterGroupVersion(req: Request)
    requires WellFormed(req) && req.scope.ClusterWide?
    ensures var segs := ParsedSegments(req); var p := |req.host|;
      && ResourceIndex(req) < |segs|
      && segs[p + 1] == req.groupVersion[0]
      && (|req.groupVersion| == 2 ==> segs[p + 2] == req.groupVersion[1])
      && (if |req.groupVersion| == 2 then segs[p + 1] + "/" + segs[p + 2] else segs[p + 1]) == Join(req.groupVersion)
  {
    var base := PathSegments(req);
    Layout(req);
    WithQueryFacts(base, req.query);
    var gv := req.groupVersion;
    assert base[|req.host| + 1] == gv[0];
    if |gv| == 2 {
      assert base[|req.host| + 2] == gv[1];
      assert Join(gv) == gv[0] + "/" + Join(gv[1..]);
    }
  }

  /** The cluster pattern starts at the API root of a cluster-wide request. */
  lemma ClusterStart(req: Request)
    requires WellFormed(req) && req.scope.ClusterWide?
    ensures FirstCluster(ParsedSegments(req), 0) == Some(|req.host|)
  {
    var segs := ParsedSegments(req);
    var p := |req.host|;
    RootIsApi(req);
    ResourceSegment(req);
    ClusterGroupVersion(req);
    HostSegmentsInert(req);
    var gv := req.groupVersion;
    assert segs[p + 1] == gv[0] && gv[0] != "" && Clean(gv[0]);
    if |gv| == 2 {
      BeforeQueryClean(gv[1]);
      assert BeforeQuery(segs[p + 2]) == gv[1] != "";
    } else {
      assert ResourceIndex(req) == p + 2;
    }
    assert OneSegmentGv(segs, p);
    FirstClusterAt(segs, p);
  }

  /** The instance segment of a cluster-wide request, when present, starts
      with the (non-empty) instance name. */
  lemma ClusterName(req: Request)
    requires WellFormed(req) && req.scope.ClusterWide?
    ensures var segs := ParsedSegments(req); var k := ResourceIndex(req);
      k < |segs| && ClusterHasName(segs, k) == req.name.Some?
  {
    var base := PathSegments(req);
    var segs := ParsedSegments(req);
    Layout(req);
    WithQueryFacts(base, req.query);
    ResourceSegment(req);
    var k := ResourceIndex(req);
    if req.name.Some? {
      if k + 1 == |segs| - 1 && req.query.Some? {
        BeforeQueryAppend(req.name.value, req.query.value);
      } else {
        BeforeQueryClean(req.name.value);
      }
    }
  }

  /** The captures the cluster pattern takes from a cluster-wide request: the
      group/version is the request's, and the resource segment follows it. */
  lemma ClusterCaptures(req: Request)
    requires WellFormed(req) && req.scope.ClusterWide?
    ensures var segs := ParsedSegments(req); var p := |req.host|; var k := ResourceIndex(req);
      && p < |segs|
      && ClusterChoice(segs, p) == Some(k)
      && (if k == p + 3 then segs[p + 1] + "/" + segs[p + 2] else segs[p + 1]) == Join(req.groupVersion)
      && BeforeQuery(segs[k]) == req.resource
      && ClusterHasName(segs, k) == req.name.Some?
  {
    ClusterStart(req);
    ResourceSegment(req);
    ClusterGroupVersion(req);
    ClusterName(req);
  }

  /** A cluster-wide request is classified back into its own parts. */
  lemma RoundTripCluster(verb: string, req: Request)
    requires WellFormed(req) && req.scope.ClusterWide?
    ensures ClassifySegments(verb, ParsedSegments(req)) == (Expected(verb, req), true)
  {
    ClusterNoNamespaced(req);
    ClusterStart(req);
    ClusterCaptures(req);
    ClassifyCluster(verb, ParsedSegments(req), |req.host|, ResourceIndex(req));
  }

  /** Round trip: every well-formed request path classifies as the
      permission it was built from, namespaced or cluster-wide, with a GET
      turned into `list` exactly when the path names no instance. */
  lemma RoundTrip(httpVerb: string, req: Request)
    requires WellFormed(req)
    ensures ParsePerms(httpVerb, Render(req)) == (Expected(Lower(httpVerb), req), true)
  {
    SplitRender(req);
    if req.scope.InNamespace? {
      RoundTripNamespaced(Lower(httpVerb), req);
    } else {
      RoundTripCluster(Lower(httpVerb), req);
    }
  }

  /** The segments from the API root through the instance name. */
  function CoreSegments(req: Request): seq<string> {
    [Root(req)] + req.groupVersion + ScopeSegments(req.scope) + [req.resource] + NameSegments(req.name)
  }

  function Root(req: Request): string {
    if req.plural then "apis" else "api"
  }

  function ScopeSegments(scope: Scope): seq<string> {
    match scope case InNamespace(ns) => ["namespaces", ns] case ClusterWide => []
  }

  function NameSegments(name: Option<string>): seq<string> {
    match name case Some(nm) => [nm] case None => []
  }
}

/** The classifier cases of pkg/plugin/plugin_test.go, proved for the model.
    Each test URL is written as its '/'-separated segments, joined; the
    request built from the same parts renders to it, and the round trip
    gives the permission. */
module PluginTests {
  import opened Wrappers
  import opened Strings
  import opened Classify
  import opened Requests
  import TestText

  /** The scheme and host segments in front of every test URL. */
  const TestHost: seq<string> := ["https:", "", "api.crc.testing:6443"]

  /** The query of the `exec` test URL, in three pieces. */
  const ExecQuery := "command=curl&command=google.com" + "&container=curl&stderr=true" + "&stdin=true&stdout=true"

  /** The query of the watch test URL, in two halves. */
  const WatchQuery := "fieldSelector=metadata.name%3Dcurl" + "&resourceVersion=107674&watch=true"

  /** No host segment has a separator or could be taken for the API root. */
  lemma HostInert()
    ensures NoSlash(TestHost)
    ensures forall i :: 0 <= i < |TestHost| ==> !IsApiSegment(TestHost[i])
  {
  }

  /** A character missing from both halves is missing from the whole. */
  lemma AbsentFromBoth(c: char, a: string, b: string)
    requires c !in a && c !in b
    ensures c !in a + b
  {
  }

  /** `oc get pods -n openshift-console`: a GET on a collection is a `list`.
      The test line: `GET https://api.crc.testing:6443/api/v1/namespaces/openshift-console/pods?limit=500`. */
  lemma ListPodsInNamespace()
    ensures ParsePerms("GET", Join(["https:", "", "api.crc.testing:6443", "api", "v1", "namespaces", "openshift-console", "pods?limit=500"]))
         == (Perm("list", "pods", "v1", "openshift-console", true), true)
  {
    assert "pods" + "?" + "limit=500" == "pods?limit=500";
    assert ParsedSegments(ListPodsInNamespaceRequest) == ["https:", "", "api.crc.testing:6443", "api", "v1", "namespaces", "openshift-console", "pods?limit=500"];
    ListPodsInNamespaceFacts();
    RoundTrip("GET", ListPodsInNamespaceRequest);
  }

  const ListPodsInNamespaceRequest := Request(TestHost, false, ["v1"], InNamespace("openshift-console"), "pods", None, [], Some("limit=500"))

  lemma ListPodsInNamespaceFacts()
    ensures WellFormed(ListPodsInNamespaceRequest)
    ensures Expected(Lower("GET"), ListPodsInNamespaceRequest) == Perm("list", "pods", "v1", "openshift-console", true)
  {
    HostInert();
    TestText.PlainV1();
    TestText.PlainOpenshiftConsole();
    TestText.PlainPods();
    TestText.LimitQuery();
  }

  /** `oc get pod <name> -n openshift-console`: a GET on one instance stays a `get`.
      The test line: `GET https://api.crc.testing:6443/api/v1/namespaces/openshift-console/pods/console-6ccf9997ff-qsnkf`. */
  lemma GetPodInNamespace()
    ensures ParsePerms("GET", Join(["https:", "", "api.crc.testing:6443", "api", "v1", "namespaces", "openshift-console", "pods", "console-6ccf9997ff-qsnkf"]))
         == (Perm("get", "pods", "v1", "openshift-console", true), true)
  {
    assert ParsedSegments(GetPodInNamespaceRequest) == ["https:", "", "api.crc.testing:6443", "api", "v1", "namespaces", "openshift-console", "pods", "console-6ccf9997ff-qsnkf"];
    GetPodInNamespaceFacts();
    RoundTrip("GET", GetPodInNamespaceRequest);
  }

  const GetPodInNamespaceRequest := Request(TestHost, false, ["v1"], InNamespace("openshift-console"), "pods", Some("console-6ccf9997ff-qsnkf"), [], None)

  lemma GetPodInNamespaceFacts()
    ensures WellFormed(GetPodInNamespaceRequest)
    ensures Expected(Lower("GET"), GetPodInNamespaceRequest) == Perm("get", "pods", "v1", "openshift-console", true)
  {
    HostInert();
    TestText.PlainV1();
    TestText.PlainOpenshiftConsole();
    TestText.PlainPods();
    TestText.PlainPodName();
  }

  /** `oc get deployment -n openshift-console`: the group/version is `apps/v1`.
      The test line: `GET https://api.crc.testing:6443/apis/apps/v1/namespaces/openshift-console/deployments?limit=500`. */
  lemma ListDeploymentsInNamespace()
    ensures ParsePerms("GET", Join(["https:", "", "api.crc.testing:6443", "apis", "apps", "v1", "namespaces", "openshift-console", "deployments?limit=500"]))
         == (Perm("list", "deployments", "apps/v1", "openshift-console", true), true)
  {
    assert "deployments" + "?" + "limit=500" == "deployments?limit=500";
    assert ParsedSegments(ListDeploymentsInNamespaceRequest) == ["https:", "", "api.crc.testing:6443", "apis", "apps", "v1", "namespaces", "openshift-console", "deployments?limit=500"];
    ListDeploymentsInNamespaceFacts();
    RoundTrip("GET", ListDeploymentsInNamespaceRequest);
  }

  const ListDeploymentsInNamespaceRequest := Request(TestHost, true, ["apps", "v1"], InNamespace("openshift-console"), "deployments", None, [], Some("limit=500"))

  lemma ListDeploymentsInNamespaceFacts()
    ensures WellFormed(ListDeploymentsInNamespaceRequest)
    ensures Expected(Lower("GET"), ListDeploymentsInNamespaceRequest) == Perm("list", "deployments", "apps/v1", "openshift-console", true)
  {
    HostInert();
    TestText.PlainApps();
    TestText.PlainV1();
    TestText.PlainOpenshiftConsole();
    TestText.PlainDeployments();
    TestText.LimitQuery();
  }

  /** `oc get deployment console -n openshift-console`.
      The test line: `GET https://api.crc.testing:6443/apis/apps/v1/namespaces/openshift-console/deployments/console`. */
  lemma GetDeploymentInNamespace()
    ensures ParsePerms("GET", Join(["https:", "", "api.crc.testing:6443", "apis", "apps", "v1", "namespaces", "openshift-console", "deployments", "console"]))
         == (Perm("get", "deployments", "apps/v1", "openshift-console", true), true)
  {
    assert ParsedSegments(GetDeploymentInNamespaceRequest) == ["https:", "", "api.crc.testing:6443", "apis", "apps", "v1", "namespaces", "openshift-console", "deployments", "console"];
    GetDeploymentInNamespaceFacts();
    RoundTrip("GET", GetDeploymentInNamespaceRequest);
  }

  const GetDeploymentInNamespaceRequest := Request(TestHost, true, ["apps", "v1"], InNamespace("openshift-console"), "deployments", Some("console"), [], None)

  lemma GetDeploymentInNamespaceFacts()
    ensures WellFormed(GetDeploymentInNamespaceRequest)
    ensures Expected(Lower("GET"), GetDeploymentInNamespaceRequest) == Perm("get", "deployments", "apps/v1", "openshift-console", true)
  {
    HostInert();
    TestText.PlainApps();
    TestText.PlainV1();
    TestText.PlainOpenshiftConsole();
    TestText.PlainDeployments();
    TestText.PlainConsole();
  }

  /** `oc get deployment -A`: no namespace segment, two-segment group/version.
      The test line: `GET https://api.crc.testing:6443/apis/apps/v1/deployments?limit=500`. */
  lemma ListDeploymentsAllNamespaces()
    ensures ParsePerms("GET", Join(["https:", "", "api.crc.testing:6443", "apis", "apps", "v1", "deployments?limit=500"]))
         == (Perm("list", "deployments", "apps/v1", "", false), true)
  {
    assert "deployments" + "?" + "limit=500" == "deployments?limit=500";
    assert ParsedSegments(ListDeploymentsAllNamespacesRequest) == ["https:", "", "api.crc.testing:6443", "apis", "apps", "v1", "deployments?limit=500"];
    ListDeploymentsAllNamespacesFacts();
    RoundTrip("GET", ListDeploymentsAllNamespacesRequest);
  }

  const ListDeploymentsAllNamespacesRequest := Request(TestHost, true, ["apps", "v1"], ClusterWide, "deployments", None, [], Some("limit=500"))

  lemma ListDeploymentsAllNamespacesFacts()
    ensures WellFormed(ListDeploymentsAllNamespacesRequest)
    ensures Expected(Lower("GET"), ListDeploymentsAllNamespacesRequest) == Perm("list", "deployments", "apps/v1", "", false)
  {
    HostInert();
    TestText.PlainApps();
    TestText.PlainV1();
    TestText.PlainDeployments();
    TestText.LimitQuery();
  }

  /** `oc get pod -A`: no namespace segment, core group/version.
      The test line: `GET https://api.crc.testing:6443/api/v1/pods?limit=500`. */
  lemma ListPodsAllNamespaces()
    ensures ParsePerms("GET", Join(["https:", "", "api.crc.testing:6443", "api", "v1", "pods?limit=500"]))
         == (Perm("list", "pods", "v1", "", false), true)
  {
    assert "pods" + "?" + "limit=500" == "pods?limit=500";
    assert ParsedSegments(ListPodsAllNamespacesRequest) == ["https:", "", "api.crc.testing:6443", "api", "v1", "pods?limit=500"];
    ListPodsAllNamespacesFacts();
    RoundTrip("GET", ListPodsAllNamespacesRequest);
  }

  const ListPodsAllNamespacesRequest := Request(TestHost, false, ["v1"], ClusterWide, "pods", None, [], Some("limit=500"))

  lemma ListPodsAllNamespacesFacts()
    ensures WellFormed(ListPodsAllNamespacesRequest)
    ensures Expected(Lower("GET"), ListPodsAllNamespacesRequest) == Perm("list", "pods", "v1", "", false)
  {
    HostInert();
    TestText.PlainV1();
    TestText.PlainPods();
    TestText.LimitQuery();
  }

  /** `oc exec -ti curl curl google.com`: the `exec` sub-resource and the query are
      dropped and the kind stays `pods`.
      The test line: `POST https://api.crc.testing:6443/api/v1/namespaces/default/pods/curl/exec?command=curl&command=google.com&container=curl&stderr=true&stdin=true&stdout=true`. */
  lemma ExecInPod()
    ensures ParsePerms("POST", Join(["https:", "", "api.crc.testing:6443", "api", "v1", "namespaces", "default", "pods", "curl", "exec" + "?" + ExecQuery]))
         == (Perm("post", "pods", "v1", "default", true), true)
  {
    assert ParsedSegments(ExecInPodRequest) == ["https:", "", "api.crc.testing:6443", "api", "v1", "namespaces", "default", "pods", "curl", "exec" + "?" + ExecQuery];
    ExecInPodFacts();
    RoundTrip("POST", ExecInPodRequest);
  }

  const ExecInPodRequest := Request(TestHost, false, ["v1"], InNamespace("default"), "pods", Some("curl"), ["exec"], Some(ExecQuery))

  lemma ExecInPodFacts()
    ensures WellFormed(ExecInPodRequest)
    ensures Expected(Lower("POST"), ExecInPodRequest) == Perm("post", "pods", "v1", "default", true)
  {
    HostInert();
    TestText.PlainV1();
    TestText.PlainDefault();
    TestText.PlainPods();
    TestText.PlainCurl();
    TestText.PlainExec();
    TestText.ExecQueryHead();
    TestText.ExecQueryMiddle();
    TestText.ExecQueryTail();
    AbsentFromBoth('/', "command=curl&command=google.com", "&container=curl&stderr=true");
    AbsentFromBoth('/', "command=curl&command=google.com" + "&container=curl&stderr=true", "&stdin=true&stdout=true");
  }

  /** Watching pods: the request is a GET on the collection, so the verb comes out
      as `list`; nothing in the path turns it into `watch`.
      The test line: `GET https://api.crc.testing:6443/api/v1/namespaces/default/pods?fieldSelector=metadata.name%3Dcurl&resourceVersion=107674&watch=true`. */
  lemma WatchPods()
    ensures ParsePerms("GET", Join(["https:", "", "api.crc.testing:6443", "api", "v1", "namespaces", "default", "pods" + "?" + WatchQuery]))
         == (Perm("list", "pods", "v1", "default", true), true)
  {
    assert ParsedSegments(WatchPodsRequest) == ["https:", "", "api.crc.testing:6443", "api", "v1", "namespaces", "default", "pods" + "?" + WatchQuery];
    WatchPodsFacts();
    RoundTrip("GET", WatchPodsRequest);
  }

  const WatchPodsRequest := Request(TestHost, false, ["v1"], InNamespace("default"), "pods", None, [], Some(WatchQuery))

  lemma WatchPodsFacts()
    ensures WellFormed(WatchPodsRequest)
    ensures Expected(Lower("GET"), WatchPodsRequest) == Perm("list", "pods", "v1", "default", true)
  {
    HostInert();
    TestText.PlainV1();
    TestText.PlainDefault();
    TestText.PlainPods();
    TestText.WatchQueryHead();
    TestText.WatchQueryTail();
    AbsentFromBoth('/', "fieldSelector=metadata.name%3Dcurl", "&resourceVersion=107674&watch=true");
  }

  /** Deleting a cluster role binding: cluster-wide, group/version
      `rbac.authorization.k8s.io/v1`, verb `delete`.
      The test line: `DELETE https://api.crc.testing:6443/apis/rbac.authorization.k8s.io/v1/clusterrolebindings/system:openshift:scc:kubeadmin`. */
  lemma DeleteClusterRoleBinding()
    ensures ParsePerms("DELETE", Join(["https:", "", "api.crc.testing:6443", "apis", "rbac.authorization.k8s.io", "v1", "clusterrolebindings", "system:openshift:scc:kubeadmin"]))
         == (Perm("delete", "clusterrolebindings", "rbac.authorization.k8s.io/v1", "", false), true)
  {
    assert ParsedSegments(DeleteClusterRoleBindingRequest) == ["https:", "", "api.crc.testing:6443", "apis", "rbac.authorization.k8s.io", "v1", "clusterrolebindings", "system:openshift:scc:kubeadmin"];
    DeleteClusterRoleBindingFacts();
    RoundTrip("DELETE", DeleteClusterRoleBindingRequest);
  }

  const DeleteClusterRoleBindingRequest := Request(TestHost, true, ["rbac.authorization.k8s.io", "v1"], ClusterWide, "clusterrolebindings", Some("system:openshift:scc:kubeadmin"), [], None)

  lemma DeleteClusterRoleBindingFacts()
    ensures WellFormed(DeleteClusterRoleBindingRequest)
    ensures Expected(Lower("DELETE"), DeleteClusterRoleBindingRequest) == Perm("delete", "clusterrolebindings", "rbac.authorization.k8s.io/v1", "", false)
  {
    HostInert();
    TestText.PlainRbacGroup();
    TestText.PlainV1();
    TestText.PlainClusterRoleBindings();
    TestText.PlainBindingName();
  }
}

/** Character facts about the words of the test URLs: which of them hold
    no separator and no query marker. */
module TestText {

  /** A word with neither a separator nor a query marker in it. */
  predicate Plain(w: string) {
    '/' !in w && '?' !in w
  }

  lemma PlainV1()
    ensures Plain("v1")
  {
  }

  lemma PlainApps()
    ensures Plain("apps")
  {
  }

  lemma PlainRbacGroup()
    ensures Plain("rbac.authorization.k8s.io")
  {
  }

  lemma PlainOpenshiftConsole()
    ensures Plain("openshift-console")
  {
  }

  lemma PlainDefault()
    ensures Plain("default")
  {
  }

  lemma PlainPods()
    ensures Plain("pods")
  {
  }

  lemma PlainDeployments()
    ensures Plain("deployments")
  {
  }

  lemma PlainClusterRoleBindings()
    ensures Plain("clusterrolebindings")
  {
  }

  lemma PlainPodName()
    ensures Plain("console-6ccf9997ff-qsnkf")
  {
  }

  lemma PlainConsole()
    ensures Plain("console")
  {
  }

  lemma PlainCurl()
    ensures Plain("curl")
  {
  }

  lemma PlainExec()
    ensures Plain("exec")
  {
  }

  lemma PlainBindingName()
    ensures Plain("system:openshift:scc:kubeadmin")
  {
  }

  lemma LimitQuery()
    ensures '/' !in "limit=500"
  {
  }

  lemma ExecQueryHead()
    ensures '/' !in "command=curl&command=google.com"
  {
  }

  lemma ExecQueryMiddle()
    ensures '/' !in "&container=curl&stderr=true"
  {
  }

  lemma ExecQueryTail()
    ensures '/' !in "&stdin=true&stdout=true"
  {
  }

  lemma WatchQueryHead()
    ensures '/' !in "fieldSelector=metadata.name%3Dcurl"
  {
  }

  lemma WatchQueryTail()
    ensures '/' !in "&resourceVersion=107674&watch=true"
  {
  }
}

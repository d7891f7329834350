# gen-role: a Dafny model of the permission inference

gen-role is a kubectl plugin. It runs a kubectl command with verbose
logging, reads the HTTP requests kubectl made from the trace, infers one
RBAC permission per request and writes a `Role` for the namespaced
permissions and a `ClusterRole` for the cluster-wide ones. Each role is
merged into the role an earlier run wrote, when there is one.

This project models the core of that pipeline, in `pkg/plugin/plugin.go`:

- `ParsePerms` turns a request into a `Perm`.
  - The verb is lower-cased.
  - Two unanchored POSIX regular expressions classify the path.
  - A `get` without an instance name becomes `list`.
  - The model reads both regular expressions exactly as Go's POSIX matcher
    does: leftmost start, then longest match, then greedy submatches. It
    works over the path's `/`-separated segments, with no regex engine
    (module `Classify`).
- `mergePerm` and `contains` file a permission under the first rule keyed by
  its API group and kind, or else append a new rule (module `Rbac`).
- The loops of `GenerateRole` and `GenerateClusterRole` fold `mergePerm` over
  the permissions of one scope. They start from the rules of the role read
  back from an earlier run (module `Generate`).
- The run collects the permissions of the matched request lines. It writes
  a role only when that role has rules (`Generate.CollectPerms`,
  `Generate.Run`).

Module `Requests` builds request paths from their parts:

- host segments
- `api` or `apis`
- group/version
- an optional namespace
- the kind
- an optional name and sub-resources
- an optional query

It proves the round trip: for every well-formed path, `ParsePerms` recovers
the parts it was built from. Module `PluginTests` proves the cases of
`pkg/plugin/plugin_test.go` from that round trip.

Files:

| file | module | contents |
|---|---|---|
| `wrappers.dfy` | `Wrappers` | `Option` |
| `strings.dfy` | `Strings` | ASCII lower-casing; splitting and joining on `/`; the text before `?` |
| `classify.dfy` | `Classify` | `Perm`; the two regular expressions; `ParsePerms` |
| `requests.dfy` | `Requests` | request paths built from parts; the round trip |
| `plugin_tests.dfy` | `PluginTests`, `TestText` | the test cases of `plugin_test.go` |
| `rbac.dfy` | `Rbac` | policy rules; `contains`; `mergePerm` |
| `generate.dfy` | `Generate` | roles; the generator loops; the run |

## Model

| member | source | states |
|---|---|---|
| Strings.Lower | pkg/plugin/plugin.go:100 | The verb is lower-cased letter by letter (ASCII) and keeps its length. |
| Classify.NsChoice | pkg/plugin/plugin.go:102-103 | From a start segment ending in `api`/`apis`, the namespaced pattern's match is the one a POSIX matcher picks: it reaches the end of the text if any candidate does, and otherwise it is the longest, with the greediest group/version. When there is no match, no `namespaces/<ns>/<kind>` placement exists from that start. |
| Classify.FirstNs | pkg/plugin/plugin.go:102-104 | The namespaced match starts at the leftmost segment from which the pattern matches at all. |
| Classify.FirstNsFindsShape | pkg/plugin/plugin.go:102-108 | The namespaced pattern matches the path exactly when the path has an `api(s)/…/namespaces/<ns>/<kind>` shape. |
| Classify.SoleCandidateChosen | pkg/plugin/plugin.go:102-103 | When exactly one placement of `namespaces` fits, the matcher picks it at the leftmost `api(s)` start. |
| Classify.ClusterChoice | pkg/plugin/plugin.go:121-122 | From a start segment, the cluster pattern matches exactly when a one-segment group/version and a kind follow. The two-segment group/version is taken exactly when it fits, and the one-segment one otherwise. The chosen match is never shorter than the other reading. When the one-segment reading is taken, no name group could have followed its kind. |
| Classify.FirstCluster | pkg/plugin/plugin.go:121-123 | The cluster match starts at the leftmost segment from which the pattern matches. |
| Classify.FirstClusterFindsShape | pkg/plugin/plugin.go:121-127 | The cluster pattern matches exactly when the path has an `api(s)/<gv>/<kind>` shape. |
| Classify.ClassifySegments | pkg/plugin/plugin.go:102-138 | The namespaced pattern is tried first. The permission is namespaced exactly when that pattern matches. Success means one of the two patterns matched. A permission has a non-empty namespace exactly when it is namespaced. The verb is kept, except that a `get` may become `list`. On failure, only the verb is set. |
| Classify.ParsePerms | pkg/plugin/plugin.go:99-139 | As for `ClassifySegments`, on the `/`-split path, with the HTTP verb lower-cased. |
| Classify.NamedCoreObjectMisread | pkg/plugin/plugin.go:121-135 | Any cluster-wide request for a named object of the core group (`api/<v>/<kind>/<name>`) is read with group/version `<v>/<kind>` and kind `<name>`. It is treated as a collection, so a GET comes out as `list`. |
| Requests.RoundTripNamespaced | pkg/plugin/plugin.go:102-118 | For every well-formed namespaced path, the captures give back its group/version, namespace and kind. The verb is `get`→`list` exactly when no name is present. Sub-resources and the query are ignored. |
| Requests.RoundTripCluster | pkg/plugin/plugin.go:121-135 | For every well-formed cluster-wide path, the captures give back its group/version and kind, and the permission is not namespaced. |
| Requests.RoundTrip | pkg/plugin/plugin.go:99-139 | For every well-formed request, `ParsePerms` on the rendered path succeeds and returns the permission the request was built from. |
| PluginTests.ListPodsInNamespace | pkg/plugin/plugin_test.go:16-24 | `GET …/api/v1/namespaces/openshift-console/pods?limit=500` gives `list pods v1` in `openshift-console`, namespaced. |
| PluginTests.GetPodInNamespace | pkg/plugin/plugin_test.go:26-34 | A GET on a named pod gives `get pods v1`, namespaced. |
| PluginTests.ListDeploymentsInNamespace | pkg/plugin/plugin_test.go:36-44 | A GET on namespaced deployments gives `list deployments apps/v1`. |
| PluginTests.GetDeploymentInNamespace | pkg/plugin/plugin_test.go:46-54 | A GET on a named deployment gives `get deployments apps/v1`. |
| PluginTests.ListDeploymentsAllNamespaces | pkg/plugin/plugin_test.go:56-64 | `GET …/apis/apps/v1/deployments?limit=500` gives `list deployments apps/v1`, not namespaced. |
| PluginTests.ListPodsAllNamespaces | pkg/plugin/plugin_test.go:66-74 | `GET …/api/v1/pods?limit=500` gives `list pods v1`, not namespaced. |
| PluginTests.ExecInPod | pkg/plugin/plugin_test.go:76-84 | A POST to `pods/curl/exec?…` gives `post pods v1` in `default`. |
| PluginTests.WatchPods | pkg/plugin/plugin_test.go:86-94 | A GET on a collection with `watch=true` in the query gives `list`, not `watch` (see "Left out"). Namespace, kind and group/version are as the test expects. |
| PluginTests.DeleteClusterRoleBinding | pkg/plugin/plugin_test.go:98-106 | `DELETE …/clusterrolebindings/<name>` gives `delete clusterrolebindings rbac.authorization.k8s.io/v1` with an empty namespace, not namespaced. |
| Rbac.Contains | pkg/plugin/plugin.go:219-227 | `contains` returns true exactly when the string is in the list. |
| Rbac.FirstMatch | pkg/plugin/plugin.go:204-205 | The index found is the first rule whose groups hold the group and whose names hold the kind. No earlier rule matches. |
| Rbac.MergePerm | pkg/plugin/plugin.go:199-217 | The result keeps every old rule in place with the same key and only adds verbs. It adds at most one rule. After the merge the permission is granted. |
| Rbac.MergePermLoop | pkg/plugin/plugin.go:199-217 | The source's loop, with `v1` mapped to the empty group and `contains` as the test, computes `MergePerm`. |
| Rbac.MergeHit | pkg/plugin/plugin.go:205-209 | On a hit, only the first matching rule changes. The verb is appended exactly when it was missing. The number of rules is unchanged. |
| Rbac.MergeMiss | pkg/plugin/plugin.go:212-216 | On a miss, exactly one rule `{[group], [kind], [verb]}` is appended behind the old rules. |
| Rbac.MergeUnchangedIffGranted | pkg/plugin/plugin.go:199-217 | A merge leaves the rules equal exactly when the permission was already granted. |
| Rbac.MergeIdempotent | pkg/plugin/plugin.go:199-217 | Merging a permission twice is merging it once. |
| Rbac.ExtendsKeepsGranted | pkg/plugin/plugin.go:204-209 | Once granted, a permission stays granted while rules only grow. |
| Rbac.MergeKeepsDistinct | pkg/plugin/plugin.go:206-208 | A merge never lists a verb twice in a rule. |
| Rbac.MergeKeepsUniqueKeys | pkg/plugin/plugin.go:199-217 | If no two rules share a (group, kind) key, none do after a merge: a hit leaves every key as it was, and a miss appends a rule whose key no earlier rule holds. |
| Rbac.MergeSound | pkg/plugin/plugin.go:199-217 | Every verb after a merge was there before, or is the merged verb on a rule keyed by its group and kind. Any appended rule is the permission's new rule. |
| Rbac.ListAfterGet | pkg/plugin/plugin.go:199-217 | A `get` then a `list` of one kind, merged into no rules, give one rule with verbs `[get, list]`. |
| Generate.Fold | pkg/plugin/plugin.go:154-159 | The loop adds at most one rule per permission it sees. |
| Generate.FoldExtends | pkg/plugin/plugin.go:154-159 | The loop only extends the starting rules: every old rule keeps its place, its key and its verbs. |
| Generate.FoldGrantsKept | pkg/plugin/plugin.go:154-159 | After the loop, every permission of the scope is granted. |
| Generate.FoldOnlyKept | pkg/plugin/plugin.go:189-193 | Permissions of the other scope are skipped: the loop gives what it gives on the scope's permissions alone. |
| Generate.FoldAppend | pkg/plugin/plugin.go:141-159 | Running on one trace and then, from that role, on a second trace gives the rules of one run over both traces. |
| Generate.FoldGrantedIsIdentity | pkg/plugin/plugin.go:154-159 | When every permission is already granted, the loop leaves the rules as they are. |
| Generate.FoldIdempotent | pkg/plugin/plugin.go:141-159 | Re-running the generator over the same permissions changes nothing. |
| Generate.FoldKeepsDistinct | pkg/plugin/plugin.go:154-159 | No rule lists a verb twice if none did before. |
| Generate.FoldKeepsUniqueKeys | pkg/plugin/plugin.go:154-159 | If each (group, kind) key files at most one rule before the loop, the same holds after it. |
| Generate.FoldSound | pkg/plugin/plugin.go:154-159 | Every verb was in the old rule or comes from a permission of the scope filed under that rule. Every added rule is keyed by a permission of the scope. |
| Generate.FoldEmptyIff | pkg/plugin/plugin.go:154-159 | The result has rules exactly when the old role had rules or a permission of the scope was seen. |
| Generate.GenerateRole | pkg/plugin/plugin.go:141-162 | The role is named and placed in `gen-role-generated-role`. It extends the old rules and grants every namespaced permission. Every verb it holds was in the old rule at that place or comes from a namespaced permission filed under that rule, and every added rule was started by one and lists at least one verb. If every old rule lists a verb, so does every rule of the result; if no two old rules share a (group, kind) key, no two rules of the result do. |
| Generate.GenerateClusterRole | pkg/plugin/plugin.go:177-197 | The cluster role is named `gen-role-generated-clusterrole`. It extends the old rules and grants every cluster-wide permission. Every verb it holds was in the old rule at that place or comes from a cluster-wide permission filed under that rule, and every added rule was started by one and lists at least one verb. If every old rule lists a verb, so does every rule of the result; if no two old rules share a (group, kind) key, no two rules of the result do. |
| Generate.GenerateRoleLoop | pkg/plugin/plugin.go:152-159 | The source's `for … continue` loop, calling `mergePerm`, computes `GenerateRole`. |
| Generate.GenerateClusterRoleLoop | pkg/plugin/plugin.go:187-194 | The same for `GenerateClusterRole`. |
| Generate.CollectPerms | pkg/plugin/plugin.go:60-73 | Every request line that parses contributes its permission, and nothing else is collected. |
| Generate.CollectPermsLine | pkg/plugin/plugin.go:69-72 | One matched line yields its permission when `ParsePerms` accepts it, and nothing when it does not. |
| Generate.CollectPermsAppend | pkg/plugin/plugin.go:60-73 | The permissions come out in line order: the permissions of a trace `a + b` are those of `a` followed by those of `b`. |
| Generate.Run | pkg/plugin/plugin.go:77-95 | Each role is written exactly when the old role had rules or a permission of its scope was collected. A written role has the fixed name and namespace and at least one rule. It keeps every rule of the old role in place, grants every collected permission of its scope, and grants nothing beyond the old role and those permissions. Every added rule lists a verb. A written role keeps the old role's invariants that every rule lists a verb and that no two rules share a (group, kind) key. |

## Left out

- I/O of `RunPlugin`:
  - running kubectl, scanning its standard error and printing
    (pkg/plugin/plugin.go:30-56)
  - marshalling to YAML and writing `gen-role.yaml` / `gen-cluster-role.yaml`
    (pkg/plugin/plugin.go:77-95)
  The model takes the matched request lines as a list of (verb, path) pairs
  and returns the roles it would write.
- The trace-line pattern (pkg/plugin/plugin.go:58), which picks the verb and
  path out of a log line. It needs only `2xx OK` lines. Its captures are the
  input of `ParsePerms` and `CollectPerms`.
- `getFileContentIfExists` and the YAML read-back of the existing role
  (pkg/plugin/plugin.go:142-151, 164-175, 178-186). The existing rules are a
  parameter. A missing or unreadable file corresponds to passing no rules.
  Role fields other than name, namespace and rules, which the source carries
  over from the read-back role, are not modelled.
- `cmd/plugin/cli/root.go` (command-line wiring, kubeconfig flags) is not
  part of this model.
- Strings.Lower: models `strings.ToLower` on ASCII letters only. The verbs
  the trace pattern admits (`GET`, `DELETE`, `POST`, `PATCH`, `PUT`) are
  ASCII.
- Classify.ParsePerms: the path is assumed to hold no line break. The
  scanner splits the trace into lines, so `.` in the patterns matches any
  character of the path.
- Requests.RoundTrip: holds on the `WellFormed` domain only. A request is
  rendered as host segments, `api` or `apis`, the group/version, the scope,
  the kind, an optional name and sub-resources, with an optional query after
  the last segment. `WellFormed` demands:
  - no segment of the host, group/version or sub-resources contains `/`;
  - no host segment ends in `api` or `apis`;
  - the group/version has at least one segment, and none of its segments or
    of the sub-resource segments is `namespaces`;
  - the kind is non-empty and has neither `/` nor `?`;
  - a kind `namespaces` has no name;
  - a name has neither `/` nor `?` and is not `namespaces`;
  - sub-resources come only after a name;
  - the query has no `/`;
  - in a namespace: the namespace is non-empty, has no `/` and is not
    `namespaces`;
  - cluster-wide: the group/version has one or two segments, each non-empty
    and without `?`; a name is non-empty; with a one-segment group/version
    (`api/v1`, `apis/<g>`) there is no name, because with a name the source
    reads the path differently (see `Classify.NamedCoreObjectMisread`).
  Host segments, a namespaced group/version, the namespace and sub-resources
  may contain `?`.
- PluginTests.WatchPods: the test at pkg/plugin/plugin_test.go:86-94 expects
  the verb `watch`. The code turns a GET without a name into `list` and never
  inspects the query. The model follows the code and proves `list`.
- `PolicyRule` fields other than `APIGroups`, `ResourceNames` and `Verbs`
  (`Resources`, `NonResourceURLs` and the rest). The source never sets them
  on the rules it creates. A rule read back from an earlier role
  (pkg/plugin/plugin.go:142-151, 178-186) keeps them, `mergePerm` leaves
  them untouched, and they are written out again (pkg/plugin/plugin.go:77-95).
  The model's `Rule` drops them, so it does not model that carry-over. As in
  the source, the kind is stored in `ResourceNames`, not in `Resources`.
- Go slice aliasing in `mergePerm`: it appends to `rules[i].Verbs` in place.
  The caller always uses the returned slice, so the value semantics of the
  model agree.

/** The role generators of pkg/plugin/plugin.go: `GenerateRole` and
    `GenerateClusterRole` fold `mergePerm` over the permissions of one scope,
    starting from the rules of a role read back from an earlier run (or from
    no rules), and the run of the plugin writes a role only when it has
    rules. */
module Generate {
  import opened Wrappers
  import opened Classify
  import opened Rbac

  /** A Kubernetes `Role` or `ClusterRole`: its name, its namespace and its
      policy rules. */
  datatype Role = Role(name: string, namespace: string, rules: seq<Rule>)

  /** The name (and namespace) every generated role is given. */
  const RoleName := "gen-role-generated-role"
  const ClusterRoleName := "gen-role-generated-clusterrole"

  /** A permission belongs to the namespaced `Role` when it was parsed from a
      namespaced path, and to the `ClusterRole` otherwise. */
  predicate Kept(p: Perm, namespaced: bool) {
    p.namespaced == namespaced
  }

  /** One turn of the generators' loop: merge a permission of the scope,
      skip any other. */
  function Step(rules: seq<Rule>, p: Perm, namespaced: bool): seq<Rule> {
    if Kept(p, namespaced) then MergePerm(rules, p) else rules
  }

  /** The loop of the generators: each permission of the scope, in order, is
      merged into the rules; the others are skipped. */
  function Fold(rules: seq<Rule>, perms: seq<Perm>, namespaced: bool): (r: seq<Rule>)
    ensures |r| <= |rules| + |perms|
    decreases |perms|
  {
    if |perms| == 0 then rules
    else Fold(Step(rules, perms[0], namespaced), perms[1..], namespaced)
  }

  /** The loop only grows the rules: every old rule stays in place with its
      key and its verbs. */
  lemma {:induction false} FoldExtends(rules: seq<Rule>, perms: seq<Perm>, namespaced: bool)
    ensures Extends(rules, Fold(rules, perms, namespaced))
    decreases |perms|
  {
    if |perms| == 0 {
      ExtendsReflexive(rules);
    } else {
      var next := Step(rules, perms[0], namespaced);
      ExtendsReflexive(rules);
      FoldExtends(next, perms[1..], namespaced);
      ExtendsTransitive(rules, next, Fold(next, perms[1..], namespaced));
    }
  }

  /** The permissions of one scope, in their order. */
  function Only(perms: seq<Perm>, namespaced: bool): (r: seq<Perm>)
    ensures forall p :: p in r <==> p in perms && Kept(p, namespaced)
    ensures |r| <= |perms|
  {
    if |perms| == 0 then []
    else if Kept(perms[0], namespaced) then [perms[0]] + Only(perms[1..], namespaced)
    else Only(perms[1..], namespaced)
  }

  /** One step of the fold, taken apart. */
  lemma FoldStep(rules: seq<Rule>, perms: seq<Perm>, namespaced: bool)
    requires |perms| > 0
    ensures Fold(rules, perms, namespaced) == Fold(Step(rules, perms[0], namespaced), perms[1..], namespaced)
  {
  }

  /** After the fold every permission of the scope is granted. */
  lemma {:induction false} FoldGrantsKept(rules: seq<Rule>, perms: seq<Perm>, namespaced: bool)
    ensures forall p :: p in perms && Kept(p, namespaced) ==> Granted(Fold(rules, perms, namespaced), p)
    decreases |perms|
  {
    if |perms| > 0 {
      var next := Step(rules, perms[0], namespaced);
      FoldStep(rules, perms, namespaced);
      var r := Fold(next, perms[1..], namespaced);
      FoldGrantsKept(next, perms[1..], namespaced);
      FoldExtends(next, perms[1..], namespaced);
      if Kept(perms[0], namespaced) {
        ExtendsKeepsGranted(next, r, perms[0]);
      }
      forall p | p in perms && Kept(p, namespaced)
        ensures Granted(r, p)
      {
        if p != perms[0] {
          assert p in perms[1..];
        }
      }
    }
  }

  /** Permissions of the other scope have no effect: folding the whole list
      is folding its permissions of this scope. */
  lemma {:induction false} FoldOnlyKept(rules: seq<Rule>, perms: seq<Perm>, namespaced: bool)
    ensures Fold(rules, perms, namespaced) == Fold(rules, Only(perms, namespaced), namespaced)
    decreases |perms|
  {
    if |perms| > 0 {
      var next := Step(rules, perms[0], namespaced);
      FoldStep(rules, perms, namespaced);
      FoldOnlyKept(next, perms[1..], namespaced);
      if Kept(perms[0], namespaced) {
        var only := Only(perms, namespaced);
        assert only[0] == perms[0] && only[1..] == Only(perms[1..], namespaced);
        FoldStep(rules, only, namespaced);
      }
    }
  }

  /** Folding two lists one after the other is folding their concatenation:
      running the plugin on a second trace, starting from the role the first
      run wrote, gives the rules of one run over both traces. */
  lemma {:induction false} FoldAppend(rules: seq<Rule>, a: seq<Perm>, b: seq<Perm>, namespaced: bool)
    ensures Fold(rules, a + b, namespaced) == Fold(Fold(rules, a, namespaced), b, namespaced)
    decreases |a|
  {
    if |a| == 0 {
      assert a + b == b;
    } else {
      var next := Step(rules, a[0], namespaced);
      FoldStep(rules, a, namespaced);
      FoldStep(rules, a + b, namespaced);
      assert (a + b)[0] == a[0];
      assert (a + b)[1..] == a[1..] + b;
      FoldAppend(next, a[1..], b, namespaced);
    }
  }

  /** When every permission of the scope is already granted, the fold leaves
      the rules exactly as they are. */
  lemma {:induction false} FoldGrantedIsIdentity(rules: seq<Rule>, perms: seq<Perm>, namespaced: bool)
    requires forall p :: p in perms && Kept(p, namespaced) ==> Granted(rules, p)
    ensures Fold(rules, perms, namespaced) == rules
    decreases |perms|
  {
    if |perms| > 0 {
      FoldStep(rules, perms, namespaced);
      if Kept(perms[0], namespaced) {
        MergeUnchangedIffGranted(rules, perms[0]);
      }
      FoldGrantedIsIdentity(rules, perms[1..], namespaced);
    }
  }

  /** Running the generator again over the same permissions changes nothing. */
  lemma FoldIdempotent(rules: seq<Rule>, perms: seq<Perm>, namespaced: bool)
    ensures Fold(Fold(rules, perms, namespaced), perms, namespaced) == Fold(rules, perms, namespaced)
  {
    FoldGrantsKept(rules, perms, namespaced);
    FoldGrantedIsIdentity(Fold(rules, perms, namespaced), perms, namespaced);
  }

  /** The fold never lists a verb twice in a rule. */
  lemma {:induction false} FoldKeepsDistinct(rules: seq<Rule>, perms: seq<Perm>, namespaced: bool)
    requires DistinctVerbs(rules)
    ensures DistinctVerbs(Fold(rules, perms, namespaced))
    decreases |perms|
  {
    if |perms| > 0 {
      var next := Step(rules, perms[0], namespaced);
      FoldStep(rules, perms, namespaced);
      if Kept(perms[0], namespaced) {
        MergeKeepsDistinct(rules, perms[0]);
      }
      FoldKeepsDistinct(next, perms[1..], namespaced);
    }
  }

  /** The fold never files two rules under one key. */
  lemma {:induction false} FoldKeepsUniqueKeys(rules: seq<Rule>, perms: seq<Perm>, namespaced: bool)
    requires UniqueKeys(rules)
    ensures UniqueKeys(Fold(rules, perms, namespaced))
    decreases |perms|
  {
    if |perms| > 0 {
      var next := Step(rules, perms[0], namespaced);
      FoldStep(rules, perms, namespaced);
      if Kept(perms[0], namespaced) {
        MergeKeepsUniqueKeys(rules, perms[0]);
      }
      FoldKeepsUniqueKeys(next, perms[1..], namespaced);
    }
  }

  /** Some permission of the scope, at index `i`, has verb `v` and the key of
      `rule`. */
  predicate Explained(perms: seq<Perm>, namespaced: bool, rule: Rule, v: string) {
    exists i :: 0 <= i < |perms| && Kept(perms[i], namespaced) && perms[i].verb == v
                && Matches(rule, EffectiveGroup(perms[i].api), perms[i].resource)
  }

  /** Some permission of the scope started `rule`: the rule is keyed by
      that permission's group and kind alone. */
  predicate Started(perms: seq<Perm>, namespaced: bool, rule: Rule) {
    exists i :: 0 <= i < |perms| && Kept(perms[i], namespaced)
                && rule.apiGroups == [EffectiveGroup(perms[i].api)] && rule.resourceNames == [perms[i].resource]
  }

  /** `rules` grants nothing beyond `existing` and the permissions of the
      scope: every verb was in the rule of `existing` at that place or comes
      from a permission of the scope filed under that rule, and every rule
      past the end of `existing` was started by a permission of the scope
      and lists at least one verb. */
  predicate Accounted(existing: seq<Rule>, perms: seq<Perm>, namespaced: bool, rules: seq<Rule>) {
    && (forall k, v :: 0 <= k < |rules| && v in rules[k].verbs ==>
          (k < |existing| && v in existing[k].verbs) || Explained(perms, namespaced, rules[k], v))
    && (forall k :: |existing| <= k < |rules| ==> Started(perms, namespaced, rules[k]) && |rules[k].verbs| >= 1)
  }

  /** Nothing is granted that was not asked for: every verb of the result
      was in the old rule at that place or comes from a permission of the
      scope filed under that rule, and every added rule was started by a
      permission of the scope. */
  lemma {:induction false} FoldSound(rules: seq<Rule>, perms: seq<Perm>, namespaced: bool)
    ensures forall k, v :: 0 <= k < |Fold(rules, perms, namespaced)| && v in Fold(rules, perms, namespaced)[k].verbs ==>
              (k < |rules| && v in rules[k].verbs) || Explained(perms, namespaced, Fold(rules, perms, namespaced)[k], v)
    ensures forall k :: |rules| <= k < |Fold(rules, perms, namespaced)| ==>
              Started(perms, namespaced, Fold(rules, perms, namespaced)[k]) && |Fold(rules, perms, namespaced)[k].verbs| >= 1
    decreases |perms|
  {
    var r := Fold(rules, perms, namespaced);
    if |perms| > 0 {
      var p := perms[0];
      var next := Step(rules, p, namespaced);
      FoldStep(rules, perms, namespaced);
      assert r == Fold(next, perms[1..], namespaced);
      FoldSound(next, perms[1..], namespaced);
      FoldExtends(next, perms[1..], namespaced);
      if Kept(p, namespaced) {
        MergeSound(rules, p);
      }
      forall k, v | 0 <= k < |r| && v in r[k].verbs
        ensures (k < |rules| && v in rules[k].verbs) || Explained(perms, namespaced, r[k], v)
      {
        if k < |next| && v in next[k].verbs {
          if !(k < |rules| && v in rules[k].verbs) {
            assert v == p.verb && Matches(next[k], EffectiveGroup(p.api), p.resource);
            assert Matches(r[k], EffectiveGroup(p.api), p.resource);
            assert perms[0] == p;
          }
        } else {
          var i :| 0 <= i < |perms[1..]| && Kept(perms[1..][i], namespaced) && perms[1..][i].verb == v
                   && Matches(r[k], EffectiveGroup(perms[1..][i].api), perms[1..][i].resource);
          assert perms[i + 1] == perms[1..][i];
        }
      }
      forall k | |rules| <= k < |r|
        ensures Started(perms, namespaced, r[k]) && |r[k].verbs| >= 1
      {
        if k < |next| {
          assert next[k] == NewRule(p) && perms[0] == p;
          assert next[k].verbs <= r[k].verbs;
        } else {
          var i :| 0 <= i < |perms[1..]| && Kept(perms[1..][i], namespaced)
                   && r[k].apiGroups == [EffectiveGroup(perms[1..][i].api)]
                   && r[k].resourceNames == [perms[1..][i].resource];
          assert perms[i + 1] == perms[1..][i];
        }
      }
    }
  }

  /** The fold's result has rules exactly when the old rules were not
      empty or some permission of the scope was merged. */
  lemma FoldEmptyIff(rules: seq<Rule>, perms: seq<Perm>, namespaced: bool)
    ensures |Fold(rules, perms, namespaced)| > 0 <==> |rules| > 0 || exists p :: p in perms && Kept(p, namespaced)
  {
    var r := Fold(rules, perms, namespaced);
    if p :| p in perms && Kept(p, namespaced) {
      FoldGrantsKept(rules, perms, namespaced);
      assert Granted(r, p);
    }
    if |rules| == 0 && |r| > 0 {
      FoldSound(rules, perms, namespaced);
      assert Started(perms, namespaced, r[0]);
    }
  }

  /** `GenerateRole` (pkg/plugin/plugin.go:141-162): the namespaced
      permissions merged into `existing`, the rules of the role read back
      from an earlier run. */
  function GenerateRole(existing: seq<Rule>, perms: seq<Perm>): (role: Role)
    ensures role.name == RoleName && role.namespace == RoleName
    ensures Extends(existing, role.rules)
    ensures forall p :: p in perms && p.namespaced ==> Granted(role.rules, p)
    ensures Accounted(existing, perms, true, role.rules)
    ensures HasVerbs(existing) ==> HasVerbs(role.rules)
    ensures UniqueKeys(existing) ==> UniqueKeys(role.rules)
  {
    FoldGrantsKept(existing, perms, true);
    FoldExtends(existing, perms, true);
    FoldSound(existing, perms, true);
    assert UniqueKeys(existing) ==> UniqueKeys(Fold(existing, perms, true)) by {
      if UniqueKeys(existing) {
        FoldKeepsUniqueKeys(existing, perms, true);
      }
    }
    Role(RoleName, RoleName, Fold(existing, perms, true))
  }

  /** `GenerateClusterRole` (pkg/plugin/plugin.go:177-197): the cluster-wide
      permissions merged into `existing`. */
  function GenerateClusterRole(existing: seq<Rule>, perms: seq<Perm>): (role: Role)
    ensures role.name == ClusterRoleName && role.namespace == ClusterRoleName
    ensures Extends(existing, role.rules)
    ensures forall p :: p in perms && !p.namespaced ==> Granted(role.rules, p)
    ensures Accounted(existing, perms, false, role.rules)
    ensures HasVerbs(existing) ==> HasVerbs(role.rules)
    ensures UniqueKeys(existing) ==> UniqueKeys(role.rules)
  {
    FoldGrantsKept(existing, perms, false);
    FoldExtends(existing, perms, false);
    FoldSound(existing, perms, false);
    assert UniqueKeys(existing) ==> UniqueKeys(Fold(existing, perms, false)) by {
      if UniqueKeys(existing) {
        FoldKeepsUniqueKeys(existing, perms, false);
      }
    }
    Role(ClusterRoleName, ClusterRoleName, Fold(existing, perms, false))
  }

  /** The loop of `GenerateRole` as the source writes it: skip with
      `continue` what is not namespaced, merge the rest. */
  method GenerateRoleLoop(existing: seq<Rule>, perms: seq<Perm>) returns (role: Role)
    ensures role == GenerateRole(existing, perms)
  {
    var rules := existing;
    for i := 0 to |perms|
      invariant Fold(rules, perms[i..], true) == Fold(existing, perms, true)
    {
      FoldStep(rules, perms[i..], true);
      assert perms[i..][1..] == perms[i + 1..];
      if !perms[i].namespaced {
        continue;
      }
      rules := MergePermLoop(rules, perms[i]);
    }
    role := Role(RoleName, RoleName, rules);
  }

  /** The loop of `GenerateClusterRole`: skip what is namespaced. */
  method GenerateClusterRoleLoop(existing: seq<Rule>, perms: seq<Perm>) returns (role: Role)
    ensures role == GenerateClusterRole(existing, perms)
  {
    var rules := existing;
    for i := 0 to |perms|
      invariant Fold(rules, perms[i..], false) == Fold(existing, perms, false)
    {
      FoldStep(rules, perms[i..], false);
      assert perms[i..][1..] == perms[i + 1..];
      if perms[i].namespaced {
        continue;
      }
      rules := MergePermLoop(rules, perms[i]);
    }
    role := Role(ClusterRoleName, ClusterRoleName, rules);
  }

  /** A line of the trace that the request pattern matched: its HTTP verb
      and the text after the host and port. */
  datatype MatchedLine = MatchedLine(verb: string, path: string)

  /** The permissions of the matched request lines, in order: lines whose
      path `ParsePerms` rejects are dropped. */
  function CollectPerms(reqs: seq<MatchedLine>): (perms: seq<Perm>)
    ensures |perms| <= |reqs|
    ensures forall i :: 0 <= i < |reqs| && ParsePerms(reqs[i].verb, reqs[i].path).1 ==>
              ParsePerms(reqs[i].verb, reqs[i].path).0 in perms
    ensures forall p :: p in perms ==>
              exists i :: 0 <= i < |reqs| && ParsePerms(reqs[i].verb, reqs[i].path) == (p, true)
  {
    if |reqs| == 0 then []
    else
      var rest := CollectPerms(reqs[1..]);
      var parsed := ParsePerms(reqs[0].verb, reqs[0].path);
      assert forall i :: 1 <= i < |reqs| ==> reqs[i] == reqs[1..][i - 1];
      if parsed.1 then [parsed.0] + rest else rest
  }

  /** One matched line contributes its permission when `ParsePerms`
      accepts it and nothing otherwise. */
  lemma CollectPermsLine(line: MatchedLine)
    ensures ParsePerms(line.verb, line.path).1 ==> CollectPerms([line]) == [ParsePerms(line.verb, line.path).0]
    ensures !ParsePerms(line.verb, line.path).1 ==> CollectPerms([line]) == []
  {
    assert [line][1..] == [];
  }

  /** The permissions are collected in the order of the lines: the lines
      of a longer trace contribute theirs after those of its prefix. */
  lemma {:induction false} CollectPermsAppend(a: seq<MatchedLine>, b: seq<MatchedLine>)
    ensures CollectPerms(a + b) == CollectPerms(a) + CollectPerms(b)
    decreases |a|
  {
    if |a| == 0 {
      assert a + b == b;
    } else {
      assert (a + b)[0] == a[0];
      assert (a + b)[1..] == a[1..] + b;
      CollectPermsAppend(a[1..], b);
    }
  }

  /** What one run writes: each role only when it has rules. */
  datatype Output = Output(role: Option<Role>, clusterRole: Option<Role>)

  /** The run of the plugin after the trace has been read (pkg/plugin/plugin.go
      57-95), given the rules of the roles an earlier run wrote. */
  function Run(existingRole: seq<Rule>, existingClusterRole: seq<Rule>, reqs: seq<MatchedLine>): (out: Output)
    ensures out.role.Some? ==> out.role.value.name == RoleName && out.role.value.namespace == RoleName
                               && |out.role.value.rules| > 0
    ensures out.clusterRole.Some? ==> out.clusterRole.value.name == ClusterRoleName
                                      && out.clusterRole.value.namespace == ClusterRoleName
                                      && |out.clusterRole.value.rules| > 0
    ensures out.role.Some? ==> Extends(existingRole, out.role.value.rules)
                               && Accounted(existingRole, CollectPerms(reqs), true, out.role.value.rules)
    ensures out.clusterRole.Some? ==> Extends(existingClusterRole, out.clusterRole.value.rules)
                                      && Accounted(existingClusterRole, CollectPerms(reqs), false, out.clusterRole.value.rules)
    ensures out.role.Some? ==> (HasVerbs(existingRole) ==> HasVerbs(out.role.value.rules))
                               && (UniqueKeys(existingRole) ==> UniqueKeys(out.role.value.rules))
    ensures out.clusterRole.Some? ==> (HasVerbs(existingClusterRole) ==> HasVerbs(out.clusterRole.value.rules))
                                      && (UniqueKeys(existingClusterRole) ==> UniqueKeys(out.clusterRole.value.rules))
    ensures out.role.Some? <==> |existingRole| > 0 || exists p :: p in CollectPerms(reqs) && p.namespaced
    ensures out.clusterRole.Some? <==> |existingClusterRole| > 0 || exists p :: p in CollectPerms(reqs) && !p.namespaced
    ensures out.role.Some? ==> forall p :: p in CollectPerms(reqs) && p.namespaced ==> Granted(out.role.value.rules, p)
    ensures out.clusterRole.Some? ==>
              forall p :: p in CollectPerms(reqs) && !p.namespaced ==> Granted(out.clusterRole.value.rules, p)
  {
    var perms := CollectPerms(reqs);
    var role := GenerateRole(existingRole, perms);
    var clusterRole := GenerateClusterRole(existingClusterRole, perms);
    FoldEmptyIff(existingRole, perms, true);
    FoldEmptyIff(existingClusterRole, perms, false);
    Output(if |role.rules| > 0 then Some(role) else None,
           if |clusterRole.rules| > 0 then Some(clusterRole) else None)
  }
}

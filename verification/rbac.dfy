/** The rule merger of pkg/plugin/plugin.go: `mergePerm` and its helper
    `contains`. Rules are kept in first-seen order; a permission is merged
    into the first rule whose groups hold its effective API group and whose
    resource names hold its resource kind, and otherwise starts a rule of its
    own at the end. */
module Rbac {
  import opened Wrappers
  import opened Classify

  /** The three fields of a Kubernetes `PolicyRule` the generator fills. As
      in the source, the resource kind is stored in `resourceNames`. */
  datatype Rule = Rule(apiGroups: seq<string>, resourceNames: seq<string>, verbs: seq<string>)

  /** The API group a permission is filed under: the core group/version
      `v1` is the empty group. */
  function EffectiveGroup(api: string): string {
    if api == "v1" then "" else api
  }

  /** The key a rule is looked up by: it lists the group and the kind. */
  predicate Matches(rule: Rule, group: string, resource: string) {
    group in rule.apiGroups && resource in rule.resourceNames
  }

  /** `contains`: a linear scan for `x`. */
  method Contains(s: seq<string>, x: string) returns (found: bool)
    ensures found <==> x in s
  {
    for i := 0 to |s|
      invariant x !in s[..i]
    {
      if s[i] == x {
        return true;
      }
    }
    return false;
  }

  /** The index of the first rule keyed by `group` and `resource`. */
  function FirstMatch(rules: seq<Rule>, group: string, resource: string): (r: Option<nat>)
    ensures r.Some? ==> r.value < |rules| && Matches(rules[r.value], group, resource)
    ensures forall j :: 0 <= j < |rules| && (r.None? || j < r.value) ==> !Matches(rules[j], group, resource)
  {
    if |rules| == 0 then None
    else if Matches(rules[0], group, resource) then Some(0)
    else
      match FirstMatch(rules[1..], group, resource)
      case Some(i) => Some(i + 1)
      case None => None
  }

  /** The first rule with the key is the first rule matching it. */
  lemma FirstMatchAt(rules: seq<Rule>, group: string, resource: string, i: nat)
    requires i < |rules| && Matches(rules[i], group, resource)
    requires forall j :: 0 <= j < i ==> !Matches(rules[j], group, resource)
    ensures FirstMatch(rules, group, resource) == Some(i)
  {
  }

  /** The rule a permission that matches nothing starts. */
  function NewRule(p: Perm): Rule {
    Rule([EffectiveGroup(p.api)], [p.resource], [p.verb])
  }

  /** The permission is already in force: the rule `mergePerm` would pick
      for it lists its verb. */
  predicate Granted(rules: seq<Rule>, p: Perm) {
    match FirstMatch(rules, EffectiveGroup(p.api), p.resource)
    case Some(i) => p.verb in rules[i].verbs
    case None => false
  }

  /** `after` keeps every rule of `before` in place with the same key, and
      only ever adds verbs at the end of a rule or rules at the end. */
  predicate Extends(before: seq<Rule>, after: seq<Rule>) {
    && |before| <= |after|
    && forall j :: 0 <= j < |before| ==>
         && after[j].apiGroups == before[j].apiGroups
         && after[j].resourceNames == before[j].resourceNames
         && before[j].verbs <= after[j].verbs
  }

  /** `mergePerm` (pkg/plugin/plugin.go:199-217): on a hit the verb is added
      to the first matching rule unless it is already there; on a miss a new
      rule is appended. The result extends the input and grants the
      permission. */
  function MergePerm(rules: seq<Rule>, p: Perm): (r: seq<Rule>)
    ensures Extends(rules, r)
    ensures Granted(r, p)
    ensures |r| <= |rules| + 1
  {
    var group := EffectiveGroup(p.api);
    match FirstMatch(rules, group, p.resource)
    case Some(i) =>
      if p.verb in rules[i].verbs then rules
      else
        var r := rules[i := rules[i].(verbs := rules[i].verbs + [p.verb])];
        FirstMatchAt(r, group, p.resource, i);
        r
    case None =>
      var r := rules + [NewRule(p)];
      assert Matches(r[|rules|], group, p.resource);
      FirstMatchAt(r, group, p.resource, |rules|);
      r
  }

  /** The loop of `mergePerm` as the source writes it, calling `contains`
      for each test; it computes `MergePerm`. */
  method MergePermLoop(rules: seq<Rule>, p: Perm) returns (r: seq<Rule>)
    ensures r == MergePerm(rules, p)
  {
    var api := p.api;
    if p.api == "v1" {
      api := "";
    }
    for i := 0 to |rules|
      invariant forall j :: 0 <= j < i ==> !Matches(rules[j], api, p.resource)
    {
      var inGroups := Contains(rules[i].apiGroups, api);
      var inNames := Contains(rules[i].resourceNames, p.resource);
      if inGroups && inNames {
        var hasVerb := Contains(rules[i].verbs, p.verb);
        if hasVerb {
          r := rules;
        } else {
          r := rules[i := rules[i].(verbs := rules[i].verbs + [p.verb])];
        }
        return;
      }
    }
    r := rules + [Rule([api], [p.resource], [p.verb])];
  }

  /** A hit changes only the matching rule, and only by appending the verb
      when it is missing; the number of rules stays the same. */
  lemma MergeHit(rules: seq<Rule>, p: Perm, i: nat)
    requires FirstMatch(rules, EffectiveGroup(p.api), p.resource) == Some(i)
    ensures |MergePerm(rules, p)| == |rules|
    ensures forall j :: 0 <= j < |rules| && j != i ==> MergePerm(rules, p)[j] == rules[j]
    ensures MergePerm(rules, p)[i].apiGroups == rules[i].apiGroups
    ensures MergePerm(rules, p)[i].resourceNames == rules[i].resourceNames
    ensures p.verb in rules[i].verbs ==> MergePerm(rules, p)[i].verbs == rules[i].verbs
    ensures p.verb !in rules[i].verbs ==> MergePerm(rules, p)[i].verbs == rules[i].verbs + [p.verb]
  {
  }

  /** A miss appends exactly one rule, `{[group], [kind], [verb]}`, behind
      the untouched existing ones. */
  lemma MergeMiss(rules: seq<Rule>, p: Perm)
    requires FirstMatch(rules, EffectiveGroup(p.api), p.resource).None?
    ensures MergePerm(rules, p) == rules + [Rule([EffectiveGroup(p.api)], [p.resource], [p.verb])]
  {
  }

  /** Merging changes nothing exactly when the permission is already granted. */
  lemma MergeUnchangedIffGranted(rules: seq<Rule>, p: Perm)
    ensures MergePerm(rules, p) == rules <==> Granted(rules, p)
  {
    var group := EffectiveGroup(p.api);
    match FirstMatch(rules, group, p.resource)
    case Some(i) =>
      if p.verb !in rules[i].verbs {
        assert |MergePerm(rules, p)[i].verbs| == |rules[i].verbs| + 1;
      }
    case None =>
      assert |MergePerm(rules, p)| == |rules| + 1;
  }

  /** Merging the same permission twice is merging it once. */
  lemma MergeIdempotent(rules: seq<Rule>, p: Perm)
    ensures MergePerm(MergePerm(rules, p), p) == MergePerm(rules, p)
  {
    MergeUnchangedIffGranted(MergePerm(rules, p), p);
  }

  /** `Extends` is a preorder: reflexive and transitive. */
  lemma ExtendsReflexive(rules: seq<Rule>)
    ensures Extends(rules, rules)
  {
  }

  lemma ExtendsTransitive(a: seq<Rule>, b: seq<Rule>, c: seq<Rule>)
    requires Extends(a, b) && Extends(b, c)
    ensures Extends(a, c)
  {
    forall j | 0 <= j < |a|
      ensures a[j].verbs <= c[j].verbs
    {
      assert a[j].verbs <= b[j].verbs <= c[j].verbs;
    }
  }

  /** Growing the rules never moves the rule a key is filed under. */
  lemma ExtendsKeepsFirstMatch(before: seq<Rule>, after: seq<Rule>, group: string, resource: string)
    requires Extends(before, after)
    requires FirstMatch(before, group, resource).Some?
    ensures FirstMatch(after, group, resource) == FirstMatch(before, group, resource)
  {
    var i := FirstMatch(before, group, resource).value;
    assert Matches(after[i], group, resource);
    forall j | 0 <= j < i
      ensures !Matches(after[j], group, resource)
    {
      assert !Matches(before[j], group, resource);
    }
    FirstMatchAt(after, group, resource, i);
  }

  /** A permission once granted stays granted as the rules grow. */
  lemma ExtendsKeepsGranted(before: seq<Rule>, after: seq<Rule>, p: Perm)
    requires Extends(before, after) && Granted(before, p)
    ensures Granted(after, p)
  {
    ExtendsKeepsFirstMatch(before, after, EffectiveGroup(p.api), p.resource);
  }

  /** Every verb after a merge was either already in that rule or is the
      merged permission's verb on a rule keyed by its group and kind; a rule
      past the old end is the new rule of the permission. */
  lemma MergeSound(rules: seq<Rule>, p: Perm)
    ensures forall k, v :: 0 <= k < |MergePerm(rules, p)| && v in MergePerm(rules, p)[k].verbs ==>
              (k < |rules| && v in rules[k].verbs)
              || (v == p.verb && Matches(MergePerm(rules, p)[k], EffectiveGroup(p.api), p.resource))
    ensures forall k :: |rules| <= k < |MergePerm(rules, p)| ==> MergePerm(rules, p)[k] == NewRule(p)
  {
    match FirstMatch(rules, EffectiveGroup(p.api), p.resource)
    case Some(i) =>
      MergeHit(rules, p, i);
    case None =>
      MergeMiss(rules, p);
  }

  /** No verb appears twice in a list. */
  predicate NoDuplicates(s: seq<string>) {
    forall i, j :: 0 <= i < j < |s| ==> s[i] != s[j]
  }

  /** No rule lists a verb twice. */
  predicate DistinctVerbs(rules: seq<Rule>) {
    forall k :: 0 <= k < |rules| ==> NoDuplicates(rules[k].verbs)
  }

  /** Merging never lists a verb twice in a rule. */
  lemma MergeKeepsDistinct(rules: seq<Rule>, p: Perm)
    requires DistinctVerbs(rules)
    ensures DistinctVerbs(MergePerm(rules, p))
  {
    var group := EffectiveGroup(p.api);
    match FirstMatch(rules, group, p.resource)
    case Some(i) =>
      MergeHit(rules, p, i);
    case None =>
      MergeMiss(rules, p);
  }

  /** Every rule lists at least one verb. */
  predicate HasVerbs(rules: seq<Rule>) {
    forall k :: 0 <= k < |rules| ==> |rules[k].verbs| >= 1
  }

  /** No two rules are filed under the same group and kind: a key matches
      at most one rule. */
  ghost predicate UniqueKeys(rules: seq<Rule>) {
    forall i, j, g: string, res: string :: 0 <= i < j < |rules| && Matches(rules[i], g, res) ==> !Matches(rules[j], g, res)
  }

  /** Merging never files a second rule under a key that already has one. */
  lemma MergeKeepsUniqueKeys(rules: seq<Rule>, p: Perm)
    requires UniqueKeys(rules)
    ensures UniqueKeys(MergePerm(rules, p))
  {
    var group := EffectiveGroup(p.api);
    var r := MergePerm(rules, p);
    match FirstMatch(rules, group, p.resource)
    case Some(i) =>
      MergeHit(rules, p, i);
      forall k | 0 <= k < |r|
        ensures r[k].apiGroups == rules[k].apiGroups && r[k].resourceNames == rules[k].resourceNames
      {
      }
    case None =>
      MergeMiss(rules, p);
      forall i, j, g: string, res: string | 0 <= i < j < |r| && Matches(r[i], g, res)
        ensures !Matches(r[j], g, res)
      {
        assert r[i] == rules[i];
        assert !Matches(rules[i], group, p.resource);
      }
  }

  /** A `get` and then a `list` of the same kind, merged into an empty rule
      list, give one rule with the verbs in that order. */
  lemma ListAfterGet(api: string, resource: string, namespace: string, namespaced: bool)
    ensures MergePerm(MergePerm([], Perm("get", resource, api, namespace, namespaced)),
                      Perm("list", resource, api, namespace, namespaced))
         == [Rule([EffectiveGroup(api)], [resource], ["get", "list"])]
  {
    var get := Perm("get", resource, api, namespace, namespaced);
    var list := Perm("list", resource, api, namespace, namespaced);
    var first := MergePerm([], get);
    MergeMiss([], get);
    assert first == [Rule([EffectiveGroup(api)], [resource], ["get"])];
    assert Matches(first[0], EffectiveGroup(api), resource);
    FirstMatchAt(first, EffectiveGroup(api), resource, 0);
    MergeHit(first, list, 0);
    var second := MergePerm(first, list);
    assert second[0].verbs == ["get", "list"];
  }
}

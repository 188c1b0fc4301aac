/** `remove_policy` of infra/clean_template.py on the `Resources` map of a
    CloudFormation template: every `AWS::IAM::Policy` resource is deleted, the
    deleted names are scrubbed from the `DependsOn` lists of the others, and a
    `DependsOn` list left empty is deleted. Reading and writing the JSON file is
    not modelled.

    A Python dict iterates in insertion order; the model receives that order of
    the keys as an argument. */
module CleanTemplate {
  import opened Common

  const PolicyType := "AWS::IAM::Policy"

  /** A template resource: its `Type`, its optional `DependsOn` list, and the
      rest of its keys, which the transformation never reads. */
  datatype Resource = Resource(resourceType: string, dependsOn: Option<seq<string>>, properties: map<string, string>)

  predicate IsPolicy(r: Resource) { r.resourceType == PolicyType }

  function ElementsOf(xs: seq<string>): set<string>
  {
    set k | k in xs
  }

  ghost predicate Distinct(xs: seq<string>)
  {
    forall i, j :: 0 <= i < j < |xs| ==> xs[i] != xs[j]
  }

  /** `[k for k in resources if resources[k]["Type"] == "AWS::IAM::Policy"]`. */
  function PolicyList(order: seq<string>, resources: map<string, Resource>): (r: seq<string>)
    ensures forall k :: k in r <==> k in order && k in resources && IsPolicy(resources[k])
    ensures Distinct(order) ==> Distinct(r)
    ensures forall i :: 0 <= i < |r| ==> r[i] in order
  {
    if order == [] then []
    else
      var front := PolicyList(order[..|order| - 1], resources);
      var k := order[|order| - 1];
      assert forall x :: x in order <==> x in order[..|order| - 1] || x == k by {
        assert order == order[..|order| - 1] + [k];
      }
      if k in resources && IsPolicy(resources[k]) then front + [k] else front
  }

  /** `[k for k in resources if "DependsOn" in resources[k]]`. */
  function WithDependsOn(order: seq<string>, resources: map<string, Resource>): (r: seq<string>)
    ensures forall k :: k in r <==> k in order && k in resources && resources[k].dependsOn.Some?
    ensures Distinct(order) ==> Distinct(r)
  {
    if order == [] then []
    else
      var front := WithDependsOn(order[..|order| - 1], resources);
      var k := order[|order| - 1];
      assert forall x :: x in order <==> x in order[..|order| - 1] || x == k by {
        assert order == order[..|order| - 1] + [k];
      }
      if k in resources && resources[k].dependsOn.Some? then front + [k] else front
  }

  /** The index of the first occurrence of `p`. */
  function FirstIndex(xs: seq<string>, p: string): (i: nat)
    requires p in xs
    ensures i < |xs| && xs[i] == p && p !in xs[..i]
  {
    if xs[0] == p then 0
    else
      assert p in xs[1..] by { assert xs == [xs[0]] + xs[1..]; }
      var j := FirstIndex(xs[1..], p);
      assert xs[..j + 1] == [xs[0]] + xs[1..][..j];
      j + 1
  }

  /** Python's `list.remove(p)`: deletes the first occurrence only. */
  function RemoveFirst(xs: seq<string>, p: string): seq<string>
    requires p in xs
  {
    xs[..FirstIndex(xs, p)] + xs[FirstIndex(xs, p) + 1..]
  }

  /** One turn of the inner loop: `if p in deps: deps.remove(p)`. */
  function RemoveIfPresent(xs: seq<string>, p: string): seq<string>
  {
    if p in xs then RemoveFirst(xs, p) else xs
  }

  /** The inner loop over the policy names, in order. */
  function ScrubList(xs: seq<string>, policies: seq<string>): seq<string>
    decreases |policies|
  {
    if policies == [] then xs
    else RemoveIfPresent(ScrubList(xs, policies[..|policies| - 1]), policies[|policies| - 1])
  }

  /** What happens to one remaining resource. */
  function Scrub(r: Resource, policies: seq<string>): Resource
  {
    match r.dependsOn
    case None => r
    case Some(deps) =>
      var left := ScrubList(deps, policies);
      if |left| == 0 then r.(dependsOn := None) else r.(dependsOn := Some(left))
  }

  /** The `Resources` map after `remove_policy`. */
  function Cleaned(resources: map<string, Resource>, policies: seq<string>): map<string, Resource>
  {
    map k | k in resources && !IsPolicy(resources[k]) :: Scrub(resources[k], policies)
  }

  // ---------------------------------------------------------------------------
  // Properties.

  /** No policy remains; every other resource remains, with the same type and
      other keys; only its `DependsOn` can change, and one without `DependsOn`
      is untouched. */
  lemma CleanedResources(resources: map<string, Resource>, policies: seq<string>)
    ensures var c := Cleaned(resources, policies);
      && (forall k :: k in c ==> !IsPolicy(c[k]))
      && (forall k :: k in c <==> k in resources && !IsPolicy(resources[k]))
      && (forall k :: k in c ==>
            c[k].resourceType == resources[k].resourceType && c[k].properties == resources[k].properties)
      && (forall k :: k in c && resources[k].dependsOn.None? ==> c[k] == resources[k])
      && (forall k :: k in c ==> c[k].dependsOn != Some([]))
  {
  }

  /** `list.remove` deletes exactly one occurrence: the first. */
  lemma RemoveFirstOnly(xs: seq<string>, p: string)
    requires p in xs
    ensures var i := FirstIndex(xs, p);
      && RemoveFirst(xs, p) == xs[..i] + xs[i + 1..]
      && xs[i] == p && p !in xs[..i]
      && multiset(RemoveFirst(xs, p)) == multiset(xs) - multiset{p}
  {
    var i := FirstIndex(xs, p);
    assert multiset(xs) == multiset(xs[..i]) + multiset{p} + multiset(xs[i + 1..]) by {
      assert xs == xs[..i] + [p] + xs[i + 1..];
    }
  }

  /** Scrubbing takes away one occurrence per policy name, when there is one:
      a name repeated in `DependsOn` keeps its later occurrences. */
  lemma {:induction false} ScrubListCounts(xs: seq<string>, policies: seq<string>)
    ensures multiset(ScrubList(xs, policies)) == multiset(xs) - multiset(policies)
    decreases |policies|
  {
    if policies != [] {
      var front := policies[..|policies| - 1];
      var p := policies[|policies| - 1];
      ScrubListCounts(xs, front);
      var s := ScrubList(xs, front);
      assert policies == front + [p];
      if p in s {
        RemoveFirstOnly(s, p);
      } else {
        assert multiset(s)[p] == 0;
      }
    }
  }

  /** `f` places `a` inside `b` in increasing positions: `a` is `b` with some
      elements deleted and the rest in their relative order. */
  ghost predicate Embeds(f: seq<nat>, a: seq<string>, b: seq<string>)
  {
    && |f| == |a|
    && (forall i :: 0 <= i < |f| ==> f[i] < |b| && a[i] == b[f[i]])
    && (forall i, j :: 0 <= i < j < |f| ==> f[i] < f[j])
  }

  lemma RemoveFirstEmbeds(xs: seq<string>, p: string) returns (f: seq<nat>)
    requires p in xs
    ensures Embeds(f, RemoveFirst(xs, p), xs)
  {
    var i := FirstIndex(xs, p);
    f := seq(|xs| - 1, j requires 0 <= j < |xs| - 1 => if j < i then j else j + 1);
  }

  /** The names left in `DependsOn` keep their relative order. */
  lemma {:induction false} ScrubListKeepsOrder(xs: seq<string>, policies: seq<string>) returns (f: seq<nat>)
    ensures Embeds(f, ScrubList(xs, policies), xs)
    decreases |policies|
  {
    if policies == [] {
      f := seq(|xs|, i requires 0 <= i < |xs| => i);
    } else {
      var front := policies[..|policies| - 1];
      var p := policies[|policies| - 1];
      var outer := ScrubListKeepsOrder(xs, front);
      var s := ScrubList(xs, front);
      if p in s {
        var inner := RemoveFirstEmbeds(s, p);
        f := seq(|inner|, i requires 0 <= i < |inner| => outer[inner[i]]);
      } else {
        f := outer;
      }
    }
  }

  /** Scrubbing a list that names no policy leaves it unchanged. */
  lemma {:induction false} ScrubListUnrelated(xs: seq<string>, policies: seq<string>)
    requires forall p :: p in policies ==> p !in xs
    ensures ScrubList(xs, policies) == xs
    decreases |policies|
  {
    if policies != [] {
      ScrubListUnrelated(xs, policies[..|policies| - 1]);
      assert policies[|policies| - 1] in policies;
    }
  }

  // ---------------------------------------------------------------------------
  // The transformation in place.

  ghost predicate ScrubbedSoFar(now: map<string, Resource>, mid: map<string, Resource>, policies: seq<string>, done: seq<string>)
  {
    && now.Keys == mid.Keys
    && forall k :: k in now ==> now[k] == (if k in done then Scrub(mid[k], policies) else mid[k])
  }

  class Template {
    var resources: map<string, Resource>

    constructor (resources: map<string, Resource>)
      ensures this.resources == resources
    {
      this.resources := resources;
    }

    /** `remove_policy`, with `order` the dict's key order. */
    method RemovePolicy(order: seq<string>)
      requires Distinct(order) && forall k :: k in order <==> k in resources
      modifies this
      ensures resources == Cleaned(old(resources), PolicyList(order, old(resources)))
    {
      var policyList := PolicyList(order, resources);
      ghost var original := resources;
      DeleteAll(policyList);
      ghost var mid := resources;
      var dependsOn := WithDependsOn(order, resources);
      ScrubAll(dependsOn, policyList);
      CleanedInTwoPhases(original, mid, resources, order, dependsOn);
    }

    /** `for p in policy_list: del t["Resources"][p]`. */
    method DeleteAll(keys: seq<string>)
      modifies this
      ensures resources == old(resources) - ElementsOf(keys)
    {
      for i := 0 to |keys|
        invariant resources == old(resources) - ElementsOf(keys[..i])
      {
        assert ElementsOf(keys[..i + 1]) == ElementsOf(keys[..i]) + {keys[i]} by {
          assert keys[..i + 1] == keys[..i] + [keys[i]];
        }
        resources := resources - {keys[i]};
      }
      assert keys[..|keys|] == keys;
    }

    /** The outer `for d in depends_on` loop. */
    method ScrubAll(dependsOn: seq<string>, policyList: seq<string>)
      requires Distinct(dependsOn)
      requires forall d :: d in dependsOn ==> d in resources && resources[d].dependsOn.Some?
      modifies this
      ensures ScrubbedSoFar(resources, old(resources), policyList, dependsOn)
    {
      for j := 0 to |dependsOn|
        invariant ScrubbedSoFar(resources, old(resources), policyList, dependsOn[..j])
      {
        var d := dependsOn[j];
        assert d !in dependsOn[..j];
        ScrubDependsOn(d, policyList);
        assert dependsOn[..j + 1] == dependsOn[..j] + [d];
      }
      assert dependsOn[..|dependsOn|] == dependsOn;
    }

    /** The body of the outer `for d in depends_on` loop. */
    method ScrubDependsOn(d: string, policyList: seq<string>)
      requires d in resources && resources[d].dependsOn.Some?
      modifies this
      ensures resources == old(resources)[d := Scrub(old(resources)[d], policyList)]
    {
      var deps := resources[d].dependsOn.value;
      for q := 0 to |policyList|
        invariant resources == old(resources)[d := old(resources)[d].(dependsOn := Some(ScrubList(deps, policyList[..q])))]
      {
        var p := policyList[q];
        assert policyList[..q + 1][..q] == policyList[..q];
        if p in resources[d].dependsOn.value {
          resources := resources[d := resources[d].(dependsOn := Some(RemoveFirst(resources[d].dependsOn.value, p)))];
        }
      }
      assert policyList[..|policyList|] == policyList;
      if |resources[d].dependsOn.value| == 0 {
        resources := resources[d := resources[d].(dependsOn := None)];
      }
    }
  }

  /** The two phases of `remove_policy` give `Cleaned`. */
  lemma CleanedInTwoPhases(original: map<string, Resource>, mid: map<string, Resource>, now: map<string, Resource>,
                           order: seq<string>, dependsOn: seq<string>)
    requires forall k :: k in order <==> k in original
    requires mid == original - ElementsOf(PolicyList(order, original))
    requires dependsOn == WithDependsOn(order, mid)
    requires ScrubbedSoFar(now, mid, PolicyList(order, original), dependsOn)
    ensures now == Cleaned(original, PolicyList(order, original))
  {
    var ps := PolicyList(order, original);
    var c := Cleaned(original, ps);
    assert now.Keys == c.Keys;
    forall k | k in now ensures now[k] == c[k] {
      assert k !in ps;
      if k !in dependsOn {
        assert mid[k].dependsOn.None?;
      }
    }
  }
}

/** The truncation rules that WassersteinVariationalGradientDescent gives its samplers:
    rule `idx` accepts a row of per-particle deviation statistics exactly when particle
    `idx` is the one NumPy's `argmin` picks. */
module Truncation {
  import opened ModelTypes

  /** Position of the first minimum of a non-empty row. */
  function FirstMin(a: seq<int>): (r: nat)
    requires |a| > 0
    ensures r < |a|
    ensures forall j :: 0 <= j < |a| ==> a[r] <= a[j]
    ensures forall j :: 0 <= j < r ==> a[r] < a[j]
    decreases |a|
  {
    if |a| == 1 then 0
    else
      var m := FirstMin(a[..|a| - 1]);
      if a[|a| - 1] < a[m] then |a| - 1 else m
  }

  /** `np.argmin(a)`; None where NumPy raises ValueError on an empty row. */
  function Argmin(a: seq<int>): (r: Option<nat>)
    ensures r.None? <==> |a| == 0
    ensures r.Some? ==> r.value < |a| && forall j :: 0 <= j < |a| ==> a[r.value] <= a[j]
    ensures r.Some? ==> r.value == FirstMin(a)
  {
    if |a| == 0 then None else Some(FirstMin(a))
  }

  /** The first-minimum position is unique: any index that is a minimum and has no
      minimum before it is that position. */
  lemma FirstMinUnique(a: seq<int>, i: nat)
    requires i < |a|
    requires forall j :: 0 <= j < |a| ==> a[i] <= a[j]
    requires forall j :: 0 <= j < i ==> a[i] < a[j]
    ensures FirstMin(a) == i
  {
  }

  /** The rule built for particle `index` (the default-argument lambda of the source). */
  datatype Rule = ArgminRule(index: nat)

  /** One rule per particle, in particle order. */
  function Rules(particleCount: nat): (rs: seq<Rule>)
    ensures |rs| == particleCount
    ensures forall i :: 0 <= i < particleCount ==> rs[i].index == i
  {
    seq(particleCount, i requires 0 <= i < particleCount => ArgminRule(i))
  }

  /** Applying a rule to a statistics row; None where `np.argmin` raises. */
  function Accepts(rule: Rule, a: seq<int>): (r: Option<bool>)
    ensures r.None? <==> |a| == 0
    ensures r == Some(true) ==> rule.index < |a|
  {
    match Argmin(a)
    case None => None
    case Some(m) => Some(rule.index == m)
  }

  /** The indices of the rules among `Rules(particleCount)` that accept row `a`. */
  function AcceptingRules(particleCount: nat, a: seq<int>): set<nat>
  {
    set i: nat | i < particleCount && Accepts(Rules(particleCount)[i], a) == Some(true)
  }

  /** Rule `idx` accepts a non-empty row exactly when `idx` is a minimum of it with no
      minimum before it. */
  lemma AcceptsIffFirstMinimum(rule: Rule, a: seq<int>)
    requires |a| > 0
    ensures Accepts(rule, a) == Some(true) <==>
            rule.index < |a| &&
            (forall j :: 0 <= j < |a| ==> a[rule.index] <= a[j]) &&
            (forall j :: 0 <= j < rule.index ==> a[rule.index] < a[j])
  {
    if rule.index < |a| &&
       (forall j :: 0 <= j < |a| ==> a[rule.index] <= a[j]) &&
       (forall j :: 0 <= j < rule.index ==> a[rule.index] < a[j]) {
      FirstMinUnique(a, rule.index);
    }
  }

  /** For a non-empty row with one statistic per particle, exactly one rule accepts it,
      the one of the first minimum. */
  lemma ExactlyOneRuleAccepts(particleCount: nat, a: seq<int>)
    requires |a| == particleCount > 0
    ensures AcceptingRules(particleCount, a) == {FirstMin(a)}
    ensures |AcceptingRules(particleCount, a)| == 1
  {
    var m := FirstMin(a);
    var s := AcceptingRules(particleCount, a);
    assert m in s by {
      assert Rules(particleCount)[m].index == m;
    }
    forall i | i in s ensures i == m {
      assert Rules(particleCount)[i].index == i;
    }
    assert s == {m};
  }

  /** For a row of any non-empty length, the accepting rules are the first minimum's
      when that particle exists, and none otherwise. */
  lemma AcceptingRulesOfAnyRow(particleCount: nat, a: seq<int>)
    requires |a| > 0
    ensures AcceptingRules(particleCount, a) ==
            (if FirstMin(a) < particleCount then {FirstMin(a)} else {})
  {
    var m := FirstMin(a);
    var s := AcceptingRules(particleCount, a);
    forall i | i in s ensures i == m {
      assert Rules(particleCount)[i].index == i;
    }
    if m < particleCount {
      assert Rules(particleCount)[m].index == m;
      assert m in s;
    }
  }

  /** An empty row makes every rule raise, so no rule accepts it. */
  lemma EmptyRowRaises(particleCount: nat, i: nat)
    requires i < particleCount
    ensures Accepts(Rules(particleCount)[i], []).None?
    ensures AcceptingRules(particleCount, []) == {}
  {
  }
}

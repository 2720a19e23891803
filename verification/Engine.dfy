/** The rule engine (internal/rules/engine.go). How a pattern matches a value is
    left open: `hits` says which conditions hold for the email at hand. */
module RuleEngine {
  import opened Models
  import opened QueueSystem

  function Items(c: Conditions): seq<Condition> {
    if c.NilConditions? then [] else c.items
  }

  /** No condition matches everything; mode any needs one hit, every other mode all. */
  ghost predicate RuleMatches(m: MatcherConfig, hits: Condition -> bool) {
    var conds := Items(m.conditions);
    || conds == []
    || (if m.mode == "any" then exists i :: 0 <= i < |conds| && hits(conds[i])
        else forall i :: 0 <= i < |conds| ==> hits(conds[i]))
  }

  /** matchRule. */
  method MatchRule(m: MatcherConfig, hits: Condition -> bool) returns (matched: bool)
    ensures matched <==> RuleMatches(m, hits)
    ensures m.conditions.NilConditions? || m.conditions.items == [] ==> matched
    ensures m.conditions.ConditionList? && m.conditions.items != [] && m.mode == "any" ==>
      (matched <==> exists i :: 0 <= i < |m.conditions.items| && hits(m.conditions.items[i]))
    ensures m.conditions.ConditionList? && m.mode != "any" ==>
      (matched <==> forall i :: 0 <= i < |m.conditions.items| ==> hits(m.conditions.items[i]))
  {
    var conds := Items(m.conditions);
    if |conds| == 0 {
      return true;
    }
    var any := m.mode == "any";
    for i := 0 to |conds|
      invariant any ==> forall j :: 0 <= j < i ==> !hits(conds[j])
      invariant !any ==> forall j :: 0 <= j < i ==> hits(conds[j])
    {
      var hit := hits(conds[i]);
      if any && hit {
        return true;
      }
      if !any && !hit {
        return false;
      }
    }
    matched := !any;
  }

  /** The matching rules, in the order of the engine. */
  ghost function Matching(rules: seq<Rule>, hits: Condition -> bool): seq<Rule> {
    if rules == [] then []
    else Matching(rules[..|rules| - 1], hits)
         + (if RuleMatches(rules[|rules| - 1].matcher, hits) then [rules[|rules| - 1]] else [])
  }

  /** The rules at these positions, in order. */
  ghost predicate Picks(rules: seq<Rule>, at: seq<nat>, picked: seq<Rule>) {
    && |at| == |picked|
    && (forall k :: 0 <= k < |at| ==> at[k] < |rules| && rules[at[k]] == picked[k])
    && (forall j, k :: 0 <= j < k < |at| ==> at[j] < at[k])
  }

  ghost predicate AllOf(rules: seq<Rule>, hits: Condition -> bool, at: seq<nat>) {
    forall i :: 0 <= i < |rules| ==> (RuleMatches(rules[i].matcher, hits) <==> i in at)
  }

  /** The positions of the matching rules, in order. */
  ghost predicate Positions(rules: seq<Rule>, hits: Condition -> bool, at: seq<nat>) {
    Picks(rules, at, Matching(rules, hits)) && AllOf(rules, hits, at)
  }

  lemma PickOneMore(init: seq<Rule>, last: Rule, at: seq<nat>, picked: seq<Rule>)
    requires Picks(init, at, picked)
    ensures Picks(init + [last], at, picked) && Picks(init + [last], at + [|init|], picked + [last])
    ensures |init| !in at
  {
  }

  lemma AllOneMore(init: seq<Rule>, last: Rule, hits: Condition -> bool, at: seq<nat>)
    requires AllOf(init, hits, at) && |init| !in at
    ensures RuleMatches(last.matcher, hits) ==> AllOf(init + [last], hits, at + [|init|])
    ensures !RuleMatches(last.matcher, hits) ==> AllOf(init + [last], hits, at)
  {
    var rules := init + [last];
    forall i | 0 <= i < |rules|
      ensures i in at + [|init|] <==> i in at || i == |init|
      ensures i < |init| ==> rules[i] == init[i]
    {
    }
  }

  lemma OneMoreRule(rules: seq<Rule>, hits: Condition -> bool, at: seq<nat>)
    requires rules != [] && Positions(rules[..|rules| - 1], hits, at)
    ensures Positions(rules, hits, if RuleMatches(rules[|rules| - 1].matcher, hits) then at + [|rules| - 1] else at)
  {
    var init, last := rules[..|rules| - 1], rules[|rules| - 1];
    assert rules == init + [last];
    PickOneMore(init, last, at, Matching(init, hits));
    AllOneMore(init, last, hits, at);
  }

  /** Every matching rule fires exactly once, in engine order, and no other does. */
  lemma {:induction false} MatchingIsExact(rules: seq<Rule>, hits: Condition -> bool) returns (at: seq<nat>)
    ensures Positions(rules, hits, at)
  {
    if rules == [] {
      at := [];
    } else {
      at := MatchingIsExact(rules[..|rules| - 1], hits);
      OneMoreRule(rules, hits, at);
      if RuleMatches(rules[|rules| - 1].matcher, hits) {
        at := at + [|rules| - 1];
      }
    }
  }

  class Engine {
    var rules: seq<Rule>

    constructor ()
      ensures rules == []
    {
      rules := [];
    }

    method SetRules(newRules: seq<Rule>)
      modifies this
      ensures rules == newRules
    {
      rules := newRules;
    }

    /** The current secret of the first rule with that name. */
    method SigningSecret(name: string) returns (secret: Option<string>)
      ensures secret == SecretOf(rules, name)
      ensures secret.Some? ==>
        exists k :: && 0 <= k < |rules| && rules[k].name == name && rules[k].webhook.signingSecret == secret.value
                    && (forall j :: 0 <= j < k ==> rules[j].name != name)
      ensures secret.None? ==> forall k :: 0 <= k < |rules| ==> rules[k].name != name
    {
      for i := 0 to |rules|
        invariant SecretOf(rules, name) == SecretOf(rules[i..], name)
        invariant forall j :: 0 <= j < i ==> rules[j].name != name
      {
        if rules[i].name == name {
          return Some(rules[i].webhook.signingSecret);
        }
        assert rules[i..][1..] == rules[i + 1..];
      }
      secret := None;
    }

    method Match(hits: Condition -> bool) returns (matched: seq<Rule>)
      ensures matched == Matching(rules, hits)
    {
      matched := [];
      for i := 0 to |rules|
        invariant matched == Matching(rules[..i], hits)
      {
        assert rules[..i + 1][..i] == rules[..i];
        var hit := MatchRule(rules[i].matcher, hits);
        if hit {
          matched := matched + [rules[i]];
        }
      }
      assert rules[..|rules|] == rules;
    }
  }
}

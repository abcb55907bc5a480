/**
 * The automation page's summary cards: the selected field's rules, how
 * many of them are enabled, and how many last fired today.
 *
 * "Today" compares calendar days; a day here is a UTC day number, the
 * timestamp divided by the length of a day (rounding down), and the
 * current day is a parameter.
 */
module AutomationSection {
  import opened Seqs
  import opened Types
  import MockData
  import Store

  predicate RuleOfField(fieldId: string, r: AutomationRule) { r.fieldId == fieldId }

  predicate IsEnabled(r: AutomationRule) { r.enabled }

  /** The day a timestamp falls on. */
  function DayOf(t: Timestamp): int { t / MockData.DayMs }

  /** A rule of the field that last fired on day `today`. */
  predicate FiredToday(fieldId: string, today: int, r: AutomationRule)
  {
    r.fieldId == fieldId && r.lastTriggered.Some? && DayOf(r.lastTriggered.value) == today
  }

  /** `automationRules.filter(r => r.fieldId === selectedFieldId)`: exactly
      the rules of the selected field, in store order. */
  function FieldRules(rules: seq<AutomationRule>, fieldId: string): (r: seq<AutomationRule>)
    ensures forall i :: 0 <= i < |r| ==> r[i].fieldId == fieldId
    ensures forall i :: 0 <= i < |rules| && rules[i].fieldId == fieldId ==> rules[i] in r
    ensures multiset(r) <= multiset(rules)
  {
    Filter(rules, r => RuleOfField(fieldId, r))
  }

  /** Selecting the field's rules keeps their relative order. */
  lemma FieldRulesKeepOrder(a: seq<AutomationRule>, b: seq<AutomationRule>, fieldId: string)
    ensures FieldRules(a + b, fieldId) == FieldRules(a, fieldId) + FieldRules(b, fieldId)
  {
    FilterConcat(a, b, r => RuleOfField(fieldId, r));
  }

  /** A rule of the field that is switched on. */
  predicate ActiveRuleOf(fieldId: string, r: AutomationRule) {
    r.fieldId == fieldId && r.enabled
  }

  /** The "Active Rules" card: enabled rules of the field, at most all of the
      field's rules, and 0 exactly when every rule of the field is off. */
  function ActiveRules(rules: seq<AutomationRule>, fieldId: string): (r: nat)
    ensures r <= |FieldRules(rules, fieldId)|
    ensures r == 0 <==> forall i :: 0 <= i < |rules| && rules[i].fieldId == fieldId ==> !rules[i].enabled
  {
    var fr := FieldRules(rules, fieldId);
    var on := Filter(fr, IsEnabled);
    assert forall i :: 0 <= i < |rules| && ActiveRuleOf(fieldId, rules[i]) ==> |on| > 0 by {
      forall i | 0 <= i < |rules| && ActiveRuleOf(fieldId, rules[i]) ensures |on| > 0 {
        assert rules[i] in fr;
        assert rules[i] in on;
      }
    }
    assert |on| > 0 ==> exists i :: 0 <= i < |rules| && ActiveRuleOf(fieldId, rules[i]) by {
      if |on| > 0 {
        assert on[0] in multiset(on);
        assert on[0] in fr;
        assert on[0] in multiset(fr);
        assert on[0] in rules;
      }
    }
    |on|
  }

  /** The rules of the field that last fired on day `today`; a rule that
      never fired is never among them. */
  function TriggeredTodayRules(rules: seq<AutomationRule>, fieldId: string, today: int): (r: seq<AutomationRule>)
    ensures |r| <= |FieldRules(rules, fieldId)|
    ensures forall i :: 0 <= i < |r| ==>
              r[i].fieldId == fieldId && r[i].lastTriggered.Some? && DayOf(r[i].lastTriggered.value) == today
    ensures forall i :: 0 <= i < |rules| && FiredToday(fieldId, today, rules[i]) ==> rules[i] in r
    ensures multiset(r) <= multiset(rules)
  {
    FilterStronger(rules, r => FiredToday(fieldId, today, r), r => RuleOfField(fieldId, r));
    Filter(rules, r => FiredToday(fieldId, today, r))
  }

  /** The "Triggered Today" card: at most the field's rule count, and 0
      exactly when no rule of the field last fired today. */
  function TriggeredToday(rules: seq<AutomationRule>, fieldId: string, today: int): (r: nat)
    ensures r <= |FieldRules(rules, fieldId)|
    ensures r == 0 <==> forall i :: 0 <= i < |rules| ==> !FiredToday(fieldId, today, rules[i])
  {
    var fired := TriggeredTodayRules(rules, fieldId, today);
    assert forall i :: 0 <= i < |rules| && FiredToday(fieldId, today, rules[i]) ==> |fired| > 0 by {
      forall i | 0 <= i < |rules| && FiredToday(fieldId, today, rules[i]) ensures |fired| > 0 {
        assert rules[i] in fired;
      }
    }
    assert |fired| > 0 ==> exists i :: 0 <= i < |rules| && FiredToday(fieldId, today, rules[i]) by {
      if |fired| > 0 {
        assert fired[0] in multiset(fired);
        assert fired[0] in rules;
      }
    }
    |fired|
  }

  /** A rule created from the form belongs to the field, is enabled and has
      never fired, so adding it raises the total and active cards by one
      and leaves "Triggered Today" as it was. */
  lemma AddRuleCounts(rules: seq<AutomationRule>, rule: AutomationRule, now: nat, fieldId: string, today: int)
    requires rule.fieldId == fieldId && rule.enabled && rule.lastTriggered.None?
    ensures |FieldRules(Store.AddRuleTo(rules, rule, now), fieldId)| == |FieldRules(rules, fieldId)| + 1
    ensures ActiveRules(Store.AddRuleTo(rules, rule, now), fieldId) == ActiveRules(rules, fieldId) + 1
    ensures TriggeredToday(Store.AddRuleTo(rules, rule, now), fieldId, today) == TriggeredToday(rules, fieldId, today)
  {
    var added := Store.AddRuleTo(rules, rule, now);
    var last := added[|rules|];
    assert added == rules + [last];
    FieldRulesKeepOrder(rules, [last], fieldId);
    assert FieldRules([last], fieldId) == [last];
    var fr := FieldRules(rules, fieldId);
    FilterConcat(fr, [last], IsEnabled);
    FilterConcat(rules, [last], r => FiredToday(fieldId, today, r));
  }

  /** Enabling or disabling a rule changes neither the field's rule count
      nor what fired today. */
  lemma ToggleRuleCounts(rules: seq<AutomationRule>, ruleId: string, fieldId: string, today: int)
    ensures |FieldRules(Store.ToggleRuleIn(rules, ruleId), fieldId)| == |FieldRules(rules, fieldId)|
    ensures TriggeredToday(Store.ToggleRuleIn(rules, ruleId), fieldId, today) == TriggeredToday(rules, fieldId, today)
  {
    var t := Store.ToggleRuleIn(rules, ruleId);
    assert forall i :: 0 <= i < |t| ==> t[i].fieldId == rules[i].fieldId && t[i].lastTriggered == rules[i].lastTriggered;
    FilterLengthPointwise(t, rules, r => RuleOfField(fieldId, r), r => RuleOfField(fieldId, r));
    FilterLengthPointwise(t, rules, r => FiredToday(fieldId, today, r), r => FiredToday(fieldId, today, r));
  }

  /** Toggling a rule of the field whose id no other rule shares moves the
      "Active Rules" card by exactly one: down when it was on, up when off. */
  lemma ToggleRuleMovesActive(rules: seq<AutomationRule>, j: nat, fieldId: string)
    requires j < |rules| && rules[j].fieldId == fieldId
    requires forall i :: 0 <= i < |rules| && rules[i].id == rules[j].id ==> i == j
    ensures ActiveRules(Store.ToggleRuleIn(rules, rules[j].id), fieldId) ==
            if rules[j].enabled then ActiveRules(rules, fieldId) - 1 else ActiveRules(rules, fieldId) + 1
  {
    var t := Store.ToggleRuleIn(rules, rules[j].id);
    assert t[j].(enabled := rules[j].enabled) == rules[j];
    assert ActiveRuleOf(fieldId, t[j]) == !ActiveRuleOf(fieldId, rules[j]);
    forall i | 0 <= i < |rules| && i != j
      ensures ActiveRuleOf(fieldId, rules[i]) == ActiveRuleOf(fieldId, t[i])
    {
      assert t[i].(enabled := rules[i].enabled) == rules[i];
    }
    FilterTwiceLength(rules, r => RuleOfField(fieldId, r), IsEnabled, r => ActiveRuleOf(fieldId, r));
    FilterTwiceLength(t, r => RuleOfField(fieldId, r), IsEnabled, r => ActiveRuleOf(fieldId, r));
    FilterLengthChangeAt(rules, t, r => ActiveRuleOf(fieldId, r), j);
  }
}

/** Rule presence over a whole list (pages/view.tsx:245-255), which decides
    whether the spell cards are shown. */
module ListView {
  import opened Army
  import opened Units

  /** `rules.some(({ name }) => name === specialRule)`. */
  function SomeRuleNamed(rules: seq<Rule>, name: string): bool
  {
    |rules| > 0 && (rules[0].name == name || SomeRuleNamed(rules[1..], name))
  }

  lemma {:induction false} SomeRuleNamedMeans(rules: seq<Rule>, name: string)
    ensures SomeRuleNamed(rules, name) <==> exists r :: r in rules && r.name == name
  {
    if |rules| > 0 {
      SomeRuleNamedMeans(rules[1..], name);
      assert rules == [rules[0]] + rules[1..];
    }
  }

  /** Whether one unit carries the rule: its own rules, then its upgrades' rules. */
  predicate UnitHasRule(u: Unit, name: string)
  {
    SomeRuleNamed(u.specialRules + GetAllUpgradedRules(u), name)
  }

  /** `listContainsSpecialRule`. */
  function ListContainsSpecialRule(units: seq<Unit>, name: string): bool
  {
    |units| > 0 && (UnitHasRule(units[0], name) || ListContainsSpecialRule(units[1..], name))
  }

  /** `listContainsPyschic`. */
  function ListContainsPsychic(units: seq<Unit>): bool
  {
    ListContainsSpecialRule(units, "Psychic") || ListContainsSpecialRule(units, "Wizard")
  }

  /** The unit has a rule of that name among its own rules or among the rules
      its upgrades grant. */
  ghost predicate Carries(u: Unit, name: string)
  {
    exists r :: (r in u.specialRules || r in GetAllUpgradedRules(u)) && r.name == name
  }

  lemma UnitHasRuleMeans(u: Unit, name: string)
    ensures UnitHasRule(u, name) <==> Carries(u, name)
  {
    SomeRuleNamedMeans(u.specialRules + GetAllUpgradedRules(u), name);
    if Carries(u, name) {
      var r :| (r in u.specialRules || r in GetAllUpgradedRules(u)) && r.name == name;
      assert r in u.specialRules + GetAllUpgradedRules(u);
    }
  }

  /** A list contains a rule exactly when some unit carries it; an empty list
      contains none. */
  lemma {:induction false} ListContainsSpecialRuleMeans(units: seq<Unit>, name: string)
    ensures ListContainsSpecialRule(units, name) <==> exists u :: u in units && Carries(u, name)
    ensures |units| == 0 ==> !ListContainsSpecialRule(units, name)
  {
    if |units| > 0 {
      var u := units[0];
      ListContainsSpecialRuleMeans(units[1..], name);
      UnitHasRuleMeans(u, name);
      assert units == [u] + units[1..];
      if exists v :: v in units && Carries(v, name) {
        var v :| v in units && Carries(v, name);
        if v != u {
          assert v in units[1..];
        }
      }
    }
  }

  /** Psychic cards are shown exactly when some unit is a Psychic or a Wizard. */
  lemma ListContainsPsychicMeans(units: seq<Unit>)
    ensures ListContainsPsychic(units) <==> exists u :: u in units && (Carries(u, "Psychic") || Carries(u, "Wizard"))
  {
    ListContainsSpecialRuleMeans(units, "Psychic");
    ListContainsSpecialRuleMeans(units, "Wizard");
  }

  /** Adding units, before or after, never makes a contained rule disappear. */
  lemma ListContainsSpecialRuleMonotone(a: seq<Unit>, b: seq<Unit>, name: string)
    requires ListContainsSpecialRule(a, name)
    ensures ListContainsSpecialRule(a + b, name) && ListContainsSpecialRule(b + a, name)
  {
    ListContainsSpecialRuleMeans(a, name);
    ListContainsSpecialRuleMeans(a + b, name);
    ListContainsSpecialRuleMeans(b + a, name);
    var u :| u in a && Carries(u, name);
    assert u in a + b && u in b + a;
  }
}

/** Special-rule grouping and rendering (services/RulesService.ts). */
module Rules {
  import opened Basics
  import opened Helpers
  import opened Army

  /** A rule standing for all the rules of one name; `count` is 0 for stacking rules. */
  datatype GroupedRule = GroupedRule(rule: Rule, count: nat)

  function RuleName(r: Rule): string { r.name }

  /** Rules whose ratings add up instead of being repeated. */
  predicate Stacks(name: string) {
    name == "Tough" || name == "Impact"
  }

  /** `rating.toString()` of a rating that is present. */
  function RatingText(r: Rating): string
  {
    match r
    case Rated(n) => IntToString(n)
    case NotANumber => "NaN"
    case Unrated => ""
  }

  /** The reduce of stacking rules: rated rules add their rating, unrated ones
      are skipped, and a `NaN` rating poisons the sum. */
  function StackedRating(group: seq<Rule>): (r: Rating)
    ensures r != Unrated
  {
    if |group| == 0 then Rated(0)
    else
      var acc := StackedRating(group[..|group| - 1]);
      match group[|group| - 1].rating
      case Unrated => acc
      case NotANumber => NotANumber
      case Rated(n) => if acc.Rated? then Rated(acc.n + n) else NotANumber
  }

  /** `Math.max(...group.map(rule => parseInt(rule.rating)))`: an unrated rule
      parses to `NaN`, and any `NaN` makes the maximum `NaN`. */
  function MaxRating(group: seq<Rule>): (r: Rating)
    requires |group| > 0
    ensures r != Unrated
  {
    var last := group[|group| - 1].rating;
    if |group| == 1 then (if last.Rated? then last else NotANumber)
    else
      var acc := MaxRating(group[..|group| - 1]);
      if acc.Rated? && last.Rated? then Rated(if acc.n >= last.n then acc.n else last.n) else NotANumber
  }

  /** The group entry for one name: the first rule's fields, the combined rating
      and the count. */
  function GroupOf(group: seq<Rule>, key: string): GroupedRule
  {
    if |group| == 0 then GroupedRule(Rule(key, Unrated, false, ""), 0)
    else
      var rule := group[0];
      var stack := rule.rating != Unrated && Stacks(rule.name);
      var rating := if rule.rating == Unrated then Unrated else if stack then StackedRating(group) else MaxRating(group);
      GroupedRule(rule.(rating := rating), if stack then 0 else |group|)
  }

  /** `RulesService.group`. */
  function Group(rules: seq<Rule>): (r: seq<GroupedRule>)
    ensures |r| == |KeyOrder(rules, RuleName)|
  {
    GroupMap(rules, RuleName, GroupOf)
  }

  function GroupNames(g: seq<GroupedRule>): (names: seq<string>)
    ensures |names| == |g|
  {
    seq(|g|, j requires 0 <= j < |g| => g[j].rule.name)
  }

  /** One entry per distinct name, in order of first appearance: the names of
      the entries are distinct and are exactly the names of the input rules. */
  lemma GroupNamesDistinct(rules: seq<Rule>)
    ensures GroupNames(Group(rules)) == KeyOrder(rules, RuleName)
    ensures forall i, j :: 0 <= i < j < |Group(rules)| ==> Group(rules)[i].rule.name != Group(rules)[j].rule.name
    ensures forall name :: name in GroupNames(Group(rules)) <==> exists r :: r in rules && r.name == name
  {
    var ks := KeyOrder(rules, RuleName);
    var g := Group(rules);
    KeyOrderProperties(rules, RuleName);
    forall j | 0 <= j < |g| ensures g[j].rule.name == ks[j] {
      GroupEntry(rules, j);
    }
    forall name ensures HasKey(rules, RuleName, name) <==> exists r :: r in rules && r.name == name {
      if exists r :: r in rules && r.name == name {
        var r :| r in rules && r.name == name;
        var i :| 0 <= i < |rules| && rules[i] == r;
        assert RuleName(rules[i]) == name;
      }
    }
  }

  /** Entry `j` is built from the rules named like it: it keeps the first one's
      modifier and condition, and a non-stacking entry counts every rule of its
      name while a stacking one counts 0. */
  lemma GroupEntry(rules: seq<Rule>, j: nat)
    requires j < |KeyOrder(rules, RuleName)|
    ensures var bucket := Bucket(rules, RuleName, KeyOrder(rules, RuleName)[j]);
      && |bucket| > 0
      && (forall r :: r in bucket <==> r in rules && r.name == KeyOrder(rules, RuleName)[j])
      && Group(rules)[j] == GroupOf(bucket, KeyOrder(rules, RuleName)[j])
      && Group(rules)[j].rule.name == KeyOrder(rules, RuleName)[j]
      && Group(rules)[j].rule.modifier == bucket[0].modifier
      && Group(rules)[j].rule.condition == bucket[0].condition
      && Group(rules)[j].count == (if bucket[0].rating != Unrated && Stacks(bucket[0].name) then 0 else |bucket|)
  {
    var ks := KeyOrder(rules, RuleName);
    KeyOrderProperties(rules, RuleName);
    assert ks[j] in ks;
    var i :| 0 <= i < |rules| && RuleName(rules[i]) == ks[j];
    BucketMembership(rules, RuleName, ks[j], rules[i]);
    var b := Bucket(rules, RuleName, ks[j]);
    BucketMembership(rules, RuleName, ks[j], b[0]);
    forall r ensures r in b <==> r in rules && r.name == ks[j] {
      BucketMembership(rules, RuleName, ks[j], r);
    }
  }

  /** Adding up stacking ratings: when every rule is rated the result is their sum. */
  lemma {:induction false} StackedRatingSum(group: seq<Rule>)
    requires forall i :: 0 <= i < |group| ==> group[i].rating.Rated?
    ensures StackedRating(group) == Rated(RatingSum(group))
  {
    if |group| > 0 {
      StackedRatingSum(group[..|group| - 1]);
    }
  }

  function RatingSum(group: seq<Rule>): int
    requires forall i :: 0 <= i < |group| ==> group[i].rating.Rated?
  {
    if |group| == 0 then 0 else RatingSum(group[..|group| - 1]) + group[|group| - 1].rating.n
  }

  /** The maximum of rated rules is one of their ratings and no smaller than any. */
  lemma {:induction false} MaxRatingIsMaximum(group: seq<Rule>)
    requires |group| > 0
    requires forall i :: 0 <= i < |group| ==> group[i].rating.Rated?
    ensures MaxRating(group).Rated?
    ensures forall i :: 0 <= i < |group| ==> group[i].rating.n <= MaxRating(group).n
    ensures exists i :: 0 <= i < |group| && group[i].rating == MaxRating(group)
  {
    if |group| > 1 {
      var init := group[..|group| - 1];
      MaxRatingIsMaximum(init);
      var i :| 0 <= i < |init| && init[i].rating == MaxRating(init);
      assert group[i] == init[i];
      forall k | 0 <= k < |group| - 1 ensures group[k].rating.n <= MaxRating(group).n {
        assert group[k] == init[k];
      }
    }
  }

  /** A single unrated rule among rated ones of the same name makes the maximum `NaN`. */
  lemma {:induction false} MaxRatingUnratedIsNaN(group: seq<Rule>, i: nat)
    requires i < |group| && !group[i].rating.Rated?
    ensures MaxRating(group) == NotANumber
  {
    if |group| > 1 && i < |group| - 1 {
      assert group[..|group| - 1][i] == group[i];
      MaxRatingUnratedIsNaN(group[..|group| - 1], i);
    }
  }

  /** `countStr`: "Nx " for a count above 1. */
  function CountText(count: nat): string
  {
    if count > 1 then NatToString(count) + "x " else ""
  }

  /** `ratingStr`: " +N" for Defense, "(N)" or "(+N)" otherwise, nothing unrated. */
  function RatingSuffix(rule: Rule): string
  {
    if rule.rating == Unrated then ""
    else if rule.name == "Defense" then " +" + RatingText(rule.rating)
    else "(" + (if rule.modifier then "+" else "") + RatingText(rule.rating) + ")"
  }

  /** The rendering without a count: name, rating and condition. */
  function BareDisplayName(rule: Rule): string
  {
    rule.name + RatingSuffix(rule) + (if rule.condition != "" then " " + rule.condition else "")
  }

  /** `RulesService.displayName(rule, count)`. */
  function DisplayName(rule: Rule, count: nat): (s: string)
    ensures count <= 1 ==> s == BareDisplayName(rule)
    ensures |BareDisplayName(rule)| <= |s| && s[|s| - |BareDisplayName(rule)|..] == BareDisplayName(rule)
  {
    CountText(count) + BareDisplayName(rule)
  }

  /** The count a rendered rule carries: a leading "Nx " prefix, or 1 without one. */
  function ReadCount(s: string): nat
  {
    var k := LeadingDigits(s);
    if 0 < k && k + 1 < |s| && s[k] == 'x' && s[k + 1] == ' ' then DigitsValue(s[..k]) else 1
  }

  /** A count of 0 or 1 leaves no trace, and the bare rendering starts with the
      rule's name. */
  lemma DisplayNameCountPrefix(rule: Rule, count: nat)
    ensures count <= 1 ==> DisplayName(rule, count) == BareDisplayName(rule)
    ensures |rule.name| <= |BareDisplayName(rule)| && BareDisplayName(rule)[..|rule.name|] == rule.name
  {
    var b := BareDisplayName(rule);
    var tail := RatingSuffix(rule) + (if rule.condition != "" then " " + rule.condition else "");
    assert b == rule.name + tail;
    assert "" + b == b;
  }

  /** The count of a rendered rule reads back, provided the rule's name does not
      itself start with a digit. */
  lemma DisplayNameCountRoundTrip(rule: Rule, count: nat)
    requires |rule.name| > 0 && !IsDigit(rule.name[0])
    ensures ReadCount(DisplayName(rule, count)) == (if count > 1 then count else 1)
  {
    DisplayNameCountPrefix(rule, count);
    var b := BareDisplayName(rule);
    assert b[0] == rule.name[0];
    if count > 1 {
      var d := NatToString(count);
      var s := d + "x " + b;
      assert s == d + ("x " + b);
      LeadingDigitsOfDigitsThen(d, "x " + b);
      assert s[..|d|] == d;
      DigitsValueOfNatToString(count);
    } else {
      assert LeadingDigits(b) == 0;
    }
  }

  /** Renderings of the kinds of rules the lists show. */
  lemma DisplayNameExamples()
    ensures DisplayName(Rule("Tough", Rated(3), false, ""), 0) == "Tough(3)"
    ensures DisplayName(Rule("Defense", Rated(1), false, ""), 1) == "Defense +1"
    ensures DisplayName(Rule("AP", Rated(1), true, "in melee"), 2) == "2x AP(+1) in melee"
    ensures DisplayName(Rule("Fear", Unrated, false, ""), 3) == "3x Fear"
  {
    RatedExample();
    DefenseExample();
    ModifiedExample();
    UnratedExample();
  }

  lemma RatedExample()
    ensures DisplayName(Rule("Tough", Rated(3), false, ""), 0) == "Tough(3)"
  {
    var r := Rule("Tough", Rated(3), false, "");
    assert RatingSuffix(r) == "(3)" by { assert IntToString(3) == "3"; }
    assert BareDisplayName(r) == "Tough" + "(3)" + "";
  }

  lemma DefenseExample()
    ensures DisplayName(Rule("Defense", Rated(1), false, ""), 1) == "Defense +1"
  {
    var r := Rule("Defense", Rated(1), false, "");
    assert RatingSuffix(r) == " +1" by { assert IntToString(1) == "1"; }
    assert BareDisplayName(r) == "Defense" + " +1" + "";
  }

  lemma ModifiedExample()
    ensures DisplayName(Rule("AP", Rated(1), true, "in melee"), 2) == "2x AP(+1) in melee"
  {
    var r := Rule("AP", Rated(1), true, "in melee");
    assert CountText(2) == "2x " by { assert NatToString(2) == "2"; }
    assert RatingSuffix(r) == "(+1)" by { assert IntToString(1) == "1"; }
    assert BareDisplayName(r) == "AP" + "(+1)" + " in melee";
  }

  lemma UnratedExample()
    ensures DisplayName(Rule("Fear", Unrated, false, ""), 3) == "3x Fear"
  {
    var r := Rule("Fear", Unrated, false, "");
    assert CountText(3) == "3x " by { assert NatToString(3) == "3"; }
    assert BareDisplayName(r) == "Fear" + "" + "";
  }
}

/**
 * The category guesser of the budget creation dialog: a proposed budget name
 * is matched against the user's categories (exactly, then as a substring,
 * both ignoring case) and then against a fixed keyword table.
 */
module AutoCategorizer {
  import opened Wrappers
  import opened Strings
  import opened Lists
  import opened Types

  /** The keyword table of the third tier, in declaration order (key, label). */
  const Rules: seq<(string, string)> := [
    ("pepper", "Food"), ("onions", "Food"), ("elubo", "Food"), ("plantain", "Food"),
    ("ginger", "Food"), ("ewedu", "Food"), ("efo", "Food"), ("ponmo", "Food"),
    ("ata", "Food"), ("veggies", "Food"), ("fruits", "Food"), ("panla", "Food"),
    ("soup", "Food"), ("rice", "Food"), ("beans", "Food"), ("yam", "Food"),
    ("grocer", "Food"), ("market", "Food"), ("food", "Food"), ("egg", "Food"),
    ("milk", "Food"), ("milo", "Food"), ("snack", "Food"), ("frozen", "Food"),
    ("toothpaste", "Toiletries"), ("detergent", "Toiletries"), ("hypo", "Toiletries"),
    ("transport", "Transport"), ("uber", "Transport"), ("bolt", "Transport"), ("fuel", "Transport"),
    ("data", "Utilities"), ("airtime", "Utilities"), ("internet", "Utilities"), ("phone", "Utilities"),
    ("rent", "Housing"), ("house", "Housing"),
    ("netflix", "Entertainment"), ("movie", "Entertainment")
  ]

  /** Position of the "ata" key and of the "data" key in `Rules`. */
  const AtaRule: nat := 8
  const DataRule: nat := 31

  predicate IsRuleLabel(s: string) {
    s == "Food" || s == "Toiletries" || s == "Transport" ||
    s == "Utilities" || s == "Housing" || s == "Entertainment"
  }

  /** Tier 1 test: the category's lower-cased name equals the lower-cased input. */
  function ExactTest(lowerName: string): Category -> bool
  {
    (c: Category) => Lower(c.name) == lowerName
  }

  /** Tier 2 test: the category's lower-cased name occurs in the lower-cased input. */
  function PartialTest(lowerName: string): Category -> bool
  {
    (c: Category) => Contains(lowerName, Lower(c.name))
  }

  /** Tier 3 test: the rule's key occurs in the lower-cased input. */
  function RuleTest(lowerName: string): ((string, string)) -> bool
  {
    (rule: (string, string)) => Contains(lowerName, rule.0)
  }

  /** Tier 3 follow-up test: the category's stored name is exactly `wanted` (case-sensitive). */
  function NamedTest(wanted: string): Category -> bool
  {
    (c: Category) => c.name == wanted
  }

  function ExactIndex(cats: seq<Category>, lowerName: string): Option<nat>
  {
    FindFirst(cats, ExactTest(lowerName))
  }

  function PartialIndex(cats: seq<Category>, lowerName: string): Option<nat>
  {
    FindFirst(cats, PartialTest(lowerName))
  }

  function RuleIndex(lowerName: string): Option<nat>
  {
    FindFirst(Rules, RuleTest(lowerName))
  }

  function NamedIndex(cats: seq<Category>, wanted: string): Option<nat>
  {
    FindFirst(cats, NamedTest(wanted))
  }

  /** `autoCategorize(name)` against the caller's categories. */
  function AutoCategory(name: string, cats: seq<Category>): string
  {
    var lowerName := Lower(name);
    match ExactIndex(cats, lowerName)
    case Some(i) => cats[i].name
    case None =>
      match PartialIndex(cats, lowerName)
      case Some(i) => cats[i].name
      case None =>
        match RuleIndex(lowerName)
        case None => ""
        case Some(k) =>
          match NamedIndex(cats, Rules[k].1)
          case Some(j) => cats[j].name
          case None => Rules[k].1
  }

  /** The early-return scan of a keyword table for the first key the input contains. */
  method FirstRule(table: seq<(string, string)>, lowerName: string) returns (r: Option<nat>)
    ensures r == FindFirst(table, RuleTest(lowerName))
  {
    for k := 0 to |table|
      invariant forall j :: 0 <= j < k ==> !RuleTest(lowerName)(table[j])
    {
      if Contains(lowerName, table[k].0) {
        FindFirstAt(table, RuleTest(lowerName), k);
        return Some(k);
      }
    }
    FindFirstNone(table, RuleTest(lowerName));
    return None;
  }

  /**
   * The same resolution written the way the component runs it: two `find`s and
   * a scan of the keyword table.
   */
  method Categorize(name: string, cats: seq<Category>) returns (r: string)
    ensures r == AutoCategory(name, cats)
  {
    var lowerName := Lower(name);
    var exact := ExactIndex(cats, lowerName);
    if exact.Some? {
      return cats[exact.value].name;
    }
    var partial := PartialIndex(cats, lowerName);
    if partial.Some? {
      return cats[partial.value].name;
    }
    var rule := FirstRule(Rules, lowerName);
    if rule.None? {
      return "";
    }
    var existing := NamedIndex(cats, Rules[rule.value].1);
    return if existing.Some? then cats[existing.value].name else Rules[rule.value].1;
  }

  /** Tier 1 wins: the first case-insensitively equal category, with its stored casing. */
  lemma ExactMatchWins(name: string, cats: seq<Category>, i: nat)
    requires i < |cats| && Lower(cats[i].name) == Lower(name)
    requires forall j :: 0 <= j < i ==> Lower(cats[j].name) != Lower(name)
    ensures AutoCategory(name, cats) == cats[i].name
  {
    FindFirstAt(cats, ExactTest(Lower(name)), i);
  }

  /**
   * Tier 2 wins when tier 1 finds nothing: the first category, in list order,
   * whose lower-cased name occurs in the lower-cased input.
   */
  lemma SubstringMatchWins(name: string, cats: seq<Category>, i: nat)
    requires forall j :: 0 <= j < |cats| ==> Lower(cats[j].name) != Lower(name)
    requires i < |cats| && Contains(Lower(name), Lower(cats[i].name))
    requires forall j :: 0 <= j < i ==> !Contains(Lower(name), Lower(cats[j].name))
    ensures AutoCategory(name, cats) == cats[i].name
  {
    FindFirstNone(cats, ExactTest(Lower(name)));
    FindFirstAt(cats, PartialTest(Lower(name)), i);
  }

  /**
   * Tier 3: with no category match, the answer is exactly the label of the first
   * keyword the input contains, or "" when it contains none. The lookup of an
   * existing category with that label compares names case-sensitively, so it
   * can only ever return the label itself.
   */
  lemma KeywordTierIsRuleLabel(name: string, cats: seq<Category>)
    requires forall j :: 0 <= j < |cats| ==> !Contains(Lower(name), Lower(cats[j].name))
    ensures RuleIndex(Lower(name)).None? ==> AutoCategory(name, cats) == ""
    ensures RuleIndex(Lower(name)).Some? ==>
      AutoCategory(name, cats) == Rules[RuleIndex(Lower(name)).value].1
  {
    var lowerName := Lower(name);
    forall j | 0 <= j < |cats| ensures !ExactTest(lowerName)(cats[j]) {
      ContainsSelf(lowerName);
    }
    FindFirstNone(cats, ExactTest(lowerName));
    FindFirstNone(cats, PartialTest(lowerName));
  }

  /** Every rule's label is one of the six built-in labels. */
  lemma RuleLabelIsKnown(k: nat)
    requires k < |Rules|
    ensures IsRuleLabel(Rules[k].1)
  {
  }

  /**
   * The guess is always "", the stored name of a known category, or one of the
   * six built-in labels.
   */
  lemma AutoCategoryRange(name: string, cats: seq<Category>)
    ensures var r := AutoCategory(name, cats);
      r == "" || IsRuleLabel(r) || exists i :: 0 <= i < |cats| && cats[i].name == r
  {
    var k := RuleIndex(Lower(name));
    if k.Some? {
      RuleLabelIsKnown(k.value);
    }
    AutoCategoryCases(name, cats);
  }

  /** The four ways the guess can come about. */
  lemma AutoCategoryCases(name: string, cats: seq<Category>)
    ensures var r := AutoCategory(name, cats);
      var k := RuleIndex(Lower(name));
      r == "" || (k.Some? && r == Rules[k.value].1) || exists i :: 0 <= i < |cats| && cats[i].name == r
  {
    var lowerName := Lower(name);
    var e := ExactIndex(cats, lowerName);
    var p := PartialIndex(cats, lowerName);
    if e.Some? {
      assert AutoCategory(name, cats) == cats[e.value].name;
    } else if p.Some? {
      assert AutoCategory(name, cats) == cats[p.value].name;
    } else if RuleIndex(lowerName).Some? {
      var ruleLabel := Rules[RuleIndex(lowerName).value].1;
      var n := NamedIndex(cats, ruleLabel);
      if n.Some? {
        assert AutoCategory(name, cats) == cats[n.value].name;
      }
    }
  }

  /**
   * A known category with an empty name makes the second tier match every input
   * (every string contains ""): the guess is then always the stored name of a
   * known category, and when no name matches exactly, of that category or of
   * one listed before it.
   */
  lemma EmptyCategoryCapturesAll(name: string, cats: seq<Category>, e: nat)
    requires e < |cats| && cats[e].name == ""
    ensures exists i :: 0 <= i < |cats| && AutoCategory(name, cats) == cats[i].name
    ensures ExactIndex(cats, Lower(name)).None? ==>
      exists i :: 0 <= i <= e && AutoCategory(name, cats) == cats[i].name
  {
    var lowerName := Lower(name);
    ContainsEmpty(lowerName);
    assert Lower(cats[e].name) == "";
    FindFirstAtMost(cats, PartialTest(lowerName), e);
  }

  /** A name containing "data" contains "ata". */
  lemma DataContainsAta(lowerName: string)
    requires Contains(lowerName, "data")
    ensures Contains(lowerName, "ata")
  {
    assert "data" == "d" + "ata";
    ContainsSuffixOf(lowerName, "d", "ata");
  }

  /** A name containing "ata" is decided by a rule no later than "ata". */
  lemma AtaRuleFires(lowerName: string)
    requires Contains(lowerName, "ata")
    ensures RuleIndex(lowerName).Some? && RuleIndex(lowerName).value <= AtaRule
  {
    assert RuleTest(lowerName)(Rules[AtaRule]);
    FindFirstAtMost(Rules, RuleTest(lowerName), AtaRule);
  }

  /** Every rule up to and including "ata" maps to Food. */
  lemma EarlyRulesAreFood(k: nat)
    requires k <= AtaRule
    ensures Rules[k].1 == "Food"
  {
  }

  /**
   * "ata" is declared before "data", and "data" contains "ata": any name that
   * reaches the keyword tier and contains "data" is filed under Food, never
   * Utilities.
   */
  lemma DataIsShadowedByAta(name: string, cats: seq<Category>)
    requires Contains(Lower(name), "data")
    requires forall j :: 0 <= j < |cats| ==> !Contains(Lower(name), Lower(cats[j].name))
    ensures AutoCategory(name, cats) == "Food"
  {
    DataContainsAta(Lower(name));
    AtaRuleFires(Lower(name));
    EarlyRulesAreFood(RuleIndex(Lower(name)).value);
    KeywordTierIsRuleLabel(name, cats);
  }

  /** The "data" to Utilities rule can never be the deciding rule. */
  lemma DataRuleNeverDecides(lowerName: string)
    ensures RuleIndex(lowerName) != Some(DataRule)
  {
    if Contains(lowerName, "data") {
      DataContainsAta(lowerName);
      AtaRuleFires(lowerName);
    } else {
      assert Rules[DataRule].0 == "data";
    }
  }

  /** Known categories [Snacks]: "snacks run" is not an exact match but contains "snacks". */
  lemma SnacksRunExample()
    ensures AutoCategory("snacks run", [Category("c1", "Snacks", Wants)]) == "Snacks"
  {
    var cats := [Category("c1", "Snacks", Wants)];
    LowerOfNoUpper("snacks run");
    assert Lower("Snacks") == "snacks";
    assert OccursAt("snacks run", "snacks", 0);
    SubstringMatchWins("snacks run", cats, 0);
  }
}

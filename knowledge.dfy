/**
 * Industry knowledge: the block of industry expertise appended to the demo
 * system prompt, chosen from the client's industry label.
 */
module Knowledge {
  import opened Wrappers
  import opened Text


  datatype KnowledgeBase =
    | HvacKnowledge
    | PlumbingKnowledge
    | ElectricalKnowledge
    | LandscapingKnowledge
    | TreeServiceKnowledge
    | GeneralHomeServicesKnowledge

  /** The text of each knowledge block. Only its heading is kept here; the
      expertise prose that follows it is static content. */
  function KnowledgeText(kb: KnowledgeBase): string {
    match kb
    case HvacKnowledge => "\n## HVAC Industry Expertise\n"
    case PlumbingKnowledge => "\n## Plumbing Industry Expertise\n"
    case ElectricalKnowledge => "\n## Electrical Industry Expertise\n"
    case LandscapingKnowledge => "\n## Landscaping Industry Expertise\n"
    case TreeServiceKnowledge => "\n## Tree Service & Pruning Industry Expertise\n"
    case GeneralHomeServicesKnowledge => "\n## General Home Services Expertise\n"
  }

  /** Industry labels with their own block, matched exactly and case-sensitively. */
  function ExactKnowledge(industry: string): Option<KnowledgeBase> {
    var table := map[
      "HVAC" := HvacKnowledge,
      "Heating & Cooling" := HvacKnowledge,
      "Air Conditioning" := HvacKnowledge,
      "Plumbing" := PlumbingKnowledge,
      "Electrical" := ElectricalKnowledge,
      "Landscaping" := LandscapingKnowledge,
      "Lawn Care" := LandscapingKnowledge,
      "Tree Service" := TreeServiceKnowledge,
      "Tree Care" := TreeServiceKnowledge,
      "Arborist" := TreeServiceKnowledge
    ];
    if industry in table then Some(table[industry]) else None
  }

  /** getIndustryKnowledge: exact label, then keywords of the lower-cased label, then the general block. */
  function ResolveKnowledge(industry: string): (r: KnowledgeBase)
    ensures r == KnowledgeByRules(industry)
  {
    var lower := Lower(industry);
    RulesUnfold(lower);
    match ExactKnowledge(industry)
    case Some(kb) => kb
    case None =>
      if Includes(lower, "hvac") || Includes(lower, "heating") || Includes(lower, "cooling") || Includes(lower, "air condition") then HvacKnowledge
      else if Includes(lower, "plumb") then PlumbingKnowledge
      else if Includes(lower, "electric") then ElectricalKnowledge
      else if Includes(lower, "landscape") || Includes(lower, "lawn") then LandscapingKnowledge
      else if Includes(lower, "tree") || Includes(lower, "pruning") || Includes(lower, "arborist") then TreeServiceKnowledge
      else GeneralHomeServicesKnowledge
  }

  /** The knowledge block of an industry label, as the reference reading chooses it. */
  function IndustryKnowledge(industry: string): (r: string)
    ensures r == KnowledgeText(KnowledgeByRules(industry))
  {
    KnowledgeText(ResolveKnowledge(industry))
  }

  /** The keyword rules as an ordered table: the first rule with a keyword in the label wins. */
  const KeywordRules: seq<(seq<string>, KnowledgeBase)> := [
    (["hvac", "heating", "cooling", "air condition"], HvacKnowledge),
    (["plumb"], PlumbingKnowledge),
    (["electric"], ElectricalKnowledge),
    (["landscape", "lawn"], LandscapingKnowledge),
    (["tree", "pruning", "arborist"], TreeServiceKnowledge)
  ]

  ghost predicate MentionsAny(name: string, keywords: seq<string>) {
    exists k :: 0 <= k < |keywords| && Contains(name, keywords[k])
  }

  ghost function FirstRuleMatch(rules: seq<(seq<string>, KnowledgeBase)>, name: string): Option<KnowledgeBase>
    decreases |rules|
  {
    if |rules| == 0 then None
    else if MentionsAny(name, rules[0].0) then Some(rules[0].1)
    else FirstRuleMatch(rules[1..], name)
  }

  /** The reference reading of the resolver: exact table, else the first keyword rule, else the general block. */
  ghost function KnowledgeByRules(industry: string): KnowledgeBase {
    match ExactKnowledge(industry)
    case Some(kb) => kb
    case None =>
      match FirstRuleMatch(KeywordRules, Lower(industry))
      case Some(kb) => kb
      case None => GeneralHomeServicesKnowledge
  }

  lemma MentionsAnyOf(name: string, keywords: seq<string>)
    ensures |keywords| == 1 ==> (MentionsAny(name, keywords) <==> Contains(name, keywords[0]))
    ensures |keywords| == 2 ==> (MentionsAny(name, keywords) <==> Contains(name, keywords[0]) || Contains(name, keywords[1]))
    ensures |keywords| == 3 ==> (MentionsAny(name, keywords) <==>
      Contains(name, keywords[0]) || Contains(name, keywords[1]) || Contains(name, keywords[2]))
    ensures |keywords| == 4 ==> (MentionsAny(name, keywords) <==>
      Contains(name, keywords[0]) || Contains(name, keywords[1]) || Contains(name, keywords[2]) || Contains(name, keywords[3]))
  {
  }

  /** The ordered rule table, rule for rule, as the conditions of the resolver's if-cascade. */
  lemma RulesUnfold(lower: string)
    ensures FirstRuleMatch(KeywordRules, lower) ==
      if Contains(lower, "hvac") || Contains(lower, "heating") || Contains(lower, "cooling") || Contains(lower, "air condition") then Some(HvacKnowledge)
      else if Contains(lower, "plumb") then Some(PlumbingKnowledge)
      else if Contains(lower, "electric") then Some(ElectricalKnowledge)
      else if Contains(lower, "landscape") || Contains(lower, "lawn") then Some(LandscapingKnowledge)
      else if Contains(lower, "tree") || Contains(lower, "pruning") || Contains(lower, "arborist") then Some(TreeServiceKnowledge)
      else None
  {
    var rules := KeywordRules;
    MentionsAnyOf(lower, rules[0].0);
    MentionsAnyOf(lower, rules[1].0);
    MentionsAnyOf(lower, rules[2].0);
    MentionsAnyOf(lower, rules[3].0);
    MentionsAnyOf(lower, rules[4].0);
    assert rules[1..][1..][1..][1..][1..] == [];
  }

  /** The resolver never fails: the fallback is the general block, chosen exactly when nothing matches. */
  lemma KnowledgeFallback(industry: string)
    ensures ResolveKnowledge(industry) == GeneralHomeServicesKnowledge <==>
      ExactKnowledge(industry) == None && FirstRuleMatch(KeywordRules, Lower(industry)) == None
  {
    var rules := KeywordRules;
    assert rules[1..][1..][1..][1..][1..] == [];
  }

  /** A label that is not a catalogue key but mentions "HVAC" gets the HVAC block. */
  lemma HvacRepairResolvesToHvac()
    ensures ResolveKnowledge("HVAC Repair") == HvacKnowledge
  {
    var lower := Lower("HVAC Repair");
    assert lower[0..4] == "hvac";
    ContainsAt(lower, "hvac", 0);
  }
}

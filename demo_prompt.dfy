/**
 * The demo system prompt (generateDemoSystemPrompt): the template literal cut
 * into its sections, each a function of the client's profile and of the
 * generation time the source reads from the clock.
 */
module DemoPrompt {
  import opened Wrappers
  import opened Text
  import opened Types
  import opened Layout
  import opened Knowledge
  import opened Website

  /** The two kinds of agent prompt; the production prompt is derived from the demo prompt. */
  datatype AgentKind = DemoAgent | ProductionAgent

  function TypeMarker(kind: AgentKind): string {
    match kind
    case DemoAgent => "# Type: DEMO AGENT"
    case ProductionAgent => "# Type: PRODUCTION AGENT"
  }

  /** The notice under the identity paragraph: the demo restrictions, or the production note. */
  function AgentNotice(kind: AgentKind): string {
    match kind
    case DemoAgent =>
      "**Important:** " + "This is a DEMO agent. " + "Do NOT mention " +
      "pricing, contracts, " + "or specific " + "scheduling times. " +
      "Do NOT claim to " + "book real " + "appointments."
    case ProductionAgent =>
      "**Note:** " + "This is a PRODUCTION " + "agent with live " + "integrations."
  }

  function EndBanner(kind: AgentKind): string {
    match kind
    case DemoAgent => "\n\n---\n\n# END OF DEMO SYSTEM PROMPT\n"
    case ProductionAgent => "\n\n---\n\n# END OF PRODUCTION SYSTEM PROMPT\n"
  }

  /** The opening of the call-flow section, up to the business name in the greeting. */
  function CallFlowOpening(businessName: string): string {
    "\n\n---\n\n" +
    "## Call Flow Guidelines\n\n" +
    "### Opening\n" +
    "\"Thank you for calling " + businessName
  }

  /** The rest of the call-flow section: the steps during the call and the closing greeting. */
  function CallFlowSteps(businessName: string): string {
    ". We're currently closed, but I can help you. How may I assist " +
    "you today?\"\n\n" +
    "### During the Call\n" +
    "1. Listen to the caller's request\n" +
    "2. Confirm you understand their need\n" +
    "3. Collect required information\n" +
    "4. Repeat back details for accuracy\n\n" +
    "### Closing\n" +
    "\"Thank you for calling " + businessName
  }

  /** The description of each tone. */
  function ToneDescription(tone: Tone): string {
    match tone
    case Professional =>
      "Maintain a professional, courteous demeanor. Use clear, business-appropriate " +
      "language."
    case Friendly =>
      "Be warm and approachable while maintaining professionalism. " +
      "Use a conversational but respectful tone."
    case Casual =>
      "Be relaxed and personable. Use everyday language and a warm, " +
      "neighborly approach."
    case Formal =>
      "Use formal, polished language. Maintain an elevated level of " +
      "professionalism throughout."
  }

  /** The after-hours instructions of each goal. */
  function GoalInstructions(goal: AfterHoursGoal): string {
    match goal
    case LeadCapture =>
      "Your primary goal is to capture lead information for follow-up.\n" +
      "Always collect:\n" +
      "1. Caller's full name\n" +
      "2. Callback phone number\n" +
      "3. Brief description of service needed\n" +
      "4. Best time to reach them\n\n" +
      "Confirm all details before ending the call."
    case Voicemail =>
      "Your goal is to take a detailed message for the business to " +
      "review.\nCollect:\n" +
      "1. Caller's name\n" +
      "2. Phone number\n" +
      "3. Detailed message\n" +
      "4. Urgency level (routine, soon, urgent)"
    case EmergencyTransfer =>
      "For urgent matters, offer to transfer to an emergency line.\n" +
      "For non-urgent matters, collect:\n" +
      "1. Caller's name\n" +
      "2. Phone number\n" +
      "3. Service needed\n" +
      "4. Preferred callback time"
  }

  /** Rule number n (counting from 1): its condition and action, and the phone when one is set. */
  function RuleLine(n: nat, rule: TransferRule): (r: string)
    ensures StartsWith(r, NatToString(n) + ". IF: " + rule.condition + "\n")
    ensures Truthy(rule.phone) ==> EndsWith(r, "\n   THEN: " + rule.action + " (Transfer to: " + rule.phone.value + ")")
    ensures !Truthy(rule.phone) ==> EndsWith(r, "\n   THEN: " + rule.action)
  {
    var line := NatToString(n) + ". IF: " + rule.condition + "\n   THEN: " + rule.action +
      (if Truthy(rule.phone) then " (Transfer to: " + rule.phone.value + ")" else "");
    RuleLineParts(n, rule, line);
    line
  }

  function RuleLines(rules: seq<TransferRule>): seq<string> {
    seq(|rules|, i requires 0 <= i < |rules| => RuleLine(i + 1, rules[i]))
  }

  /** The transfer section: a heading and one numbered line per rule, or nothing without rules. */
  function TransferRulesText(rules: seq<TransferRule>): string {
    if |rules| > 0 then "\n## Transfer Rules\n" + Join(RuleLines(rules), "\n") else ""
  }

  function ServiceBullets(services: seq<string>): seq<string> {
    seq(|services|, i requires 0 <= i < |services| => "- " + services[i])
  }

  function IdentitySentence(f: ClientFormData): string {
    "You are a voice assistant for **" + f.businessName + "**, a " + Lower(f.industry) +
    " business serving " + f.serviceArea
  }

  // ---------------------------------------------------------------------------
  // Sections, in output order
  // ---------------------------------------------------------------------------

  function PromptHeader(f: ClientFormData, stamp: Timestamp): string {
    "# Voice Agent System Prompt\n# Client: " + f.businessName +
    ("\n" + TypeMarker(DemoAgent) + ("\n# Generated: " + stamp))
  }

  function IdentityAndRole(f: ClientFormData, stamp: Timestamp): string {
    "\n\n---\n\n## Identity & Role\n\n" + IdentitySentence(f) +
    (".\n\n" +
     "You handle incoming calls during after-hours periods. You are " +
     "helpful, efficient, and represent the business professionally.\n" +
     "\n")
  }

  function DemoNotice(f: ClientFormData, stamp: Timestamp): string {
    AgentNotice(DemoAgent)
  }

  function ToneAndStyle(f: ClientFormData, stamp: Timestamp): string {
    "\n\n---\n\n## Tone & Communication Style\n\n" + ToneDescription(f.tone) +
    ("\n\nKey behaviors:\n" +
     "- Speak clearly and at a measured pace\n" +
     "- Confirm understanding before moving forward\n" +
     "- Be patient with callers who need time to explain\n" +
     "- Never interrupt the caller\n" +
     "- Use the business name naturally in conversation")
  }

  /** The three business lines and the three hours lines of the business information. */
  function BusinessLines(f: ClientFormData): seq<string> {
    ["**Business:** " + f.businessName, "**Industry:** " + f.industry, "**Service Area:** " + f.serviceArea]
  }

  function HoursLines(hours: Hours): seq<string> {
    ["- Weekdays: " + hours.weekday, "- Weekends: " + hours.weekend, "- Timezone: " + hours.timezone]
  }

  function BusinessInformation(f: ClientFormData, stamp: Timestamp): string {
    "\n\n---\n\n## Business Information\n\n" + Join(BusinessLines(f), "\n") + "\n\n**Services Offered:**\n"
  }

  function ServiceListing(f: ClientFormData, stamp: Timestamp): string {
    Join(ServiceBullets(f.services), "\n")
  }

  function HoursOfOperation(f: ClientFormData, stamp: Timestamp): string {
    "\n\n**Hours of Operation:**\n" + Join(HoursLines(f.hours), "\n")
  }

  function AfterHoursBehavior(f: ClientFormData, stamp: Timestamp): string {
    "\n\n---\n\n## After-Hours Behavior\n\n" + (GoalInstructions(f.afterHoursGoal) + "\n")
  }

  function TransferRulesBlock(f: ClientFormData, stamp: Timestamp): string {
    TransferRulesText(f.transferRules)
  }

  function CallFlow(f: ClientFormData, stamp: Timestamp): string {
    CallFlowOpening(f.businessName) + CallFlowSteps(f.businessName)
  }

  function BoundariesAndErrors(f: ClientFormData, stamp: Timestamp): string {
    ". Someone from our team will reach out to you [timeframe]. Have " +
    "a great [day/evening]!\"\n\n---\n\n" +
    "## Boundaries\n\nDO NOT:\n" +
    "- Quote prices or estimates\n" +
    "- Promise specific appointment times\n" +
    "- Discuss contracts or agreements\n" +
    "- Make commitments on behalf of the business\n" +
    "- Provide technical advice beyond general information\n\n" +
    "ALWAYS:\n" +
    "- Collect caller contact information\n" +
    "- Confirm service area coverage\n" +
    "- Note urgency level\n" +
    "- Provide a clear next step\n\n---\n\n" +
    "## Error Handling\n\n" +
    "If you don't understand:\n" +
    "\"I want to make sure I get this right. Could you please repeat " +
    "that?\"\n\n" +
    "If asked something outside scope:\n" +
    "\"That's a great question for our team. Let me make sure they " +
    "call you back to discuss that directly.\"\n\n" +
    "If caller is frustrated:\n" +
    "\"I understand, and I apologize for any inconvenience. Let me " +
    "make sure someone gets back to you as soon as possible.\"\n"
  }

  function WebsiteBlock(f: ClientFormData, stamp: Timestamp): string {
    WebsiteContext(f.websiteData)
  }

  function KnowledgeBlock(f: ClientFormData, stamp: Timestamp): string {
    "\n---\n\n" + (IndustryKnowledge(f.industry) + EndBanner(DemoAgent))
  }

  function DemoLayout(): Sections<ClientFormData> {
    Then(PromptHeader, Then(IdentityAndRole, Then(DemoNotice, Then(ToneAndStyle,
    Then(BusinessInformation, Then(ServiceListing, Then(HoursOfOperation, Then(AfterHoursBehavior,
    Then(TransferRulesBlock, Then(CallFlow, Then(BoundariesAndErrors, Then(WebsiteBlock,
    Then(KnowledgeBlock, End)))))))))))))
  }

  /** generateDemoSystemPrompt: the demo layout rendered for the client's profile. */
  function DemoSystemPrompt(c: Client, generatedAt: Timestamp): (r: string)
    ensures StartsWith(r, "# Voice Agent System Prompt\n# Client: " + c.businessName)
  {
    DemoRenderTitle(FormDataOf(c), generatedAt);
    Render(DemoLayout(), FormDataOf(c), generatedAt)
  }

  // ---------------------------------------------------------------------------
  // Properties
  // ---------------------------------------------------------------------------

  /** Section k of the demo layout appears in the prompt. */
  lemma DemoShows(c: Client, generatedAt: Timestamp, k: nat)
    requires k < 13
    ensures Contains(DemoSystemPrompt(c, generatedAt), At(DemoLayout(), k)(FormDataOf(c), generatedAt))
  {
    RenderShows(DemoLayout(), FormDataOf(c), generatedAt, k);
  }

  /** The prompt opens with its title line naming the client. */
  lemma DemoRenderTitle(f: ClientFormData, generatedAt: Timestamp)
    ensures StartsWith(Render(DemoLayout(), f, generatedAt), "# Voice Agent System Prompt\n# Client: " + f.businessName)
  {
    var layout := DemoLayout();
    StartsWithPrefix(PromptHeader(f, generatedAt), Render(layout.rest, f, generatedAt));
    var title := "# Voice Agent System Prompt\n# Client: " + f.businessName;
    StartsWithPrefix(title, "\n" + TypeMarker(DemoAgent) + ("\n# Generated: " + generatedAt));
    StartsWithTrans(Render(layout, f, generatedAt), PromptHeader(f, generatedAt), title);
  }

  /** The prompt carries the demo type marker. */
  lemma DemoPromptMarker(c: Client, generatedAt: Timestamp)
    ensures Contains(DemoSystemPrompt(c, generatedAt), TypeMarker(DemoAgent))
  {
    var f, prompt := FormDataOf(c), DemoSystemPrompt(c, generatedAt);
    var title := "# Voice Agent System Prompt\n# Client: " + c.businessName;
    var rest := "\n" + TypeMarker(DemoAgent) + ("\n# Generated: " + generatedAt);
    ContainsMiddle("\n", TypeMarker(DemoAgent), "\n# Generated: " + generatedAt);
    ContainsSuffix(title, rest);
    ContainsTrans(PromptHeader(f, generatedAt), rest, TypeMarker(DemoAgent));
    DemoShows(c, generatedAt, 0);
    ContainsTrans(prompt, PromptHeader(f, generatedAt), TypeMarker(DemoAgent));
  }

  /** The prompt carries the demo notice. */
  lemma DemoPromptNotice(c: Client, generatedAt: Timestamp)
    ensures Contains(DemoSystemPrompt(c, generatedAt), AgentNotice(DemoAgent))
  {
    DemoShows(c, generatedAt, 2);
  }

  /** The prompt closes with the knowledge block of the industry and the end banner. */
  lemma DemoPromptEnding(c: Client, generatedAt: Timestamp)
    ensures EndsWith(DemoSystemPrompt(c, generatedAt), IndustryKnowledge(c.industry) + EndBanner(DemoAgent))
  {
    var f, prompt, layout := FormDataOf(c), DemoSystemPrompt(c, generatedAt), DemoLayout();
    RenderLast(layout, f, generatedAt);
    assert Count(layout) - 1 == 12;
    assert At(layout, 12) == KnowledgeBlock;
    EndsWithSuffix("\n---\n\n", IndustryKnowledge(c.industry) + EndBanner(DemoAgent));
    EndsWithTrans(prompt, KnowledgeBlock(f, generatedAt), IndustryKnowledge(c.industry) + EndBanner(DemoAgent));
  }

  /** The identity paragraph names the business, its lower-cased industry and its service area. */
  lemma DemoPromptIdentity(c: Client, generatedAt: Timestamp)
    ensures Contains(DemoSystemPrompt(c, generatedAt), "You are a voice assistant for **" + c.businessName +
      "**, a " + Lower(c.industry) + " business serving " + c.serviceArea)
  {
    var f := FormDataOf(c);
    var section := IdentityAndRole(f, generatedAt);
    DemoShows(c, generatedAt, 1);
    ContainsMiddle("\n\n---\n\n## Identity & Role\n\n", IdentitySentence(f),
      ".\n\n" +
      "You handle incoming calls during after-hours periods. You are " +
      "helpful, efficient, and represent the business professionally.\n" +
      "\n");
    ContainsTrans(DemoSystemPrompt(c, generatedAt), section, IdentitySentence(f));
  }

  /** The tone section gives the description of the client's tone. */
  lemma DemoPromptTone(c: Client, generatedAt: Timestamp)
    ensures Contains(DemoSystemPrompt(c, generatedAt), ToneDescription(c.tone))
  {
    var f := FormDataOf(c);
    var section := ToneAndStyle(f, generatedAt);
    DemoShows(c, generatedAt, 3);
    ContainsMiddle("\n\n---\n\n## Tone & Communication Style\n\n", ToneDescription(f.tone),
      "\n\nKey behaviors:\n" +
      "- Speak clearly and at a measured pace\n" +
      "- Confirm understanding before moving forward\n" +
      "- Be patient with callers who need time to explain\n" +
      "- Never interrupt the caller\n" +
      "- Use the business name naturally in conversation");
    ContainsTrans(DemoSystemPrompt(c, generatedAt), section, ToneDescription(c.tone));
  }

  /** The after-hours section gives the instructions for the client's goal. */
  lemma DemoPromptGoal(c: Client, generatedAt: Timestamp)
    ensures Contains(DemoSystemPrompt(c, generatedAt), GoalInstructions(c.afterHoursGoal))
  {
    var f := FormDataOf(c);
    var goal := GoalInstructions(c.afterHoursGoal);
    DemoShows(c, generatedAt, 7);
    ContainsSuffix("\n\n---\n\n## After-Hours Behavior\n\n", goal + "\n");
    ContainsPrefix(goal, "\n");
    ContainsTrans(AfterHoursBehavior(f, generatedAt), goal + "\n", goal);
    ContainsTrans(DemoSystemPrompt(c, generatedAt), AfterHoursBehavior(f, generatedAt), goal);
  }

  /** The business information shows the name, the industry as entered and the service area, and the
      hours of operation show the three hours fields, each on its own labelled line. */
  lemma DemoPromptBusinessInformation(c: Client, generatedAt: Timestamp, k: nat)
    requires k < 3
    ensures Contains(DemoSystemPrompt(c, generatedAt), BusinessLines(FormDataOf(c))[k])
    ensures Contains(DemoSystemPrompt(c, generatedAt), HoursLines(c.hours)[k])
  {
    var f, prompt := FormDataOf(c), DemoSystemPrompt(c, generatedAt);
    var business, hours := Join(BusinessLines(f), "\n"), Join(HoursLines(f.hours), "\n");
    DemoShows(c, generatedAt, 4);
    DemoShows(c, generatedAt, 6);
    ContainsMiddle("\n\n---\n\n## Business Information\n\n", business, "\n\n**Services Offered:**\n");
    ContainsSuffix("\n\n**Hours of Operation:**\n", hours);
    JoinContains(BusinessLines(f), "\n", k);
    JoinContains(HoursLines(f.hours), "\n", k);
    ContainsTrans(BusinessInformation(f, generatedAt), business, BusinessLines(f)[k]);
    ContainsTrans(prompt, BusinessInformation(f, generatedAt), BusinessLines(f)[k]);
    ContainsTrans(HoursOfOperation(f, generatedAt), hours, HoursLines(f.hours)[k]);
    ContainsTrans(prompt, HoursOfOperation(f, generatedAt), HoursLines(f.hours)[k]);
  }

  /** Every service is listed as its own "- service" line. */
  lemma DemoPromptListsServices(c: Client, generatedAt: Timestamp, k: nat)
    requires k < |c.services|
    ensures Contains(DemoSystemPrompt(c, generatedAt), "- " + c.services[k])
    ensures Contains(DemoSystemPrompt(c, generatedAt), Join(ServiceBullets(c.services), "\n"))
  {
    var bullets := ServiceBullets(c.services);
    DemoShows(c, generatedAt, 5);
    JoinContains(bullets, "\n", k);
    ContainsTrans(DemoSystemPrompt(c, generatedAt), Join(bullets, "\n"), bullets[k]);
  }

  /** The transfer section is empty exactly when there are no rules, and lists rule k as line k+1. */
  lemma TransferRulesListed(rules: seq<TransferRule>)
    ensures TransferRulesText(rules) == "" <==> |rules| == 0
    ensures forall k :: 0 <= k < |rules| ==> Contains(TransferRulesText(rules), RuleLine(k + 1, rules[k]))
  {
    if |rules| > 0 {
      var lines := RuleLines(rules);
      assert TransferRulesText(rules)[0] == '\n';
      ContainsSuffix("\n## Transfer Rules\n", Join(lines, "\n"));
      forall k | 0 <= k < |rules|
        ensures Contains(TransferRulesText(rules), RuleLine(k + 1, rules[k]))
      {
        JoinContains(lines, "\n", k);
        ContainsTrans(TransferRulesText(rules), Join(lines, "\n"), lines[k]);
      }
    }
  }

  /** The action is always shown, and the phone clause follows it whenever the rule has a phone,
      whatever its action says. */
  lemma RuleLineParts(n: nat, rule: TransferRule, line: string)
    requires line == NatToString(n) + ". IF: " + rule.condition + "\n   THEN: " + rule.action +
      (if Truthy(rule.phone) then " (Transfer to: " + rule.phone.value + ")" else "")
    ensures StartsWith(line, NatToString(n) + ". IF: " + rule.condition + "\n")
    ensures Truthy(rule.phone) ==> EndsWith(line, "\n   THEN: " + rule.action + " (Transfer to: " + rule.phone.value + ")")
    ensures !Truthy(rule.phone) ==> EndsWith(line, "\n   THEN: " + rule.action)
  {
    var head := NatToString(n) + ". IF: " + rule.condition + "\n";
    assert line == head + ("   THEN: " + rule.action +
      (if Truthy(rule.phone) then " (Transfer to: " + rule.phone.value + ")" else ""));
    var front := NatToString(n) + ". IF: " + rule.condition;
    if Truthy(rule.phone) {
      LineEnding(front, "\n   THEN: ", rule.action, " (Transfer to: ", rule.phone.value, ")");
    } else {
      assert line == front + ("\n   THEN: " + rule.action);
    }
  }

  /** The prompt carries each rendered rule. */
  lemma DemoPromptTransferRules(c: Client, generatedAt: Timestamp, k: nat)
    requires k < |c.transferRules|
    ensures Contains(DemoSystemPrompt(c, generatedAt), RuleLine(k + 1, c.transferRules[k]))
  {
    DemoShows(c, generatedAt, 8);
    TransferRulesListed(c.transferRules);
    ContainsTrans(DemoSystemPrompt(c, generatedAt), TransferRulesText(c.transferRules), RuleLine(k + 1, c.transferRules[k]));
  }

  /** Without rules, the after-hours instructions run straight into the call-flow section, with no
      transfer heading between them. */
  lemma DemoPromptNoTransferRules(c: Client, generatedAt: Timestamp)
    requires |c.transferRules| == 0
    ensures Contains(DemoSystemPrompt(c, generatedAt), GoalInstructions(c.afterHoursGoal) + "\n" + CallFlowOpening(c.businessName))
  {
    var f, prompt, layout := FormDataOf(c), DemoSystemPrompt(c, generatedAt), DemoLayout();
    assert At(layout, 7) == AfterHoursBehavior && At(layout, 8) == TransferRulesBlock && At(layout, 9) == CallFlow;
    RenderAdjacent(layout, f, generatedAt, 7);
    var goal := GoalInstructions(c.afterHoursGoal) + "\n";
    ContainsJoint("\n\n---\n\n## After-Hours Behavior\n\n", goal, CallFlowOpening(c.businessName), CallFlowSteps(c.businessName));
    ContainsTrans(prompt, AfterHoursBehavior(f, generatedAt) + CallFlow(f, generatedAt), goal + CallFlowOpening(c.businessName));
  }

  /** One rule {gas smell, transfer, 555-0101} appears as rule 1 with its transfer number. */
  lemma DemoPromptGasSmellRule(c: Client, generatedAt: Timestamp)
    requires c.transferRules == [TransferRule("gas smell", "transfer", Some("555-0101"))]
    ensures Contains(DemoSystemPrompt(c, generatedAt),
      "1" + ". IF: " + "gas smell" + "\n   THEN: " + "transfer" + (" (Transfer to: " + "555-0101" + ")"))
  {
    DemoPromptTransferRules(c, generatedAt, 0);
    assert NatToString(1) == "1";
  }

  /** The website context of the client and the knowledge block of its industry are both present,
      the knowledge block right after the website context and a rule. */
  lemma DemoPromptContext(c: Client, generatedAt: Timestamp)
    ensures Contains(DemoSystemPrompt(c, generatedAt), WebsiteContext(c.websiteData))
    ensures Contains(DemoSystemPrompt(c, generatedAt), KnowledgeText(ResolveKnowledge(c.industry)))
    ensures Contains(DemoSystemPrompt(c, generatedAt),
      WebsiteContext(c.websiteData) + "\n---\n\n" + IndustryKnowledge(c.industry))
  {
    var f, prompt := FormDataOf(c), DemoSystemPrompt(c, generatedAt);
    DemoShows(c, generatedAt, 11);
    DemoShows(c, generatedAt, 12);
    var knowledge := IndustryKnowledge(c.industry);
    ContainsSuffix("\n---\n\n", knowledge + EndBanner(DemoAgent));
    ContainsPrefix(knowledge, EndBanner(DemoAgent));
    ContainsTrans(KnowledgeBlock(f, generatedAt), knowledge + EndBanner(DemoAgent), knowledge);
    ContainsTrans(prompt, KnowledgeBlock(f, generatedAt), knowledge);
    DemoContextThenKnowledge(c, generatedAt);
  }

  /** The website section is followed at once by the knowledge section. */
  lemma DemoContextThenKnowledge(c: Client, generatedAt: Timestamp)
    ensures Contains(DemoSystemPrompt(c, generatedAt),
      WebsiteContext(c.websiteData) + "\n---\n\n" + IndustryKnowledge(c.industry))
  {
    var f, layout := FormDataOf(c), DemoLayout();
    DemoClosingSections();
    RenderConsecutive(layout, f, generatedAt, 11);
    var w, knowledge, rule, banner := WebsiteContext(c.websiteData), IndustryKnowledge(c.industry), "\n---\n\n", EndBanner(DemoAgent);
    ContainsLead(w, rule, knowledge, banner);
    ContainsTrans(DemoSystemPrompt(c, generatedAt), WebsiteBlock(f, generatedAt) + KnowledgeBlock(f, generatedAt),
      w + rule + knowledge);
  }

  /** The demo layout has thirteen sections and closes with the website and knowledge sections. */
  lemma DemoClosingSections()
    ensures Count(DemoLayout()) == 13
    ensures At(DemoLayout(), 11) == WebsiteBlock && At(DemoLayout(), 12) == KnowledgeBlock
  {
  }



  /** The demo prompt reads only the profile: status, timestamps, artifacts and production details do
      not affect it. */
  lemma DemoPromptDependsOnProfile(c: Client, generatedAt: Timestamp, status: ClientStatus, updatedAt: Timestamp,
                                   artifacts: Artifacts, details: ProductionDetails)
    ensures DemoSystemPrompt(c.(status := status, updatedAt := updatedAt, artifacts := artifacts,
                                productionDetails := details), generatedAt) == DemoSystemPrompt(c, generatedAt)
  {
    assert FormDataOf(c.(status := status, updatedAt := updatedAt, artifacts := artifacts,
                         productionDetails := details)) == FormDataOf(c);
  }
}

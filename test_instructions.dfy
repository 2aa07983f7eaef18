/**
 * The client test instructions (generateClientTestInstructions): the document
 * sent with a demo, naming the business, up to three of its services, its
 * service area and its tone, and the transfer test when the after-hours goal
 * is an emergency transfer.
 */
module TestInstructions {
  import opened Text
  import opened Types
  import opened Layout

  /** `services.slice(0, 3)`: the first three services, or all of them when there are fewer. */
  function FirstServices(services: seq<string>): (r: seq<string>)
    ensures |r| == (if |services| < 3 then |services| else 3)
    ensures r == services[..|r|]
  {
    if |services| <= 3 then services else services[..3]
  }

  // ---------------------------------------------------------------------------
  // Sections, in output order
  // ---------------------------------------------------------------------------

  function TestHeader(f: ClientFormData, stamp: Timestamp): string {
    "# Demo Test Instructions\n# Client: " + f.businessName + ("\n# Generated: " + stamp)
  }

  function Overview(f: ClientFormData, stamp: Timestamp): string {
    "\n\n---\n\n## Overview\n\n" + ("You have been set up with a demo voice agent for " + f.businessName)
  }

  function HowToTest(f: ClientFormData, stamp: Timestamp): string {
    ". This document explains how to test the agent and what to evaluate.\n" +
    "\n---\n\n" +
    "## How to Test\n\n" +
    "1. **Call the demo number** provided separately\n" +
    "2. **The agent will answer** as if it were after-hours\n" +
    "3. **Try different scenarios** listed below\n" +
    "4. **Take notes** on what works and what needs adjustment\n\n" +
    "---\n\n" +
    "## Test Scenarios to Try\n\n" +
    "### Scenario 1: New Customer Inquiry\n" +
    "- Call as if you're a new customer\n" +
    "- Ask about one of these services: "
  }

  function FeaturedServices(f: ClientFormData, stamp: Timestamp): string {
    Join(FirstServices(f.services), ", ")
  }

  function AreaCheck(f: ClientFormData, stamp: Timestamp): string {
    "\n- See if the agent collects your information correctly\n\n" +
    "### Scenario 2: Service Area Check\n" +
    ("- Ask if they service a location within: " + f.serviceArea)
  }

  function UrgentScenario(f: ClientFormData, stamp: Timestamp): string {
    ("\n- Ask if they service a location OUTSIDE the area\n" +
     "- Note how the agent handles both\n\n" +
     "### Scenario 3: Urgent Request\n" +
     "- Call with an urgent issue\n") +
    "- See how the agent prioritizes and responds\n"
  }

  /** The transfer test, only for the emergency-transfer goal. */
  function TransferOffer(f: ClientFormData, stamp: Timestamp): string {
    if f.afterHoursGoal == EmergencyTransfer then "- Test if transfer offer is made appropriately" else ""
  }

  function EdgeCasesHeading(f: ClientFormData, stamp: Timestamp): string {
    "\n\n### Scenario 4: Edge Cases\n"
  }

  function EdgeCasesAndEvaluation(f: ClientFormData, stamp: Timestamp): string {
    "- Ask about pricing (agent should NOT quote prices)\n" +
    "- Ask for a specific appointment time (agent should NOT commit)\n" +
    "- Be vague and see if agent asks clarifying questions\n" +
    "- Speak quickly or mumble slightly\n\n---\n\n" +
    "## What to Evaluate\n\n" +
    "Rate each item 1-5 (1=Poor, 5=Excellent):\n\n" +
    "| Item | Rating | Notes |\n" +
    "|------|--------|-------|\n" +
    "| Opening greeting | ___ | |\n" +
    "| Tone of voice | ___ | |\n" +
    "| Understanding requests | ___ | |\n" +
    "| Information collection | ___ | |\n" +
    "| Handling boundaries | ___ | |\n" +
    "| Closing statement | ___ | |\n" +
    "| Overall experience | ___ | |\n\n---\n\n" +
    "## Feedback Questions\n\n"
  }

  function RepresentsQuestion(f: ClientFormData, stamp: Timestamp): string {
    "1. Does the agent sound like it represents " + f.businessName + " well?\n\n"
  }

  function ToneQuestion(f: ClientFormData, stamp: Timestamp): string {
    "2. Is the tone (" + ToneName(f.tone) + ") appropriate for your customers?"
  }

  function NextSteps(f: ClientFormData, stamp: Timestamp): string {
    "\n\n3. Were there any phrases that felt unnatural or incorrect?\n" +
    "\n4. What would you change about the call flow?\n\n" +
    "5. Are there scenarios we missed that your callers commonly " +
    "have?\n\n---\n\n" +
    "## Next Steps\n\n" +
    "After testing, we will:\n" +
    "1. Review your feedback together\n" +
    "2. Make adjustments to the agent\n" +
    "3. Re-test if needed\n" +
    "4. Once approved, proceed to production setup\n\n" +
    "**Questions?** Contact your account manager.\n\n---\n\n" +
    "# END OF TEST INSTRUCTIONS\n"
  }

  function TestLayout(): Sections<ClientFormData> {
    Then(TestHeader, Then(Overview, Then(HowToTest, Then(FeaturedServices, Then(AreaCheck,
    Then(UrgentScenario, Then(TransferOffer, Then(EdgeCasesHeading, Then(EdgeCasesAndEvaluation,
    Then(RepresentsQuestion, Then(ToneQuestion, Then(NextSteps, End))))))))))))
  }

  /** generateClientTestInstructions: the test layout rendered for the client's profile. */
  function ClientTestInstructions(c: Client, generatedAt: Timestamp): (r: string)
    ensures StartsWith(r, "# Demo Test Instructions\n# Client: " + c.businessName)
  {
    TestRenderTitle(FormDataOf(c), generatedAt);
    Render(TestLayout(), FormDataOf(c), generatedAt)
  }

  // ---------------------------------------------------------------------------
  // Properties
  // ---------------------------------------------------------------------------

  /** Section k of the test layout appears in the instructions. */
  lemma TestShows(c: Client, generatedAt: Timestamp, k: nat)
    requires k < 12
    ensures Contains(ClientTestInstructions(c, generatedAt), At(TestLayout(), k)(FormDataOf(c), generatedAt))
  {
    RenderShows(TestLayout(), FormDataOf(c), generatedAt, k);
  }

  /** The instructions open with their title naming the client. */
  lemma TestRenderTitle(f: ClientFormData, generatedAt: Timestamp)
    ensures StartsWith(Render(TestLayout(), f, generatedAt), "# Demo Test Instructions\n# Client: " + f.businessName)
  {
    var layout := TestLayout();
    var title := "# Demo Test Instructions\n# Client: " + f.businessName;
    StartsWithPrefix(TestHeader(f, generatedAt), Render(layout.rest, f, generatedAt));
    StartsWithPrefix(title, "\n# Generated: " + generatedAt);
    StartsWithTrans(Render(layout, f, generatedAt), TestHeader(f, generatedAt), title);
  }

  /** The overview names the business the demo agent was set up for, and the first feedback
      question asks whether the agent represents it well. */
  lemma TestInstructionsNamesBusiness(c: Client, generatedAt: Timestamp)
    ensures Contains(ClientTestInstructions(c, generatedAt), "You have been set up with a demo voice agent for " + c.businessName)
    ensures Contains(ClientTestInstructions(c, generatedAt),
      "1. Does the agent sound like it represents " + c.businessName + " well?\n\n")
  {
    var f := FormDataOf(c);
    var named := "You have been set up with a demo voice agent for " + c.businessName;
    assert At(TestLayout(), 1) == Overview && At(TestLayout(), 9) == RepresentsQuestion;
    TestShows(c, generatedAt, 1);
    TestShows(c, generatedAt, 9);
    ContainsSuffix("\n\n---\n\n## Overview\n\n", named);
    ContainsTrans(ClientTestInstructions(c, generatedAt), Overview(f, generatedAt), named);
  }

  /** Scenario 1 names at most the first three services, comma-separated, in order. */
  lemma TestInstructionsServices(c: Client, generatedAt: Timestamp)
    ensures Contains(ClientTestInstructions(c, generatedAt), Join(FirstServices(c.services), ", "))
  {
    assert At(TestLayout(), 3) == FeaturedServices;
    TestShows(c, generatedAt, 3);
  }

  /** Scenario 2 asks about a location within the service area. */
  lemma TestInstructionsArea(c: Client, generatedAt: Timestamp)
    ensures Contains(ClientTestInstructions(c, generatedAt), "- Ask if they service a location within: " + c.serviceArea)
  {
    var f := FormDataOf(c);
    assert At(TestLayout(), 4) == AreaCheck;
    TestShows(c, generatedAt, 4);
    ContainsSuffix("\n- See if the agent collects your information correctly\n\n" +
      "### Scenario 2: Service Area Check\n", "- Ask if they service a location within: " + c.serviceArea);
    ContainsTrans(ClientTestInstructions(c, generatedAt), AreaCheck(f, generatedAt),
      "- Ask if they service a location within: " + c.serviceArea);
  }

  /** The feedback questions ask whether the client's tone, by its stored name, fits. */
  lemma TestInstructionsTone(c: Client, generatedAt: Timestamp)
    ensures Contains(ClientTestInstructions(c, generatedAt),
      "2. Is the tone (" + ToneName(c.tone) + ") appropriate for your customers?")
  {
    assert At(TestLayout(), 10) == ToneQuestion;
    TestShows(c, generatedAt, 10);
  }

  /** With the emergency-transfer goal the transfer test follows the urgent scenario; with any
      other goal the urgent scenario runs straight into scenario 4. */
  lemma TestInstructionsTransferOffer(c: Client, generatedAt: Timestamp)
    ensures c.afterHoursGoal == EmergencyTransfer ==> Contains(ClientTestInstructions(c, generatedAt),
      "- See how the agent prioritizes and responds\n" + "- Test if transfer offer is made appropriately")
    ensures c.afterHoursGoal != EmergencyTransfer ==> Contains(ClientTestInstructions(c, generatedAt),
      "- See how the agent prioritizes and responds\n" + "\n\n### Scenario 4: Edge Cases\n")
  {
    var f, layout, text := FormDataOf(c), TestLayout(), ClientTestInstructions(c, generatedAt);
    var responds := "- See how the agent prioritizes and responds\n";
    var urgentHead := "\n- Ask if they service a location OUTSIDE the area\n" +
      "- Note how the agent handles both\n\n" +
      "### Scenario 3: Urgent Request\n" +
      "- Call with an urgent issue\n";
    assert At(layout, 5) == UrgentScenario && At(layout, 6) == TransferOffer && At(layout, 7) == EdgeCasesHeading;
    if c.afterHoursGoal == EmergencyTransfer {
      var offer := "- Test if transfer offer is made appropriately";
      RenderConsecutive(layout, f, generatedAt, 5);
      ContainsTail(urgentHead, responds, offer);
      ContainsTrans(text, UrgentScenario(f, generatedAt) + offer, responds + offer);
    } else {
      var heading := "\n\n### Scenario 4: Edge Cases\n";
      RenderAdjacent(layout, f, generatedAt, 5);
      ContainsTail(urgentHead, responds, heading);
      ContainsTrans(text, UrgentScenario(f, generatedAt) + heading, responds + heading);
    }
  }
}

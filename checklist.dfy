/**
 * The production install checklist (generateProductionChecklist): a fixed
 * list of setup steps under a header naming the client and the approval time.
 * Of the client record it reads only the business name and the approval
 * timestamp of the production details.
 */
module Checklist {
  import opened Text
  import opened Types
  import opened Layout

  /** `production_details?.approved_at || "Pending"`. */
  function ApprovedLabel(d: ProductionDetails): (r: string)
    ensures Truthy(d.approvedAt) ==> r == d.approvedAt.value
    ensures !Truthy(d.approvedAt) ==> r == "Pending"
  {
    if Truthy(d.approvedAt) then d.approvedAt.value else "Pending"
  }

  // ---------------------------------------------------------------------------
  // Sections, in output order; each reads the business name and the approval label
  // ---------------------------------------------------------------------------

  function ChecklistHeader(name: string, approved: string): string {
    "# Production Install Checklist\n# Client: " + name + ("\n# Approved: " + approved)
  }

  function PreInstallationAndVoice(name: string, approved: string): string {
    "\n\n---\n\n" +
    "## Pre-Installation\n\n" +
    "- [ ] Demo approved by client\n" +
    "- [ ] Production contract signed\n" +
    "- [ ] Payment method on file\n" +
    "- [ ] Client contact designated for setup\n\n" +
    "---\n\n" +
    "## Voice Setup (ElevenLabs)\n\n" +
    "- [ ] Create or select voice profile\n" +
    "- [ ] Voice ID: ________________________________\n" +
    "- [ ] Test voice quality\n" +
    "- [ ] Client approves voice\n" +
    "- [ ] Configure voice settings (speed, stability, etc.)"
  }

  function PhoneAndCrm(name: string, approved: string): string {
    "\n\n---\n\n" +
    "## Phone Setup (Twilio)\n\n" +
    "- [ ] Purchase or port phone number\n" +
    "- [ ] Phone Number: ________________________________\n" +
    "- [ ] Configure call routing\n" +
    "- [ ] Set up failover number\n" +
    "- [ ] Test inbound calls\n" +
    "- [ ] Test call quality\n\n" +
    "---\n\n" +
    "## CRM Integration\n\n" +
    "- [ ] Identify CRM system: ________________________________\n" +
    "- [ ] Obtain API credentials\n" +
    "- [ ] Map data fields\n" +
    "- [ ] Test lead creation\n" +
    "- [ ] Test contact lookup\n" +
    "- [ ] Verify data sync"
  }

  function CalendarAndMessaging(name: string, approved: string): string {
    "\n\n---\n\n" +
    "## Calendar Integration\n\n" +
    "- [ ] Identify calendar system: ________________________________\n" +
    "- [ ] Obtain OAuth/API access\n" +
    "- [ ] Configure availability rules\n" +
    "- [ ] Test booking creation\n" +
    "- [ ] Test conflict detection\n" +
    "- [ ] Verify notifications\n\n" +
    "---\n\n" +
    "## SMS/Email Setup\n\n" +
    "- [ ] Configure SMS sender ID\n" +
    "- [ ] Create message templates\n" +
    "- [ ] Test delivery\n" +
    "- [ ] Verify opt-out handling\n" +
    "- [ ] Set up email notifications"
  }

  function TestingAndGoLive(name: string, approved: string): string {
    "\n\n---\n\n" +
    "## Final Testing\n\n" +
    "- [ ] End-to-end call test\n" +
    "- [ ] Booking flow test\n" +
    "- [ ] Lead capture test\n" +
    "- [ ] Transfer test\n" +
    "- [ ] Error handling test\n" +
    "- [ ] Client walkthrough\n\n" +
    "---\n\n" +
    "## Go-Live\n\n" +
    "- [ ] Schedule go-live date: ________________________________\n" +
    "- [ ] Update business phone routing\n" +
    "- [ ] Monitor first 24 hours\n" +
    "- [ ] Address any issues\n" +
    "- [ ] Client confirmation"
  }

  function PostLaunch(name: string, approved: string): string {
    "\n\n---\n\n" +
    "## Post-Launch\n\n" +
    "- [ ] Set up analytics dashboard\n" +
    "- [ ] Schedule weekly review (first month)\n" +
    "- [ ] Document any customizations\n" +
    "- [ ] Training for client team (if needed)\n\n" +
    "---\n\n"
  }

  function SignOff(name: string, approved: string): string {
    "# Completed By: ________________________________\n" +
    "# Date: ________________________________\n"
  }

  function ChecklistLayout(): Sections<string> {
    Then(ChecklistHeader, Then(PreInstallationAndVoice, Then(PhoneAndCrm, Then(CalendarAndMessaging,
    Then(TestingAndGoLive, Then(PostLaunch, Then(SignOff, End)))))))
  }

  /** generateProductionChecklist. */
  function ProductionChecklist(c: Client): (r: string)
    ensures EndsWith(r, "# Date: ________________________________\n")
  {
    ChecklistRenderEnding(c.businessName, ApprovedLabel(c.productionDetails));
    Render(ChecklistLayout(), c.businessName, ApprovedLabel(c.productionDetails))
  }

  // ---------------------------------------------------------------------------
  // Properties
  // ---------------------------------------------------------------------------

  /** The header names the client and shows the approval time, or "Pending" when there is none. */
  lemma ChecklistHeaderLines(c: Client)
    ensures StartsWith(ProductionChecklist(c), "# Production Install Checklist\n# Client: " + c.businessName)
    ensures Contains(ProductionChecklist(c), "\n# Approved: " + ApprovedLabel(c.productionDetails))
  {
    var name, approved, layout := c.businessName, ApprovedLabel(c.productionDetails), ChecklistLayout();
    var title := "# Production Install Checklist\n# Client: " + name;
    StartsWithPrefix(ChecklistHeader(name, approved), Render(layout.rest, name, approved));
    StartsWithPrefix(title, "\n# Approved: " + approved);
    StartsWithTrans(ProductionChecklist(c), ChecklistHeader(name, approved), title);
    StartsWithContains(ProductionChecklist(c), ChecklistHeader(name, approved));
    ContainsSuffix(title, "\n# Approved: " + approved);
    ContainsTrans(ProductionChecklist(c), ChecklistHeader(name, approved), "\n# Approved: " + approved);
  }

  /** The checklist closes with the sign-off lines, the date line last. */
  lemma ChecklistRenderEnding(name: string, approved: string)
    ensures EndsWith(Render(ChecklistLayout(), name, approved), "# Date: ________________________________\n")
  {
    var layout := ChecklistLayout();
    RenderLast(layout, name, approved);
    assert Count(layout) - 1 == 6 && At(layout, 6) == SignOff;
    EndsWithSuffix("# Completed By: ________________________________\n", "# Date: ________________________________\n");
    EndsWithTrans(Render(layout, name, approved), SignOff(name, approved), "# Date: ________________________________\n");
  }

  /** Of the record the checklist reads only the business name and the approval time. */
  lemma ChecklistDependsOn(c1: Client, c2: Client)
    requires c1.businessName == c2.businessName
    requires ApprovedLabel(c1.productionDetails) == ApprovedLabel(c2.productionDetails)
    ensures ProductionChecklist(c1) == ProductionChecklist(c2)
  {
  }
}

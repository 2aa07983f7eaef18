/**
 * The production system prompt (generateProductionSystemPrompt): the demo
 * prompt with its type marker and its demo notice replaced, followed by the
 * production addendum, which shows the deployment details of the client.
 */
module ProductionPrompt {
  import opened Wrappers
  import opened Text
  import opened Types
  import opened Layout
  import opened DemoPrompt

  /** What the addendum reads of the client: the business name and the production details. */
  datatype Deployment = Deployment(businessName: string, details: ProductionDetails)

  /** `value || "[TO BE CONFIGURED]"`: a missing or empty detail shows the placeholder. */
  function ConfiguredOr(o: Option<string>): (r: string)
    ensures Truthy(o) ==> r == o.value
    ensures !Truthy(o) ==> r == "[TO BE CONFIGURED]"
    ensures |r| > 0
  {
    if Truthy(o) then o.value else "[TO BE CONFIGURED]"
  }

  // ---------------------------------------------------------------------------
  // Sections of the addendum, in output order
  // ---------------------------------------------------------------------------

  function ConfigurationHeading(d: Deployment, stamp: Timestamp): string {
    "\n\n---\n\n## Production Configuration\n\n### Voice\n- Provider: ElevenLabs\n"
  }

  function VoiceLine(d: Deployment, stamp: Timestamp): string {
    "- Voice ID: " + ConfiguredOr(d.details.elevenlabsVoiceId)
  }

  function PhoneHeading(d: Deployment, stamp: Timestamp): string {
    "\n\n### Phone\n"
  }

  function PhoneLine(d: Deployment, stamp: Timestamp): string {
    "- Number: " + ConfiguredOr(d.details.twilioNumber)
  }

  function IntegrationsHeading(d: Deployment, stamp: Timestamp): string {
    "\n- Provider: Twilio\n\n### Integrations\n"
  }

  function CrmLine(d: Deployment, stamp: Timestamp): string {
    "- CRM: " + ConfiguredOr(d.details.crmIntegration)
  }

  function LineBreak(d: Deployment, stamp: Timestamp): string {
    "\n"
  }

  function CalendarLine(d: Deployment, stamp: Timestamp): string {
    "- Calendar: " + ConfiguredOr(d.details.calendarIntegration)
  }

  function BehaviorsText(d: Deployment, stamp: Timestamp): string {
    "\n\n---\n\n" +
    "## Production Behaviors\n\n" +
    "### Real Booking Capability\n" +
    "When a caller requests an appointment:\n" +
    "1. Check calendar availability via integration\n" +
    "2. Offer available time slots\n" +
    "3. Confirm booking details\n" +
    "4. Send confirmation via SMS/email\n\n" +
    "### CRM Logging\n" +
    "All calls should be logged with:\n" +
    "- Caller information\n" +
    "- Call duration\n" +
    "- Outcome (booked, lead captured, transferred, etc.)\n" +
    "- Notes and follow-up required\n\n" +
    "### SMS Follow-up\n" +
    "After capturing a lead, send automated SMS:\n"
  }

  /** The SMS sent after a lead is captured, naming the business. */
  function SmsLine(d: Deployment, stamp: Timestamp): string {
    "\"Hi [Name], " + ("thanks for calling " + d.businessName) +
    ("! We received your request for [service] and will contact you " +
     "within [timeframe]. Reply STOP to opt out.\"")
  }

  function ReliabilityAndCompliance(d: Deployment, stamp: Timestamp): string {
    "\n\n---\n\n" +
    "## Error Handling & Reliability\n\n" +
    "### Fallback Behavior\n" +
    "If integrations fail:\n" +
    "1. Inform caller of temporary issue\n" +
    "2. Collect information manually\n" +
    "3. Promise callback within 1 business hour\n" +
    "4. Log incident for review\n\n" +
    "### Call Quality\n" +
    "- Monitor for audio issues\n" +
    "- Gracefully handle poor connections\n" +
    "- Offer callback if quality is poor\n\n---\n\n" +
    "## Compliance\n\n" +
    "- Do not record without consent where required\n" +
    "- Follow TCPA guidelines for SMS\n" +
    "- Respect do-not-call requests\n" +
    "- Handle PHI appropriately if medical-related"
  }

  function ProductionEnding(d: Deployment, stamp: Timestamp): string {
    EndBanner(ProductionAgent)
  }

  function AddendumLayout(): Sections<Deployment> {
    Then(ConfigurationHeading, Then(VoiceLine, Then(PhoneHeading, Then(PhoneLine,
    Then(IntegrationsHeading, Then(CrmLine, Then(LineBreak, Then(CalendarLine,
    Then(BehaviorsText, Then(SmsLine, Then(ReliabilityAndCompliance, Then(ProductionEnding, End))))))))))))
  }

  function DeploymentOf(c: Client): Deployment {
    Deployment(c.businessName, c.productionDetails)
  }

  /** The production sections appended to the prompt, rendered at the generation time of the
      prompt; no section reads it. The addendum closes with the production end banner. */
  function ProductionAddendum(c: Client, generatedAt: Timestamp): (r: string)
    ensures EndsWith(r, EndBanner(ProductionAgent))
  {
    AddendumEnding(DeploymentOf(c), generatedAt);
    Render(AddendumLayout(), DeploymentOf(c), generatedAt)
  }

  /** A demo prompt with its first demo type marker and then its first demo notice replaced by
      their production counterparts, wherever in the text they occur (`replace` with a string
      pattern). A text that has neither is left as it is. */
  function ProductionBody(demo: string): (r: string)
    ensures Contains(demo, TypeMarker(DemoAgent)) && Contains(demo, AgentNotice(DemoAgent)) ==>
      Contains(r, TypeMarker(ProductionAgent)) && Contains(r, AgentNotice(ProductionAgent))
    ensures !Contains(demo, TypeMarker(DemoAgent)) && !Contains(demo, AgentNotice(DemoAgent)) ==> r == demo
  {
    var marker, warning := TypeMarker(DemoAgent), AgentNotice(DemoAgent);
    var converted := ReplaceFirst(demo, marker, TypeMarker(ProductionAgent));
    assert Includes(demo, marker) <==> Contains(demo, marker);
    assert Includes(converted, warning) <==> Contains(converted, warning);
    ReplacementsConvert(demo);
    ReplaceFirst(converted, warning, AgentNotice(ProductionAgent))
  }

  /** generateProductionSystemPrompt as written: the demo prompt converted by text replacement,
      then the addendum. It carries the production marker and note whatever the profile holds. */
  function ProductionSystemPromptAsWritten(c: Client, generatedAt: Timestamp): (r: string)
    ensures Contains(r, TypeMarker(ProductionAgent)) && Contains(r, AgentNotice(ProductionAgent))
  {
    var demo, addendum := DemoSystemPrompt(c, generatedAt), ProductionAddendum(c, generatedAt);
    var body := ProductionBody(demo);
    DemoPromptMarker(c, generatedAt);
    DemoPromptNotice(c, generatedAt);
    ContainsPrefix(body, addendum);
    ContainsTrans(body + addendum, body, TypeMarker(ProductionAgent));
    ContainsTrans(body + addendum, body, AgentNotice(ProductionAgent));
    body + addendum
  }

  /** The production header: the demo header with the production type marker. */
  function ProductionHeader(f: ClientFormData, stamp: Timestamp): string {
    "# Voice Agent System Prompt\n# Client: " + f.businessName +
    ("\n" + TypeMarker(ProductionAgent) + ("\n# Generated: " + stamp))
  }

  function ProductionNotice(f: ClientFormData, stamp: Timestamp): string {
    AgentNotice(ProductionAgent)
  }

  /** The sections of the demo layout after its notice. */
  function DemoAfterNotice(): Sections<ClientFormData> {
    DemoLayout().rest.rest.rest
  }

  /** The demo layout with its header and its notice section in their production form. */
  function ProductionLayout(): Sections<ClientFormData> {
    Then(ProductionHeader, Then(IdentityAndRole, Then(ProductionNotice, DemoAfterNotice())))
  }

  /** The production prompt as intended: the demo sections with the production header and note in
      place of the demo header and notice, then the addendum. The title keeps the business name,
      and the production marker, the production note and the end banner are there, whatever the
      profile holds. */
  function ProductionSystemPrompt(c: Client, generatedAt: Timestamp): (r: string)
    ensures StartsWith(r, "# Voice Agent System Prompt\n# Client: " + c.businessName)
    ensures Contains(r, TypeMarker(ProductionAgent)) && Contains(r, AgentNotice(ProductionAgent))
    ensures EndsWith(r, EndBanner(ProductionAgent))
  {
    var body, addendum := Render(ProductionLayout(), FormDataOf(c), generatedAt), ProductionAddendum(c, generatedAt);
    ProductionRenderTitle(FormDataOf(c), generatedAt);
    ProductionRenderMarkers(FormDataOf(c), generatedAt);
    StartsWithPrefix(body, addendum);
    StartsWithTrans(body + addendum, body, "# Voice Agent System Prompt\n# Client: " + c.businessName);
    ContainsPrefix(body, addendum);
    ContainsTrans(body + addendum, body, TypeMarker(ProductionAgent));
    ContainsTrans(body + addendum, body, AgentNotice(ProductionAgent));
    EndsWithSuffix(body, addendum);
    EndsWithTrans(body + addendum, addendum, EndBanner(ProductionAgent));
    body + addendum
  }

  // ---------------------------------------------------------------------------
  // Properties
  // ---------------------------------------------------------------------------

  /** Section k of the addendum appears in the addendum. */
  lemma AddendumShows(d: Deployment, generatedAt: Timestamp, k: nat)
    requires k < 12
    ensures Contains(Render(AddendumLayout(), d, generatedAt), At(AddendumLayout(), k)(d, generatedAt))
  {
    RenderShows(AddendumLayout(), d, generatedAt, k);
  }

  /** Whatever the addendum shows, the production prompt shows. */
  lemma AddendumInPrompt(c: Client, generatedAt: Timestamp, t: string)
    requires Contains(ProductionAddendum(c, generatedAt), t)
    ensures Contains(ProductionSystemPrompt(c, generatedAt), t)
  {
    ContainsSuffix(Render(ProductionLayout(), FormDataOf(c), generatedAt), ProductionAddendum(c, generatedAt));
    ContainsTrans(ProductionSystemPrompt(c, generatedAt), ProductionAddendum(c, generatedAt), t);
  }

  lemma DemoNoticeWords()
    ensures '#' !in "**Important:** " && '#' !in "This is a DEMO agent. " && '#' !in "Do NOT mention "
  {
  }

  lemma DemoNoticeWords2()
    ensures '#' !in "pricing, contracts, " && '#' !in "or specific " && '#' !in "scheduling times. "
  {
  }

  lemma DemoNoticeWords3()
    ensures '#' !in "Do NOT claim to " && '#' !in "book real " && '#' !in "appointments."
  {
  }

  /** The markers of the two replacements cannot overlap one another: each starts with a character
      the other does not hold. */
  lemma MarkersApart()
    ensures TypeMarker(DemoAgent)[0] == '#' && '*' !in TypeMarker(DemoAgent)
    ensures TypeMarker(ProductionAgent)[0] == '#' && '*' !in TypeMarker(ProductionAgent)
    ensures |AgentNotice(DemoAgent)| > 0 && AgentNotice(DemoAgent)[0] == '*' && '#' !in AgentNotice(DemoAgent)
  {
    DemoNoticeWords();
    DemoNoticeWords2();
    DemoNoticeWords3();
  }

  /** Replacing the first demo marker and then the first demo notice of a text that carries both
      yields a text with the production marker and the production note, wherever in the text the
      first occurrences lie. */
  lemma ReplacementsConvert(demo: string)
    ensures var converted := ReplaceFirst(demo, TypeMarker(DemoAgent), TypeMarker(ProductionAgent));
      var r := ReplaceFirst(converted, AgentNotice(DemoAgent), AgentNotice(ProductionAgent));
      Contains(demo, TypeMarker(DemoAgent)) && Contains(demo, AgentNotice(DemoAgent)) ==>
        Contains(r, TypeMarker(ProductionAgent)) && Contains(r, AgentNotice(ProductionAgent))
  {
    if !(Contains(demo, TypeMarker(DemoAgent)) && Contains(demo, AgentNotice(DemoAgent))) {
      return;
    }
    var marker, newMarker := TypeMarker(DemoAgent), TypeMarker(ProductionAgent);
    var warning, note := AgentNotice(DemoAgent), AgentNotice(ProductionAgent);
    MarkersApart();
    var converted := ReplaceFirst(demo, marker, newMarker);
    ReplaceFirstInserts(demo, marker, newMarker);
    var w: nat :| OccursAt(demo, warning, w);
    ReplaceFirstKeeps(demo, marker, newMarker, warning, w);
    ReplaceFirstInserts(converted, warning, note);
    var i: nat :| OccursAt(converted, newMarker, i);
    ReplaceFirstKeeps(converted, warning, note, newMarker, i);
  }

  /** Voice id, phone number, CRM and calendar each appear on their labelled line, as the stored
      value or as the placeholder when it is missing or empty. */
  lemma AddendumDetails(d: Deployment, generatedAt: Timestamp)
    ensures Contains(Render(AddendumLayout(), d, generatedAt), "- Voice ID: " + ConfiguredOr(d.details.elevenlabsVoiceId))
    ensures Contains(Render(AddendumLayout(), d, generatedAt), "- Number: " + ConfiguredOr(d.details.twilioNumber))
    ensures Contains(Render(AddendumLayout(), d, generatedAt), "- CRM: " + ConfiguredOr(d.details.crmIntegration))
    ensures Contains(Render(AddendumLayout(), d, generatedAt), "- Calendar: " + ConfiguredOr(d.details.calendarIntegration))
  {
    var layout := AddendumLayout();
    assert At(layout, 1) == VoiceLine && At(layout, 3) == PhoneLine && At(layout, 5) == CrmLine && At(layout, 7) == CalendarLine;
    AddendumShows(d, generatedAt, 1);
    AddendumShows(d, generatedAt, 3);
    AddendumShows(d, generatedAt, 5);
    AddendumShows(d, generatedAt, 7);
  }

  /** The production prompt shows the four deployment details of the client. */
  lemma ProductionPromptDetails(c: Client, generatedAt: Timestamp)
    ensures Contains(ProductionSystemPrompt(c, generatedAt), "- Voice ID: " + ConfiguredOr(c.productionDetails.elevenlabsVoiceId))
    ensures Contains(ProductionSystemPrompt(c, generatedAt), "- Number: " + ConfiguredOr(c.productionDetails.twilioNumber))
    ensures Contains(ProductionSystemPrompt(c, generatedAt), "- CRM: " + ConfiguredOr(c.productionDetails.crmIntegration))
    ensures Contains(ProductionSystemPrompt(c, generatedAt), "- Calendar: " + ConfiguredOr(c.productionDetails.calendarIntegration))
  {
    var details := c.productionDetails;
    AddendumDetails(DeploymentOf(c), generatedAt);
    AddendumInPrompt(c, generatedAt, "- Voice ID: " + ConfiguredOr(details.elevenlabsVoiceId));
    AddendumInPrompt(c, generatedAt, "- Number: " + ConfiguredOr(details.twilioNumber));
    AddendumInPrompt(c, generatedAt, "- CRM: " + ConfiguredOr(details.crmIntegration));
    AddendumInPrompt(c, generatedAt, "- Calendar: " + ConfiguredOr(details.calendarIntegration));
  }

  /** The SMS follow-up template thanks the caller for calling the business by name. */
  lemma AddendumSms(d: Deployment, generatedAt: Timestamp)
    ensures Contains(Render(AddendumLayout(), d, generatedAt), "thanks for calling " + d.businessName)
  {
    assert At(AddendumLayout(), 9) == SmsLine;
    AddendumShows(d, generatedAt, 9);
    ContainsMiddle("\"Hi [Name], ", "thanks for calling " + d.businessName,
      "! We received your request for [service] and will contact you " +
      "within [timeframe]. Reply STOP to opt out.\"");
    ContainsTrans(Render(AddendumLayout(), d, generatedAt), SmsLine(d, generatedAt), "thanks for calling " + d.businessName);
  }

  lemma ProductionPromptSms(c: Client, generatedAt: Timestamp)
    ensures Contains(ProductionSystemPrompt(c, generatedAt), "thanks for calling " + c.businessName)
  {
    AddendumSms(DeploymentOf(c), generatedAt);
    AddendumInPrompt(c, generatedAt, "thanks for calling " + c.businessName);
  }

  /** The addendum opens with its heading and the voice line, followed by a line break. */
  lemma AddendumOpening(d: Deployment, generatedAt: Timestamp)
    ensures Render(AddendumLayout(), d, generatedAt) ==
      ConfigurationHeading(d, generatedAt) + (VoiceLine(d, generatedAt) + Render(From(AddendumLayout(), 2), d, generatedAt))
    ensures |Render(From(AddendumLayout(), 2), d, generatedAt)| > 0 && Render(From(AddendumLayout(), 2), d, generatedAt)[0] == '\n'
  {
    var layout := AddendumLayout();
    assert From(layout, 2) == layout.rest.rest;
    assert At(layout, 2) == PhoneHeading;
    RenderFrom(layout, d, generatedAt, 2);
  }

  /** The addendum determines the voice id it shows: two addenda that agree show the same voice id
      (or both the placeholder), provided the ids are single-line. */
  lemma AddendumDeterminesVoice(d1: Deployment, d2: Deployment, generatedAt: Timestamp)
    requires '\n' !in ConfiguredOr(d1.details.elevenlabsVoiceId)
    requires '\n' !in ConfiguredOr(d2.details.elevenlabsVoiceId)
    requires Render(AddendumLayout(), d1, generatedAt) == Render(AddendumLayout(), d2, generatedAt)
    ensures ConfiguredOr(d1.details.elevenlabsVoiceId) == ConfiguredOr(d2.details.elevenlabsVoiceId)
  {
    var rest1, rest2 := Render(From(AddendumLayout(), 2), d1, generatedAt), Render(From(AddendumLayout(), 2), d2, generatedAt);
    var line1, line2 := VoiceLine(d1, generatedAt), VoiceLine(d2, generatedAt);
    AddendumOpening(d1, generatedAt);
    AddendumOpening(d2, generatedAt);
    PrefixCancel(ConfigurationHeading(d1, generatedAt), line1 + rest1, line2 + rest2);
    FirstFieldUnique(line1, rest1, line2, rest2, '\n');
    PrefixCancel("- Voice ID: ", ConfiguredOr(d1.details.elevenlabsVoiceId), ConfiguredOr(d2.details.elevenlabsVoiceId));
  }

  /** The production prompt reads the profile and the production details, nothing else: status,
      timestamps and stored artifacts do not affect it. */
  lemma ProductionPromptDependsOn(c: Client, generatedAt: Timestamp, status: ClientStatus, updatedAt: Timestamp,
                                  artifacts: Artifacts)
    ensures ProductionSystemPrompt(c.(status := status, updatedAt := updatedAt, artifacts := artifacts), generatedAt)
         == ProductionSystemPrompt(c, generatedAt)
  {
    var c' := c.(status := status, updatedAt := updatedAt, artifacts := artifacts);
    assert FormDataOf(c') == FormDataOf(c) && DeploymentOf(c') == DeploymentOf(c);
  }

  /** Two clients with the same profile get the same production prompt only if they show the same
      voice id: the prompt shows the production details as they are when it is generated. */
  lemma ProductionPromptShowsVoice(c1: Client, c2: Client, generatedAt: Timestamp)
    requires FormDataOf(c1) == FormDataOf(c2)
    requires '\n' !in ConfiguredOr(c1.productionDetails.elevenlabsVoiceId)
    requires '\n' !in ConfiguredOr(c2.productionDetails.elevenlabsVoiceId)
    requires ProductionSystemPrompt(c1, generatedAt) == ProductionSystemPrompt(c2, generatedAt)
    ensures ConfiguredOr(c1.productionDetails.elevenlabsVoiceId) == ConfiguredOr(c2.productionDetails.elevenlabsVoiceId)
  {
    var body1, body2 := Render(ProductionLayout(), FormDataOf(c1), generatedAt), Render(ProductionLayout(), FormDataOf(c2), generatedAt);
    assert body1 == body2;
    PrefixCancel(body1, ProductionAddendum(c1, generatedAt), ProductionAddendum(c2, generatedAt));
    AddendumDeterminesVoice(DeploymentOf(c1), DeploymentOf(c2), generatedAt);
  }

  /** The addendum closes with the production end banner. */
  lemma AddendumEnding(d: Deployment, generatedAt: Timestamp)
    ensures EndsWith(Render(AddendumLayout(), d, generatedAt), EndBanner(ProductionAgent))
  {
    var layout := AddendumLayout();
    RenderLast(layout, d, generatedAt);
    assert Count(layout) - 1 == 11 && At(layout, 11) == ProductionEnding;
  }

  /** The demo prompt opens with its header, the identity paragraph and the demo notice. */
  lemma DemoOpening(f: ClientFormData, generatedAt: Timestamp)
    ensures Render(DemoLayout(), f, generatedAt) == PromptHeader(f, generatedAt) + (IdentityAndRole(f, generatedAt) +
      (DemoNotice(f, generatedAt) + Render(DemoAfterNotice(), f, generatedAt)))
  {
    RenderOpening(DemoLayout(), f, generatedAt);
  }

  /** The production layout opens with the production header, the identity paragraph and the
      production note, and continues with the demo sections after the notice. */
  lemma ProductionOpening(f: ClientFormData, generatedAt: Timestamp)
    ensures Render(ProductionLayout(), f, generatedAt) == ProductionHeader(f, generatedAt) + (IdentityAndRole(f, generatedAt) +
      (ProductionNotice(f, generatedAt) + Render(DemoAfterNotice(), f, generatedAt)))
  {
    RenderOpening(ProductionLayout(), f, generatedAt);
  }

  /** The production sections open with the title naming the client. */
  lemma ProductionRenderTitle(f: ClientFormData, generatedAt: Timestamp)
    ensures StartsWith(Render(ProductionLayout(), f, generatedAt), "# Voice Agent System Prompt\n# Client: " + f.businessName)
  {
    var header, identity, rest :=
      ProductionHeader(f, generatedAt), IdentityAndRole(f, generatedAt), Render(DemoAfterNotice(), f, generatedAt);
    ProductionOpening(f, generatedAt);
    var title := "# Voice Agent System Prompt\n# Client: " + f.businessName;
    StartsWithPrefix(header, identity + (AgentNotice(ProductionAgent) + rest));
    StartsWithPrefix(title, "\n" + TypeMarker(ProductionAgent) + ("\n# Generated: " + generatedAt));
    StartsWithTrans(Render(ProductionLayout(), f, generatedAt), header, title);
  }

  /** The production sections carry the production marker and the production note. */
  lemma ProductionRenderMarkers(f: ClientFormData, generatedAt: Timestamp)
    ensures Contains(Render(ProductionLayout(), f, generatedAt), TypeMarker(ProductionAgent))
    ensures Contains(Render(ProductionLayout(), f, generatedAt), AgentNotice(ProductionAgent))
  {
    var body := Render(ProductionLayout(), f, generatedAt);
    var header, identity, rest :=
      ProductionHeader(f, generatedAt), IdentityAndRole(f, generatedAt), Render(DemoAfterNotice(), f, generatedAt);
    ProductionOpening(f, generatedAt);
    var tail := "\n" + TypeMarker(ProductionAgent) + ("\n# Generated: " + generatedAt);
    ContainsMiddle("\n", TypeMarker(ProductionAgent), "\n# Generated: " + generatedAt);
    ContainsSuffix("# Voice Agent System Prompt\n# Client: " + f.businessName, tail);
    ContainsTrans(header, tail, TypeMarker(ProductionAgent));
    ContainsPrefix(header, identity + (AgentNotice(ProductionAgent) + rest));
    ContainsTrans(body, header, TypeMarker(ProductionAgent));
    ContainsThird(header, identity, AgentNotice(ProductionAgent), rest);
  }

  /** The intended conversion: the production prompt is the demo prompt with exactly its header and
      its notice section in their production form, the rest of the demo prompt unchanged and the
      addendum after it. */
  lemma ProductionSwapsSections(c: Client, generatedAt: Timestamp)
    ensures var f, rest := FormDataOf(c), Render(DemoAfterNotice(), FormDataOf(c), generatedAt);
      DemoSystemPrompt(c, generatedAt) ==
        PromptHeader(f, generatedAt) + (IdentityAndRole(f, generatedAt) + (AgentNotice(DemoAgent) + rest)) &&
      ProductionSystemPrompt(c, generatedAt) ==
        ProductionHeader(f, generatedAt) + (IdentityAndRole(f, generatedAt) + (AgentNotice(ProductionAgent) + rest)) +
        ProductionAddendum(c, generatedAt)
  {
    DemoOpening(FormDataOf(c), generatedAt);
    ProductionOpening(FormDataOf(c), generatedAt);
  }

  // ---------------------------------------------------------------------------
  // The text replacement as written
  // ---------------------------------------------------------------------------

  lemma TitleLength()
    ensures |"# Voice Agent System Prompt\n# Client: "| == 38
    ensures "# Voice Agent System Prompt\n# Client: "[2] == 'V'
  {
  }

  lemma TitleHasNoStar()
    ensures '*' !in "# Voice Agent System Prompt\n# Client: "
  {
  }

  lemma TitleHashes()
    ensures forall j :: 1 <= j < 21 ==> "# Voice Agent System Prompt\n# Client: "[j] != '#'
  {
  }

  /** The title line and the start of the client line hold no demo type marker. */
  lemma TitleLacksDemoMarker()
    ensures forall i: nat :: !OccursAt("# Voice Agent System Prompt\n# Client: ", TypeMarker(DemoAgent), i)
  {
    var title, marker := "# Voice Agent System Prompt\n# Client: ", TypeMarker(DemoAgent);
    TitleLength();
    TitleHashes();
    assert |marker| == 18 && marker[0] == '#' && marker[2] == 'T';
    forall i: nat
      ensures !OccursAt(title, marker, i)
    {
      if i + |marker| <= |title| {
        assert title[i..i + |marker|][0] == title[i] && title[i..i + |marker|][2] == title[i + 2];
      }
    }
  }

  lemma NoticeLetters()
    ensures AgentNotice(DemoAgent)[2] == 'I' && AgentNotice(ProductionAgent)[2] == 'N'
  {
  }

  /** In a text made of a title, w, a stamp line, an identity paragraph, w again and the rest, w
      occurs right after the title and again after the identity paragraph. */
  lemma NoticeTwice(title: string, w: string, stampLine: string, identity: string, rest: string)
    returns (p2: nat)
    ensures var s := ((title + w) + stampLine) + (identity + (w + rest));
      s[..|title|] == title && OccursAt(s, w, |title|) && OccursAt(s, w, p2) && |title| + |w| <= p2
  {
    var s := ((title + w) + stampLine) + (identity + (w + rest));
    assert s == title + w + (stampLine + (identity + (w + rest)));
    OccursAfter(title, w, stampLine + (identity + (w + rest)));
    assert s == (title + w + stampLine + identity) + w + rest;
    OccursAfter(title + w + stampLine + identity, w, rest);
    p2 := |title + w + stampLine + identity|;
  }

  /** In the same text, the first marker lies after the copy of w that follows the title, provided
      the stamp line holds a marker, the title holds none and the two patterns cannot overlap. */
  lemma MarkerAfterNotice(title: string, w: string, stampLine: string, identity: string, rest: string, marker: string)
    requires |w| > 0 && |marker| > 0
    requires w[0] !in marker && marker[0] !in w
    requires forall i: nat :: !OccursAt(title, marker, i)
    requires Contains(stampLine, marker)
    ensures var s := ((title + w) + stampLine) + (identity + (w + rest));
      |title| + |w| <= IndexOf(s, marker) && OccursAt(s, marker, IndexOf(s, marker))
  {
    var s := ((title + w) + stampLine) + (identity + (w + rest));
    var p := |title|;
    assert s == title + w + (stampLine + (identity + (w + rest)));
    OccursAfter(title, w, stampLine + (identity + (w + rest)));
    ContainsMiddle(title + w, stampLine, identity + (w + rest));
    ContainsTrans(s, stampLine, marker);
    IndexOfFound(s, marker);
    var i := IndexOf(s, marker);
    NoOverlap(s, marker, i, w, p);
    assert i + |marker| <= p ==> s[i..i + |marker|] == s[..p][i..i + |marker|];
    assert i + |marker| <= p ==> OccursAt(title, marker, i);
  }

  /** Replacing the first marker and then the first w, where w occurs right after the title and
      again later, and the first marker lies after the first w: the second replacement hits the
      copy after the title, and the later copy stays. */
  lemma ReplacementsHitTitle(s: string, title: string, w: string, marker: string, newMarker: string, note: string, p2: nat)
    requires |w| > 0 && |marker| > 0
    requires w[0] !in title && w[0] !in marker && marker[0] !in w
    requires |title| <= |s| && s[..|title|] == title && OccursAt(s, w, |title|)
    requires OccursAt(s, w, p2) && |title| + |w| <= p2
    requires |title| + |w| <= IndexOf(s, marker) && OccursAt(s, marker, IndexOf(s, marker))
    ensures StartsWith(ReplaceFirst(ReplaceFirst(s, marker, newMarker), w, note), title + note)
    ensures Contains(ReplaceFirst(ReplaceFirst(s, marker, newMarker), w, note), w)
  {
    var p, i := |title|, IndexOf(s, marker);
    var converted := ReplaceFirst(s, marker, newMarker);
    assert converted == s[..i] + newMarker + s[i + |marker|..];
    assert converted[..p] == title;
    assert converted[p..p + |w|] == w;
    // The first w of the converted text is the copy after the title.
    ReplaceFirstAt(converted, w, note, p);
    assert converted[..p] + note + converted[p + |w|..] == (title + note) + converted[p + |w|..];
    StartsWithPrefix(title + note, converted[p + |w|..]);
    // The later copy survives.
    var k := ReplaceFirstShifts(s, marker, newMarker, w, p2);
    ReplaceFirstLeavesLater(converted, w, note, p, k);
  }

  /** The demo prompt of a client whose business name is the demo notice carries that notice twice:
      in the title, right before the stamp line with the demo marker, and after the identity
      paragraph. */
  lemma DemoPromptNoticeAsName(c: Client, generatedAt: Timestamp)
    requires c.businessName == AgentNotice(DemoAgent)
    ensures DemoSystemPrompt(c, generatedAt) ==
      (("# Voice Agent System Prompt\n# Client: " + AgentNotice(DemoAgent)) +
       ("\n" + TypeMarker(DemoAgent) + ("\n# Generated: " + generatedAt))) +
      (IdentityAndRole(FormDataOf(c), generatedAt) +
       (AgentNotice(DemoAgent) + Render(DemoAfterNotice(), FormDataOf(c), generatedAt)))
  {
    DemoOpening(FormDataOf(c), generatedAt);
  }

  /** Converting a text that opens with the title, the demo notice and a stamp line with the demo
      marker, and has the notice again after the identity paragraph, replaces the copy in the title
      and leaves the later one in place. */
  lemma ProductionBodyHitsTitle(d: string, generatedAt: Timestamp, identity: string, rest: string)
    requires d == (("# Voice Agent System Prompt\n# Client: " + AgentNotice(DemoAgent)) +
      ("\n" + TypeMarker(DemoAgent) + ("\n# Generated: " + generatedAt))) + (identity + (AgentNotice(DemoAgent) + rest))
    ensures StartsWith(ProductionBody(d), "# Voice Agent System Prompt\n# Client: " + AgentNotice(ProductionAgent))
    ensures Contains(ProductionBody(d), AgentNotice(DemoAgent))
  {
    var title := "# Voice Agent System Prompt\n# Client: ";
    var marker, warning := TypeMarker(DemoAgent), AgentNotice(DemoAgent);
    var stampLine := "\n" + marker + ("\n# Generated: " + generatedAt);
    MarkersApart();
    TitleHasNoStar();
    TitleLacksDemoMarker();
    ContainsMiddle("\n", marker, "\n# Generated: " + generatedAt);
    var p2 := NoticeTwice(title, warning, stampLine, identity, rest);
    MarkerAfterNotice(title, warning, stampLine, identity, rest, marker);
    ReplacementsHitTitle(d, title, warning, marker, TypeMarker(ProductionAgent), AgentNotice(ProductionAgent), p2);
  }

  /** As written, converting the demo prompt of a client whose business name is the demo notice
      replaces the copy in the title and leaves the real notice in place. */
  lemma AsWrittenBodyKeepsNotice(c: Client, generatedAt: Timestamp)
    requires c.businessName == AgentNotice(DemoAgent)
    ensures StartsWith(ProductionBody(DemoSystemPrompt(c, generatedAt)),
      "# Voice Agent System Prompt\n# Client: " + AgentNotice(ProductionAgent))
    ensures Contains(ProductionBody(DemoSystemPrompt(c, generatedAt)), AgentNotice(DemoAgent))
  {
    DemoPromptNoticeAsName(c, generatedAt);
    ProductionBodyHitsTitle(DemoSystemPrompt(c, generatedAt), generatedAt, IdentityAndRole(FormDataOf(c), generatedAt),
      Render(DemoAfterNotice(), FormDataOf(c), generatedAt));
  }

  /** A text that opens with the title and the production note does not open with the title and
      the demo notice, and a text it begins keeps both facts. */
  lemma TitledWithNote(prompt: string, body: string, addendum: string)
    requires prompt == body + addendum
    requires StartsWith(body, "# Voice Agent System Prompt\n# Client: " + AgentNotice(ProductionAgent))
    ensures StartsWith(prompt, "# Voice Agent System Prompt\n# Client: " + AgentNotice(ProductionAgent))
    ensures !StartsWith(prompt, "# Voice Agent System Prompt\n# Client: " + AgentNotice(DemoAgent))
  {
    var title := "# Voice Agent System Prompt\n# Client: ";
    StartsWithPrefix(body, addendum);
    StartsWithTrans(prompt, body, title + AgentNotice(ProductionAgent));
    TitleLength();
    NoticeLetters();
    assert (title + AgentNotice(ProductionAgent))[40] == 'N';
    assert (title + AgentNotice(DemoAgent))[40] == 'I';
  }

  /** As written, the production prompt of a client whose business name is the demo notice titles
      the production note instead of the name and keeps the demo notice. */
  lemma AsWrittenKeepsDemoNotice(c: Client, generatedAt: Timestamp)
    requires c.businessName == AgentNotice(DemoAgent)
    ensures StartsWith(ProductionSystemPromptAsWritten(c, generatedAt),
      "# Voice Agent System Prompt\n# Client: " + AgentNotice(ProductionAgent))
    ensures !StartsWith(ProductionSystemPromptAsWritten(c, generatedAt), "# Voice Agent System Prompt\n# Client: " + c.businessName)
    ensures Contains(ProductionSystemPromptAsWritten(c, generatedAt), AgentNotice(DemoAgent))
  {
    var body, addendum := ProductionBody(DemoSystemPrompt(c, generatedAt)), ProductionAddendum(c, generatedAt);
    var prompt := ProductionSystemPromptAsWritten(c, generatedAt);
    AsWrittenBodyKeepsNotice(c, generatedAt);
    TitledWithNote(prompt, body, addendum);
    ContainsPrefix(body, addendum);
    ContainsTrans(prompt, body, AgentNotice(DemoAgent));
  }
  /** The demo notice opens with the two stars of its bold label. */
  lemma NoticeOpensWithStars()
    ensures |AgentNotice(DemoAgent)| >= 2 && AgentNotice(DemoAgent) == "**" + AgentNotice(DemoAgent)[2..]
  {
    var notice := AgentNotice(DemoAgent);
    assert notice[..2] == "**Important:** "[..2] == "**";
    assert notice == notice[..2] + notice[2..];
  }

  /** A business name that is the demo notice without its two leading stars holds neither the
      demo marker nor the demo notice, yet the bold markup of the identity sentence completes it:
      the sentence carries the whole notice right after "You are a voice assistant for ". */
  lemma IdentityHoldsNotice(f: ClientFormData)
    requires f.businessName == AgentNotice(DemoAgent)[2..]
    ensures !Contains(f.businessName, AgentNotice(DemoAgent)) && !Contains(f.businessName, TypeMarker(DemoAgent))
    ensures OccursAt(IdentitySentence(f), AgentNotice(DemoAgent), 30)
  {
    var notice, name := AgentNotice(DemoAgent), f.businessName;
    NoticeOpensWithStars();
    MarkersApart();
    assert forall k: nat :: OccursAt(name, TypeMarker(DemoAgent), k) ==> name[k] == notice[k + 2];
    var lead, tail := "You are a voice assistant for ", "**, a " + Lower(f.industry) + " business serving " + f.serviceArea;
    assert |lead| == 30;
    assert IdentitySentence(f) == lead + ("**" + name) + tail;
    OccursAfter(lead, notice, tail);
  }
}

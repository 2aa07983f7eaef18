/**
 * The client lifecycle: creating a record, generating the demo and the
 * production artifacts, approval, promotion and publication. Every operation
 * returns a new record; a thrown error becomes `Err` with the same message.
 * The clock and the id generator are parameters (`now`, `id`).
 */
module Generators {
  import opened Wrappers
  import opened Text
  import opened Types
  import opened DemoPrompt
  import opened ProductionPrompt
  import opened TestInstructions
  import opened DemoConfiguration

  const ProductionArtifactsError := "Client must be approved before generating production artifacts"
  const PromoteError := "Client must be approved before promoting to production"
  const PublishError := "Client must be approved before publishing to production"

  // ---------------------------------------------------------------------------
  // Lifecycle operations
  // ---------------------------------------------------------------------------

  /** A fresh draft record holding the form data, with no artifacts and no production details. */
  function CreateNewClient(formData: ClientFormData, id: string, now: Timestamp): (r: Client)
    ensures FormDataOf(r) == formData
    ensures r.id == id && r.createdAt == now && r.updatedAt == now && r.status == Draft
    ensures r.artifacts == NoArtifacts && r.productionDetails == NoProductionDetails
  {
    Client(id, now, now, Draft, formData.businessName, formData.industry, formData.services,
           formData.serviceArea, formData.websiteUrl, formData.hours, formData.websiteData,
           formData.afterHoursGoal, formData.tone, formData.transferRules, NoArtifacts, NoProductionDetails)
  }

  /** Stores the demo configuration, the demo prompt and the test instructions generated from the
      record, keeps a stored production prompt, and marks the record demo-ready whatever its status. */
  function GenerateDemoArtifacts(c: Client, now: Timestamp): (r: Client)
    ensures r.status == DemoReady && r.updatedAt == now
    ensures FormDataOf(r) == FormDataOf(c) && r.id == c.id && r.createdAt == c.createdAt
    ensures r.productionDetails == c.productionDetails
    ensures r.artifacts.demoConfig == Some(GenerateDemoConfig(r, now))
    ensures r.artifacts.demoSystemPrompt == Some(DemoSystemPrompt(r, now))
    ensures r.artifacts.clientTestInstructions == Some(ClientTestInstructions(r, now))
    ensures r.artifacts.productionSystemPrompt == c.artifacts.productionSystemPrompt
  {
    var artifacts := c.artifacts.(demoConfig := Some(GenerateDemoConfig(c, now)),
                                  demoSystemPrompt := Some(DemoSystemPrompt(c, now)),
                                  clientTestInstructions := Some(ClientTestInstructions(c, now)));
    var r := c.(artifacts := artifacts, status := DemoReady, updatedAt := now);
    assert FormDataOf(r) == FormDataOf(c);
    DemoConfigDeterminedByProfile(r, c, now);
    r
  }

  /** Stores the production prompt; refused unless the record is approved or in production. */
  function GenerateProductionArtifacts(c: Client, now: Timestamp): (r: Result<Client, string>)
    ensures r.Err? <==> c.status != Approved && c.status != Production
    ensures r.Err? ==> r.error == ProductionArtifactsError
    ensures r.Ok? ==> r.value.artifacts.productionSystemPrompt == Some(ProductionSystemPrompt(r.value, now))
    ensures r.Ok? ==> r.value.artifacts == c.artifacts.(productionSystemPrompt := r.value.artifacts.productionSystemPrompt)
    ensures r.Ok? ==> r.value == c.(artifacts := r.value.artifacts, updatedAt := now)
  {
    if c.status != Approved && c.status != Production then
      Err(ProductionArtifactsError)
    else
      var r := c.(artifacts := c.artifacts.(productionSystemPrompt := Some(ProductionSystemPrompt(c, now))),
                  updatedAt := now);
      ProductionPromptDependsOn(c, now, c.status, now, r.artifacts);
      Ok(r)
  }

  /** Marks the record approved and stamps the approval time, from any status. */
  function ApproveClient(c: Client, now: Timestamp): (r: Client)
    ensures r.status == Approved && r.updatedAt == now
    ensures r.productionDetails == c.productionDetails.(approvedAt := Some(now))
    ensures r == c.(status := r.status, updatedAt := r.updatedAt, productionDetails := r.productionDetails)
  {
    c.(status := Approved, updatedAt := now, productionDetails := c.productionDetails.(approvedAt := Some(now)))
  }

  /** Generates the production prompt and moves the record to production; refused unless it is approved. */
  function PromoteToProduction(c: Client, now: Timestamp): (r: Result<Client, string>)
    ensures r.Err? <==> c.status != Approved
    ensures r.Err? ==> r.error == PromoteError
    ensures r.Ok? ==> r.value.status == Production && r.value.updatedAt == now
    ensures r.Ok? ==> r.value.artifacts.productionSystemPrompt == Some(ProductionSystemPrompt(r.value, now))
    ensures r.Ok? ==> r.value == c.(status := Production, updatedAt := now, artifacts := r.value.artifacts)
    ensures r.Ok? ==> r.value.artifacts == c.artifacts.(productionSystemPrompt := r.value.artifacts.productionSystemPrompt)
  {
    if c.status != Approved then
      Err(PromoteError)
    else
      match GenerateProductionArtifacts(c, now)
      case Err(e) => Err(e)
      case Ok(w) =>
        var r := w.(status := Production, updatedAt := now);
        ProductionPromptDependsOn(w, now, Production, now, w.artifacts);
        Ok(r)
  }

  /** The quick-create defaults of an industry: its own entry, or the "Other" entry when it has none. */
  function DefaultsFor(industry: string): (d: IndustryDefaults)
    ensures industry in IndustryDefaultsTable ==> d == IndustryDefaultsTable[industry]
    ensures industry !in IndustryDefaultsTable ==> d == IndustryDefaultsTable["Other"]
    ensures |d.services| == 5 && d.hours.timezone in TimezoneOptions
  {
    IndustryOptionsHaveDefaults();
    IndustryDefaultsWellFormed();
    if industry in IndustryDefaultsTable then IndustryDefaultsTable[industry] else IndustryDefaultsTable["Other"]
  }

  /** The draft a quick creation starts from: the three quick fields, the industry defaults and no
      transfer rules. */
  function QuickDraft(q: QuickCreateFormData, id: string, now: Timestamp): Client {
    var d := DefaultsFor(q.industry);
    Client(id, now, now, Draft, q.businessName, q.industry, d.services, q.serviceArea, None, d.hours, None,
           d.afterHoursGoal, d.tone, [], NoArtifacts, NoProductionDetails)
  }

  /** Creates a record from the three quick fields and the industry defaults and generates its demo
      artifacts at once. */
  function CreateQuickClient(q: QuickCreateFormData, id: string, now: Timestamp): (r: Client)
    ensures r.id == id && r.createdAt == now && r.updatedAt == now && r.status == DemoReady
    ensures r.businessName == q.businessName && r.industry == q.industry && r.serviceArea == q.serviceArea
    ensures r.services == DefaultsFor(q.industry).services && r.hours == DefaultsFor(q.industry).hours
    ensures r.tone == DefaultsFor(q.industry).tone && r.afterHoursGoal == DefaultsFor(q.industry).afterHoursGoal
    ensures r.websiteUrl == None && r.websiteData == None && r.transferRules == []
    ensures r.artifacts.demoSystemPrompt == Some(DemoSystemPrompt(r, now))
    ensures r.artifacts.clientTestInstructions == Some(ClientTestInstructions(r, now))
    ensures r.artifacts.demoConfig == Some(GenerateDemoConfig(r, now))
    ensures r.artifacts.productionSystemPrompt == None && r.productionDetails == NoProductionDetails
  {
    GenerateDemoArtifacts(QuickDraft(q, id, now), now)
  }

  /** As written: generates the production prompt from the record as it stands, then moves it to
      production and only afterwards records the voice id and the phone number. */
  function PublishToProduction(c: Client, voiceId: string, twilioNumber: Option<string>, now: Timestamp)
    : (r: Result<Client, string>)
    ensures r.Err? <==> c.status != Approved
    ensures r.Err? ==> r.error == PublishError
    ensures r.Ok? ==> r.value.status == Production && r.value.updatedAt == now
    ensures r.Ok? ==> (r.value.productionDetails ==
                       c.productionDetails.(elevenlabsVoiceId := Some(voiceId), twilioNumber := twilioNumber))
    ensures r.Ok? ==> r.value.artifacts == c.artifacts.(productionSystemPrompt := Some(ProductionSystemPrompt(c, now)))
    ensures r.Ok? ==> FormDataOf(r.value) == FormDataOf(c) && r.value.id == c.id && r.value.createdAt == c.createdAt
  {
    if c.status != Approved then
      Err(PublishError)
    else
      match GenerateProductionArtifacts(c, now)
      case Err(e) => Err(e)
      case Ok(w) =>
        Ok(w.(status := Production, updatedAt := now,
              productionDetails := w.productionDetails.(elevenlabsVoiceId := Some(voiceId), twilioNumber := twilioNumber)))
  }

  /** Corrected: records the voice id and the phone number first, so that the production prompt is
      generated from the details it is stored with. */
  function PublishToProductionCorrected(c: Client, voiceId: string, twilioNumber: Option<string>, now: Timestamp)
    : (r: Result<Client, string>)
    ensures r.Err? <==> c.status != Approved
    ensures r.Err? ==> r.error == PublishError
    ensures r.Ok? ==> r.value.status == Production && r.value.updatedAt == now
    ensures r.Ok? ==> (r.value.productionDetails ==
                       c.productionDetails.(elevenlabsVoiceId := Some(voiceId), twilioNumber := twilioNumber))
    ensures r.Ok? ==> r.value.artifacts.productionSystemPrompt == Some(ProductionSystemPrompt(r.value, now))
    ensures r.Ok? ==> r.value.artifacts == c.artifacts.(productionSystemPrompt := r.value.artifacts.productionSystemPrompt)
    ensures r.Ok? ==> FormDataOf(r.value) == FormDataOf(c) && r.value.id == c.id && r.value.createdAt == c.createdAt
  {
    if c.status != Approved then
      Err(PublishError)
    else
      var staged := c.(productionDetails :=
                        c.productionDetails.(elevenlabsVoiceId := Some(voiceId), twilioNumber := twilioNumber));
      match GenerateProductionArtifacts(staged, now)
      case Err(e) => Err(e)
      case Ok(w) =>
        ProductionPromptDependsOn(w, now, Production, now, w.artifacts);
        Ok(w.(status := Production, updatedAt := now))
  }

  // ---------------------------------------------------------------------------
  // Properties
  // ---------------------------------------------------------------------------

  /** Generating the demo artifacts twice at the same time gives the same record as once. */
  lemma DemoArtifactsIdempotent(c: Client, now: Timestamp)
    ensures GenerateDemoArtifacts(GenerateDemoArtifacts(c, now), now) == GenerateDemoArtifacts(c, now)
  {
    var r := GenerateDemoArtifacts(c, now);
    DemoConfigDeterminedByProfile(r, c, now);
  }

  /** The stored demo artifacts are about the client: the prompt names the business and carries the
      demo marker and notice, the instructions name the business, and the configuration gives back
      the profile without its website fields. */
  lemma StoredDemoArtifacts(c: Client, now: Timestamp)
    ensures var a := GenerateDemoArtifacts(c, now).artifacts;
      StartsWith(a.demoSystemPrompt.value, "# Voice Agent System Prompt\n# Client: " + c.businessName) &&
      Contains(a.demoSystemPrompt.value, TypeMarker(DemoAgent)) &&
      Contains(a.demoSystemPrompt.value, AgentNotice(DemoAgent)) &&
      StartsWith(a.clientTestInstructions.value, "# Demo Test Instructions\n# Client: " + c.businessName) &&
      ConfigFormData(a.demoConfig.value) == FormDataOf(c).(websiteUrl := None, websiteData := None)
  {
    var r := GenerateDemoArtifacts(c, now);
    DemoPromptMarker(r, now);
    DemoPromptNotice(r, now);
    DemoConfigRoundTrip(r, now);
  }

  /** Approving a record and then promoting it always succeeds; the result is in production, keeps
      the approval time, and stores a production prompt that carries the production marker and the
      deployment details of the record. */
  lemma ApproveThenPromote(c: Client, approvedAt: Timestamp, now: Timestamp)
    ensures PromoteToProduction(ApproveClient(c, approvedAt), now).Ok?
    ensures var r := PromoteToProduction(ApproveClient(c, approvedAt), now).value;
      r.status == Production && r.productionDetails.approvedAt == Some(approvedAt) &&
      FormDataOf(r) == FormDataOf(c) &&
      Contains(r.artifacts.productionSystemPrompt.value, TypeMarker(ProductionAgent)) &&
      Contains(r.artifacts.productionSystemPrompt.value,
               "- Voice ID: " + ConfiguredOr(c.productionDetails.elevenlabsVoiceId))
  {
    var r := PromoteToProduction(ApproveClient(c, approvedAt), now).value;
    ProductionPromptDetails(r, now);
  }

  /** A record that has reached a status keeps what that status needs: an approved or promoted record
      has an approval time, and a promoted record has a production prompt. */
  predicate Staged(c: Client) {
    (c.status == Approved || c.status == Production ==> c.productionDetails.approvedAt.Some?) &&
    (c.status == Production ==> c.artifacts.productionSystemPrompt.Some?)
  }

  /** Both ways of creating a record give a staged record. */
  lemma CreationIsStaged(f: ClientFormData, q: QuickCreateFormData, id: string, now: Timestamp)
    ensures Staged(CreateNewClient(f, id, now)) && Staged(CreateQuickClient(q, id, now))
  {
  }

  /** Every lifecycle operation keeps a record staged. */
  lemma LifecycleKeepsStaged(c: Client, voiceId: string, twilioNumber: Option<string>, now: Timestamp)
    requires Staged(c)
    ensures Staged(GenerateDemoArtifacts(c, now)) && Staged(ApproveClient(c, now))
    ensures GenerateProductionArtifacts(c, now).Ok? ==> Staged(GenerateProductionArtifacts(c, now).value)
    ensures PromoteToProduction(c, now).Ok? ==> Staged(PromoteToProduction(c, now).value)
    ensures PublishToProduction(c, voiceId, twilioNumber, now).Ok? ==>
      Staged(PublishToProduction(c, voiceId, twilioNumber, now).value)
  {
  }

  /** A record can reach production only through approval: each operation that yields a production
      record requires an approved one. */
  lemma ProductionNeedsApproval(c: Client, voiceId: string, twilioNumber: Option<string>, now: Timestamp)
    ensures PromoteToProduction(c, now).Ok? ==> c.status == Approved
    ensures PublishToProduction(c, voiceId, twilioNumber, now).Ok? ==> c.status == Approved
    ensures GenerateProductionArtifacts(c, now).Ok? ==>
      GenerateProductionArtifacts(c, now).value.status == c.status
    ensures GenerateDemoArtifacts(c, now).status != Production && ApproveClient(c, now).status != Production
  {
  }

  /** An industry without a defaults entry gets the "Other" defaults. */
  lemma QuickClientFallsBackToOther(q: QuickCreateFormData, id: string, now: Timestamp)
    requires q.industry !in IndustryDefaultsTable
    ensures CreateQuickClient(q, id, now).services ==
      ["General Inquiries", "Appointments", "Information", "Support", "Callback Request"]
    ensures CreateQuickClient(q, id, now).tone == Professional
    ensures CreateQuickClient(q, id, now).afterHoursGoal == LeadCapture
  {
  }

  /** The stored production prompt of a published record shows the voice id the record had before
      publication, not the one just recorded. */
  lemma PublishedPromptShowsOldVoice(c: Client, voiceId: string, twilioNumber: Option<string>, now: Timestamp)
    requires c.status == Approved
    ensures PublishToProduction(c, voiceId, twilioNumber, now).Ok?
    ensures Contains(PublishToProduction(c, voiceId, twilioNumber, now).value.artifacts.productionSystemPrompt.value,
                     "- Voice ID: " + ConfiguredOr(c.productionDetails.elevenlabsVoiceId))
  {
    ProductionPromptDetails(c, now);
  }

  /** The discrepancy: publishing a record whose voice id differs from the new one stores a
      production prompt that is not the prompt of the published record. */
  lemma PublishedPromptStale(c: Client, voiceId: string, twilioNumber: Option<string>, now: Timestamp)
    requires c.status == Approved
    requires voiceId != "" && voiceId != ConfiguredOr(c.productionDetails.elevenlabsVoiceId)
    requires '\n' !in voiceId && '\n' !in ConfiguredOr(c.productionDetails.elevenlabsVoiceId)
    ensures PublishToProduction(c, voiceId, twilioNumber, now).Ok?
    ensures var r := PublishToProduction(c, voiceId, twilioNumber, now).value;
      r.artifacts.productionSystemPrompt != Some(ProductionSystemPrompt(r, now))
  {
    var r := PublishToProduction(c, voiceId, twilioNumber, now).value;
    assert ConfiguredOr(r.productionDetails.elevenlabsVoiceId) == voiceId;
    if ProductionSystemPrompt(c, now) == ProductionSystemPrompt(r, now) {
      ProductionPromptShowsVoice(c, r, now);
    }
  }

  /** The placeholder shown for a missing detail is a single line. */
  lemma PlaceholderIsOneLine()
    ensures '\n' !in ConfiguredOr(None)
  {
    assert ConfiguredOr(None) == "[TO BE CONFIGURED]";
  }

  /** The common case: a freshly approved record without a voice id, published with a one-line
      voice id, stores a prompt that still shows the placeholder and therefore differs from the
      prompt of the published record. */
  lemma PublishedPromptStaleWithoutVoice(c: Client, voiceId: string, twilioNumber: Option<string>, now: Timestamp)
    requires c.status == Approved && c.productionDetails.elevenlabsVoiceId == None
    requires voiceId != "" && voiceId != "[TO BE CONFIGURED]" && '\n' !in voiceId
    ensures PublishToProduction(c, voiceId, twilioNumber, now).Ok?
    ensures var r := PublishToProduction(c, voiceId, twilioNumber, now).value;
      Contains(r.artifacts.productionSystemPrompt.value, "- Voice ID: " + "[TO BE CONFIGURED]") &&
      r.productionDetails.elevenlabsVoiceId == Some(voiceId) &&
      r.artifacts.productionSystemPrompt != Some(ProductionSystemPrompt(r, now))
  {
    PlaceholderIsOneLine();
    PublishedPromptShowsOldVoice(c, voiceId, twilioNumber, now);
    PublishedPromptStale(c, voiceId, twilioNumber, now);
  }

  /** With the correction, the stored prompt of a published record shows the voice id and the phone
      number it was published with. */
  lemma PublishedPromptCurrent(c: Client, voiceId: string, twilioNumber: Option<string>, now: Timestamp)
    requires c.status == Approved && voiceId != ""
    ensures PublishToProductionCorrected(c, voiceId, twilioNumber, now).Ok?
    ensures var p := PublishToProductionCorrected(c, voiceId, twilioNumber, now).value.artifacts.productionSystemPrompt.value;
      Contains(p, "- Voice ID: " + voiceId) && Contains(p, "- Number: " + ConfiguredOr(twilioNumber))
  {
    var r := PublishToProductionCorrected(c, voiceId, twilioNumber, now).value;
    ProductionPromptDetails(r, now);
  }
}

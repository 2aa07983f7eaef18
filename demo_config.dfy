/**
 * The demo configuration (generateDemoConfig) as the structured value the
 * source serialises: the profile of the client, fixed demo settings and the
 * lead-capture field lists, stamped with the generation time.
 */
module DemoConfiguration {
  import opened Wrappers
  import opened Types

  function RequiredLeadFields(): seq<string> {
    ["name", "phone", "service_needed"]
  }

  function OptionalLeadFields(): seq<string> {
    ["email", "address", "notes"]
  }

  /** A demo agent has a standard voice, a temporary number, simulated calendar and CRM, no SMS. */
  function DemoOnlySettings(): DemoSettings {
    DemoSettings("standard", "temporary", ConfigIntegrations("simulated", "simulated", "disabled"))
  }

  /** generateDemoConfig, before JSON rendering. */
  function GenerateDemoConfig(c: Client, generatedAt: Timestamp): (r: DemoConfig)
    ensures r.schemaVersion == "1.0" && r.agentType == "demo" && r.generatedAt == generatedAt
    ensures r.demoSettings.integrations.sms == "disabled"
    ensures r.leadCapture.requiredFields == RequiredLeadFields() && r.leadCapture.optionalFields == OptionalLeadFields()
  {
    DemoConfig(
      "1.0", "demo", generatedAt,
      ConfigBusiness(c.businessName, c.industry, c.services, c.serviceArea),
      Hours(c.hours.weekday, c.hours.weekend, c.hours.timezone),
      ConfigBehavior(c.afterHoursGoal, c.tone, c.transferRules),
      DemoOnlySettings(),
      LeadCaptureFields(RequiredLeadFields(), OptionalLeadFields()))
  }

  /** Reading a configuration back as form data; it carries no website fields. */
  function ConfigFormData(cfg: DemoConfig): ClientFormData {
    ClientFormData(cfg.business.name, cfg.business.industry, cfg.business.services, cfg.business.serviceArea,
                   None, None, cfg.hours, cfg.agentBehavior.afterHoursGoal, cfg.agentBehavior.tone,
                   cfg.agentBehavior.transferRules)
  }

  /** The configuration carries the client's profile verbatim, all but the website fields. */
  lemma DemoConfigRoundTrip(c: Client, generatedAt: Timestamp)
    ensures ConfigFormData(GenerateDemoConfig(c, generatedAt)) == FormDataOf(c).(websiteUrl := None, websiteData := None)
  {
  }

  /** Two clients get the same configuration at the same time exactly when their profiles agree
      outside the website fields. */
  lemma DemoConfigDeterminedByProfile(c1: Client, c2: Client, generatedAt: Timestamp)
    ensures GenerateDemoConfig(c1, generatedAt) == GenerateDemoConfig(c2, generatedAt) <==>
      FormDataOf(c1).(websiteUrl := None, websiteData := None) == FormDataOf(c2).(websiteUrl := None, websiteData := None)
  {
    if GenerateDemoConfig(c1, generatedAt) == GenerateDemoConfig(c2, generatedAt) {
      DemoConfigRoundTrip(c1, generatedAt);
      DemoConfigRoundTrip(c2, generatedAt);
    }
  }

}

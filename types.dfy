/**
 * The data model of the demo builder: lifecycle status, client records,
 * demo links and the per-industry defaults used by quick creation.
 */
module Types {
  import opened Wrappers

  /** An ISO-8601 timestamp string, supplied by the caller. */
  type Timestamp = string

  datatype ClientStatus = Draft | DemoReady | Approved | Production

  datatype Tone = Professional | Friendly | Casual | Formal

  datatype AfterHoursGoal = LeadCapture | Voicemail | EmergencyTransfer

  /** The literal a tone is written as ("professional", ...). */
  function ToneName(t: Tone): string {
    match t
    case Professional => "professional"
    case Friendly => "friendly"
    case Casual => "casual"
    case Formal => "formal"
  }

  /** The action is free text in the source; the phone is optional. */
  datatype TransferRule = TransferRule(condition: string, action: string, phone: Option<string>)

  datatype Hours = Hours(weekday: string, weekend: string, timezone: string)

  /** Fields scraped from the client's website; each may be missing. */
  datatype WebsiteData = WebsiteData(
    description: Option<string>,
    aboutUs: Option<string>,
    tagline: Option<string>,
    phone: Option<string>,
    email: Option<string>,
    address: Option<string>,
    scrapedServices: Option<seq<string>>,
    rawContent: Option<string>)

  /** The structured demo configuration (see DemoConfiguration.GenerateDemoConfig). */
  datatype ConfigBusiness = ConfigBusiness(name: string, industry: string, services: seq<string>, serviceArea: string)
  datatype ConfigBehavior = ConfigBehavior(afterHoursGoal: AfterHoursGoal, tone: Tone, transferRules: seq<TransferRule>)
  datatype ConfigIntegrations = ConfigIntegrations(calendar: string, crm: string, sms: string)
  datatype DemoSettings = DemoSettings(voiceProvider: string, phoneType: string, integrations: ConfigIntegrations)
  datatype LeadCaptureFields = LeadCaptureFields(requiredFields: seq<string>, optionalFields: seq<string>)
  datatype DemoConfig = DemoConfig(
    schemaVersion: string,
    agentType: string,
    generatedAt: Timestamp,
    business: ConfigBusiness,
    hours: Hours,
    agentBehavior: ConfigBehavior,
    demoSettings: DemoSettings,
    leadCapture: LeadCaptureFields)

  /** Generated artifacts; a missing `artifacts` object is the record with every field None. */
  datatype Artifacts = Artifacts(
    demoConfig: Option<DemoConfig>,
    demoSystemPrompt: Option<string>,
    clientTestInstructions: Option<string>,
    productionSystemPrompt: Option<string>)

  const NoArtifacts := Artifacts(None, None, None, None)

  /** Production details; a missing `production_details` object is the record with every field None. */
  datatype ProductionDetails = ProductionDetails(
    approvedAt: Option<Timestamp>,
    elevenlabsVoiceId: Option<string>,
    twilioNumber: Option<string>,
    crmIntegration: Option<string>,
    calendarIntegration: Option<string>)

  const NoProductionDetails := ProductionDetails(None, None, None, None, None)

  datatype Client = Client(
    id: string,
    createdAt: Timestamp,
    updatedAt: Timestamp,
    status: ClientStatus,
    businessName: string,
    industry: string,
    services: seq<string>,
    serviceArea: string,
    websiteUrl: Option<string>,
    hours: Hours,
    websiteData: Option<WebsiteData>,
    afterHoursGoal: AfterHoursGoal,
    tone: Tone,
    transferRules: seq<TransferRule>,
    artifacts: Artifacts,
    productionDetails: ProductionDetails)

  /** What the client form collects. */
  datatype ClientFormData = ClientFormData(
    businessName: string,
    industry: string,
    services: seq<string>,
    serviceArea: string,
    websiteUrl: Option<string>,
    websiteData: Option<WebsiteData>,
    hours: Hours,
    afterHoursGoal: AfterHoursGoal,
    tone: Tone,
    transferRules: seq<TransferRule>)

  /** The profile part of a client record: everything the form sets. */
  function FormDataOf(c: Client): ClientFormData {
    ClientFormData(c.businessName, c.industry, c.services, c.serviceArea, c.websiteUrl,
                   c.websiteData, c.hours, c.afterHoursGoal, c.tone, c.transferRules)
  }

  datatype QuickCreateFormData = QuickCreateFormData(businessName: string, industry: string, serviceArea: string)

  /** JavaScript truthiness of an optional string: present and not empty. */
  predicate Truthy(o: Option<string>) {
    o.Some? && o.value != ""
  }

  function StatusLabel(s: ClientStatus): string {
    match s
    case Draft => "Draft"
    case DemoReady => "Demo Ready"
    case Approved => "Approved"
    case Production => "Production"
  }

  /** Each status has its own label, so a label names one status. */
  lemma StatusLabelsDistinct(a: ClientStatus, b: ClientStatus)
    ensures StatusLabel(a) == StatusLabel(b) <==> a == b
  {
  }

  const IndustryOptions: seq<string> := [
    "HVAC", "Plumbing", "Electrical", "Roofing", "Landscaping", "Cleaning Services",
    "Auto Repair", "Medical/Dental", "Legal Services", "Real Estate", "Restaurant",
    "Salon/Spa", "Fitness", "Pet Services", "Home Services", "Professional Services",
    "Retail", "Other"]

  const TimezoneOptions: seq<string> := [
    "America/New_York", "America/Chicago", "America/Denver", "America/Los_Angeles",
    "America/Phoenix", "America/Anchorage", "Pacific/Honolulu"]

  /** One entry of the defaults table; every entry of the table sets all four fields. */
  datatype IndustryDefaults = IndustryDefaults(services: seq<string>, tone: Tone, afterHoursGoal: AfterHoursGoal, hours: Hours)

  const IndustryDefaultsTable: map<string, IndustryDefaults> := map[
    "HVAC" := IndustryDefaults(["AC Repair", "Heating Service", "HVAC Maintenance", "Emergency Service", "Installation"],
      Professional, EmergencyTransfer, Hours("8:00 AM - 6:00 PM", "Emergency Only", "America/New_York")),
    "Plumbing" := IndustryDefaults(["Drain Cleaning", "Pipe Repair", "Water Heater", "Emergency Plumbing", "Leak Detection"],
      Friendly, EmergencyTransfer, Hours("8:00 AM - 5:00 PM", "Emergency Only", "America/New_York")),
    "Electrical" := IndustryDefaults(["Electrical Repair", "Panel Upgrades", "Outlet Installation", "Lighting", "Emergency Service"],
      Professional, EmergencyTransfer, Hours("8:00 AM - 5:00 PM", "Emergency Only", "America/New_York")),
    "Roofing" := IndustryDefaults(["Roof Repair", "Roof Replacement", "Inspections", "Gutter Service", "Storm Damage"],
      Professional, LeadCapture, Hours("7:00 AM - 5:00 PM", "Closed", "America/New_York")),
    "Landscaping" := IndustryDefaults(["Lawn Care", "Tree Service", "Landscape Design", "Irrigation", "Seasonal Cleanup"],
      Friendly, LeadCapture, Hours("7:00 AM - 6:00 PM", "8:00 AM - 2:00 PM", "America/New_York")),
    "Cleaning Services" := IndustryDefaults(["House Cleaning", "Deep Cleaning", "Move-In/Out", "Office Cleaning", "Recurring Service"],
      Friendly, LeadCapture, Hours("8:00 AM - 6:00 PM", "9:00 AM - 3:00 PM", "America/New_York")),
    "Auto Repair" := IndustryDefaults(["Oil Change", "Brake Service", "Engine Repair", "Diagnostics", "Tire Service"],
      Friendly, Voicemail, Hours("8:00 AM - 6:00 PM", "9:00 AM - 3:00 PM", "America/New_York")),
    "Medical/Dental" := IndustryDefaults(["Appointments", "Check-ups", "Emergency Care", "Consultations", "Follow-ups"],
      Professional, EmergencyTransfer, Hours("8:00 AM - 5:00 PM", "Closed", "America/New_York")),
    "Legal Services" := IndustryDefaults(["Consultations", "Case Review", "Document Preparation", "Court Representation", "Legal Advice"],
      Formal, Voicemail, Hours("9:00 AM - 5:00 PM", "Closed", "America/New_York")),
    "Real Estate" := IndustryDefaults(["Property Listings", "Buyer Consultation", "Seller Consultation", "Market Analysis", "Open Houses"],
      Friendly, LeadCapture, Hours("9:00 AM - 7:00 PM", "10:00 AM - 4:00 PM", "America/New_York")),
    "Restaurant" := IndustryDefaults(["Reservations", "Takeout Orders", "Catering Inquiries", "Event Booking", "Menu Questions"],
      Friendly, Voicemail, Hours("11:00 AM - 10:00 PM", "11:00 AM - 11:00 PM", "America/New_York")),
    "Salon/Spa" := IndustryDefaults(["Haircuts", "Coloring", "Spa Treatments", "Nails", "Appointments"],
      Friendly, LeadCapture, Hours("9:00 AM - 7:00 PM", "9:00 AM - 5:00 PM", "America/New_York")),
    "Fitness" := IndustryDefaults(["Membership Inquiries", "Class Schedules", "Personal Training", "Tours", "Billing Questions"],
      Friendly, LeadCapture, Hours("5:00 AM - 10:00 PM", "7:00 AM - 8:00 PM", "America/New_York")),
    "Pet Services" := IndustryDefaults(["Grooming", "Boarding", "Daycare", "Veterinary Appointments", "Pet Sitting"],
      Friendly, EmergencyTransfer, Hours("7:00 AM - 7:00 PM", "8:00 AM - 5:00 PM", "America/New_York")),
    "Home Services" := IndustryDefaults(["General Repairs", "Handyman Services", "Installations", "Maintenance", "Estimates"],
      Friendly, LeadCapture, Hours("8:00 AM - 6:00 PM", "9:00 AM - 3:00 PM", "America/New_York")),
    "Professional Services" := IndustryDefaults(["Consultations", "Project Inquiries", "Quotes", "Support", "General Questions"],
      Professional, Voicemail, Hours("9:00 AM - 5:00 PM", "Closed", "America/New_York")),
    "Retail" := IndustryDefaults(["Product Inquiries", "Order Status", "Returns", "Store Hours", "Availability"],
      Friendly, Voicemail, Hours("10:00 AM - 8:00 PM", "10:00 AM - 6:00 PM", "America/New_York")),
    "Other" := IndustryDefaults(["General Inquiries", "Appointments", "Information", "Support", "Callback Request"],
      Professional, LeadCapture, Hours("9:00 AM - 5:00 PM", "Closed", "America/New_York"))
  ]

  /** Every industry offered in the form, "Other" included, has a defaults entry. */
  lemma IndustryOptionsHaveDefaults()
    ensures "Other" in IndustryDefaultsTable
    ensures forall k :: 0 <= k < |IndustryOptions| ==> IndustryOptions[k] in IndustryDefaultsTable
  {
  }

  /** Every defaults entry lists five services and uses a timezone the form offers. */
  lemma IndustryDefaultsWellFormed()
    ensures forall key :: key in IndustryDefaultsTable ==>
      |IndustryDefaultsTable[key].services| == 5 &&
      IndustryDefaultsTable[key].hours.timezone in TimezoneOptions
  {
  }
}

# Voice agent demo builder — Dafny model

This project models the core of a small tool that helps an agency build voice-agent demos for
local service businesses. A client record holds the business profile and moves through a
lifecycle: draft, demo ready, approved and production. The tool generates text artifacts from the
record:

- a demo system prompt;
- a production system prompt, which is the demo prompt converted and followed by a deployment addendum;
- client test instructions;
- a structured demo configuration;
- a production install checklist.

The records are kept in a browser store as one list keyed by id.

Modules in the model:

- `Wrappers`: `Option` stands for `undefined`/`null`. `Result` stands for an operation that may throw; `Err` carries the message.
- `Text`: the JavaScript string operations the templates use: `includes`, `replace` with a string pattern (first occurrence only), `join`, `slice`, `map`, `toLowerCase` and number formatting. The predicates `StartsWith`, `EndsWith` and `OccursAt` and the search `IndexOf` are the model's own vocabulary for stating and proving facts about the texts; `replace` and `includes` are defined through the search.
- `Types`: the records of `lib/types.ts`. This covers status labels, the industry and timezone options, and the quick-create industry defaults.
- `Layout`: a template literal seen as a list of sections. Each section is a function of the record and the generation time. `Render` concatenates the sections. The lemmas say which section texts occur in the output, and in what order.
- `Knowledge`: the choice of the industry-knowledge block (`getIndustryKnowledge`).
- `Website`: the website-context block (`buildWebsiteContext`), as a method with the source's pushes, proved against a function.
- `DemoPrompt`, `ProductionPrompt`, `TestInstructions`, `DemoConfiguration`, `Checklist`: the five generators of `lib/templates.ts`.
- `Generators`: the lifecycle operations of `lib/generators.ts`.
- `Storage`: the record store of `lib/storage.ts`. It is a class whose `clients` field is the stored list.

Clocks and id generation are parameters. Every `new Date()` inside one operation becomes the same
`now`, and `uuidv4()` becomes an `id` argument. Generation times are strings the caller supplies.

Templates follow the code where the code and the written design differ:

- A transfer rule's phone clause is shown whenever the rule has a non-empty phone, whatever its action.
- `createQuickClient` falls back to the "Other" defaults for an industry with no entry.
- `generateDemoArtifacts` resets the status to demo-ready from any status, production included.

One place where the model departs from the code:

- `generateProductionSystemPrompt` converts the demo prompt by replacing the first demo marker and the first demo notice wherever they occur. A business name equal to the demo notice makes the second replacement hit the title instead (see Findings). The model writes that conversion as `ProductionSystemPromptAsWritten`. The lifecycle operations of `Generators` store the corrected `ProductionSystemPrompt` instead, which puts the production header and note in place of the demo ones.

## Model

| member | source | states |
|---|---|---|
| Types.StatusLabelsDistinct | lib/types.ts:81-86 | two statuses have the same label exactly when they are the same status |
| Types.IndustryOptionsHaveDefaults | lib/types.ts:95-114 | "Other" and every industry offered in the form have a quick-create defaults entry |
| Types.IndustryDefaultsWellFormed | lib/types.ts:163-272 | every defaults entry lists five services and uses a timezone from the timezone options |
| Knowledge.ResolveKnowledge | lib/templates.ts:384-423 | the resolver equals its reference reading: exact label table, then the first keyword rule matching the lower-cased label, then the general block |
| Knowledge.IndustryKnowledge | lib/templates.ts:384-423 | the knowledge text of a label is the text of the block the reference reading chooses |
| Knowledge.KnowledgeFallback | lib/templates.ts:398-422 | the general block is chosen exactly when no exact label and no keyword rule matches |
| Knowledge.HvacRepairResolvesToHvac | lib/templates.ts:403-407 | a label that is not a key but contains "hvac" once lower-cased ("HVAC Repair") gets the HVAC block |
| Website.BuildWebsiteContext | lib/templates.ts:428-468 | the method that pushes one line per set field returns the website context of the record |
| Website.WebsiteLinesMembers | lib/templates.ts:431-455 | a line is emitted exactly when it is the labelled line of a non-empty field among description, tagline, about-us, phone, email and address |
| Website.WebsiteLinesEmpty | lib/templates.ts:431-457 | no line is emitted exactly when none of the six fields is set |
| Website.WebsiteContext | lib/templates.ts:428-468 | the context is empty exactly when website data is missing or has none of the six fields |
| Website.WebsiteContextShowsLines | lib/templates.ts:459-467 | every emitted line occurs in the context block |
| Website.WebsiteLinesIgnoreRawContent | lib/templates.ts:433-455 | the raw page text and the scraped service list never affect the lines |
| DemoPrompt.DemoSystemPrompt | lib/templates.ts:473-625 | the demo prompt starts with its title line and the client line with the business name |
| DemoPrompt.DemoPromptMarker | lib/templates.ts:522 | the demo prompt carries the demo type marker |
| DemoPrompt.DemoPromptNotice | lib/templates.ts:533 | the demo prompt carries the demo notice forbidding pricing, contracts, scheduling times and bookings |
| DemoPrompt.DemoPromptIdentity | lib/templates.ts:529 | the identity line names the business, the lower-cased industry and the service area |
| DemoPrompt.DemoPromptTone | lib/templates.ts:474-483 | the tone section shows the description of the client's tone |
| DemoPrompt.DemoPromptGoal | lib/templates.ts:485-506 | the after-hours section shows the instructions of the client's goal |
| DemoPrompt.DemoPromptBusinessInformation | lib/templates.ts:550-562 | the business, industry and service area lines and the three hours lines all occur in the prompt |
| DemoPrompt.DemoPromptListsServices | lib/templates.ts:556-557 | every service occurs in the prompt as a bulleted line, and the whole bulleted list joined by line breaks occurs |
| DemoPrompt.TransferRulesListed | lib/templates.ts:508-518 | the transfer section is empty exactly when there are no rules, and it shows every rule's numbered line |
| DemoPrompt.RuleLine | lib/templates.ts:514-515 | a rule line starts with its number and condition; it ends with the action, followed by the transfer clause when the phone is non-empty |
| DemoPrompt.DemoPromptTransferRules | lib/templates.ts:508-518 | every transfer rule's numbered line occurs in the prompt |
| DemoPrompt.DemoPromptNoTransferRules | lib/templates.ts:566-573 | without rules the goal instructions are followed directly by the call-flow section |
| DemoPrompt.DemoPromptGasSmellRule | lib/templates.ts:514-515 | the single rule ("gas smell", "transfer", "555-0101") is shown as `1. IF: gas smell` / `THEN: transfer (Transfer to: 555-0101)` |
| DemoPrompt.DemoPromptContext | lib/templates.ts:616-619 | the prompt contains the website context and the industry knowledge block, and the website context directly followed by the rule line and then the knowledge block |
| DemoPrompt.DemoPromptEnding | lib/templates.ts:619-624 | the prompt ends with the knowledge block followed by the end banner |
| DemoPrompt.DemoPromptDependsOnProfile | lib/templates.ts:473-625 | status, timestamps, artifacts and production details do not affect the demo prompt |
| ProductionPrompt.ConfiguredOr | lib/templates.ts:650-658 | a missing or empty detail shows "[TO BE CONFIGURED]"; a set one shows its value |
| ProductionPrompt.ProductionAddendum | lib/templates.ts:643-709 | the addendum ends with the production end banner |
| ProductionPrompt.ProductionBody | lib/templates.ts:633-640 | when the text has the demo marker and notice, the converted text has the production marker and production note; a text with neither is left unchanged |
| ProductionPrompt.ProductionSystemPromptAsWritten | lib/templates.ts:630-712 | as written: the converted demo prompt followed by the addendum carries the production marker and the production note |
| ProductionPrompt.ProductionSystemPrompt | lib/templates.ts:630-712 | as intended: the prompt starts with the title and the business name, carries the production marker and note, and ends with the production end banner |
| ProductionPrompt.ProductionSwapsSections | lib/templates.ts:630-640 | the production prompt is the demo prompt with exactly its header and notice sections in production form, followed by the addendum |
| ProductionPrompt.AddendumInPrompt | lib/templates.ts:712 | every text of the addendum occurs in the production prompt |
| ProductionPrompt.AsWrittenBodyKeepsNotice | lib/templates.ts:633-640 | for a business name equal to the demo notice, the conversion as written replaces the copy in the title and leaves the demo notice in the text |
| ProductionPrompt.AsWrittenKeepsDemoNotice | lib/templates.ts:630-712 | for that name, the prompt as written titles the production note instead of the name and still contains the demo notice |
| ProductionPrompt.IdentityHoldsNotice | lib/templates.ts:529 | a business name that is the demo notice without its two leading stars holds neither the demo marker nor the notice, yet the identity sentence carries the whole notice right after its opening words |
| ProductionPrompt.ProductionPromptDetails | lib/templates.ts:648-658 | the voice id, number, CRM and calendar lines show the configured value or the placeholder |
| ProductionPrompt.ProductionPromptSms | lib/templates.ts:680 | the follow-up SMS template thanks the caller for calling the business |
| ProductionPrompt.AddendumDeterminesVoice | lib/templates.ts:648-650 | two addenda that are equal show the same voice id, for one-line ids |
| ProductionPrompt.ProductionPromptDependsOn | lib/templates.ts:630-713 | status, timestamps and stored artifacts do not affect the production prompt |
| ProductionPrompt.ProductionPromptShowsVoice | lib/templates.ts:630-650 | two clients with the same profile and the same production prompt show the same voice id |
| TestInstructions.FirstServices | lib/templates.ts:744 | the featured services are the first three services, or all when there are fewer |
| TestInstructions.ClientTestInstructions | lib/templates.ts:718-809 | the instructions start with their title and the client line |
| TestInstructions.TestInstructionsNamesBusiness | lib/templates.ts:727-783 | the overview and the first feedback question name the business |
| TestInstructions.TestInstructionsServices | lib/templates.ts:744 | the first scenario lists the featured services joined by ", " |
| TestInstructions.TestInstructionsArea | lib/templates.ts:748 | the service-area scenario names the service area |
| TestInstructions.TestInstructionsTone | lib/templates.ts:785 | the tone question names the client's tone as written in the record |
| TestInstructions.TestInstructionsTransferOffer | lib/templates.ts:752-757 | the transfer test follows the urgent scenario exactly for the emergency-transfer goal; otherwise scenario 4 follows it directly |
| DemoConfiguration.GenerateDemoConfig | lib/templates.ts:814-856 | schema version "1.0", agent type "demo", the generation time, SMS disabled and the lead-capture field lists |
| DemoConfiguration.DemoConfigRoundTrip | lib/templates.ts:820-837 | the configuration gives back the profile without its website fields |
| DemoConfiguration.DemoConfigDeterminedByProfile | lib/templates.ts:814-856 | two clients get the same configuration at the same time exactly when their profiles agree outside the website fields |
| Checklist.ApprovedLabel | lib/templates.ts:864 | the approval time when it is set and non-empty, "Pending" otherwise |
| Checklist.ChecklistHeaderLines | lib/templates.ts:862-864 | the checklist starts with its title and client line and shows the approval label |
| Checklist.ProductionChecklist | lib/templates.ts:861-963 | the checklist ends with the sign-off date line |
| Checklist.ChecklistDependsOn | lib/templates.ts:861-963 | the checklist depends only on the business name and the approval label |
| Generators.CreateNewClient | lib/generators.ts:10-23 | a draft whose profile is the form data, created and updated now, with no artifacts and no production details |
| Generators.GenerateDemoArtifacts | lib/generators.ts:25-41 | stores the configuration, demo prompt and test instructions of the record itself, keeps a stored production prompt and the profile, and sets demo-ready from any status |
| Generators.GenerateProductionArtifacts | lib/generators.ts:43-58 | refused with its message exactly when the record is neither approved nor in production; otherwise stores the prompt of the record itself and changes nothing else but the update time |
| Generators.ApproveClient | lib/generators.ts:60-70 | from any status: approved, updated now, approval time now, other production details kept |
| Generators.PromoteToProduction | lib/generators.ts:72-84 | refused with its message exactly when the record is not approved; otherwise in production with the production prompt of the record itself |
| Generators.DefaultsFor | lib/generators.ts:89 | the industry's own defaults entry, or the "Other" entry when it has none; five services and an offered timezone |
| Generators.CreateQuickClient | lib/generators.ts:87-109 | the three quick fields, the industry defaults, no rules and no website data, and at once demo-ready with the artifacts of that record |
| Generators.PublishToProduction | lib/generators.ts:112-133 | as written: refused with its message exactly when not approved; otherwise in production with the new voice id and phone number, but with the prompt generated from the record before they were set |
| Generators.PublishToProductionCorrected | lib/generators.ts:112-133 | refused with the same message exactly when not approved; otherwise the stored prompt is the prompt of the published record itself |
| Generators.DemoArtifactsIdempotent | lib/generators.ts:25-41 | generating the demo artifacts twice at the same time is generating them once |
| Generators.StoredDemoArtifacts | lib/generators.ts:26-30 | the stored demo prompt has the title, marker and notice; the instructions have their title; the configuration gives back the profile |
| Generators.ApproveThenPromote | lib/generators.ts:60-84 | approving then promoting always succeeds, keeps the approval time and stores a prompt with the production marker and the voice line |
| Generators.CreationIsStaged | lib/generators.ts:10-109 | both kinds of creation give a record that satisfies the status requirements |
| Generators.LifecycleKeepsStaged | lib/generators.ts:25-133 | every operation keeps the status requirements: approved or promoted records have an approval time, promoted ones a production prompt |
| Generators.ProductionNeedsApproval | lib/generators.ts:43-133 | promotion and publication need an approved record; production artifacts keep the status; demo generation and approval never yield production |
| Generators.QuickClientFallsBackToOther | lib/generators.ts:89 | an industry without an entry gets the "Other" services, the professional tone and the lead-capture goal |
| Generators.PlaceholderIsOneLine | lib/templates.ts:650 | the placeholder for a missing detail has no line break |
| Generators.PublishedPromptShowsOldVoice | lib/generators.ts:120-131 | the stored prompt of a published record shows the voice id the record had before publication |
| Generators.PublishedPromptStale | lib/generators.ts:120-131 | for a new one-line voice id that differs from the old shown one, the stored prompt is not the prompt of the published record |
| Generators.PublishedPromptStaleWithoutVoice | lib/generators.ts:120-131 | a record without a voice id, published with one, keeps "[TO BE CONFIGURED]" in its stored prompt |
| Generators.PublishedPromptCurrent | lib/generators.ts:112-133 | with the correction, the stored prompt shows the published voice id and phone number |
| Storage.FindIndex | lib/storage.ts:23 | the first position whose record has the id, or -1 exactly when no record has it |
| Storage.Upsert | lib/storage.ts:21-35 | an existing id: same length, that entry replaced by the record re-stamped, every other entry unchanged; a new id: the record appended |
| Storage.Lookup | lib/storage.ts:16-19 | a found record is stored and has the id; none exactly when no stored record has the id |
| Storage.Without | lib/storage.ts:37-40 | no kept record has the id; every kept record was stored; every stored record of another id is kept |
| Storage.WithStatus | lib/storage.ts:49-57 | the new status and update time; approval also stamps the approval time and keeps the other details |
| Storage.ClientStore.constructor | lib/storage.ts:5-14 | the store holds the list read from storage |
| Storage.ClientStore.IndexOf | lib/storage.ts:23 | the scan returns the first position with the id |
| Storage.ClientStore.GetClient | lib/storage.ts:16-19 | the first record with the id, or none exactly when no record has it |
| Storage.ClientStore.SaveClient | lib/storage.ts:21-35 | the stored list becomes the upsert of the record |
| Storage.ClientStore.DeleteClient | lib/storage.ts:37-40 | the stored list becomes the list without the id |
| Storage.ClientStore.UpdateClientStatus | lib/storage.ts:42-61 | an unknown id: none and no change; a known one: the updated record is returned and replaces the stored one in place |
| Storage.SaveThenLookup | lib/storage.ts:16-35 | a lookup after a save returns the saved record, re-stamped when it replaced one |
| Storage.SaveKeepsOthers | lib/storage.ts:25-32 | a save leaves the records of other ids where they were |
| Storage.SaveKeepsIdsUnique | lib/storage.ts:21-35 | a save keeps ids unique |
| Storage.DeleteThenLookup | lib/storage.ts:37-40 | after a deletion no record of the id is found |
| Storage.DeleteKeepsOtherLookup | lib/storage.ts:16-40 | a deletion does not change the lookup of another id |
| Storage.DeleteChangesIffPresent | lib/storage.ts:37-40 | a deletion changes the list exactly when a record of the id is stored |
| Storage.DeleteIdempotent | lib/storage.ts:37-40 | deleting twice is deleting once |
| Storage.WithoutAppend | lib/storage.ts:38 | deletion distributes over concatenation, so the kept records keep their order |
| Storage.StatusApprovalIsApproval | lib/storage.ts:49-57 | a status update to approved stamps the record as approving it does |
| Storage.StatusUpdateSkipsStaging | lib/storage.ts:49-57 | a status update to production generates no prompt, so a record without one is left in production without one |

## Left out

- The browser store's I/O is not modelled: `localStorage`, `JSON.parse`/`JSON.stringify`, the server-side guard in `getClients` and its error fallback. Export and import to JSON are left out for the same reason. The store is the in-memory list.
- The demo configuration is modelled as a structured value. Its text, the output of `JSON.stringify` with indentation, is not produced.
- The industry-knowledge blocks keep only their heading line. The expertise prose after the heading is static text and is not reproduced.
- `toLowerCase` is modelled on ASCII letters only.
- Clocks and ids are parameters. Several `new Date()` calls inside one operation are taken to return the same time. So SaveClient re-stamps a replaced record with the same time a status update used, where the source may differ by milliseconds.
- The production addendum is rendered with the generation time, although it never shows it.
- JavaScript object-key lookups reach inherited properties. For example, the industry "constructor" finds an object in the defaults table; that is not modelled. The table is a map of its own keys.
- Status colours are left out. They are styling.
- Demo links, the demo page, the website scraper and the UI components are outside the modelled core. Creating and storing demo links is not part of this model, because their bodies are not among the modelled files.
- DemoPrompt.DemoPromptTone and DemoPrompt.DemoPromptGoal: do not prove that the four tone descriptions, or the three goal texts, are pairwise distinct.
- DemoPrompt.DemoPromptBusinessInformation, DemoPrompt.DemoPromptListsServices and the other prompt lemmas state which texts occur, not in what order. DemoPrompt.DemoPromptContext states one order: the knowledge block follows the website context after a rule line. The lemmas reproduce the whole literal only where a lemma names it.
- ProductionPrompt.ProductionSystemPrompt: does not state that the demo notice is absent from the prompt, because a profile field or the generation time may contain the notice text, or complete it together with the surrounding `**` markup. It states instead that the demo header and notice sections are the ones swapped (ProductionSwapsSections).
- Generators.GenerateProductionArtifacts, Generators.PromoteToProduction and Generators.PublishToProduction: store the corrected `ProductionSystemPrompt`, not the replace-based prompt the code stores. The two differ at least for a business name equal to the demo notice, where the code's prompt keeps the demo notice and loses the name from its title (ProductionPrompt.AsWrittenKeepsDemoNotice). The lemmas about these operations are therefore about the corrected prompt.
- ProductionPrompt.ProductionSystemPromptAsWritten: is not proved equal to the corrected prompt on any input. Holding neither the demo marker nor the demo notice is not enough for a field: the business name that is the notice without its two leading stars is completed by the bold markup of the identity sentence (ProductionPrompt.IdentityHoldsNotice). The model states no condition under which the two prompts agree.

## Findings

| source | as written | input that shows it | evidently intended | confidence | as-written member | corrected member |
|---|---|---|---|---|---|---|
| lib/generators.ts:120-131 | `publishToProduction` generates the production prompt from the record before it writes the new voice id and phone number into the production details | an approved record without a voice id, published with voice id "voice-1" (the publish dialog's call at app/page.tsx:86): the record stores "voice-1", but its stored prompt still says "- Voice ID: [TO BE CONFIGURED]" | the stored production prompt shows the voice id and number the record is published with | not executed | Generators.PublishToProduction (Generators.PublishedPromptStale, Generators.PublishedPromptStaleWithoutVoice) | Generators.PublishToProductionCorrected (Generators.PublishedPromptCurrent) |
| lib/templates.ts:633-640 | the production prompt is made by replacing the first occurrence of the demo marker and then the first occurrence of the demo notice anywhere in the demo prompt (`String.prototype.replace` with a string pattern) | a client whose business name is the demo notice text: the title line holds the first copy of the notice, so the title becomes the production note and the real demo notice, with its ban on quoting prices and booking appointments, stays in the production prompt. A second input is the notice without its two leading stars: the `**` around the name in the identity sentence completes it, so the first copy lies in that sentence (ProductionPrompt.IdentityHoldsNotice) | the header and the notice section of the demo prompt are the ones turned into their production form, and the business name is kept | not executed | ProductionPrompt.ProductionSystemPromptAsWritten (ProductionPrompt.AsWrittenKeepsDemoNotice, ProductionPrompt.AsWrittenBodyKeepsNotice) | ProductionPrompt.ProductionSystemPrompt (ProductionPrompt.ProductionSwapsSections) |

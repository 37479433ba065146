# Lead lifecycle of the real-estate lead-generation front end

This project models, in Dafny, the view-state logic of the two AI lead panels
of the front end: the **lead capture view** (`src/pages/LeadCapture.tsx`) and
the **lead generator view** (`src/pages/LeadGenerator.tsx`). Both views hand
their real work to a hosted client: an authentication session, a record store
(`capturedLeads` and `leadCaptureForms` collections) and a generative provider
that returns structured objects. In the model every such call is replaced by
its outcome, passed in as a parameter: `Ok(value)` for the value the call
resolved with, `Failed` for a rejection, or a `bool` for a write that either
resolved or rejected. Clock readings (`Date.now()`), the random id suffix
(`Math.random().toString(36).substr(2, 9)`) and the update timestamp
(`new Date().toISOString()`) are parameters too.

Files:

- `outcomes.dfy` (`Outcomes`): `Result` for call outcomes and `Option` for record fields that may be absent.
- `decimal.dfy` (`Decimal`): decimal rendering of the numbers that end up in ids, with its inverse.
- `lead_generator.dfy` (`LeadGenerator`): generated leads, their ids, score bands, the criteria form and the view class `LeadGeneratorView`.
- `lead_capture.dfy` (`LeadCapture`): captured leads and the load transform, qualification, generated capture forms, the demo lead, status colours, the high-quality count and the view class `LeadCaptureView`.

Each asynchronous handler that sets a busy flag is split at its call into the
provider: a `Start…` method (the flag goes up, the button is disabled) and a
`Finish…` method (the outcome is applied and the flag comes down on every
path). Handlers without a busy flag are one method.

The model follows the code in four points that are easy to miss when reading
the code:

- A rejected create in the form-persistence loop (`LeadCapture.tsx:125-141`) ends the loop, and the exception also skips `setGeneratedForms` (line 144). So the displayed forms keep their old value, and later forms are not written.
- The load (`LeadCapture.tsx:45-61`) also defaults `source` to `'Direct'`. JavaScript's `||` treats an empty string as missing, so an empty `source` or `status` is replaced too.
- Lead ids are `lead_<Date.now()>_<index>` (`LeadGenerator.tsx:104`). `Date.now()` is read once per element, so the clock is a function `now: nat -> nat` from index to reading. The ids of a batch are still pairwise distinct, because the index can be decoded from the id.
- Qualification also fails when the provider's object has no `opportunities`: `.join` on an absent list throws (line 202). Generation of leads also fails when the object has no `leads`: `.map` throws (line 102).

The capture view's object invariant (`LeadCaptureView.Valid`) is that every
lead it holds names a non-empty source and status. This holds because of the
load defaults and is kept by every handler. It is not a runtime check in the
code; the model states it as a documented invariant that every method of
the class requires and ensures.

## Model

| member | source | states |
|---|---|---|
| `LeadCapture.ToCapturedLead` | src/pages/LeadCapture.tsx:45-61 | id, name and email are passed through and `capturedAt` is `createdAt`. phone, propertyType, timeline, budget, location, motivation, aiInsights and nextAction keep a present non-empty value and otherwise become `''`. source becomes `'Direct'` and status `'new'` under the same rule. An absent score becomes 0. The result always has a non-empty source and status |
| `LeadCapture.LoadTransform` | src/pages/LeadCapture.tsx:45-61 | one lead per stored record, same count, same order; every lead is well formed |
| `LeadCapture.LoadTransformAppend` | src/pages/LeadCapture.tsx:45-61 | the load maps a concatenation of listings to the concatenation of their loads |
| `LeadCapture.LeadCaptureView.LoadCapturedLeads` | src/pages/LeadCapture.tsx:37-67 | a store answer replaces the whole list by its transform; a rejected query leaves the list and all other state unchanged |
| `LeadCapture.LeadCaptureView.OnAuthStateChanged` | src/pages/LeadCapture.tsx:70-79 | records the user and the loading flag; the leads are loaded only when a user is present |
| `LeadCapture.LeadCaptureView.constructor` | src/pages/LeadCapture.tsx:33-91 | initial state: no user, loading, no leads, empty campaign form, no forms, not generating |
| `LeadCapture.HighQuality` | src/pages/LeadCapture.tsx:269 | the filtered list holds exactly the leads scoring 80 or more, each as many times as in the list, and no others; it is no longer than the list |
| `LeadCapture.HighQualityCountBounds` | src/pages/LeadCapture.tsx:269 | the high-quality count never exceeds the total, equals it exactly when every lead scores at least 80, and is 0 exactly when none does |
| `LeadCapture.HighQualityAppend` | src/pages/LeadCapture.tsx:269 | filtering a concatenation is concatenating the filtered parts |
| `LeadCapture.StatusColor` | src/pages/LeadCapture.tsx:245-253 | a status gets a colour other than gray exactly when it is one of new, contacted, qualified, converted |
| `LeadCapture.StatusColorDistinct` | src/pages/LeadCapture.tsx:245-253 | the four known statuses get four different colours |
| `LeadCapture.QualificationBadge` | src/pages/LeadCapture.tsx:522 | the inline score badge of the qualification tab is the same three-band badge as the generator's `getScoreBadge` |
| `LeadCapture.Find` | src/pages/LeadCapture.tsx:183 | finds nothing exactly when no lead has the id; a found lead is in the list and has the id |
| `LeadCapture.JoinLength` | src/pages/LeadCapture.tsx:202 | the length of a join is the parts' total length plus one separator per gap between neighbours |
| `LeadCapture.JoinAppend` | src/pages/LeadCapture.tsx:202 | joining two non-empty lists is joining each and putting one separator between them, so the parts appear in order |
| `LeadCapture.QualifiedInsights` | src/pages/LeadCapture.tsx:202 | the insights text is `Buyer Readiness: `, then the readiness, then `. `, then the opportunities joined by single spaces |
| `LeadCapture.ApplyQualification` | src/pages/LeadCapture.tsx:214-224 | length and order are kept; every lead without the id is unchanged; every lead with the id takes the new score, insights and next action, becomes `'qualified'`, and keeps all its other fields; well-formedness is kept |
| `LeadCapture.QualifyUnknownIdIsNoop` | src/pages/LeadCapture.tsx:183-184 | patching an id no lead has leaves the list unchanged |
| `LeadCapture.RequalifyOverwrites` | src/pages/LeadCapture.tsx:205-224 | qualifying the same id twice gives the result of the second qualification alone: nothing in the write path refuses it |
| `LeadCapture.QualifiedLeadsGated` | src/pages/LeadCapture.tsx:528-531 | a lead just qualified has its qualify button disabled |
| `LeadCapture.LeadCaptureView.HandleQualifyLead` | src/pages/LeadCapture.tsx:182-228 | an update is written exactly when a lead with the id exists, there is a user, and the provider answered with opportunities. The update carries the score, the composed insights, the next steps, `'qualified'` and the timestamp. The list becomes the patch only when that write resolves; otherwise it and all other state are unchanged |
| `LeadCapture.WithCaptureField` | src/pages/LeadCapture.tsx:304-363 | a campaign input sets its own field and leaves every other field as it was |
| `LeadCapture.LeadCaptureView.SetFormField` | src/pages/LeadCapture.tsx:304-363 | the campaign form takes the new field value; nothing else changes |
| `LeadCapture.FormsEnabled` | src/pages/LeadCapture.tsx:379 | the generate-forms button is enabled exactly when not generating and both target audience and location are non-empty |
| `LeadCapture.LeadCaptureView.StartGenerateForms` | src/pages/LeadCapture.tsx:93-94 | the busy flag is set and the button is disabled; nothing else changes. The user and campaign form of that moment are returned as the request the handler's closure keeps |
| `LeadCapture.ToFormRecord` | src/pages/LeadCapture.tsx:126-140 | a stored form holds the generated form's name, headline, description, lead magnet and audience, the campaign's property type, location and price range, the user id, and `''` or `[]` for a missing embed code, landing page or tip list |
| `LeadCapture.FormRecords` | src/pages/LeadCapture.tsx:125-141 | one record per form, in order, the i-th with the i-th drawn id |
| `LeadCapture.CreateCalls` | src/pages/LeadCapture.tsx:125-141 | the loop issues every create when none rejects, and stops right after the first rejected one |
| `LeadCapture.LeadCaptureView.FinishGenerateForms` | src/pages/LeadCapture.tsx:95-150 | on a provider rejection nothing is written and the forms are kept. Without a user nothing is written and the forms are replaced. The user and campaign form are the ones captured at the start, not the view's current ones. With that user the creates issued are the records of the forms up to the first rejected create; the forms are replaced only if every create resolved. The busy flag is false afterwards on every path |
| `LeadCapture.DemoLead` | src/pages/LeadCapture.tsx:156-172 | the demo record is Sarah Johnson, score 92, status `'new'`, owned by the user, with id `lead_<clock>_<suffix>` |
| `LeadCapture.DemoLeadReloaded` | src/pages/LeadCapture.tsx:153-180 | when the reload lists the stored demo record first, ahead of the previous listing, the view gains exactly one lead. That lead is Sarah Johnson, score 92, status `'new'`, source `Landing Page Form`, captured at the store's timestamp. The other leads follow unchanged, and the high-quality count grows by one |
| `LeadCapture.LeadCaptureView.AddDemoLead` | src/pages/LeadCapture.tsx:153-180 | without a user nothing is written and nothing changes. Otherwise the demo record is written, and the list is reloaded only when the create resolved and the listing succeeded |
| `LeadGenerator.Tag` | src/pages/LeadGenerator.tsx:102-105 | a tagged lead carries the given id and exactly the provider's fields |
| `LeadGenerator.TagFields` | src/pages/LeadGenerator.tsx:102-105 | a generated lead is its own fields tagged with its own id |
| `LeadGenerator.TagLeads` | src/pages/LeadGenerator.tsx:102-105 | same count and order as the provider's leads; each keeps all its fields and gets `lead_<clock>_<index>` |
| `LeadGenerator.LeadIndexOfLeadId` | src/pages/LeadGenerator.tsx:104 | the index can be read back from an id, whatever the clock read |
| `LeadGenerator.LeadIdsDiffer` | src/pages/LeadGenerator.tsx:104 | ids built for different indices differ, whatever the clock read for each |
| `LeadGenerator.TaggedIdsDistinct` | src/pages/LeadGenerator.tsx:102-105 | each id of a batch encodes its lead's position, so the ids of one batch are pairwise distinct |
| `Decimal.NatToString` | src/pages/LeadGenerator.tsx:104 | a number renders as a non-empty string of decimal digits with no leading zero |
| `Decimal.ParseNatToString` | src/pages/LeadGenerator.tsx:104 | reading a rendered number back gives the number |
| `Decimal.NatToStringInjective` | src/pages/LeadGenerator.tsx:104 | different numbers render differently |
| `LeadGenerator.AfterLastUnderscore` | src/pages/LeadGenerator.tsx:104 | the last `_`-separated segment contains no `_` |
| `LeadGenerator.AfterLastUnderscoreOf` | src/pages/LeadGenerator.tsx:104 | the last segment of `p + "_" + d` is `d` when `d` has no `_` |
| `LeadGenerator.WithField` | src/pages/LeadGenerator.tsx:43-45 | the field takes the value; every other key keeps its value; no key is lost |
| `LeadGenerator.LeadGeneratorView.HandleInputChange` | src/pages/LeadGenerator.tsx:43-45 | the form becomes the single-field update; leads and busy flag are unchanged |
| `LeadGenerator.LeadGeneratorView.constructor` | src/pages/LeadGenerator.tsx:33-41 | not generating, no leads, the five criteria empty |
| `LeadGenerator.LeadGeneratorView.StartGenerateLeads` | src/pages/LeadGenerator.tsx:47-48 | the busy flag is set, so the button is disabled and the empty state hidden; leads and form unchanged |
| `LeadGenerator.LeadGeneratorView.FinishGenerateLeads` | src/pages/LeadGenerator.tsx:102-112 | a provider answer with leads replaces the list by the tagged batch. A rejection, or an answer without leads, keeps the list. The busy flag is false on both paths |
| `LeadGenerator.BandOf` | src/pages/LeadGenerator.tsx:115-125 | the three bands partition all scores: high from 80, medium from 60 below 80, low below 60 |
| `LeadGenerator.BandMonotone` | src/pages/LeadGenerator.tsx:115-125 | a higher score is never in a lower band |
| `LeadGenerator.ScoreColor` | src/pages/LeadGenerator.tsx:115-119 | the text colour is green, yellow or red according to the score's band |
| `LeadGenerator.ScoreBadge` | src/pages/LeadGenerator.tsx:121-125 | the badge is green, yellow or red according to the score's band |
| `LeadGenerator.ColorAndBadgeAgree` | src/pages/LeadGenerator.tsx:115-125 | two scores get the same colour exactly when they get the same badge, exactly when they share a band |
| `LeadGenerator.GenerateEnabled` | src/pages/LeadGenerator.tsx:225 | the generate button is enabled exactly when not generating and both location and lead type are non-empty |
| `LeadGenerator.PanelsExclusive` | src/pages/LeadGenerator.tsx:348 | the empty-state card (no leads, not generating) and the results list (line 244, some leads) are never both shown. When idle exactly one is shown; while a first batch is generating, neither |
| `LeadGenerator.SingleLeadBatch` | src/pages/LeadGenerator.tsx:102-125 | a batch of one lead scored 75 gives one card with the middle-band badge and the id `lead_<clock>_0` |

## Left out

- The hosted client calls (session subscription, store `list`/`create`/`update`, `generateObject`): only their outcomes are modelled, as parameters. So are the clock, the random suffix and the update timestamp.
- The store's filtering by user id and its newest-first ordering: the model takes the listing as the store returns it.
- Prompt texts and result schemas sent to the provider (`LeadCapture.tsx:97`, `LeadCapture.tsx:188`, `LeadGenerator.tsx:52-99`): free-form text with no stated contract. The lead found by `Find` only feeds the prompt, so its content is not used further.
- `JSON.stringify` of the conversion tips (`LeadCapture.tsx:139`): the record keeps the list itself.
- The average score (`LeadCapture.tsx:581`): floating-point division and rounding, and NaN on an empty list.
- Scores are integers in the model. Fractional and NaN scores are not modelled; `lead.score || 0` would also turn NaN into 0.
- Only the absence of `opportunities` (qualification) and of `leads` (generation) is modelled in provider answers, because only those change control flow. Other absent fields would render as `undefined` text. `forms` is declared required in the schema and is taken as present.
- The stored lead's `id`, `name`, `email` and `createdAt` are passed through unchanged and modelled as present strings.
- Fields the provider adds beyond the requested shape, which `...lead` would also copy.
- Interleaving of an in-flight qualification or reload with other handlers: these handlers are one step each and apply their outcome atomically. The split handlers are modelled with what their closures keep: form generation's finish uses the user and campaign form captured at its start, and lead generation's finish reads no state captured at its start except the prompt, which is left out.
- The loading spinner (`LeadCapture.tsx:234-243`), tabs, clipboard copying, styling and all other rendering. `src/pages/Dashboard.tsx`, `src/pages/LandingPage.tsx` and `src/App.tsx` are static markup and session wrappers with no logic of their own.
- Find: the contract does not say that the match is the first one. Only the presence of a match is used by the view.

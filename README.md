# Prior authorization request engine — Dafny model

This project models the rule-based engine that fills behavioural-health prior
authorization (PA) requests: given a patient's chart (clinical notes,
diagnoses, medications, laboratory results) and a requested level of care
("PHP" for partial hospitalization, anything else treated as IOP, intensive
outpatient), it

- extracts a clinical summary from the notes in stored order: the latest
  note, the first diagnosis, the last CIWA-Ar and COWS scores reported, and
  seizure and delirium-tremens flags (`extractClinicalInfo`);
- scans the space-joined, lowercased text of all notes for the last-use
  date, frequency, amount and route of substance use, the current symptoms,
  the previous treatment and the relapse history;
- writes the medical-necessity justification, the treatment goals and the
  discharge plan from ordered rule tables;
- assembles the seven-section PA form, with a 14-day (PHP) or 30-day
  authorization window;
- looks a patient up by identifier (`getPatientById`).

Modules, one per part of the engine:

| file | module | what it holds |
|---|---|---|
| wrappers.dfy | Wrappers | `Option`, standing for JavaScript's `undefined` |
| text.dfy | Text | ASCII lowercasing, substring presence, `join`, decimal digits |
| patterns.dfy | Patterns | the four fixed regular expressions as hand-written scanners, each with a declarative reading and soundness/completeness lemmas |
| records.dfy | Records | the patient record and the PA form |
| rules.dfy | Rules | ordered rule tables: collect-all (`Applicable`), first-wins (`FirstApplicable`), push-by-push builder (`PushIf`) |
| clinical_extraction.dfy | ClinicalExtraction | the per-note loop and its specification |
| scanners.dfy | Scanners | the whole-chart scanners |
| justification.dfy | Justification | medical necessity, goals, discharge planning |
| pa_form.dfy | PaForm | the form record |
| patient_data.dfy | PatientData | the lookup |

Dates are integer day numbers and "today" is a parameter. The loop of
`extractClinicalInfo` and the array-pushing builders are methods proved equal
to declarative specification functions; the early-return cascades and the
form record are functions. The body of `src/lib/patientData.ts:23-70` is a line-for-line
copy of `src/app/api/generate-pa/route.ts:256-303`, so one model,
`ClinicalExtraction.ExtractClinicalInfo`, stands for both. The two copies
therefore agree on every patient by construction.

## Model

| member | source | states |
|---|---|---|
| ClinicalExtraction.ExtractClinicalInfo | src/app/api/generate-pa/route.ts:256-303 | the loop over the notes yields exactly the declarative summary `ClinicalInfoOf`: last note, first diagnosis, last-reported scores, keyword flags, pass-through lists; the same holds for the identical copy at src/lib/patientData.ts:23-70 |
| ClinicalExtraction.ClinicalInfoOf | src/app/api/generate-pa/route.ts:256-303 | no latest note iff there are no notes, no primary diagnosis iff there are no diagnoses, and each score is 0 or the score some note reports |
| ClinicalExtraction.VisitRecord | src/app/api/generate-pa/route.ts:267-289 | one note overwrites a score only when its pattern matches and raises a flag only, never lowers it |
| ClinicalExtraction.StepScore | src/app/api/generate-pa/route.ts:270-279 | the running score after one more note is that note's score when it reports one, else the previous running value |
| ClinicalExtraction.StepMentions | src/app/api/generate-pa/route.ts:282-289 | a flag after one more note is raised iff it was raised before or that note mentions a term |
| ClinicalExtraction.LastReportWins | src/app/api/generate-pa/route.ts:261-279 | a report followed only by empty reports is the final value |
| ClinicalExtraction.NoReportKeepsZero | src/app/api/generate-pa/route.ts:261-262 | with no report the score keeps its initial 0 |
| ClinicalExtraction.ReportedValue | src/app/api/generate-pa/route.ts:261-279 | a nonzero score is one that some note reported |
| ClinicalExtraction.EmptyReportIgnored | src/app/api/generate-pa/route.ts:271-273 | an empty report anywhere changes nothing |
| ClinicalExtraction.LastMatchWins | src/lib/patientData.ts:33-46 | the score of a scale is the number from the last note that matches that scale's pattern |
| ClinicalExtraction.NoMatchKeepsZero | src/lib/patientData.ts:28-29 | a scale no note matches stays 0 |
| ClinicalExtraction.UnscoredNoteIgnored | src/app/api/generate-pa/route.ts:276-279 | inserting a note without a match anywhere leaves the score unchanged |
| ClinicalExtraction.SwapChangesWinner | src/app/api/generate-pa/route.ts:266-279 | when two scoring notes are followed only by unscored ones, the later one wins, so swapping them swaps the result |
| ClinicalExtraction.LastScoredNoteWins | src/app/api/generate-pa/route.ts:266-279 | a scoring note followed only by unscored notes decides the score |
| ClinicalExtraction.FlagsMonotone | src/lib/patientData.ts:48-56 | a flag raised by earlier notes stays raised whatever notes follow |
| ClinicalExtraction.SeizureFlagIff | src/app/api/generate-pa/route.ts:282-284 | the seizure flag is true iff some lowercased note contains "seizure" or "grand mal" |
| ClinicalExtraction.DtFlagIff | src/app/api/generate-pa/route.ts:287-289 | the DT flag is true iff some lowercased note contains "dt" or "delirium tremens" |
| ClinicalExtraction.NoNotesDefaults | src/lib/patientData.ts:28-33 | without notes: no latest note, both scores 0, both flags false |
| ClinicalExtraction.SummaryFields | src/lib/patientData.ts:24-25 | latest note is the last element (undefined iff none), primary diagnosis the first (undefined iff none), diagnoses, medications and lab results unchanged |
| Patterns.FirstMatch | src/app/api/generate-pa/route.ts:270 | `match` without the g flag: the match starting leftmost, no match starting earlier, none at all only when no position matches |
| Patterns.LeftmostIsFirstMatch | src/app/api/generate-pa/route.ts:276 | a match with none to its left is the one reported |
| Patterns.CiwaArAtSound | src/app/api/generate-pa/route.ts:270 | a CIWA-Ar hit is "ciwa-ar score", a run of colons/whitespace and a maximal digit run, whose value it carries |
| Patterns.CiwaArAtComplete | src/app/api/generate-pa/route.ts:270 | every such decomposition is found, with that value |
| Patterns.CiwaArAt | src/app/api/generate-pa/route.ts:270 | a hit starts at the literal "ciwa-ar score" and ends on a digit that no digit follows |
| Patterns.CiwaArNeedsColonOrSpace | src/app/api/generate-pa/route.ts:270 | a character other than colon, whitespace or digit after "ciwa-ar score" (as in "ciwa-ar score of 15") means no match |
| Patterns.CowsAtSound | src/app/api/generate-pa/route.ts:276 | a COWS hit is "cows", colons/whitespace, "score", colons/whitespace and a maximal digit run, so "cows: score 14" and "cows score: 3" both qualify |
| Patterns.CowsAtComplete | src/app/api/generate-pa/route.ts:276 | every such decomposition is found, with that value |
| Patterns.CowsAt | src/app/api/generate-pa/route.ts:276 | a hit starts at the literal "cows" and ends on a digit that no digit follows |
| Patterns.AmountAtSound | src/app/api/generate-pa/route.ts:486 | an amount is a maximal digit run, whitespace, and one of ml, mg, g, oz |
| Patterns.AmountAtComplete | src/app/api/generate-pa/route.ts:486 | every such decomposition is found |
| Patterns.AmountAt | src/app/api/generate-pa/route.ts:486 | a hit starts on a digit and ends on the last letter of a unit (l, g or z) |
| Patterns.LastUseAtSound | src/app/api/generate-pa/route.ts:466 | a last-use hit is "last use", colons/whitespace, digits, whitespace, "day" or "days", whitespace, "ago" |
| Patterns.LastUseAtComplete | src/app/api/generate-pa/route.ts:466 | every such decomposition is found, with its day count |
| Patterns.LastUseAt | src/app/api/generate-pa/route.ts:466 | a hit starts at the literal "last use" and ends with "ago" |
| Patterns.AgoTailSound | src/app/api/generate-pa/route.ts:466 | the tail after the digits is whitespace, "day", an optional "s", whitespace, "ago" |
| Patterns.AgoTailComplete | src/app/api/generate-pa/route.ts:466 | every such tail is recognised |
| Patterns.SkipIsMaximalRun | src/app/api/generate-pa/route.ts:270 | a greedy `[:\s]*` or `\d+` run ends at the first character outside its class |
| Text.DecimalRoundTrip | src/app/api/generate-pa/route.ts:272 | reading back a printed score gives the score |
| Text.DecimalString | src/app/api/generate-pa/route.ts:378 | a printed score is a non-empty run of digits with no leading zero (it starts with "0" only for 0) |
| Text.LowerAppend | src/app/api/generate-pa/route.ts:465 | lowercasing a concatenation lowercases each part |
| Text.ContainsInJoin | src/app/api/generate-pa/route.ts:465 | a term inside one joined part is inside the joined text |
| Text.JoinAppend | src/app/api/generate-pa/route.ts:444 | joining two non-empty lists puts exactly one separator between them |
| Rules.ApplicableMembers | src/app/api/generate-pa/route.ts:503-511 | a clause is collected iff a rule carrying it applies; nothing is collected iff no rule applies |
| Rules.ApplicableKeepsOrder | src/app/api/generate-pa/route.ts:506-511 | two applicable rules keep their table order among the collected clauses |
| Rules.ApplicableAppend | src/app/api/generate-pa/route.ts:518-523 | collecting a table in two parts concatenates the parts' results |
| Rules.PushIf | src/app/api/generate-pa/route.ts:506 | a conditional push extends the collected clauses by one rule's contribution |
| Rules.FirstApplicableAt | src/app/api/generate-pa/route.ts:478-481 | a cascade returns the first rule that applies, the fallback when none does |
| Rules.JoinOr | src/app/api/generate-pa/route.ts:513 | an empty list yields the fallback; otherwise the text starts with the whole first item |
| Rules.FallbackIffNoneApplies | src/app/api/generate-pa/route.ts:513 | when no clause can be mistaken for the fallback, the fallback appears iff no rule applies |
| Rules.ListedIffApplies | src/app/api/generate-pa/route.ts:520-523 | with distinct clauses, a clause is listed iff its own rule applies |
| Scanners.NoteMentionReachesText | src/app/api/generate-pa/route.ts:465 | a term one note contains is found in the space-joined lowercased text of all notes |
| Scanners.NoNotesNoMention | src/app/api/generate-pa/route.ts:477 | without notes no term is found |
| Scanners.NoNotesNoMatch | src/app/api/generate-pa/route.ts:486 | without notes no pattern matches |
| Scanners.NotesText | src/app/api/generate-pa/route.ts:465 | the joined text of no notes is empty, and the joined text contains no upper-case letter |
| Scanners.SubstanceFrequency | src/app/api/generate-pa/route.ts:476-482 | the frequency is one of Daily, Weekly, Monthly, Unknown, and is Daily iff the text says "daily" |
| Scanners.SubstanceRoute | src/app/api/generate-pa/route.ts:493-500 | the route is one of IV, Oral, Insufflation, Inhalation, Unknown, and is IV iff the text says "iv" or "intravenous" |
| Scanners.LastUseDate | src/app/api/generate-pa/route.ts:464-474 | the last use date is never after today, and is today when no phrase matches |
| Scanners.LastUseDateFromPhrase | src/app/api/generate-pa/route.ts:466-471 | a date before today comes from the leftmost "last use N days ago" phrase: today minus N |
| Scanners.LastUsePhraseDecides | src/app/api/generate-pa/route.ts:466-471 | the leftmost phrase decides the date |
| Scanners.FrequencyFollowsPriority | src/app/api/generate-pa/route.ts:476-482 | Daily > Weekly > Monthly > "Unknown", by plain substring tests |
| Scanners.DailyWins | src/app/api/generate-pa/route.ts:478 | one note saying "daily" decides the frequency |
| Scanners.NoNotesFrequencyUnknown | src/app/api/generate-pa/route.ts:481 | without notes the frequency is "Unknown" |
| Scanners.RouteFollowsPriority | src/app/api/generate-pa/route.ts:493-500 | IV > Oral > Insufflation > Inhalation > "Unknown", each by a pair of substring tests |
| Scanners.RouteMatchesInsideWords | src/app/api/generate-pa/route.ts:495 | the tests are bare substrings: a note saying "motivated" already selects IV |
| Scanners.NoNotesRouteUnknown | src/app/api/generate-pa/route.ts:499 | without notes the route is "Unknown" |
| Scanners.SubstanceAmount | src/app/api/generate-pa/route.ts:484-491 | "Unknown" iff no amount matches; otherwise the reported text starts with a digit |
| Scanners.AmountIsLeftmostMatch | src/app/api/generate-pa/route.ts:486-488 | a reported amount is the whole text of a match and no match starts earlier |
| Scanners.LeftmostAmountReported | src/app/api/generate-pa/route.ts:486-488 | the leftmost match is the one reported |
| Scanners.SymptomRuleMeaning | src/app/api/generate-pa/route.ts:506-511 | symptom rule s carries label s and applies iff the text contains one of that symptom's terms |
| Scanners.GenerateCurrentSymptoms | src/app/api/generate-pa/route.ts:502-514 | the push-by-push builder returns the declarative symptom text |
| Scanners.CollectSymptoms | src/app/api/generate-pa/route.ts:506-511 | the six pushes collect exactly the applicable labels, in table order |
| Scanners.SymptomTests | src/app/api/generate-pa/route.ts:506-511 | the six tests, as generateCurrentSymptoms writes them, are the conditions of the symptom table |
| Scanners.PushFound | src/app/api/generate-pa/route.ts:503-511 | the six conditional pushes collect exactly the labels whose test holds, in table order |
| Scanners.CurrentSymptoms | src/app/api/generate-pa/route.ts:502-514 | the symptom text is "Various withdrawal and psychiatric symptoms" iff no symptom is found |
| Scanners.SymptomListedIff | src/app/api/generate-pa/route.ts:506-511 | each label is listed iff the text contains one of its terms |
| Scanners.TremorsListedIff | src/app/api/generate-pa/route.ts:509 | Tremors is listed iff the text says "tremor" or "tremulous" |
| Scanners.SymptomFromOneNote | src/app/api/generate-pa/route.ts:504-511 | one note with a symptom term is enough to list that symptom |
| Scanners.NoNotesSymptomFallback | src/app/api/generate-pa/route.ts:513 | without notes the symptom text is the fallback |
| Scanners.GeneratePreviousTreatment | src/app/api/generate-pa/route.ts:516-526 | the push-by-push builder returns the declarative treatment text |
| Scanners.PreviousTreatment | src/app/api/generate-pa/route.ts:516-526 | the treatment text is "No previous treatment documented" iff no level of care is found |
| Scanners.TreatmentListedIff | src/app/api/generate-pa/route.ts:520-523 | each level of care is listed iff the text contains its term |
| Scanners.NoNotesTreatmentFallback | src/app/api/generate-pa/route.ts:525 | without notes no previous treatment is documented |
| Scanners.RelapseHistory | src/app/api/generate-pa/route.ts:528-534 | the result is one of exactly two fixed strings |
| Scanners.RelapseReportedIff | src/app/api/generate-pa/route.ts:530-531 | the relapse string is returned iff the text contains "relapse" |
| Scanners.RelapseFromOneNote | src/app/api/generate-pa/route.ts:530 | one note mentioning a relapse is enough |
| Justification.GenerateMedicalNecessityJustification | src/app/api/generate-pa/route.ts:365-428 | the builder returns the declarative justification: preamble, the tier's applicable clauses joined by ", ", the closing |
| Justification.MedicalNecessity | src/app/api/generate-pa/route.ts:365-428 | the justification starts with the preamble naming the level of care and a space, and ends with the closing sentence of its tier |
| Justification.PhpTests | src/app/api/generate-pa/route.ts:372-393 | the four PHP tests, as written, are the conditions of the PHP table |
| Justification.PhpCriteria | src/app/api/generate-pa/route.ts:369-397 | the four pushes collect exactly the applicable PHP clauses, in order |
| Justification.IopTests | src/app/api/generate-pa/route.ts:405-420 | the three IOP tests, as written, are the conditions of the IOP table |
| Justification.IopCriteria | src/app/api/generate-pa/route.ts:402-424 | the three pushes collect exactly the applicable IOP clauses, in order |
| Justification.JustificationStartsWithPreamble | src/app/api/generate-pa/route.ts:366 | whatever clauses are listed, the text starts with the preamble naming the requested level of care, followed by a space |
| Justification.JustificationEndsWithClosing | src/app/api/generate-pa/route.ts:368-426 | whatever clauses are listed, the text ends with the tier's closing sentence: the 20-hour PHP sentence for "PHP", the 9-19-hour IOP sentence otherwise |
| Justification.OtherTiersAreIop | src/app/api/generate-pa/route.ts:400-426 | every value other than "PHP" gets the IOP text; only the name in the preamble differs |
| Justification.WithdrawalClauseIff | src/app/api/generate-pa/route.ts:377-379 | the withdrawal clause is listed iff CIWA-Ar >= 10, COWS >= 12 or the seizure flag is set |
| Justification.PhpClausesDistinct | src/app/api/generate-pa/route.ts:373-396 | the four PHP clauses differ whatever the scores |
| Justification.WithdrawalClauseNamesScores | src/app/api/generate-pa/route.ts:378 | both scores can be read back from the withdrawal clause |
| Justification.NoLatestNoteNoNoteClause | src/app/api/generate-pa/route.ts:372 | without a latest note no note-based clause fires in either tier |
| Justification.NoNotesJustification | src/app/api/generate-pa/route.ts:368-426 | without notes, PHP lists at most the psychiatric clause and IOP nothing |
| Justification.PhpAllClauses | src/app/api/generate-pa/route.ts:369-399 | when every PHP test passes, all four clauses appear in table order, joined by ", " |
| Justification.ClausesInTableOrder | src/app/api/generate-pa/route.ts:402-424 | two clauses of a tier that both fire appear in table order |
| Justification.GenerateTreatmentGoals | src/app/api/generate-pa/route.ts:430-445 | the push builder returns the declarative goals text |
| Justification.GenerateDischargePlanning | src/app/api/generate-pa/route.ts:447-462 | the push builder returns the declarative discharge text |
| Justification.TreatmentGoals | src/app/api/generate-pa/route.ts:430-445 | PHP gets the four shared goals and the two PHP goals as one sentence; every other level of care gets the four shared goals and the two IOP goals; the text ends with "." |
| Justification.DischargePlanning | src/app/api/generate-pa/route.ts:447-462 | the same for the discharge plan: shared items plus the PHP items for PHP, plus the IOP items for every other level of care |
| Justification.SixItems | src/app/api/generate-pa/route.ts:438-444 | four fixed items plus the tier's two, as `push` grows the array |
| Justification.TreatmentGoalsShape | src/app/api/generate-pa/route.ts:430-445 | six items, the first four fixed, the last two by tier, joined by ", " with a trailing "."; every non-PHP value gets the same text |
| Justification.DischargePlanningShape | src/app/api/generate-pa/route.ts:447-462 | the same shape for the discharge plan |
| Justification.TiersDifferInGoals | src/app/api/generate-pa/route.ts:438-441 | the PHP and IOP texts differ, for goals and for discharge |
| PaForm.GeneratePAForm | src/app/api/generate-pa/route.ts:321-325 | start date and form date are today; facility, NPI, contact, phone, fax, signature, provider and licence are the fixed constants |
| PaForm.AuthorizationWindow | src/app/api/generate-pa/route.ts:306-309 | the window ends 14 days after today iff PHP is requested, otherwise 30, and the requested duration names that length |
| PaForm.DurationNamesWindow | src/app/api/generate-pa/route.ts:329 | "14 days"/"30 days" is the window length in words |
| PaForm.DiagnosisFields | src/app/api/generate-pa/route.ts:332-333 | the primary diagnosis is the first code or ""; the additional ones are all other codes, in order, max(0, n-1) of them |
| PaForm.DiagnosisDateFromLatestNote | src/app/api/generate-pa/route.ts:316 | the diagnosis date is the last note's date, today when there are no notes |
| PaForm.WithdrawalSection | src/app/api/generate-pa/route.ts:341-346 | the withdrawal section reports the last score of each scale and each keyword flag |
| PaForm.NoNotesForm | src/app/api/generate-pa/route.ts:305-363 | a chart without notes gets today's date, no withdrawal risk and every scanner's default |
| PatientData.GetPatientById | src/lib/patientData.ts:18-20 | undefined iff no patient has the identifier; a result has that identifier and comes from the list |
| PatientData.FoundIsFirst | src/lib/patientData.ts:19 | the first patient with the identifier is the one returned |
| PatientData.LaterPatientsIgnored | src/lib/patientData.ts:19 | patients after a match do not change the result |

## Left out

- The `POST` handler (request parsing, the 400/404/500 responses, logging) is HTTP plumbing; only the lookup it performs is modelled.
- `Date`, `getTime`, `setDate` and `toISOString`: dates are day numbers and "today" is a parameter; time zones and ISO text are not modelled.
- Scanners.LastUseDate: a day count so large that the date leaves the range of JavaScript dates makes `toISOString()` throw, so the request fails; the model returns today minus the count.
- Text.DecimalString: the template literal prints a score of 1e21 or more in exponent form, and a digit run too long for a double as "Infinity"; the model prints every digit.
- PaForm.GeneratePAForm: `latestRecord?.date || startDate` also falls back when the latest note's date is the empty string; with day numbers there is no empty date, so only the no-note fallback is modelled.
- Text.Lower: `toLowerCase` is Unicode case mapping; the model lowercases ASCII letters only and keeps every other character.
- `parseInt` of a very long digit run loses precision above 2^53; the model reads digit runs as unbounded integers.
- The regular expressions are not a general engine: the four fixed patterns are hand-written scanners. The `/i` flag is applied to text that is already lowercased, so only lowercase literals are tested.
- The embedded sample patients are data, not logic.
- `loadPatientData` is a network fetch.
- The React pages and components are user interface.
- `test-api.js` drives a running server.
- `src/types/index.ts` holds declarations only; it is mirrored by the datatypes in `Records`, with dates as day numbers.
- The duplicate `extractClinicalInfo` of `src/lib/patientData.ts` is not written a second time: its body equals the route's copy (it differs only by `export` and the missing return type), and one model stands for both.

# Resume builder — a Dafny model of its document store, save pipeline, editors and preview

This project models the core of a resume builder whose backend is a Convex
document store and whose front end is a set of React section editors. The
model covers:

- **Document store** (`ResumeStore`, `TemplateCatalog`, `Schema`). It lists, reads, creates, patches and deletes
  resumes, each behind an ownership check. It also holds the template catalog and its one-time seeding.
- **AI assist bridge** (`AiAssist`). It builds the prompts for the summary, description and skills requests. It
  post-processes the model's reply: trimming it, splitting it on commas, and falling back to a fixed text when the
  call fails.
- **Save pipeline** (`Autosave`). The builder page's one-second debounced save, the manual "Save" button, the
  busy flag and the unmount cleanup. They are modelled as a state machine over a virtual clock, plus a class that
  drives it.
- **Section editors**. `PersonalInfoEditor`, `ExperienceEditor`, `EducationEditor`, `SkillsEditor` and
  `ProjectsEditor` each become a class that holds the local copy of its section. It records every `onSave`
  argument and has the add / update / remove handlers and the AI handlers, split into their synchronous start and
  asynchronous finish. They are built on the shared list transforms in `ListEdits`.
- **Dashboard** (`Dashboard`). The create-resume dialog, the "Create" guard, delete behind a confirmation, and
  the statistics (recently edited resumes, free templates).
- **Live preview** (`ResumePreview`). Which blocks the preview shows, in which order, and with which optional
  parts.
- **Voice input** (`VoiceInputModel`, `VoiceAssistantModel`). The dictation field that collects final speech
  results and appends them to the field's value, and the voice-assistant panel with its example prompts.
- **Shared helpers**. `JsText` models JavaScript's `trim`, `split`, `join` and `||`. `Wrappers` holds `Option`
  and `Result`.

Some things become parameters:

- The authenticated caller is an `Option<UserId>`.
- The clock is a `now: nat` argument, or `Advance(dt)` events.
- Store-assigned ids are a counter `nextId`, so "newest first" means descending id. `_creationTime` grows with
  insertion order, so this matches the `order("desc")` of `by_user`.
- The AI service's answer is a `Completion` (`Ok(content)` or `Failed`).
- The browser's confirmation dialog is a `confirmed` flag.
- Fresh client-side ids (`Date.now().toString()`) are a `freshId` argument.

## Model

| member | source | states |
|---|---|---|
| Schema.Keys | convex/resumes.ts:76-133 | the key set of an `updates` object holds exactly the keys present in it |
| ResumeStore.Authorize | convex/resumes.ts:29-32 | no caller fails with "Not authenticated"; a caller who does not own the row (or a missing row) fails with "Resume not found or access denied"; success iff the caller owns the row, and then it is that row |
| ResumeStore.NewResume | convex/resumes.ts:49-67 | a new resume belongs to the caller, has the given title and template, blank personal info, every list empty, is not public, and is stamped with the current time |
| ResumeStore.Patch | convex/resumes.ts:146-149 | every key present in `updates` takes its new value, every absent key keeps the old value, owner/template/visibility never change, and `lastModified` becomes now |
| ResumeStore.Merge | convex/resumes.ts:146-149 | a key is present in the merged update iff it is present in either update |
| ResumeStore.PatchEmpty | convex/resumes.ts:146-149 | patching with `{}` changes only `lastModified` |
| ResumeStore.PatchTwice | convex/resumes.ts:146-149 | two patches in a row equal one patch with the merged update, the later value winning per key |
| ResumeStore.PatchIdempotent | convex/resumes.ts:146-149 | applying the same update twice equals applying it once (at the later time) |
| ResumeStore.Listing | convex/resumes.ts:13-17 | the caller's rows with ids below the bound, highest id first (no contract of its own; the four lemmas below state what it returns) |
| ResumeStore.ListingSound | convex/resumes.ts:13-17 | every listed row exists, belongs to the caller, and is listed with its own id |
| ResumeStore.ListingOrdered | convex/resumes.ts:13-17 | the listing is strictly newest-first (descending ids) |
| ResumeStore.ListingComplete | convex/resumes.ts:13-17 | every row the caller owns appears in the listing |
| ResumeStore.ListingCompleteAll | convex/resumes.ts:13-17 | the same, for all the caller's rows at once |
| ResumeStore.ListingIgnoresAbove | convex/resumes.ts:13-17 | changing or deleting a row not yet allocated does not change any listing |
| ResumeStore.Ids | convex/resumes.ts:13-17 | the ids of a listing, position by position |
| ResumeStore.IdsCons | convex/resumes.ts:13-17 | the ids of a listing with one more row in front start with that row's id |
| ResumeStore.ListingAfterReplace | convex/resumes.ts:146-149 | patching a row (its owner unchanged) leaves the ids and order of every user's listing unchanged |
| ResumeStore.ListingAfterDelete | convex/resumes.ts:166 | after a delete every listing is the old listing with that id removed |
| ResumeStore.ResumeTable.constructor | convex/schema.ts:1-107 | the store starts empty |
| ResumeStore.ResumeTable.GetUserResumes | convex/resumes.ts:5-19 | fails iff there is no caller; otherwise returns exactly the caller's resumes, newest first |
| ResumeStore.ResumeTable.GetResume | convex/resumes.ts:21-36 | returns the row iff the caller is signed in and owns it; no caller gets "Not authenticated", a signed-in caller without a row of their own under that id gets "Resume not found or access denied" |
| ResumeStore.ResumeTable.CreateResume | convex/resumes.ts:38-71 | without a caller nothing changes; with one, a fresh id is allocated and the new row is `NewResume` for that caller, all other rows unchanged |
| ResumeStore.ResumeTable.UpdateResume | convex/resumes.ts:73-151 | succeeds iff the caller owns the row, and then replaces exactly that row by its patch; on failure the table is unchanged and the error is the ownership check's |
| ResumeStore.ResumeTable.DeleteResume | convex/resumes.ts:153-168 | succeeds iff the caller owns the row, and then removes exactly that row; on failure nothing changes |
| TemplateCatalog.SeedIdempotent | convex/templates.ts:21-24 | seeding an already seeded table changes nothing |
| TemplateCatalog.Seeded | convex/templates.ts:21-107 | the table after seeding: left alone when it holds any row, otherwise the four catalog templates in order (no contract of its own; its properties are SeedIdempotent and SeedTemplates) |
| TemplateCatalog.PremiumCount | convex/templates.ts:44-101 | the number of premium templates, at most the number of templates; its value is fixed by the two lemmas below |
| TemplateCatalog.PremiumCountAppend | convex/templates.ts:44-101 | the premium count of two lists together is the sum of their counts |
| TemplateCatalog.PremiumCountOne | convex/templates.ts:44-101 | a single template counts one iff it is premium |
| TemplateCatalog.CatalogHasOnePremium | convex/templates.ts:28-101 | of the four seeded templates exactly one is premium, and it is "Executive" |
| TemplateCatalog.TemplateTable.constructor | convex/schema.ts:1-107 | the catalog starts empty |
| TemplateCatalog.TemplateTable.GetTemplates | convex/templates.ts:4-9 | every row with its id, in insertion order, each agreeing with `getTemplate` |
| TemplateCatalog.TemplateTable.GetTemplate | convex/templates.ts:11-16 | returns the row for an existing id and `null` for any other id |
| TemplateCatalog.TemplateTable.SeedTemplates | convex/templates.ts:18-110 | an empty table receives the four templates in order; a non-empty table is left as it is |
| AiAssist.ExperienceLine | convex/ai.ts:17 | the `- position at company: description` line of one entry (no contract of its own; used through ExperienceLines) |
| AiAssist.ExperienceLines | convex/ai.ts:17 | one prompt line per experience entry, in order |
| AiAssist.ExperienceBlockLines | convex/ai.ts:17 | the experience block of the summary prompt has one line per entry and splits back into those lines |
| AiAssist.SummaryPrompt | convex/ai.ts:14-20 | the summary prompt: the fixed introduction, the experience lines joined by newlines, the skills joined by ", ", the fixed closing (no contract of its own; stated through ExperienceBlockLines and EmptySummaryPrompt) |
| AiAssist.FiveParts | convex/ai.ts:53-57 | each of five concatenated parts, the middle one included, sits at its own offset in the whole |
| AiAssist.ImprovePrompt | convex/ai.ts:53-57 | the improve prompt is the fixed lead, the job title verbatim, the fixed middle sentence, the description verbatim and the fixed closing, each at its own offset |
| AiAssist.SkillsPrompt | convex/ai.ts:89 | the skills prompt is the fixed lead, the job title verbatim, " in the ", the industry verbatim and the closing request for a comma-separated list, each at its own offset |
| AiAssist.EmptySummaryPrompt | convex/ai.ts:14-21 | the summary prompt of a resume with no experience and no skills, spelled out |
| AiAssist.GenerateSummary | convex/ai.ts:4-45 | a successful reply yields its trimmed content (itself trimmed); a failed call yields the fixed fallback summary |
| AiAssist.ImproveDescription | convex/ai.ts:47-81 | a successful reply yields its trimmed content; a failed call returns the original description unchanged |
| AiAssist.SuggestSkills | convex/ai.ts:83-113 | a failed call yields no skills; a reply yields, in order, the trimmed pieces of the trimmed reply cut at every comma: one skill per comma plus one, each trimmed and comma-free |
| AiAssist.BlankReplyGivesOneEmptySkill | convex/ai.ts:107 | a blank reply yields the single skill "" rather than none |
| AiAssist.Padded | convex/ai.ts:107 | each piece prefixed with one space, in order |
| AiAssist.JoinPadded | convex/ai.ts:107 | joining space-prefixed pieces with "," is a space followed by joining them with ", " |
| AiAssist.JoinLast | convex/ai.ts:107 | a join ends with the last character of its last piece |
| AiAssist.CommaSpaceJoin | convex/ai.ts:107 | a ", " join is a "," join of the first piece and the space-prefixed rest |
| AiAssist.JoinOfTrimmed | convex/ai.ts:107 | joining non-empty trimmed pieces gives a trimmed string |
| AiAssist.TrimPaddedPieces | convex/ai.ts:107 | trimming the space-prefixed pieces gives back the original trimmed pieces |
| AiAssist.PaddedCommaFree | convex/ai.ts:107 | prefixing a space keeps pieces comma-free |
| AiAssist.JoinedSkillsTrimmed | convex/ai.ts:107 | a ", " join of non-empty trimmed skills is its own trim |
| AiAssist.JoinedSkillsPieces | convex/ai.ts:107 | splitting that join on "," gives the first skill and the space-prefixed others |
| AiAssist.SuggestSkillsRoundTrip | convex/ai.ts:107 | a reply that lists non-empty, trimmed, comma-free skills separated by ", " is parsed back into exactly those skills |
| JsText.SkipLeading | convex/ai.ts:39 | the index of the first non-whitespace character at or after the start, skipping only whitespace |
| JsText.SkipTrailing | convex/ai.ts:39 | the index just past the last non-whitespace character before the end, skipping only whitespace |
| JsText.Trim | convex/ai.ts:39 | the result is the string with a whitespace-only prefix and suffix cut off, has no whitespace at either end, and is empty iff the string is all whitespace |
| JsText.TrimInside | convex/ai.ts:39 | trimming introduces no character that was not in the string |
| JsText.TrimOfTrimmed | convex/ai.ts:39 | trimming a trimmed string changes nothing |
| JsText.TrimIdempotent | convex/ai.ts:39 | trimming twice is trimming once |
| JsText.TrimPadded | convex/ai.ts:107 | a trimmed string behind one space trims back to itself |
| JsText.Split | convex/ai.ts:107 | `split` yields one piece per separator plus one, none containing the separator |
| JsText.JoinSplit | convex/ai.ts:107 | joining the pieces of a split with the same separator gives back the string |
| JsText.SplitAfterPiece | convex/ai.ts:107 | a separator-free piece followed by the separator splits off as one piece |
| JsText.SplitWithoutSeparator | convex/ai.ts:107 | a separator-free string splits into itself alone |
| JsText.SplitJoin | convex/ai.ts:19 | splitting a join of separator-free pieces gives back the pieces |
| JsText.TrimAll | convex/ai.ts:107 | each piece trimmed, in order, none dropped |
| ListEdits.MapWhere | src/components/forms/ExperienceForm.tsx:49-55 | same length; the entries with the id are edited and every other entry is unchanged |
| ListEdits.Matching | src/components/forms/ExperienceForm.tsx:57-61 | the number of entries with the id, at most the length; its value is fixed by the two lemmas below |
| ListEdits.MatchingAppend | src/components/forms/ExperienceForm.tsx:57-61 | the count over two lists together is the sum of their counts |
| ListEdits.MatchingOne | src/components/forms/ExperienceForm.tsx:57-61 | a single entry counts one iff it has the id |
| ListEdits.RemoveWhere | src/components/forms/ExperienceForm.tsx:57-61 | no entry with the id remains, the rest keep their order, and exactly the matching entries are gone |
| ListEdits.FindFirst | src/components/forms/ExperienceForm.tsx:64 | the index of the first entry with the id, or none iff no entry has it |
| ListEdits.RemoveAt | src/components/forms/SkillsForm.tsx:68-76 | the entry at the index is dropped; an index outside the list drops nothing |
| ListEdits.RemoveAbsent | src/components/forms/ExperienceForm.tsx:57-61 | removing an id no entry has changes nothing |
| ListEdits.RemoveIdempotent | src/components/forms/ExperienceForm.tsx:57-61 | removing twice is removing once |
| ListEdits.RemoveAppended | src/components/forms/ExperienceForm.tsx:44-46 | appending an entry and removing its id equals removing that id |
| ListEdits.RemoveAfterEdit | src/components/forms/ExperienceForm.tsx:49-61 | an edit that keeps ids has no effect once those entries are removed |
| ListEdits.MapAbsent | src/components/forms/ExperienceForm.tsx:49-55 | editing by an id no entry has changes nothing |
| ListEdits.PendingItem | src/components/forms/SkillsForm.tsx:55-56 | nothing to add iff the input was never typed or is blank; otherwise its trimmed, non-empty text |
| ExperienceEditor.FieldsDetermineEntry | src/components/forms/ExperienceForm.tsx:49-55 | two entries that agree on every key are equal |
| ExperienceEditor.Apply | src/components/forms/ExperienceForm.tsx:51-53 | the edited key takes the new value and every other key, the id included, is unchanged |
| ExperienceEditor.Blank | src/components/forms/ExperienceForm.tsx:33-47 | the new entry has the fresh id, `current` false and every other key "" |
| ExperienceEditor.UpdateChangesOnlyNamedField | src/components/forms/ExperienceForm.tsx:49-55 | an update keeps the length and other entries, and changes only the named key of the matching entries |
| ExperienceEditor.AddThenRemove | src/components/forms/ExperienceForm.tsx:33-61 | removing an entry just added under a fresh id restores the list |
| ExperienceEditor.ImproveRequest | src/components/forms/ExperienceForm.tsx:64-72 | no request iff no entry has the id or its description is blank; otherwise that entry's description and position |
| ExperienceEditor.ImprovePromptQuotesEntry | src/components/forms/ExperienceForm.tsx:69-72 | the prompt built from an improve request quotes that entry's position as the job title and its description as the original text |
| ExperienceEditor.ExperienceForm.constructor | src/components/forms/ExperienceForm.tsx:25-26 | the local list is the prop, nothing is improving, nothing saved |
| ExperienceEditor.ExperienceForm.ReceiveData | src/components/forms/ExperienceForm.tsx:29-31 | a new prop replaces the list without saving |
| ExperienceEditor.ExperienceForm.AddExperience | src/components/forms/ExperienceForm.tsx:33-47 | appends the blank entry and saves the new list |
| ExperienceEditor.ExperienceForm.UpdateExperience | src/components/forms/ExperienceForm.tsx:49-55 | applies the edit by id and saves the new list |
| ExperienceEditor.ExperienceForm.RemoveExperience | src/components/forms/ExperienceForm.tsx:57-61 | removes the id and saves the new list |
| ExperienceEditor.ExperienceForm.BeginImprove | src/components/forms/ExperienceForm.tsx:63-72 | issues a request iff the guard passes, marking that entry as improving; otherwise nothing changes |
| ExperienceEditor.ExperienceForm.FinishImprove | src/components/forms/ExperienceForm.tsx:73-78 | on success the returned text becomes the description in the list captured at the start, and it is saved; on failure nothing is saved; the busy marker is cleared either way |
| EducationEditor.FieldsDetermineEntry | src/components/forms/EducationForm.tsx:45-51 | two entries that agree on every key are equal |
| EducationEditor.Apply | src/components/forms/EducationForm.tsx:47-49 | the edited key takes the new value and every other key is unchanged |
| EducationEditor.Blank | src/components/forms/EducationForm.tsx:29-43 | the new entry has the fresh id and "" under every other key |
| EducationEditor.UpdateChangesOnlyNamedField | src/components/forms/EducationForm.tsx:45-51 | an update keeps the length and other entries, and changes only the named key of the matching entries |
| EducationEditor.AddThenRemove | src/components/forms/EducationForm.tsx:29-57 | removing an entry just added under a fresh id restores the list |
| EducationEditor.EducationForm.constructor | src/components/forms/EducationForm.tsx:23 | the local list is the prop; nothing saved |
| EducationEditor.EducationForm.ReceiveData | src/components/forms/EducationForm.tsx:25-27 | a new prop replaces the list without saving |
| EducationEditor.EducationForm.AddEducation | src/components/forms/EducationForm.tsx:29-43 | appends the blank entry and saves the new list |
| EducationEditor.EducationForm.UpdateEducation | src/components/forms/EducationForm.tsx:45-51 | applies the edit by id and saves the new list |
| EducationEditor.EducationForm.RemoveEducation | src/components/forms/EducationForm.tsx:53-57 | removes the id and saves the new list |
| SkillsEditor.WithItemAppends | src/components/forms/SkillsForm.tsx:54-66 | adding an item appends it to every category with the id and to no other |
| SkillsEditor.RemoveAddedItem | src/components/forms/SkillsForm.tsx:54-76 | removing the item just added restores the categories |
| SkillsEditor.RemoveMissingIndex | src/components/forms/SkillsForm.tsx:68-76 | removing an index no matching category has changes nothing |
| SkillsEditor.RenameKeepsItems | src/components/forms/SkillsForm.tsx:40-46 | renaming changes only the name, and only under the id |
| SkillsEditor.AfterSuggestion | src/components/forms/SkillsForm.tsx:86-94 | no change iff the answer is empty; otherwise the captured list plus one "Suggested Skills" category holding the answer |
| SkillsEditor.Blank | src/components/forms/SkillsForm.tsx:29-37 | the category `addSkillCategory` appends: the fresh id, no name, no items (no contract of its own; used by AddSkillCategory) |
| SkillsEditor.SuggestPromptText | src/components/forms/SkillsForm.tsx:80-84 | the prompt every "AI Suggest" click produces: the skills prompt for "Software Engineer" in "Technology", spelled out |
| SkillsEditor.SkillsForm.constructor | src/components/forms/SkillsForm.tsx:20-22 | the local list is the prop, no typed inputs, not suggesting, nothing saved |
| SkillsEditor.SkillsForm.ReceiveData | src/components/forms/SkillsForm.tsx:25-27 | a new prop replaces the list without saving |
| SkillsEditor.SkillsForm.AddSkillCategory | src/components/forms/SkillsForm.tsx:29-38 | appends the blank category and saves the new list |
| SkillsEditor.SkillsForm.UpdateSkillCategory | src/components/forms/SkillsForm.tsx:40-46 | renames by id and saves the new list |
| SkillsEditor.SkillsForm.RemoveSkillCategory | src/components/forms/SkillsForm.tsx:48-52 | removes the id and saves the new list |
| SkillsEditor.SkillsForm.SetInput | src/components/forms/SkillsForm.tsx:204-211 | typing records the input text for that category only |
| SkillsEditor.SkillsForm.AddSkillItem | src/components/forms/SkillsForm.tsx:54-66 | a blank input changes nothing; otherwise the trimmed text is appended, the list saved and the input cleared |
| SkillsEditor.SkillsForm.RemoveSkillItem | src/components/forms/SkillsForm.tsx:68-76 | drops the item at the index by id and saves the new list |
| SkillsEditor.SkillsForm.BeginSuggest | src/components/forms/SkillsForm.tsx:78-85 | sets the busy flag and sends the fixed job title and industry |
| SkillsEditor.SkillsForm.FinishSuggest | src/components/forms/SkillsForm.tsx:86-100 | a non-empty answer adds the suggested category to the captured list and saves it; otherwise nothing is saved; the busy flag is cleared |
| ProjectsEditor.FieldsDetermineEntry | src/components/forms/ProjectsForm.tsx:42-48 | two projects that agree on every key are equal |
| ProjectsEditor.Apply | src/components/forms/ProjectsForm.tsx:44-46 | the edited key takes the new text and every other key is unchanged |
| ProjectsEditor.Blank | src/components/forms/ProjectsForm.tsx:28-40 | the new project has the fresh id, no technologies and "" under every other key |
| ProjectsEditor.UpdateChangesOnlyNamedField | src/components/forms/ProjectsForm.tsx:42-48 | an update keeps the length and other entries, and changes only the named key of the matching entries |
| ProjectsEditor.WithoutTechnologyKeepsOtherFields | src/components/forms/ProjectsForm.tsx:70-78 | removing a technology touches only the technology list, and only under the id |
| ProjectsEditor.RemoveAddedTechnology | src/components/forms/ProjectsForm.tsx:56-78 | removing the technology just added restores the projects |
| ProjectsEditor.AddThenRemove | src/components/forms/ProjectsForm.tsx:28-54 | removing a project just added under a fresh id restores the list |
| ProjectsEditor.ProjectsForm.constructor | src/components/forms/ProjectsForm.tsx:21-22 | the local list is the prop, no typed inputs, nothing saved |
| ProjectsEditor.ProjectsForm.ReceiveData | src/components/forms/ProjectsForm.tsx:24-26 | a new prop replaces the list without saving |
| ProjectsEditor.ProjectsForm.AddProject | src/components/forms/ProjectsForm.tsx:28-40 | appends the blank project and saves the new list |
| ProjectsEditor.ProjectsForm.UpdateProject | src/components/forms/ProjectsForm.tsx:42-48 | applies the edit by id and saves the new list |
| ProjectsEditor.ProjectsForm.RemoveProject | src/components/forms/ProjectsForm.tsx:50-54 | removes the id and saves the new list |
| ProjectsEditor.ProjectsForm.SetInput | src/components/forms/ProjectsForm.tsx:237-244 | typing records the input text for that project only |
| ProjectsEditor.ProjectsForm.AddTechnology | src/components/forms/ProjectsForm.tsx:56-68 | a blank input changes nothing; otherwise the trimmed text is appended, the list saved and the input cleared |
| ProjectsEditor.ProjectsForm.RemoveTechnology | src/components/forms/ProjectsForm.tsx:70-78 | drops the technology at the index by id and saves the new list |
| PersonalInfoEditor.FieldsDetermineRecord | src/components/forms/PersonalInfoForm.tsx:33-37 | two records that agree on every key are equal |
| PersonalInfoEditor.Changed | src/components/forms/PersonalInfoForm.tsx:34 | the changed key takes the new text and every other key is unchanged |
| PersonalInfoEditor.ChangeTwice | src/components/forms/PersonalInfoForm.tsx:33-37 | setting a key twice keeps only the second value |
| PersonalInfoEditor.ChangesCommute | src/components/forms/PersonalInfoForm.tsx:33-37 | changes to two different keys commute |
| PersonalInfoEditor.PersonalInfoForm.constructor | src/components/forms/PersonalInfoForm.tsx:25-26 | the local record is the prop, not generating, nothing saved |
| PersonalInfoEditor.PersonalInfoForm.ReceiveData | src/components/forms/PersonalInfoForm.tsx:29-31 | a new prop replaces the record without saving |
| PersonalInfoEditor.PersonalInfoForm.HandleChange | src/components/forms/PersonalInfoForm.tsx:33-37 | applies the change and saves the new record |
| PersonalInfoEditor.PersonalInfoForm.BeginGenerate | src/components/forms/PersonalInfoForm.tsx:39-45 | sets the busy flag and sends empty experience and skills lists |
| PersonalInfoEditor.PersonalInfoForm.FinishGenerate | src/components/forms/PersonalInfoForm.tsx:46-51 | on success the text becomes the summary of the captured record and is saved; on failure nothing is saved; the busy flag is cleared |
| Autosave.Opened | src/pages/ResumeBuilderPage.tsx:34-42 | a page just opened on the route's id: no timer, not saving, no writes (no contract of its own) |
| Autosave.Run | src/pages/ResumeBuilderPage.tsx:44-103 | the session after a sequence of events, one step each (no contract of its own; see RunAppend, RunKeepsValid) |
| Autosave.Step | src/pages/ResumeBuilderPage.tsx:44-103 | every event keeps the session well formed, never moves the clock back, never changes the resume id, and adds at most one write while keeping the earlier ones |
| Autosave.RunAppend | src/pages/ResumeBuilderPage.tsx:44-103 | running two event sequences in turn equals running their concatenation |
| Autosave.RunOne | src/pages/ResumeBuilderPage.tsx:44-103 | running one event is one step |
| Autosave.RunTwo | src/pages/ResumeBuilderPage.tsx:44-103 | running two events is two steps |
| Autosave.RunKeepsValid | src/pages/ResumeBuilderPage.tsx:44-103 | any event sequence keeps the session well formed, the resume id fixed, and the writes already made |
| Autosave.NoResumeIdNoWrites | src/pages/ResumeBuilderPage.tsx:45 | without a resume id no event ever writes |
| Autosave.FiresExactlyAtDeadline | src/pages/ResumeBuilderPage.tsx:53-66 | after a change, the write happens once 1000 ms have passed and not before |
| Autosave.NoWriteWithoutPending | src/pages/ResumeBuilderPage.tsx:53-66 | with no timer armed, waiting never writes |
| Autosave.UnmountCancelsWrite | src/pages/ResumeBuilderPage.tsx:97-103 | after unmount the pending change is never written |
| Autosave.ManualSaveWritesEmpty | src/pages/ResumeBuilderPage.tsx:73-94 | a manual save writes `{}` at once, cancels the timer, and sets the busy flag |
| Autosave.ClickSaveIsGuardedManualSave | src/pages/ResumeBuilderPage.tsx:147 | the button does nothing while saving and is a manual save otherwise |
| Autosave.WriteDoneClearsSaving | src/pages/ResumeBuilderPage.tsx:64 | a settled write clears the busy flag and changes nothing else |
| Autosave.DebouncedWriteOverlapsManualSave | src/pages/ResumeBuilderPage.tsx:47-93 | a change made during a manual save re-arms the timer, and its write is issued while the manual write is still running: two writes, `{}` then the change, with the busy flag still set |
| Autosave.BurstKeepsLastOnly | src/pages/ResumeBuilderPage.tsx:47-53 | changes closer together than 1000 ms leave only the last one pending, with its deadline |
| Autosave.BurstWritesLastOnly | src/pages/ResumeBuilderPage.tsx:47-66 | such a burst followed by a wait of 1000 ms writes exactly the last change |
| Autosave.Payloads | src/pages/ResumeBuilderPage.tsx:55-58 | the update carried by each write, in order |
| Autosave.ChangeThenWait | src/pages/ResumeBuilderPage.tsx:53-66 | a change followed by a wait of at least 1000 ms writes that change at its deadline |
| Autosave.PayloadsAppend | src/pages/ResumeBuilderPage.tsx:55-58 | one more write adds its update at the end |
| Autosave.SpacedLast | src/pages/ResumeBuilderPage.tsx:53-66 | the last of a run of spaced changes is written after the earlier ones |
| Autosave.ExtendWrites | src/pages/ResumeBuilderPage.tsx:55-58 | appending a write extends the log by exactly its update |
| Autosave.SpacedChangesEachWritten | src/pages/ResumeBuilderPage.tsx:44-67 | changes at least 1000 ms apart are each written exactly once, in order |
| Autosave.PersonalInfoSave | src/pages/ResumeBuilderPage.tsx:193 | the personal-info editor's save carries only the personal-info key |
| Autosave.ExperienceSave | src/pages/ResumeBuilderPage.tsx:200 | the experience editor's save carries only the experience key |
| Autosave.EducationSave | src/pages/ResumeBuilderPage.tsx:207 | the education editor's save carries only the education key |
| Autosave.SkillsSave | src/pages/ResumeBuilderPage.tsx:214 | the skills editor's save carries only the skills key |
| Autosave.ProjectsSave | src/pages/ResumeBuilderPage.tsx:221 | the projects editor's save carries only the projects key |
| Autosave.ManualSaveLosesPendingEdit | src/pages/ResumeBuilderPage.tsx:77-86 | as written: an edit followed within 1000 ms by a manual save is never stored |
| Autosave.BurstLosesEarlierSection | src/pages/ResumeBuilderPage.tsx:47-53 | as written: edits to two sections within 1000 ms store only the second section |
| Autosave.Flushed | src/pages/ResumeBuilderPage.tsx:73-94 | corrected: what a manual save should send, the waiting update or `{}` (no contract of its own; used by CorrectedStep) |
| Autosave.CorrectedStep | src/pages/ResumeBuilderPage.tsx:44-94 | corrected: a change merges into the pending update, and a manual save writes the pending update instead of `{}` |
| Autosave.CorrectedManualSaveKeepsEdit | src/pages/ResumeBuilderPage.tsx:73-94 | corrected: the manual save stores the pending edit |
| Autosave.CorrectedBurstKeepsBoth | src/pages/ResumeBuilderPage.tsx:44-67 | corrected: both sections of a burst are stored |
| Autosave.AutosaveController.constructor | src/pages/ResumeBuilderPage.tsx:34-42 | a freshly opened editor: no timer, not saving, no writes |
| Autosave.AutosaveController.Load | src/pages/ResumeBuilderPage.tsx:34-42 | the controller takes the given session state |
| Autosave.AutosaveController.HandleSave | src/pages/ResumeBuilderPage.tsx:69-71 | the new state is one `Change` step of the old |
| Autosave.AutosaveController.Tick | src/pages/ResumeBuilderPage.tsx:53-66 | the new state is one `Advance` step of the old |
| Autosave.AutosaveController.HandleManualSave | src/pages/ResumeBuilderPage.tsx:73-94 | the new state is one `ManualSave` step of the old |
| Autosave.AutosaveController.ClickSave | src/pages/ResumeBuilderPage.tsx:147 | the new state is one `ClickSave` step of the old |
| Autosave.AutosaveController.WriteSettled | src/pages/ResumeBuilderPage.tsx:64 | the new state is one `WriteDone` step of the old |
| Autosave.AutosaveController.Unmount | src/pages/ResumeBuilderPage.tsx:97-103 | the new state is one `Unmount` step of the old |
| Dashboard.WeekIs604800000 | src/pages/DashboardPage.tsx:91 | the "recent" window is 604 800 000 ms |
| Dashboard.IsRecent | src/pages/DashboardPage.tsx:91 | a resume is recent when `now - lastModified` is below one week (no contract of its own) |
| Dashboard.RecentCount | src/pages/DashboardPage.tsx:91 | the number of recent resumes: at most the number of resumes, zero iff none is recent; its value is fixed by the two lemmas below |
| Dashboard.RecentCountAppend | src/pages/DashboardPage.tsx:91 | the count over two lists together is the sum of their counts |
| Dashboard.RecentCountOne | src/pages/DashboardPage.tsx:91 | a single resume counts one iff `now - lastModified` is below 604 800 000 ms |
| Dashboard.RecentCountShrinksOverTime | src/pages/DashboardPage.tsx:91 | later, at most as many resumes count as recent |
| Dashboard.FreeCount | src/pages/DashboardPage.tsx:105 | the number of templates that are not premium: all minus the premium ones |
| Dashboard.FreeCountAppend | src/pages/DashboardPage.tsx:105 | the count over two lists together is the sum of their counts |
| Dashboard.FreeCountOne | src/pages/DashboardPage.tsx:105 | a single template counts one iff it is not premium |
| Dashboard.SeededCatalogHasThreeFree | src/pages/DashboardPage.tsx:105 | the seeded catalog shows three free templates |
| Dashboard.CreateBlocked | src/pages/DashboardPage.tsx:19 | creation is blocked iff the title is all whitespace or no template is chosen |
| Dashboard.DashboardPage.CreateEnabled | src/pages/DashboardPage.tsx:262 | the Create button is enabled iff the title is not all whitespace and a template is chosen |
| Dashboard.DashboardPage.constructor | src/pages/DashboardPage.tsx:14-16 | the dialog is closed, the form empty, no calls made |
| Dashboard.DashboardPage.OpenCreateModal | src/pages/DashboardPage.tsx:62 | opens the dialog and changes nothing else |
| Dashboard.DashboardPage.EditForm | src/pages/DashboardPage.tsx:210-224 | records the typed title and chosen template |
| Dashboard.DashboardPage.BeginCreate | src/pages/DashboardPage.tsx:18-28 | a create call is issued iff the guard passes, carrying the untrimmed title and the template |
| Dashboard.DashboardPage.FinishCreate | src/pages/DashboardPage.tsx:29-39 | success closes the dialog and clears the form; failure leaves everything as it was |
| Dashboard.DashboardPage.HandleDelete | src/pages/DashboardPage.tsx:42-51 | a delete is issued iff the user confirmed |
| ResumePreview.Contacts | src/components/ResumePreview.tsx:17-25 | email, phone and location each appear iff non-empty, once each, in that order, and nothing else appears |
| ResumePreview.ProfileLinks | src/components/ResumePreview.tsx:27-45 | each profile link appears iff its URL is truthy, once each, in the order website, LinkedIn, GitHub |
| ResumePreview.RenderHeader | src/components/ResumePreview.tsx:14-45 | the name, or the placeholder when it is empty; the contacts; a link row iff some link is truthy |
| ResumePreview.ExperienceDates | src/components/ResumePreview.tsx:75 | "start - Present" for a current job, otherwise "start - end" |
| ResumePreview.EducationDates | src/components/ResumePreview.tsx:108 | "start - end" when an end date is given, otherwise "start - Present" |
| ResumePreview.ExperienceItem | src/components/ResumePreview.tsx:59-88 | position, company and location as entered; the date line as above; a description paragraph iff the description is non-empty |
| ResumePreview.EducationItem | src/components/ResumePreview.tsx:91-115 | degree, institution, field and location as entered; the date label as above; a "GPA: …" line iff the GPA is truthy |
| ResumePreview.ProjectItem | src/components/ResumePreview.tsx:144-190 | name and description as entered; a technology row iff there are technologies; each of the two links iff its URL is truthy, once each, the live demo before GitHub |
| ResumePreview.CertificationItem | src/components/ResumePreview.tsx:193-217 | name, issuer and date as entered; a "View Certificate" link iff the link is truthy |
| ResumePreview.MapItems | src/components/ResumePreview.tsx:59-234 | one rendered item per entry, in order |
| ResumePreview.BlockOf | src/components/ResumePreview.tsx:49-234 | each section's block sits at that section's fixed position in the page order |
| ResumePreview.ShownRanks | src/components/ResumePreview.tsx:49-234 | only sections that are shown, in strictly increasing page order |
| ResumePreview.ShownRanksComplete | src/components/ResumePreview.tsx:49-234 | every shown section is among them |
| ResumePreview.BlocksAt | src/components/ResumePreview.tsx:49-234 | the blocks of the given sections, in the given order |
| ResumePreview.BlocksAtInOrder | src/components/ResumePreview.tsx:49-234 | those blocks keep the page order and are each their section's block |
| ResumePreview.RenderComplete | src/components/ResumePreview.tsx:49-234 | every shown section's block is rendered |
| ResumePreview.RenderCompleteAll | src/components/ResumePreview.tsx:49-234 | the same, for every section at once |
| ResumePreview.RenderBlocks | src/components/ResumePreview.tsx:49-234 | the blocks below the header: exactly the non-empty sections, each once, as its block, in page order |
| ResumePreview.Render | src/components/ResumePreview.tsx:12-234 | the preview's header is the rendered personal info, and it shows exactly the non-empty sections, each once, as its block, in page order |
| ResumePreview.NewResumePreview | src/components/ResumePreview.tsx:14 | a new resume previews as the name placeholder alone, with no contacts, links or sections |
| VoiceInputModel.From | src/components/VoiceInput.tsx:26 | the results from the event's index on, or none past the end |
| VoiceInputModel.FinalText | src/components/VoiceInput.tsx:26-31 | the final transcripts in order, interim ones skipped (no contract of its own; CollectFinal is proved equal to it) |
| VoiceInputModel.FinalTextIgnoresInterim | src/components/VoiceInput.tsx:26-31 | interim results never affect the collected text |
| VoiceInputModel.NoFinalNoText | src/components/VoiceInput.tsx:26-32 | with no final result there is no text |
| VoiceInputModel.Appended | src/components/VoiceInput.tsx:33 | the base, then a space when the base is non-empty, then the text |
| VoiceInputModel.Emitted | src/components/VoiceInput.tsx:25-35 | nothing is emitted iff there is no final text; otherwise the base with the text appended |
| VoiceInputModel.VoiceInput.constructor | src/components/VoiceInput.tsx:16-24 | not listening; the handler's base is the value at mount |
| VoiceInputModel.VoiceInput.ReceiveValue | src/components/VoiceInput.tsx:16-46 | a re-render shows the new value but the handler keeps its base |
| VoiceInputModel.VoiceInput.CollectFinal | src/components/VoiceInput.tsx:26-31 | the loop returns the concatenated final transcripts from the index on |
| VoiceInputModel.VoiceInput.OnResult | src/components/VoiceInput.tsx:25-35 | emits the base with the final text appended, or nothing when there is none |
| VoiceInputModel.VoiceInput.OnEngineStopped | src/components/VoiceInput.tsx:37-44 | an error or end of speech stops the listening indicator |
| VoiceInputModel.VoiceInput.ToggleListening | src/components/VoiceInput.tsx:48-58 | without support nothing happens; otherwise it starts or stops the engine and flips the flag |
| VoiceInputModel.VoiceInput.Typed | src/components/VoiceInput.tsx:70 | typed text reaches the parent as it is |
| VoiceInputModel.ValueAfterRounds | src/components/VoiceInput.tsx:16-46 | as written: the field after rounds of dictation, each appended to the value at mount (no contract of its own) |
| VoiceInputModel.OnlyLastRoundSurvives | src/components/VoiceInput.tsx:16-46 | as written: after several dictations only the last one is kept, appended to the value at mount |
| VoiceInputModel.SecondDictationReplacesFirst | src/components/VoiceInput.tsx:33 | as written: "hello" then "world" leaves "world" |
| VoiceInputModel.CorrectedValueAfterRounds | src/components/VoiceInput.tsx:33 | corrected: the current value is always kept as a prefix |
| VoiceInputModel.CorrectedRoundAppends | src/components/VoiceInput.tsx:33 | corrected: each dictation appends to the value before it |
| VoiceInputModel.CorrectedDictationsAccumulate | src/components/VoiceInput.tsx:33 | corrected: "hello" then "world" gives "hello world" |
| VoiceAssistantModel.SectionPrompts | src/components/VoiceAssistant.tsx:51 | the section's prompts, or none for an unknown section |
| VoiceAssistantModel.ShownPrompts | src/components/VoiceAssistant.tsx:82 | the first three prompts, or all when there are fewer |
| VoiceAssistantModel.PromptCounts | src/components/VoiceAssistant.tsx:20-52 | five, four, three, three and three prompts per section, and three shown for each |
| VoiceAssistantModel.VoiceAssistant.constructor | src/components/VoiceAssistant.tsx:10-12 | not listening, empty transcript |
| VoiceAssistantModel.VoiceAssistant.ToggleOffered | src/components/VoiceAssistant.tsx:54-63 | the button is offered only with browser support (no contract of its own) |
| VoiceAssistantModel.VoiceAssistant.Toggle | src/components/VoiceAssistant.tsx:70 | flips the listening flag and nothing else |

## Left out

- Markup, styling, icons, toasts, navigation and `console` logging are not modelled. They do not change state
  the model tracks.
- The HTTP call to the AI service is replaced by a `Completion` value. Its endpoint, key, model name,
  `max_tokens` and `temperature` are not modelled.
- Convex authentication, indexes and `_creationTime` are replaced by an optional caller and a counter id.
- The `v.any()` values the store accepts in `value` positions are modelled with the resume's own record types.
- Real timers are replaced by `Advance` events. Writes are not tracked one by one: the page keeps a single
  `saving` flag, as the source keeps a single `isSaving`, and one `WriteDone` clears it whichever write settles.
  A debounced write may be issued while another write is still running, as in the source. Requests that resolve
  after unmount are not modelled.
- The speech engine's settings (language, continuous, interim results) are not modelled. The engine is
  reduced to the start and stop calls and the result events.
- The pages and components outside the core are not part of this model: `App.tsx`, `HomePage.tsx`,
  `PreviewPage.tsx`, `TemplatesPage.tsx`, `Navbar.tsx` and `TemplatePreview.tsx`. The same goes for the
  `userProfiles` table of `convex/schema.ts`.
- VoiceAssistantModel.SectionPrompts: a section name that is a property of every JavaScript object (such as
  "constructor") is treated as unknown. The page only passes the five known section ids.
- VoiceAssistantModel.VoiceAssistant.Toggle: the handler itself has no support guard, and the model does not
  add one. Without support the button is not rendered.
- ExperienceEditor.ExperienceForm.BeginImprove: the button's extra `improvingId === id` condition is not
  modelled. The handler does not check it.
- VoiceInputModel.VoiceInput.OnResult: the `onChange` captured at mount is taken to be the current one.
- Dashboard: while the resume list is loading, the page uses the empty list. The model takes the list as
  given.
- ResumeStore.Merge: states only which keys are present. That the later value wins is proved through
  `ResumeStore.PatchTwice`.

## Findings

| source | as written | input that shows it | evidently intended | confidence | as-written member | corrected member |
|---|---|---|---|---|---|---|
| src/pages/ResumeBuilderPage.tsx:77-86 | the manual save clears the pending debounced save and then writes `{}` | edit personal info at t=0, press "Save" at t=500 ms: the edit is never stored | the manual save stores the pending update at once | not executed | Autosave.ManualSaveLosesPendingEdit | Autosave.CorrectedManualSaveKeepsEdit |
| src/pages/ResumeBuilderPage.tsx:47-53 | each new change cancels the armed timer, and its payload is lost | edit personal info, then experience within 1000 ms: only experience is stored | pending updates to different sections are merged | not executed | Autosave.BurstLosesEarlierSection | Autosave.CorrectedBurstKeepsBoth |
| src/components/VoiceInput.tsx:33 | the result handler appends to the `value` captured at mount (effect deps `[]`) | dictate "hello", then "world" into an empty field: the field ends as "world" | each dictation appends to the field's current value | not executed | VoiceInputModel.SecondDictationReplacesFirst | VoiceInputModel.CorrectedDictationsAccumulate |

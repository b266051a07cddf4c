# AGENDA.AI core, modelled in Dafny

AGENDA.AI produces meeting agendas for financial advisors. A web form collects the meeting
details and a list of talking points. The backend turns them into a prompt for a language
model. The model's JSON answer is then rendered as a Word document.

This project models the three pieces of that pipeline that carry logic, and proves what
they promise.

- **The document builder** (`DocxUtils`, `docx_utils.dfy`).
  - `ProcessClientMeetingData` and `ProcessGeneralMeetingData` take the loosely shaped agenda
    JSON and push headings, paragraphs and bullets onto a `children` list, loop by loop, as the
    source does. The list then replaces the first section of a fresh document.
  - Each builder is proved equal to a specification function of its input:
    `ClientBlocks` or `GeneralBlocks`.
  - JavaScript falsiness is modelled as an `Option<string>` that is absent or `""`
    (`Js.Truthy`). The `|| default` fallbacks are `Js.Or` and `Js.OrEmpty`.
  - The docx library's `Paragraph` constructors become the `Block` datatype:
    headings of levels 1 to 3, paragraphs of text runs (some bold), and bullets of level 0 or 1.
- **The layout read back** (`DocxLayout`, `docx_layout.dfy`). Lemmas about the specification
  functions:
  - the fixed opening blocks and their "N/A" defaults;
  - which level-2 sections appear, in which order, and exactly when;
  - how many blocks each account, topic item, agenda item and action item contributes;
  - that agenda items keep input order, whatever their `order` field says.
- **The prompt builder** (`PromptUtils`, `prompt_utils.dfy`).
  - `GenerateClientMeetingPrompt` and `GenerateGeneralMeetingPrompt` grow `userMessage` with
    `+=`. There is one loop over the talking points.
  - Both are proved equal to `FullPrompt(base, ClientUserMessage(...))` or to its general
    counterpart.
  - `JSON.parse` of the talking-points field is a parameter returning a `Parsed` value. The
    value either throws, is an array of points, or is some other value. For another value
    the model records only whether the source's guard `value && value.length > 0` holds.
  - Another value can pass that guard: a non-empty string, or an object with a positive
    `length`. The source then appends the section heading. Its `forEach` throws, and the
    exception is caught, so the heading stays without lines. The model keeps that behaviour.
  - The two system prompts are opaque strings passed in (`BasePrompts`).
- **The form's state** (`Form`, `agenda_form.dfy`).
  - A class `AgendaForm` holds the `agendaType`, the stored `file` and the `talkingPoints`
    list. Its methods are the form's handlers: file change and removal, add, add custom,
    delete, edit, and drag end. Ids that the source takes from `Date.now()` are parameters.
  - The pure pieces are specified by functions with their own lemmas:
    - `filter` is `WithoutId`;
    - `map` is `Edited`;
    - the two `splice` calls are `Moved`;
    - the filename regular expression is `Sanitize`;
    - the upload check is `Rejection`.

## Model

| member | source | states |
|---|---|---|
| Js.Or | backend/src/utils/docx-utils.ts:19-24 | `field \|\| fallback` is the field when it is a non-empty string and the fallback otherwise; with a non-empty fallback the result is never blank |
| Js.OrEmpty | backend/src/utils/docx-utils.ts:27-30 | `list \|\| []` is the list when present (an empty array is truthy) and the empty list when missing |
| Js.Join | backend/src/utils/docx-utils.ts:316-319 | joining a single participant gives that participant unchanged |
| Js.JoinSnoc | backend/src/utils/docx-utils.ts:316-319 | joining one more participant appends `", "` and the name, so names keep their order |
| DocxUtils.ProcessClientMeetingData | backend/src/utils/docx-utils.ts:7-253 | returns a document with exactly one section, whose blocks are `ClientBlocks(jsonData)`: header, account section, topic section |
| DocxUtils.PushAccountSection | backend/src/utils/docx-utils.ts:100-163 | appends the "Account Details" heading and the accounts' blocks only when there are accounts |
| DocxUtils.PushAccounts | backend/src/utils/docx-utils.ts:112-162 | the account loop appends each account's five blocks, in input order |
| DocxUtils.PushTopicSection | backend/src/utils/docx-utils.ts:166-238 | appends the "Discussion Topics" heading and the topics' blocks only when there are topics |
| DocxUtils.PushTopics | backend/src/utils/docx-utils.ts:178-237 | the topic loop appends each topic's blocks, in input order |
| DocxUtils.PushTopic | backend/src/utils/docx-utils.ts:179-236 | appends the level-3 title, the notes paragraph if the notes are truthy, then the items' bullets |
| DocxUtils.PushItems | backend/src/utils/docx-utils.ts:201-235 | the item loop appends each item's bullets, in input order |
| DocxUtils.PushItem | backend/src/utils/docx-utils.ts:203-234 | a string item is one level-0 bullet; a titled object item is a level-0 bullet followed by level-1 detail bullets; an untitled object item appends nothing |
| DocxUtils.ProcessGeneralMeetingData | backend/src/utils/docx-utils.ts:255-513 | returns a document with exactly one section, whose blocks are `GeneralBlocks(jsonData)` |
| DocxUtils.PushParticipants | backend/src/utils/docx-utils.ts:305-325 | appends "Participants:" and the participants text only for a non-empty list or string |
| DocxUtils.PushObjective | backend/src/utils/docx-utils.ts:328-359 | appends the objective heading and summary when the summary is truthy; the details paragraph is appended only inside that branch |
| DocxUtils.PushAgendaSection | backend/src/utils/docx-utils.ts:362-420 | appends the "Agenda Items" heading and the items' blocks only when there are items |
| DocxUtils.PushAgendaItems | backend/src/utils/docx-utils.ts:374-419 | the agenda loop appends each item's blocks, in input order |
| DocxUtils.PushAgendaItem | backend/src/utils/docx-utils.ts:375-418 | `titleText` built with `+=` equals `AgendaItemTitle(item)`; then notes and sub-item bullets follow |
| DocxUtils.PushSubItems | backend/src/utils/docx-utils.ts:407-418 | appends one level-0 bullet per sub-item, in order |
| DocxUtils.PushTextSection | backend/src/utils/docx-utils.ts:423-443 | a level-2 heading and one paragraph only when the field is truthy; this covers additional notes here and the next meeting at lines 481-498 |
| DocxUtils.PushActionSection | backend/src/utils/docx-utils.ts:446-478 | appends the "Action Items" heading and the bullets only when there are action items |
| DocxUtils.PushActionItems | backend/src/utils/docx-utils.ts:458-477 | `actionText` built with `+=` equals `ActionText(item)`; one level-0 bullet per action item, in order |
| DocxUtils.DefaultTemplate | backend/src/utils/docx-utils.ts:515-532 | the fallback document has one section: a level-1 "Meeting Agenda" heading and one paragraph |
| DocxLayout.ClientOpening | backend/src/utils/docx-utils.ts:36-97 | a client agenda always opens with the five fixed blocks in order; name, date, total value and total income read "N/A" when missing or empty, and the two values are never blank |
| DocxLayout.ClientHeaderHeadings | backend/src/utils/docx-utils.ts:57-66 | the opening contributes exactly one level-2 heading, "Account Summary" |
| DocxLayout.AccountSectionHeadings | backend/src/utils/docx-utils.ts:100-111 | the account section's only level-2 heading is "Account Details", present exactly when there are accounts |
| DocxLayout.TopicSectionHeadings | backend/src/utils/docx-utils.ts:166-177 | the topic section's only level-2 heading is "Discussion Topics", present exactly when there are topics |
| DocxLayout.ClientSectionOrder | backend/src/utils/docx-utils.ts:57-238 | the level-2 headings of a client agenda are "Account Summary", then "Account Details" if there are accounts, then "Discussion Topics" if there are topics |
| DocxLayout.ClientOptionalSections | backend/src/utils/docx-utils.ts:100-177 | "Account Details" occurs if and only if there are accounts; "Discussion Topics" occurs if and only if there are topics |
| DocxLayout.AccountsLayout | backend/src/utils/docx-utils.ts:112-162 | the accounts contribute exactly five blocks each; account `i`'s blocks sit at positions `5i` to `5i+4` |
| DocxLayout.ItemsAreBullets | backend/src/utils/docx-utils.ts:202-235 | every block a topic's items produce is a bullet |
| DocxLayout.ItemLayout | backend/src/utils/docx-utils.ts:202-235 | a string item gives exactly one level-0 bullet; a titled object item gives its level-0 bullet immediately followed by one level-1 bullet per detail, in order; an untitled object item gives nothing |
| DocxLayout.ItemsTopBullets | backend/src/utils/docx-utils.ts:201-235 | the number of level-0 bullets equals the number of items that render: strings, plus objects with a truthy title |
| DocxLayout.TopicLayout | backend/src/utils/docx-utils.ts:178-236 | a topic opens with its level-3 title; the only paragraph is the notes, right after the title, present exactly when the notes are truthy; no other heading follows |
| DocxLayout.GeneralOpening | backend/src/utils/docx-utils.ts:267-325 | the title defaults to "Meeting Agenda" and the date to "N/A"; the third block is the "Participants:" heading if and only if there are participants, followed by the names joined with ", " |
| DocxLayout.ObjectiveSectionHeadings | backend/src/utils/docx-utils.ts:328-359 | the objective section has the "Meeting Objective" heading exactly when the summary is truthy |
| DocxLayout.TextSectionHeadings | backend/src/utils/docx-utils.ts:423-443 | a notes-like section has its heading exactly when its field is truthy |
| DocxLayout.AgendaSectionHeadings | backend/src/utils/docx-utils.ts:362-420 | the agenda section's only level-2 heading is "Agenda Items", present exactly when there are items |
| DocxLayout.ActionSectionHeadings | backend/src/utils/docx-utils.ts:446-478 | the action section's only level-2 heading is "Action Items", present exactly when there are action items |
| DocxLayout.GeneralSectionOrder | backend/src/utils/docx-utils.ts:328-498 | the level-2 headings of a general agenda are, in order, objective, agenda items, additional notes, action items and next meeting, each exactly when its field is truthy or its list non-empty |
| DocxLayout.ObjectiveDetailsNeedSummary | backend/src/utils/docx-utils.ts:328-359 | without a truthy summary, objective details change nothing in the output |
| DocxLayout.AgendaItemHeadings | backend/src/utils/docx-utils.ts:375-394 | an agenda item contributes exactly one level-3 heading, its title text |
| DocxLayout.AgendaHeadingsInInputOrder | backend/src/utils/docx-utils.ts:374-419 | the level-3 headings of the agenda items are their titles, item `i` at position `i`: input order, not sorted |
| DocxLayout.AgendaIgnoresOrder | backend/src/utils/docx-utils.ts:374-419 | changing the items' `order` fields leaves the output unchanged |
| DocxLayout.AgendaItemTitleParts | backend/src/utils/docx-utils.ts:375-383 | the heading is the title, then " (time)" if given, then " - presenter" if given; with neither it is exactly the title |
| DocxLayout.ActionTextParts | backend/src/utils/docx-utils.ts:459-467 | the bullet is the description, then " (Owner: owner)" if given, then " - Due: date" if given: all four combinations of owner and due date are stated |
| DocxLayout.ActionBullets | backend/src/utils/docx-utils.ts:458-477 | the action section has exactly one level-0 bullet per action item; bullet `i` is item `i`'s text |
| PromptUtils.GenerateClientMeetingPrompt | backend/src/utils/prompt-utils.ts:4-59 | the result is the client system prompt, "\n\nUSER INPUT:\n", then `ClientUserMessage`: header, report notice, advisor preferences, topics, instructions |
| PromptUtils.GenerateGeneralMeetingPrompt | backend/src/utils/prompt-utils.ts:61-117 | the result is the general system prompt, the delimiter, then `GeneralUserMessage`: header, participants, objective, agenda items, instructions |
| PromptUtils.AppendTalkingPoints | backend/src/utils/prompt-utils.ts:31-46 | the try block appends exactly `TopicsSection`: the heading and one line per point for a non-empty array, the heading alone for any other value passing the length guard, nothing otherwise |
| PromptUtils.AppendPointLines | backend/src/utils/prompt-utils.ts:38-41 | the `forEach` loop appends exactly `PointLines(points)`: one line per point, in input order |
| PromptUtils.PromptFraming | backend/src/utils/prompt-utils.ts:55-58 | the system prompt, the delimiter and the user message can each be read back from the prompt at fixed offsets |
| PromptUtils.PointLinesAppend | backend/src/utils/prompt-utils.ts:38-41 | the lines of two lists of points are the lines of each, concatenated |
| PromptUtils.PointLinesAt | backend/src/utils/prompt-utils.ts:38-41 | point `i`'s line sits between the lines of the points before and after it: input order |
| PromptUtils.PointLineShape | backend/src/utils/prompt-utils.ts:39-40 | a line is "\n- title", followed by ": notes" exactly when the notes are non-empty |
| PromptUtils.TopicsSectionPresence | backend/src/utils/prompt-utils.ts:31-46 | the topics section is non-empty if and only if the field is truthy and parses to a value passing the length guard (a non-empty array, a non-empty string, an object with a positive `length`), and it then starts with its heading |
| PromptUtils.ClientParseFailureIgnored | backend/src/utils/prompt-utils.ts:32-45 | a talking-points string that does not parse, or parses to a value failing the length guard, gives the same client message as no talking points |
| PromptUtils.GeneralParseFailureIgnored | backend/src/utils/prompt-utils.ts:90-103 | the same for the general message |
| PromptUtils.ClientMessageShape | backend/src/utils/prompt-utils.ts:14-52 | the client message starts with the name and date header; with no file and every optional field falsy it is exactly that header |
| PromptUtils.GeneralMessageShape | backend/src/utils/prompt-utils.ts:72-110 | the general message starts with the title and date header; with every optional field falsy it is exactly that header |
| Form.InitialPoint | frontend/src/components/AgendaForm.tsx:55-57 | the initial point has id "default-point" and empty notes; its title is "Portfolio Review" for a client agenda and "Overview" otherwise |
| Form.AgendaForm.constructor | frontend/src/components/AgendaForm.tsx:54-57 | a new form has no file and exactly the initial point |
| Form.Rejection | frontend/src/components/AgendaForm.tsx:86-102 | a file is refused if and only if it is not a PDF of at most 10 MB; a non-PDF gets the "Invalid file type" toast whatever its size; refusals are destructive |
| Form.RejectionOrder | frontend/src/components/AgendaForm.tsx:95-102 | an oversized PDF gets the "File too large" toast; exactly 10 MB is accepted |
| Form.AgendaForm.HandleFileChange | frontend/src/components/AgendaForm.tsx:83-110 | a refused file leaves the stored file unchanged and returns the refusal toast; an accepted one is stored and confirmed with its name; no selection does nothing |
| Form.AgendaForm.HandleFileRemove | frontend/src/components/AgendaForm.tsx:112-114 | clears the stored file and nothing else |
| Form.AgendaForm.AddTalkingPoint | frontend/src/components/AgendaForm.tsx:116-123 | appends one point with the given id and title and empty notes; earlier points are unchanged |
| Form.AgendaForm.AddCustomTopic | frontend/src/components/AgendaForm.tsx:125-127 | appends a "Custom Topic" point |
| Form.AgendaForm.HandleTalkingPointDelete | frontend/src/components/AgendaForm.tsx:129-131 | the list becomes `WithoutId(old list, id)` |
| Form.WithoutId | frontend/src/components/AgendaForm.tsx:130 | no kept point has the id, every kept point was in the list, and the list does not grow |
| Form.WithoutIdKeeps | frontend/src/components/AgendaForm.tsx:130 | every point with a different id is kept |
| Form.WithoutIdAppend | frontend/src/components/AgendaForm.tsx:130 | deleting distributes over concatenation, so kept points keep their relative order |
| Form.WithoutIdStable | frontend/src/components/AgendaForm.tsx:130 | deleting an id nobody has changes nothing; deleting twice is deleting once |
| Form.AgendaForm.HandleTalkingPointEdit | frontend/src/components/AgendaForm.tsx:133-139 | the list becomes `Edited(old list, id, title, notes)` |
| Form.Edited | frontend/src/components/AgendaForm.tsx:134-138 | same length and ids; each point with the id gets the new title and notes; every other point is unchanged |
| Form.EditThenDelete | frontend/src/components/AgendaForm.tsx:129-139 | editing keeps ids, so deleting after an edit removes the same points as deleting alone |
| Form.EditIdempotent | frontend/src/components/AgendaForm.tsx:133-139 | editing twice with the same values is editing once |
| Form.AgendaForm.OnDragEnd | frontend/src/components/AgendaForm.tsx:141-151 | no destination, source 0 or destination 0 leaves the list unchanged; otherwise the list becomes `Moved(old list, source, destination)` |
| Form.RemoveAt | frontend/src/components/AgendaForm.tsx:147 | one element shorter; elements before `i` in place, later ones shifted down; the multiset loses exactly `s[i]` |
| Form.InsertAt | frontend/src/components/AgendaForm.tsx:148 | one element longer, with `x` at `i`; elements before in place, later ones shifted up; the multiset gains exactly `x` |
| Form.Moved | frontend/src/components/AgendaForm.tsx:146-150 | same length, the dragged point at the destination, and a permutation of the list |
| Form.MovedAt | frontend/src/components/AgendaForm.tsx:146-150 | every position of the result: the dragged point at the destination, the points in between shifted by one, the rest in place |
| Form.MovedKeepsFront | frontend/src/components/AgendaForm.tsx:141-150 | points in front of both indices stay put; with both indices at least 1 the first point stays first |
| Form.MovedRoundTrip | frontend/src/components/AgendaForm.tsx:146-150 | dragging the point back from its destination to its source restores the list |
| Form.Sanitize | frontend/src/components/AgendaForm.tsx:194-196 | same length; each letter or digit is kept and every other character becomes '_' |
| Form.SanitizeStable | frontend/src/components/AgendaForm.tsx:194-196 | the result holds only letters, digits and '_'; sanitising is idempotent and leaves an alphanumeric name unchanged |
| Form.DownloadFilenameShape | frontend/src/components/AgendaForm.tsx:194-196 | the filename is the sanitised client name (client agenda) or meeting title (otherwise), as long as the original, followed by "_agenda.docx" |

## Left out

- The OpenAI calls, file uploads, the polling loop on run status and the parsing of the model's answer in `backend/src/services/agenda-service.ts`. They are network I/O against an external service.
- `docx.Packer` serialisation and the paragraph spacing attributes. They belong to a foreign library and do not change the block structure.
- The Express routing, multer storage and its 10 MB limit and PDF filter, HTTP headers and file deletion in `backend/src/index.ts`. These are I/O plumbing.
- `backend/src/utils/file-utils.ts` and the file writes of `createDefaultTemplate`. Only the template's content is modelled.
- The `templatePath` parameter of both builders. The source never reads it.
- The builders' `try`/`catch`. It only logs and rethrows.
  - A `null` topic item, on which the source would throw, is outside the input types. A `details` that is not an array is skipped by the source, and the model renders it as absent.
  - Some fields are modelled as present strings, where a missing one would print "undefined":
    - the account fields;
    - topic titles (docx-utils.ts:181);
    - agenda item titles;
    - action item descriptions (docx-utils.ts:459).
- Participants given as something other than an array or a string are not modelled. `toString()` of other values is not modelled.
- Talking points inside a parsed array are well-formed `{id, title, notes}` records. A `null` element would throw part-way through the lines.
- `Form.Sanitize`: the regular expression works on UTF-16 code units, Dafny on Unicode scalar values. A character outside the Basic Multilingual Plane becomes two '_' in the source and one here.
- `Form.AgendaForm.OnDragEnd`: the two `splice` calls on a copied array are modelled as sequence splices. The drag library's guarantee that indices lie within the list is a precondition.
- The toast display timing, React rendering, the zod and react-hook-form validation, the `date-fns` formatting, the network post and the blob download in `onSubmit`. They are UI and browser I/O; only the filename expression is modelled.
- The system prompt texts of `backend/src/config/prompts.ts`. They are opaque strings passed in.
- `Date.now()` ids. They are parameters.
- `DocxLayout.ItemsTopBullets`: object items whose title is falsy render nothing (docx-utils.ts:212), so the level-0 bullet count is the number of items that render, not the number of items.

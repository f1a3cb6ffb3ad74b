# multi-selector: the state logic of three React views, in Dafny

The repository has three small React views. Without the JSX, each view is a
component that holds a few state fields and a handler per user action. This
project models those handlers and proves what they do to the state.

- **Freight-audit chat** (`audit_chat.dfy`, module `AuditChat`). The class
  `FreightAuditChat` holds the selected issue, the draft text and the staged
  files. Its methods are the handlers: select an issue card, edit the draft,
  pick files, remove a staged file, send. Sending is guarded: it needs a
  selected issue, and either non-blank text or a staged file. It builds a
  `Message` signed "Auditor" whose content is the untrimmed draft and which
  carries one `Attachment` per staged file, in order. The message is appended
  to the selected issue and the draft is cleared. The clock, the random
  attachment ids and the object URLs are inputs to the send handler.
  `SendWithAttachmentScenario` walks through one send. It also shows that
  clicking the same card again brings back the seeded list entry without the
  sent message, because the sidebar's issue list is rebuilt on every render and
  never written back.
- **Multi-select dropdown** (`multi_select.dfy`, module `MultiSelect`).
  `Toggle` removes a selected value, every occurrence of it, or appends an
  absent one. The class `MultiSelectorDropdown` keeps the selection free of
  duplicates as its invariant. `Summary` is what the trigger button shows: a
  placeholder, or the labels of the first three values plus a "+k more"
  count.
- **Issue-note form** (`issue_note_form.dfy`, module `NoteForm`). The class
  `IssueNoteForm` holds a two-level map (prefix "Date"/"Rate", then flag
  name, then list of notes) and the flag name being typed for each prefix.
  Its methods add and remove flags and notes and edit a note's text. The
  class invariant says that both maps are keyed by exactly the two prefixes
  and that no flag ever has an empty note list. `FirstPrefixWithoutFlags` is
  the validation loop that runs before submit.
- `text.dfy` (module `Text`) models JavaScript's `trim` over the ECMAScript
  whitespace and line-terminator characters, as a forward scan past the
  leading whitespace and a backward scan past the trailing whitespace. `wrappers.dfy` holds `Option`.

The chat handlers do less than one might expect; the model follows the code:

- a send does not update the issue's `lastUpdate`;
- attachment ids and preview URLs are made when the message is sent, not when
  a file is staged;
- staging files has no "issue selected" guard;
- selecting another issue keeps the draft;
- no preview URL is ever released.

## Model

| member | source | states |
|---|---|---|
| `Text.SkipBlanks` | src/app/inbox/FreightAuditChat.tsx:89 | the scan stops at the first non-whitespace position at or after its start, or at the end, and passes over whitespace only |
| `Text.SkipBlanksBack` | src/app/inbox/FreightAuditChat.tsx:89 | the backward scan stops just after the last non-whitespace character before its start, never going below its lower bound, and passes over whitespace only |
| `Text.Trim` | src/app/inbox/FreightAuditChat.tsx:89 | the result is the slice of `s` that follows a blank prefix and precedes a blank suffix, the prefix being all the leading whitespace, and a non-empty result has no whitespace at either end |
| `Text.TrimEmptyIffBlank` | src/app/test/IssueNoteForm.tsx:58 | `s.trim() === ""` holds exactly when every character of `s` is whitespace |
| `AuditChat.InitialIssues` | src/app/inbox/FreightAuditChat.tsx:66-77 | the sidebar list has one issue, id 1, with no messages |
| `AuditChat.Attachments` | src/app/inbox/FreightAuditChat.tsx:97-103 | one attachment per staged file, same order, with name, size and type copied from the file, and the id and url generated for that position |
| `AuditChat.AttachmentsOfConcat` | src/app/inbox/FreightAuditChat.tsx:79-103 | files staged in two batches become the first batch's attachments followed by the second's |
| `AuditChat.CanSend` | src/app/inbox/FreightAuditChat.tsx:89-90 | a send goes ahead exactly when an issue is selected and the draft is not blank or some file is staged |
| `AuditChat.ComposeMessage` | src/app/inbox/FreightAuditChat.tsx:92-104 | sender "Auditor", role auditor, content equal to the untrimmed draft, the given timestamp, and one attachment per staged file in order |
| `AuditChat.AppendMessage` | src/app/inbox/FreightAuditChat.tsx:106-112 | the issue's messages are the old ones with exactly the new message after them; id, invoice number, carrier, status, priority and lastUpdate are unchanged |
| `AuditChat.FilterIndex` | src/app/inbox/FreightAuditChat.tsx:84-86 | filtering by position removes exactly the element at an index in range, keeping the rest in order, and removes nothing for any other index |
| `AuditChat.FreightAuditChat.constructor` | src/app/inbox/FreightAuditChat.tsx:60-62 | no issue selected, empty draft text, no staged files |
| `AuditChat.FreightAuditChat.SelectIssue` | src/app/inbox/FreightAuditChat.tsx:144 | the clicked list entry becomes the selected issue; draft text and staged files are untouched |
| `AuditChat.FreightAuditChat.EditMessage` | src/app/inbox/FreightAuditChat.tsx:294 | the draft text becomes the typed value; nothing else changes |
| `AuditChat.FreightAuditChat.HandleFileSelect` | src/app/inbox/FreightAuditChat.tsx:79-82 | the picked files follow the already staged ones, in the order picked; the old ones are kept |
| `AuditChat.FreightAuditChat.RemoveAttachment` | src/app/inbox/FreightAuditChat.tsx:84-86 | an index in range removes that staged file and keeps the others in order; any other index leaves the list unchanged |
| `AuditChat.FreightAuditChat.HandleSendMessage` | src/app/inbox/FreightAuditChat.tsx:88-116 | a refused send changes no state; an accepted one appends the composed message to the selected issue and leaves an empty draft text and no staged files |
| `MultiSelect.RemoveAll` | src/app/multi.tsx:42 | the value no longer occurs, a list without it comes back unchanged, and every other value keeps its membership and its number of occurrences |
| `MultiSelect.RemoveAllLength` | src/app/multi.tsx:42 | the filtered list is shorter by exactly the number of occurrences of the removed value |
| `MultiSelect.RemoveAllSingleton` | src/app/multi.tsx:42 | a one-entry list keeps its entry exactly when it is not the removed value |
| `MultiSelect.RemoveAllConcat` | src/app/multi.tsx:42 | filtering a concatenation gives the survivors of the first part, in order, followed by those of the second |
| `MultiSelect.Toggle` | src/app/multi.tsx:39-45 | a selected value is removed entirely, making the list shorter; an absent one is appended at the end; every other value keeps its membership |
| `MultiSelect.ToggleRemovesInPlace` | src/app/multi.tsx:41-42 | deselecting a value that occurs once leaves the values before it and after it, in their order |
| `MultiSelect.RemoveAllKeepsDistinct` | src/app/multi.tsx:42 | removing a value from a list without duplicates leaves a list without duplicates |
| `MultiSelect.ToggleKeepsDistinct` | src/app/multi.tsx:41-43 | a toggle never introduces a duplicate |
| `MultiSelect.RemoveAllAppended` | src/app/multi.tsx:42-43 | filtering a just-appended value out again restores the list |
| `MultiSelect.ToggleTwiceRestores` | src/app/multi.tsx:41-43 | toggling an absent value twice gives back the original selection |
| `MultiSelect.ToggleTwiceMovesToEnd` | src/app/multi.tsx:41-43 | toggling a selected value twice leaves it once, at the end |
| `MultiSelect.FindIndex` | src/app/multi.tsx:62 | the position found is the first entry with that value, or the end when there is none |
| `MultiSelect.FindLabel` | src/app/multi.tsx:62-63 | the label of the first catalogue entry with that value; nothing exactly when no entry has it |
| `MultiSelect.LabelsOf` | src/app/multi.tsx:60-64 | one lookup result per visible value, in order |
| `MultiSelect.Summary` | src/app/multi.tsx:57-78 | the placeholder exactly when nothing is selected; otherwise the labels of the first min(3, n) values in order, and a "+(n-3) more" count exactly when n > 3 |
| `MultiSelect.MultiSelectorDropdown.constructor` | src/app/multi.tsx:37 | the selection starts empty |
| `MultiSelect.MultiSelectorDropdown.ToggleSelection` | src/app/multi.tsx:39-45 | the selection becomes its toggle, the toggled value's membership flips, and the selection stays free of duplicates |
| `NoteForm.WithNoteAdded` | src/app/test/IssueNoteForm.tsx:36-44 | the flag, created if absent, gets one empty note after its existing ones; all other flags and prefixes are unchanged (an absent flag named after an inherited object member is left out, see below) |
| `NoteForm.WithNoteAddedKeepsNotes` | src/app/test/IssueNoteForm.tsx:36-44 | adding a note leaves no flag without notes |
| `NoteForm.SpliceOne` | src/app/test/IssueNoteForm.tsx:51 | `splice(index, 1)` removes the element at an index in range, counts a negative index from the end, removes the first element when a negative index reaches past the front, removes nothing at or past the end, and leaves an empty list empty |
| `NoteForm.AddFlagProblemAsWritten` | src/app/test/IssueNoteForm.tsx:58-66 | as written: refused as missing when the pending name is absent or blank, and as a duplicate when it is a flag or an inherited object member |
| `NoteForm.AddFlagProblem` | src/app/test/IssueNoteForm.tsx:58-66 | refused as missing exactly when the pending name is absent or blank, and as a duplicate exactly when that exact name is already a flag; accepted otherwise |
| `NoteForm.AsWrittenRefusesInheritedNames` | src/app/test/IssueNoteForm.tsx:63 | the written and the intended check differ exactly on non-blank names that are not flags but are inherited object members |
| `NoteForm.ToStringFlagRefused` | src/app/test/IssueNoteForm.tsx:63-65 | with no flags yet, the name "toString" is refused as a duplicate as written, and accepted by the intended check |
| `NoteForm.WithNewFlag` | src/app/test/IssueNoteForm.tsx:68-74 | the name becomes a flag holding exactly one empty note; all other flags and prefixes are unchanged |
| `NoteForm.FirstPrefixWithoutFlags` | src/app/test/IssueNoteForm.tsx:92-97 | passes exactly when Date and Rate both have a flag; otherwise it names the first prefix, in Date-then-Rate order, that has none |
| `NoteForm.IssueNoteForm.constructor` | src/app/test/IssueNoteForm.tsx:18-26 | both prefixes start with no flags and an empty pending name |
| `NoteForm.IssueNoteForm.SetNewFlagName` | src/app/test/IssueNoteForm.tsx:133 | only that prefix's pending name changes |
| `NoteForm.IssueNoteForm.HandleIssueNoteChange` | src/app/test/IssueNoteForm.tsx:28-34 | only the indexed note's text changes; the list keeps its length and every other note, flag and prefix is unchanged |
| `NoteForm.IssueNoteForm.AddIssueNote` | src/app/test/IssueNoteForm.tsx:36-44 | the notes become the add-note update of the old notes; the pending names are untouched |
| `NoteForm.IssueNoteForm.RemoveIssueNote` | src/app/test/IssueNoteForm.tsx:47-55 | the note is spliced out only when the flag has more than one, so no flag loses its last note; nothing else changes |
| `NoteForm.IssueNoteForm.AddFlag` | src/app/test/IssueNoteForm.tsx:57-77 | a refused name changes nothing; an accepted one adds the flag with one empty note and clears that prefix's pending name |
| `NoteForm.IssueNoteForm.RemoveFlag` | src/app/test/IssueNoteForm.tsx:81-87 | only that flag of that prefix is deleted; all other flags and prefixes keep their notes |

## Findings

| source | as written | input that shows it | evidently intended | confidence | as-written member | corrected member |
|---|---|---|---|---|---|---|
| src/app/test/IssueNoteForm.tsx:63 | the duplicate test `formData[prefix][name]` is truthy for any name the notes object inherits from `Object.prototype` | Date has no flags and the typed flag name is "toString" (likewise "constructor", "valueOf", ...): the form alerts "Flag name already exists" | refuse only a name that is already a flag of that prefix | high; not executed | `NoteForm.ToStringFlagRefused` (on `NoteForm.AddFlagProblemAsWritten`) | `NoteForm.AddFlagProblem`, used by `NoteForm.IssueNoteForm.AddFlag` |

## Left out

- Rendering: the JSX, the shadcn and lucide components, the popover's `open` state, the search and filter inputs, and the check marks beside the dropdown entries.
- The clock (`new Date().toISOString()`), the random ids (`Math.random().toString(36)`) and `URL.createObjectURL` are nondeterministic or foreign calls. They are parameters of `HandleSendMessage`, and of `InitialIssues` for the seeded timestamp.
- Releasing preview URLs: the code never releases them, so the model has no handle lifecycle.
- The `fetch`, `response.json` and `alert` submission path after the validation loop (src/app/test/IssueNoteForm.tsx:99-116) is network I/O. The alerts themselves become the `AddFlagError` values and the prefix returned by `FirstPrefixWithoutFlags`.
- src/app/inbox/type.ts only repeats the type declarations at the top of src/app/inbox/FreightAuditChat.tsx. It is not part of this model.
- Aliasing in the note form: `handleIssueNoteChange`, `removeIssueNote` and `removeFlag` copy only the top-level object. They then mutate nested objects that the previous state shares. Dafny maps and sequences are values, so the model shows only the resulting state, not this sharing.
- `Message.attachments` is optional in the source's type. The model always uses a sequence, which is what every sent message has.
- JavaScript numbers: a file size is a `nat`, and an index is an `int`. Fractional indices are not modelled.
- The handlers of the note form require the prefix, and where it is read the flag and index, to exist. With a missing prefix the note handlers throw a `TypeError`. The exceptions are `addFlag`, which alerts "Please enter a flag name", and typing a flag name, which adds the prefix to the pending-name map. The view only calls these handlers for prefixes, flags and indices it has rendered.
- `NoteForm.WithNoteAdded` and `NoteForm.IssueNoteForm.AddIssueNote` do not model the crash for an absent flag named after an `Object.prototype` member ("toString", "constructor", "__proto__", ...). There `prevData[prefix][flag] || []` (src/app/test/IssueNoteForm.tsx:41) yields the inherited function, and spreading it throws a `TypeError`; the model instead creates the flag with one empty note. The view only adds notes to flags it has rendered from `Object.entries` (src/app/test/IssueNoteForm.tsx:145, 183), which are own keys, so it never makes this call.
- Flag order: each prefix's flags are a Dafny `map`, so the insertion order that a JavaScript object keeps is lost. That order decides the order of the rendered flag cards (src/app/test/IssueNoteForm.tsx:145) and of the keys in the submitted JSON. Neither is modelled.
- `HandleSendMessage` returns whether the message was sent. The source handler returns nothing. The flag only reports which branch was taken.

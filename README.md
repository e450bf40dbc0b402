# Motivation-letter drafts page, modelled in Dafny

The page (`app.js`) lets a user type a company name and a motivation text,
save them as a draft, see every saved draft in a list, and delete a draft
after confirming. Drafts live in one browser storage slot (`esDrafts`) as
an array, most recent first. A character counter under the text box shows
the text's length and warns, in red, once it passes 400 characters. The
warning never stops a save.

The model has five modules:

- `Text` (`text.dfy`): the whitespace trim applied to both fields before
  they are validated and stored, and the line-feed to `<br>` replacement
  used when a draft's text is listed.
- `CharCount` (`charcount.dfy`): the counter's caption and colour, with the
  400-character threshold and the decimal rendering of the length.
- `Drafts` (`drafts.dfy`): the draft record, the save guard, saving
  (prepend one draft) and deleting (drop every draft with a given id) as
  functions on the list.
- `SavedList` (`savedlist.dfy`): the list view, which is a placeholder when
  nothing is stored and otherwise one entry per draft in order.
- `App` (`app.dfy`): the page as a class `Page`. Its fields are the stored
  list, the two form values, the counter and the list container. Its
  methods are `HandleSave`, `DeleteDraft`, `RenderDrafts` and
  `UpdateCharCount`, plus the two input events. `Shown()` says that the
  list shows the stored drafts and the counter shows the textarea; every
  method keeps it.

The storage slot is the field `stored`. A write is read back unchanged. The
clock value used as the id, the formatted save time and the answer to the
confirmation dialog are parameters.

Notes on the code:

- The body field of a stored draft is `text` (app.js:81).
- Ids are `Date.now()` values and may repeat, so a delete removes every
  draft whose id matches.
- Stored text that does not parse makes `JSON.parse` throw (app.js:49).

## Model

| member | source | states |
|---|---|---|
| `Text.TrimStartShape` | app.js:68-69 | trimming the start keeps a suffix of the input: only whitespace is dropped before it, and it does not start with whitespace |
| `Text.TrimEndShape` | app.js:68-69 | trimming the end keeps a prefix of the input: only whitespace is dropped after it, and it does not end with whitespace |
| `Text.Trim` | app.js:68-69 | the result is the input with all whitespace cut from both ends: a contiguous slice with only whitespace around it, and it neither starts nor ends with whitespace |
| `Text.TrimFixedIff` | app.js:68-69 | trim leaves a string unchanged if and only if it is empty or neither starts nor ends with whitespace |
| `Text.TrimIdempotent` | app.js:68-69 | trimming twice is the same as trimming once |
| `Text.TrimEmptyIff` | app.js:68-72 | a field fails the emptiness check if and only if it is all whitespace |
| `Text.TrimNonEmpty` | app.js:68-72 | a field that starts with a non-space character passes the emptiness check |
| `Text.ReplaceNewlines` | app.js:151 | the listed text contains no line feed, and equals the text when the text had none; with `ReplaceNewlinesAppend` and `RestoreReplaceNewlines` each line feed is shown as `<br>` |
| `Text.ReplaceNewlinesAppend` | app.js:151 | the replacement distributes over concatenation: it acts character by character |
| `Text.ReplaceNewlinesLength` | app.js:151 | the listed text is longer by exactly three characters per line feed |
| `Text.RestoreReplaceNewlines` | app.js:151 | for a text without `<`, reading `<br>` back as a line feed recovers the original text |
| `CharCount.Decimal` | app.js:23 | the shown length is a non-empty string of decimal digits, with a leading `0` only for zero |
| `CharCount.DecimalRoundTrip` | app.js:23 | the digits shown denote exactly the number written |
| `CharCount.CounterFor` | app.js:19-31 | the counter is red if and only if the text is longer than 400 |
| `CharCount.CounterShowsLength` | app.js:20-23 | the caption starts with 文字数： followed by digits that read back as the text's length, with or without the warning |
| `CharCount.WarningIffOverLimit` | app.js:26-31 | the caption ends with the over-limit notice if and only if the length is greater than 400, so exactly 400 is not flagged |
| `Drafts.Save` | app.js:68-90 | rejected input leaves the list unchanged; accepted input adds one draft at index 0 that holds the trimmed name, the trimmed text, the given id and savedAt and is well formed, and the old drafts follow unchanged in order |
| `Drafts.SaveSize` | app.js:72-90 | the list grows by one if and only if the input is accepted, and is unchanged if and only if it is rejected |
| `Drafts.SavePreservesWellFormed` | app.js:68-87 | if every stored draft has a non-empty, trimmed name and text, that stays true after a save |
| `Drafts.RemoveId` | app.js:118-120 | no survivor has the deleted id, and the list never grows |
| `Drafts.RemoveIdMembers` | app.js:120 | a draft survives a delete if and only if it was stored and carries a different id |
| `Drafts.RemoveIdAppend` | app.js:120 | deleting distributes over concatenation, so survivors keep their relative order |
| `Drafts.RemoveIdCounts` | app.js:120 | the deleted id occurs zero times afterwards, and every other draft occurs exactly as often as before |
| `Drafts.RemoveIdUnchangedIff` | app.js:120 | a delete leaves the list unchanged if and only if no draft carries that id |
| `Drafts.RemoveIdIdempotent` | app.js:118-123 | deleting the same id twice is the same as deleting it once |
| `Drafts.RemoveIdPreservesWellFormed` | app.js:120 | deleting keeps a list of well-formed drafts well formed |
| `SavedList.EntryFor` | app.js:148-152 | an entry shows the draft's company name and save time, its text with every line feed replaced by `<br>` (so no line feed is left, and the text is unchanged if it had none), and a delete control for the draft's id |
| `SavedList.EntriesFor` | app.js:142-161 | there is one entry per draft, and entry k is the entry for draft k |
| `SavedList.Render` | app.js:130-161 | the view is the placeholder message if and only if the list is empty, and otherwise the per-draft entries |
| `SavedList.EntriesForAppend` | app.js:142-161 | listing distributes over concatenation, so entries appear in list order |
| `SavedList.RenderAfterSave` | app.js:86-93 | after an accepted save the view shows the new draft's entry first, then exactly the entries it showed before |
| `SavedList.RenderAfterDelete` | app.js:118-124 | after a confirmed delete the entries are the old entries minus those whose delete control has that id, in the same order; the view shows them, or the placeholder when no draft is left |
| `App.Page.constructor` | app.js:180 | on load the list shows the stored drafts, the form is empty, and the counter agrees with the empty textarea |
| `App.Page.UpdateCharCount` | app.js:19-31 | the counter becomes the counter for the current textarea value; nothing else changes |
| `App.Page.InputCompanyName` | app.js:3 | editing the company field changes only that field |
| `App.Page.InputMotivationText` | app.js:35 | editing the textarea changes it and refreshes the counter, and nothing else |
| `App.Page.RenderDrafts` | app.js:130-162 | the container holds the view of the stored list; the loop appends one entry per draft in order |
| `App.Page.HandleSave` | app.js:65-99 | reports whether the input was accepted. The stored list becomes the list after the save. An accepted save re-renders the list and clears both fields and the counter. A rejected save changes nothing. The list view and counter stay in step with the state, and well-formed storage stays well formed |
| `App.Page.DeleteDraft` | app.js:113-125 | a declined delete changes nothing. A confirmed delete drops every draft with that id and re-renders the list. The form fields and counter are never touched, the view stays in step, and well-formed storage stays well formed |
| `App.WarningNeverBlocksSave` | app.js:65-99 | for all accepted input, whatever the text's length, the save puts the trimmed draft first; past 400 characters the counter is red at the same time |

## Left out

- DOM lookup, `innerHTML` markup, CSS classes and event-listener wiring (app.js:3-7, 35, 102, 144-160, 180). A view entry keeps only what it displays: the company name, the save time, the body, and the id its delete button targets.
- The company name, save time and body are put into `innerHTML` without escaping. The model does not describe what the browser makes of markup in them.
- `alert` messages (app.js:73, 98) are dropped. `HandleSave` returns whether the input was accepted instead. The confirmation dialog (app.js:114) becomes the `confirmed` parameter.
- `event.preventDefault()` (app.js:66) is left out: it concerns the browser's form submission only.
- `localStorage` and `JSON.parse`/`JSON.stringify` (app.js:46-59) are left out. The slot is the `stored` field, and a written list is read back unchanged. The exception `JSON.parse` throws on malformed stored text is not modelled.
- `Date.now()` and `toLocaleString('ja-JP')` (app.js:79, 82) are clock reads and locale formatting. The model takes their values as the `id` and `savedAt` parameters. Id uniqueness is not claimed, because the code does not guarantee it.
- `editDraft` (app.js:170-172) is unfinished and has no behaviour to model. Its opening brace is never closed, so app.js as written does not parse and registers none of its listeners (app.js:35, 102, 180), and the `DOMContentLoaded` listener at line 180 sits inside `editDraft`. The model assumes that brace is closed after line 172, so line 180 is at top level. `App.Page.constructor` (the load-time render), `App.Page.InputMotivationText` (the line-35 listener) and `App.Page.HandleSave` (the line-102 listener) all rest on that assumption.
- The page's initial HTML, including the counter's initial text, is not part of this model. The constructor sets the counter for an empty textarea.
- Text.Trim: uses a fixed ECMAScript whitespace and line-terminator set. Its Zs part is Unicode category Zs as of Unicode 6.3, which removed U+180E from that category. Later changes to Zs are not tracked.
- CharCount.CounterFor: the length is the number of Dafny characters (Unicode scalar values). JavaScript counts UTF-16 code units, so a character outside the Basic Multilingual Plane counts once here and twice in the browser.

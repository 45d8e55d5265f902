# HEDi-GEAR inventory selection — selection and submission engine

A Dafny model of the two files that hold the logic of the campaign's
inventory-selection site:

- `pages/index.js`, the selection page: the inventory is split into the
  groups "Included", "Pick 1", "Pick 3" and "Pick 2"; the user picks one bag
  (clicking the chosen bag again clears it), toggles up to three bookstore
  patches and up to two other patches (a click on a chosen patch removes it,
  a click on a new one adds it only below the limit, and at the limit the
  click does nothing), fills in name, email and address, and may submit only
  when everything is complete. Drive share links are rewritten into
  direct-download image URLs.
- `pages/api/submit-to-notion.js`, the submission route: it answers non-POST
  requests with 405, missing Notion credentials with 500, and otherwise builds
  a Notion create-page payload (multi-select tags cut to 100 characters, a
  "- name" bullet list for the included items, the fixed campaign label),
  sends it with a single `fetch`, and reports 200, a 500 carrying Notion's
  error message, or a generic 500 when the call throws.

Files:

| file | module | contents |
|---|---|---|
| `wrappers.dfy` | `Wrappers` | `Option`, used for `null`/`undefined` |
| `seqs.dfy` | `Seqs` | `Filter` (`Array.prototype.filter`) and its lemmas |
| `text.dfy` | `Text` | `trim`, `substring(0, n)`, `join`, and a `split` used to state what `join` produced |
| `inventory.dfy` | `Inventory` | the catalog item, the partition, `transformImageUrl` |
| `selection.dfy` | `Selection` | the generic `Toggle(list, item, N)`, the single pick, the `Session` class holding the page state |
| `notion.dfy` | `NotionRoute` | `formatMultiSelect`, `formatRichTextList`, the payload, the handler |

Design decisions:

- The two toggle handlers are the same code with limits 3 and 2; both are
  modelled by one function `Toggle(s, item, limit)`, and every lemma about it
  holds for any limit (so also for the `patchSelectionLimit` of 5 in
  `campaign.config.js`).
- The page state (`useState` hooks) is the class `Selection.Session`; each
  click handler is a method that replaces one field with `SelectSingle` or
  `Toggle` of its old value and keeps the invariant `Valid()`: both patch
  lists within their limits and free of duplicate names.
- The handler is a method over an abstract fetch outcome
  (`Ok | NotOk(message) | Throws`). Its ghost out-parameter `calls` lists the
  fetch requests made, so `|calls|` is the fetch-call count.
- The single pick clears when the chosen bag is clicked again. The page keeps
  `name`, `email` and `address` as three strings. Neither file keeps a
  submission status: `handleSubmit` only shows the assembled record, and the
  route keeps no state between requests. The catalog item has the fields
  `productName`, `selectionOption` and `imageUrl`.

## Model

| member | source | states |
|---|---|---|
| `Seqs.Filter` | pages/index.js:15-18 | the result is no longer than the input and holds exactly the input's elements that pass the test; `Seqs.FilterConcat` fixes their order |
| `Inventory.Partition` | pages/index.js:15-18 | an item is in a group exactly when it is in the inventory and carries that group's label |
| `Inventory.PartitionDropsUnrecognized` | pages/index.js:15-18 | an item with any other label is in none of the four groups |
| `Inventory.PartitionConcat` | pages/index.js:15-18 | each group is the ordered subsequence of its label's items: partitioning a concatenation concatenates the groups |
| `Inventory.PartitionSingle` | pages/index.js:15-18 | a single item lands in its own label's group and in no other |
| `Inventory.PartitionSizes` | pages/index.js:15-18 | the four group sizes plus the number of unrecognised items equal the inventory size: no item is counted twice or lost |
| `Inventory.RunLength` | pages/index.js:5 | the greedy `[^/]+`: the run stays in bounds and stops only at a '/' or at the end of the string |
| `Inventory.RunLengthNoSlash` | pages/index.js:5 | no character of that run is a '/' |
| `Inventory.DriveIdSpec` | pages/index.js:5-7 | the captured id is the maximal non-empty run of non-'/' characters right after "/d/" |
| `Inventory.FindDriveId` | pages/index.js:5-6 | the search reports no match exactly when no position at or after its start matches "/d/" followed by a non-'/' character |
| `Inventory.FindDriveIdSound` | pages/index.js:5-7 | whatever the search reports is the capture of the leftmost matching position |
| `Inventory.FindDriveIdLeftmost` | pages/index.js:5-7 | whenever a leftmost match exists, the search reports exactly its capture |
| `Inventory.TransformImageUrl` | pages/index.js:4-11 | a URL with no match is returned unchanged; otherwise the result is the Drive download prefix followed by the non-empty maximal run after the leftmost match |
| `Selection.Toggle` | pages/index.js:36-52 | a click keeps a list within its limit, adds nothing but the clicked item, and leaves the clicked name present exactly when it was absent and the list was below the limit |
| `Selection.SelectSingle` | pages/index.js:28-34 | only the clicked bag can become chosen, and the choice is cleared only when a bag was chosen |
| `Selection.RemoveName` | pages/index.js:39 | the result holds exactly the entries whose name differs from the clicked one |
| `Selection.ToggleBound` | pages/index.js:36-52 | a list within its limit stays within it after a click |
| `Selection.ToggleAtLimit` | pages/index.js:40-42 | at the limit, a click on an absent item leaves the list unchanged (no error) |
| `Selection.ToggleRemoves` | pages/index.js:37-39 | a click on a chosen item removes every entry with its name, keeps the others in order, and always shortens the list whatever its length |
| `Selection.ToggleAppends` | pages/index.js:40-41 | below the limit, a click on an absent item appends it after the existing entries |
| `Selection.ToggleUnique` | pages/index.js:36-52 | a click never creates two entries with the same name |
| `Selection.ToggleTwice` | pages/index.js:36-43 | adding an item and clicking it again restores the original list |
| `Selection.ToggleAllBound` | pages/index.js:36-52 | no sequence of clicks takes the list past its limit |
| `Selection.ToggleAllFills` | pages/index.js:36-52 | clicking distinct unchosen items within the limit selects exactly them, in click order |
| `Selection.SelectSingleSpec` | pages/index.js:28-34 | clicking the current bag (same name) clears the choice; any other click chooses the clicked bag |
| `Selection.SelectSingleTwice` | pages/index.js:28-34 | clicking a bag that is not the current one twice leaves no bag chosen |
| `Selection.Session.constructor` | pages/index.js:21-26 | the page starts with no bag, empty patch lists and empty contact fields |
| `Selection.Session.HandleSelectPick1` | pages/index.js:28-34 | the bag becomes none if the clicked bag has the current bag's name, else the clicked bag; the invariant is kept and nothing else changes |
| `Selection.Session.HandleTogglePick3` | pages/index.js:36-43 | the bookstore list becomes the toggle with limit 3 of its old value; the invariant (at most 3, unique names) is kept and nothing else changes |
| `Selection.Session.HandleTogglePick2` | pages/index.js:45-52 | the other-patch list becomes the toggle with limit 2 of its old value; the invariant (at most 2, unique names) is kept and nothing else changes |
| `Selection.Session.SetName` | pages/index.js:225 | the name field takes the typed value |
| `Selection.Session.SetEmail` | pages/index.js:232 | the email field takes the typed value |
| `Selection.Session.SetAddress` | pages/index.js:238 | the address field takes the typed value |
| `Selection.Session.IsPick3Selected` | pages/index.js:54 | a bookstore patch shows as selected exactly when clicking it would deselect it |
| `Selection.Session.IsPick2Selected` | pages/index.js:55 | another patch shows as selected exactly when clicking it would deselect it |
| `Selection.Session.ReadyToSubmit` | pages/index.js:57-64 | true exactly when a bag is chosen, 3 and 2 patches are chosen, and name, email and address each hold a non-whitespace character |
| `Selection.Session.SubmissionRecord` | pages/index.js:66-75 | the record carries the current state and the ordered "Included" group of the partition (exactly the inventory's "Included" items); its patch lists are within their limits with unique names |
| `Text.Trim` | pages/index.js:61-63 | the result is a slice of the input that neither starts nor ends with whitespace, and only whitespace is cut on either side |
| `Text.TrimEmpty` | pages/index.js:61-63 | a trimmed string is empty exactly when the string is all whitespace |
| `Text.Truncate` | pages/api/submit-to-notion.js:10 | `substring(0, n)` gives a prefix of length min(length, n) |
| `Text.Join` | pages/api/submit-to-notion.js:17 | the joined text starts with the first line (`Text.SplitJoin` shows the lines come back by splitting) |
| `Text.SplitJoin` | pages/api/submit-to-notion.js:17 | lines without the separator are recovered by splitting their join |
| `NotionRoute.FormatMultiSelect` | pages/api/submit-to-notion.js:4-11 | one tag per valid entry (non-null, with a truthy name or a non-empty string), in order; each tag is a prefix of its name of length min(length, 100) |
| `NotionRoute.FormatMultiSelectEmpty` | pages/api/submit-to-notion.js:6-7 | an empty or all-invalid list gives no tags |
| `NotionRoute.BackpackTags` | pages/api/submit-to-notion.js:57 | the bag field has at most one tag, and none when no valid bag was sent |
| `NotionRoute.FormatRichTextList` | pages/api/submit-to-notion.js:14-18 | a missing or empty list gives "None"; otherwise the text starts with the first item's "- name" line (the full line structure is `RichTextLines`) |
| `NotionRoute.RichTextLines` | pages/api/submit-to-notion.js:14-18 | a missing or empty list gives "None"; otherwise the text splits back into exactly one "- name" line per item, with no trailing newline |
| `NotionRoute.BuildPayload` | pages/api/submit-to-notion.js:44-63 | the payload targets the configured database; names, email and address fields are copied from the body, a missing apt becomes ""; Backpack Selection is the multi-select of `[selectedPick1]` (at most one tag, none without a bag), Other Patches that of `selectedPick2`, Included Items the bullet list of `includedItems`, Submission Time the given timestamp, and Campaign the fixed label |
| `NotionRoute.PayloadIgnoresPick3` | pages/api/submit-to-notion.js:58 | "Other Patches" is built from `selectedPick2` alone; `selectedPick3` does not affect the payload |
| `NotionRoute.Handle` | pages/api/submit-to-notion.js:21-97 | non-POST gives 405 and no fetch; missing credentials give 500 with the configuration message and no fetch; otherwise exactly one fetch with the payload, bearer key and version 2022-06-28, and 200 on success, 500 "Notion API Error: " plus the remote message on rejection, 500 generic on an exception |

## Left out

- Rendering: the JSX, inline styles, the image `onError` placeholder and the `alert` of the submission record (pages/index.js:76-268) are presentation; `SubmissionRecord` gives the record as a value.
- The `!disabled && …` click guards (pages/index.js:152, 190) repeat what the handlers already enforce; only the handlers are modelled.
- `fetch`, its `Content-Type` header, `JSON.stringify` and all logging (pages/api/submit-to-notion.js:29-42, 65-84) are left out; the fetch result is the `FetchOutcome` parameter and the request is recorded in the ghost `calls`.
- The clock (`new Date().toISOString()`) is the `now` parameter, and `process.env` reads are the `Env` parameter.
- `NotionRoute.Handle`: a POST with credentials whose body has no `shippingAddress`, or whose `includedItems` holds `null`/`undefined`, throws outside the `try` block before any response; this is a precondition, with no status code modelled for it. A body whose `selectedPick2` is missing (which also throws) cannot be expressed, since that field is a sequence.
- NotionRoute.Handle: `NotOk` stands for a non-ok response whose body is a JSON object; a non-ok response whose body is not JSON or is JSON `null` throws while it is read, inside the same `try`, and is the `Throws` outcome (the generic 500).
- `NotionRoute.FormatMultiSelect`: entries are `null`, `undefined`, strings, or objects with an optional string `productName`; numbers, booleans and non-string names are not modelled.
- `NotionRoute.RichTextLines`: the one-line-per-item reading is stated only for names without a newline; a name holding a newline gives more lines.
- `Text.TrimEmpty`: whitespace is the ASCII whitespace characters, no-break space, the byte-order mark and U+2028/U+2029; other Unicode space separators that JavaScript's `trim` also removes are not.
- `Text.Truncate`: counts characters, where JavaScript's `substring` counts UTF-16 code units.
- The regular expression engine is not modelled in general; only the one pattern `/\/d\/([^/]+)/` is written out by hand.
- `pages/privacy.js`, `pages/_app.js`, `tailwind.config.js` and the constants of `campaign.config.js` are static text, styling and configuration.
- The page's submission fields (`name`, `email`, `address`, `selectedPick3`) differ from what the route reads (`firstName`, `lastName`, `shippingAddress`, `selectedPick2`); no end-to-end round trip between the two files is stated.

# ai-models: client-side logic, modelled in Dafny

This project models the pure logic of the ai-models web client, the site that lists AI model
metadata and lets a user author a new model record:

- **Record schema** (`Schema`). The zod `modelSchema` is written as an explicit parser over
  untyped JSON values. `SafeParse` succeeds exactly on the values the schema accepts. It returns
  the typed record and drops every key the schema does not name. The two enumerations (five
  modalities, four capabilities) are datatypes. `ToJson` writes a record back out, and
  the round trip `SafeParse(ToJson(m)) == Some(m)` is proved.
- **Checkbox toggles** (`CheckboxToggle`, `ModalitiesCheckbox`). The capability and modality
  checkboxes share one change handler. Checking appends a value unless it is already present,
  in which case no update is issued. Unchecking filters out every occurrence. An undefined field
  reads as the empty list.
- **New-model wizard** (`ModelForm`). This is a step counter bounded to 1..6, with guarded Next
  and Back and a footer whose buttons follow the step. Submit first runs the schema resolver and
  offers a `{id}.json` download only on step 6.
- **Catalog loader** (`Models`). The directory walk visits entries in listing order, descends
  into every directory in place and keeps files named `*.json`. The load then parses each file
  and keeps, in order, the records that pass the schema. If any file is not JSON, the whole
  load fails.
- **Tool bar links** (`ToolBar`). `formatIdForUrl` maps every `:` to `_`. The download link
  and the edit link are built from the provider id and the mapped model id.
- **Size badges** (`SizeTiers`, `SizeBadge`, `TableSizeBadge`). A size falls into one of three
  tiers with thresholds 4 and 40. The tier picks both the icon and the background colour.

The model abstracts I/O as follows:

- The file system is a tree of `Entry` values in listing order.
- `JSON.parse` is a function parameter that may fail (`None`).
- `path.join` is `directory + "/" + item`.
- JSON numbers are `real`.
- An undefined form field is `Option.None`.

Two places where the code does not do what its own surrounding code evidently expects are modelled as written:

- The schema names the modality lists `input_modalities` and `output_modalities`. The records
  written by the catalog generator, and the wizard's own fields, keep them under a nested
  `modalities` object. The resolver drops unknown keys, so a record downloaded from the wizard
  never carries the modalities the user picked (`ModelForm.SubmitDownloadsIff`).
- The tool bar replaces only `:` in ids. The catalog generator names each stored file with `/`,
  `%` and `:` all replaced by `_` (`ToolBar.SanitizeModelId`). The links therefore point at the
  stored file exactly when the id has no `/` and no `%` (`ToolBar.LinkMatchesStoredFileIff`).

The schema puts no lower bound on costs and limits, so the model accepts negative values
(`Schema.NoFurtherConstraints`).

The modality checkbox (components/form/modalities-checkbox.tsx:25-37) has the same handler text
as the capability checkbox. Both are modelled by the one `CheckboxToggle` module. The table
cites the capability file for the shared members, and `ModalitiesCheckbox` adds the properties
of runs of clicks.

## Model

| member | source | states |
|---|---|---|
| Seqs.Includes | components/form/capabilities-checkbox.tsx:36 | `includes` is true exactly when the value occurs in the list |
| Seqs.RemoveAll | components/form/capabilities-checkbox.tsx:40-42 | the filter removes every occurrence, keeps the other values with their counts, and keeps their relative order (subsequence) |
| CheckboxToggle.IsChecked | components/form/capabilities-checkbox.tsx:32 | the box shows checked exactly when the value is in the list; an undefined list shows nothing checked |
| CheckboxToggle.OnCheckedChange | components/form/capabilities-checkbox.tsx:33-44 | checking issues no update exactly when the value is present, otherwise appends it at the end; unchecking always updates, to an order-preserving subsequence without the value and with every other value's count unchanged |
| CheckboxToggle.ClickSetsItsBox | components/form/capabilities-checkbox.tsx:32-43 | after a click, the box shows the state just chosen |
| CheckboxToggle.ClickLeavesOtherBoxes | components/form/capabilities-checkbox.tsx:39-43 | a click never changes another value's checked state |
| CheckboxToggle.CheckKeepsPrefix | components/form/capabilities-checkbox.tsx:35-37 | checking keeps the old list as a prefix and grows it by one only when the value was absent |
| CheckboxToggle.CheckIdempotent | components/form/capabilities-checkbox.tsx:35-38 | checking twice equals checking once |
| CheckboxToggle.CheckThenUncheckRestores | components/form/capabilities-checkbox.tsx:34-43 | checking an absent value and then unchecking it restores the original list (undefined reads as empty) |
| CheckboxToggle.ClickKeepsNoDup | components/form/capabilities-checkbox.tsx:35-43 | a duplicate-free list stays duplicate-free after any click |
| ModalitiesCheckbox.ReplayShowsLastClick | components/form/modalities-checkbox.tsx:25-37 | after any run of clicks, each modality box shows its last click, or its starting state if never clicked |
| ModalitiesCheckbox.ReplayKeepsNoDup | components/form/modalities-checkbox.tsx:26-37 | starting duplicate-free, no run of toggles creates a duplicate |
| ModelForm.HandleContinue | components/model-form.tsx:96-100 | Next moves forward by exactly one step when below 6 and is a no-op otherwise; it keeps the step within 1..6 |
| ModelForm.HandleBack | components/model-form.tsx:102-106 | Back moves back by exactly one step when above 1 and is a no-op otherwise; it keeps the step within 1..6 |
| ModelForm.NavigationUndoes | components/model-form.tsx:96-106 | Back undoes a Next that moved, and Next undoes a Back that moved |
| ModelForm.RunStaysInRange | components/model-form.tsx:96-106 | every sequence of Next/Back clicks from a step in 1..6 stays in 1..6 |
| ModelForm.RunAdvancesAtMostPerContinue | components/model-form.tsx:96-100 | the step never exceeds the starting step plus the number of Next clicks |
| ModelForm.LastStepNeedsFiveContinues | components/model-form.tsx:52-53 | from the initial step 1, reaching step 6 takes at least five Nexts, and five suffice |
| ModelForm.Footer | components/model-form.tsx:681-724 | Back is shown exactly when Back would move (otherwise Cancel); Next is shown exactly when Next would move (otherwise Download) |
| ModelForm.OnSubmit | components/model-form.tsx:76-87 | a download happens only on step 6; its file name is the raw id followed by `.json`, and it carries the record unchanged |
| ModelForm.FormCostParses | components/model-form.tsx:499-633 | the cost as entered, with empty fields undefined, passes the schema exactly when input and output prices are filled in |
| ModelForm.ResolvedValues | components/model-form.tsx:55-74 | the resolver yields the edited record, with the entered cost and no modalities, exactly when both required costs are set |
| ModelForm.SubmitDownloadsIff | components/model-form.tsx:76-94 | a download happens exactly on step 6 with both required costs set; it is named `{id}.json` and carries the form's fields but no modalities |
| ModelForm.DefaultsAreNotSubmittable | components/model-form.tsx:57-73 | the defaults have empty capabilities, empty input and `["text"]` output modalities, zero limits and both flags false, and they cannot be downloaded on any step, because their costs are undefined |
| ModelForm.DownloadNameVersusLinkName | components/model-form.tsx:87 | the download name equals the tool bar's link name exactly when the id has no `:` |
| Schema.ModalityName | lib/schema.ts:3 | each modality's name is one of the five accepted strings and parses back to that modality |
| Schema.ParseModality | lib/schema.ts:3 | a value is a modality exactly when it is one of the strings text, audio, image, video, pdf |
| Schema.CapabilityName | lib/schema.ts:4 | each capability's name is one of the four accepted strings and parses back to that capability |
| Schema.ParseCapability | lib/schema.ts:4 | a value is a capability exactly when it is one of the strings tools, vision, reasoning, embedding |
| Schema.EnumNamesAreExact | lib/schema.ts:3-4 | a JSON value parses to a given enumeration member exactly when it is that member's name |
| Schema.AsBool | lib/schema.ts:12-13 | only a JSON boolean passes as a boolean; nothing is coerced |
| Schema.ParseEach | lib/schema.ts:11 | an array passes exactly when every element does, and the result matches element by element |
| Schema.ParseCost | lib/schema.ts:17-22 | a cost passes exactly when input and output are numbers and each cache price is absent or a number; the parsed values are the JSON numbers, and a cache price is present exactly when its key is |
| Schema.ParseLimit | lib/schema.ts:23-26 | a limit passes exactly when context and output are numbers, with no lower bound |
| Schema.SafeParse | lib/schema.ts:6-27 | only objects pass; attachment and temperature must be JSON booleans; cost and limit must pass their own schemas |
| Schema.ModalitiesInverse | lib/schema.ts:3-16 | a value that reads as a modality list is exactly the JSON array of those modalities' names |
| Schema.CapabilitiesInverse | lib/schema.ts:4-11 | a value that reads as a capability list is exactly the JSON array of those capabilities' names |
| Schema.ParsedReadsBack | lib/schema.ts:6-27 | the converse of the round trip: a passing value holds, under every named key other than cost and limit, exactly what its record writes back out, so identifiers are strings, lists hold only valid names, and optional keys are well-typed when present |
| Schema.ParseToJson | lib/schema.ts:6-27 | every record, written out as JSON, passes the schema and reads back as itself |
| Schema.ParseIgnoresUnknownKey | lib/schema.ts:6 | adding or changing a key the schema does not name does not change the parse result |
| Schema.OptionalKeysMayBeAbsent | lib/schema.ts:14-16 | knowledge and both modality lists may be removed from a passing record, and it still passes |
| Schema.NoFurtherConstraints | lib/schema.ts:7-11 | a corollary of the round trip: empty ids, repeated capabilities and negative limits are accepted |
| Schema.ParseWithCost | lib/schema.ts:17-22 | the cost key is validated on its own: replacing it changes only the cost, or fails the record when the new cost fails |
| Models.KeepJson | lib/models.ts:15 | a file is kept exactly when its path ends in `.json`, and the result is no longer than the input |
| Models.JsonFiles | lib/models.ts:5-21 | every collected path ends in `.json` |
| Models.JoinEndsWithJson | lib/models.ts:10-15 | a joined path ends in `.json` exactly when the item name does |
| Models.JsonFilesIsFilteredWalk | lib/models.ts:9-18 | the walk equals a pre-order listing of every file in the tree, with directories expanded in place, filtered to `.json` names |
| Models.JsonFilesAppend | lib/models.ts:9-18 | the walk over a listing is the concatenation of the walks over its parts, so listing order is kept |
| Models.GetAllJsonFiles | lib/models.ts:5-21 | the loop with recursive descent computes exactly the walk |
| Models.ValidModels | lib/models.ts:27-39 | the kept records are never more than the documents |
| Models.ValidModelsMembers | lib/models.ts:31-37 | a record is returned exactly when some document parses to it: nothing invalid is kept and nothing valid is lost |
| Models.ValidModelsAppend | lib/models.ts:27-39 | keeping valid records distributes over concatenation, so the output follows file order |
| Models.ValidModelsKeepsAllValid | lib/models.ts:31-36 | when every document passes, the output is the parsed records one for one, in order |
| Models.Loaded | lib/models.ts:27-39 | the reduce fails exactly when some file is not JSON |
| Models.LoadedKeepsValid | lib/models.ts:27-39 | when every file parses, the reduce returns exactly the valid records in file order; invalid ones are dropped silently |
| Models.LoadedFailureSticks | lib/models.ts:29 | once a file fails to parse, the whole load fails regardless of later files |
| Models.GetModels | lib/models.ts:23-42 | the load fails exactly when some `.json` file is not JSON; otherwise it returns the valid records in file order, at most one per file |
| ToolBar.ReplaceColons | components/tool-bar.tsx:15 | the length is kept; each `:` becomes `_` and every other character is unchanged |
| ToolBar.FormatIdForUrl | components/tool-bar.tsx:13-16 | an undefined id maps to ""; otherwise the length is kept, only `:` changes (to `_`), `/` and `%` are kept, and no `:` remains |
| ToolBar.FormatIdempotent | components/tool-bar.tsx:15 | mapping twice equals mapping once |
| ToolBar.FormatFixedPoints | components/tool-bar.tsx:15 | an id is unchanged exactly when it contains no `:` |
| ToolBar.LinksDecode | components/tool-bar.tsx:29-39 | both links share the `{provider_id}/{mapped id}.json` path, which reads back as the provider id and the mapped id when the provider id has no `/` |
| ToolBar.LinkMatchesStoredFileIff | components/tool-bar.tsx:29 | the link path equals the generator's stored path exactly when the id contains no `/` and no `%` |
| SizeTiers.Render | components/size-badge.tsx:14-22 | of the three guarded backgrounds and three guarded icons, exactly one of each is shown, and both come from the same tier |
| SizeTiers.TierMonotone | components/size-badge.tsx:14-22 | a larger size is never in a lower tier |
| SizeTiers.TierBoundaries | components/size-badge.tsx:14-16 | the tiers partition the sizes: below 4, from 4 up to but excluding 40, and 40 or more; 4 is in the middle tier and 40 in the top tier |
| SizeBadge.Show | components/size-badge.tsx:11-25 | one emerald/amber/rose background and one icon, chosen by the size's tier |
| TableSizeBadge.Show | components/table/size-badge.tsx:11-25 | one green/yellow/red background and one icon, chosen by the size's tier |
| TableSizeBadge.AgreesWithPageBadge | components/table/size-badge.tsx:14-22 | the table badge shows the same icon as the page badge for every size, and only the colour names differ |

## Left out

- Search ranking, catalog ingestion and the edge API are outside the modelled client core and
  are not part of this model. The ranking is in .cloudflare/apis/src/utils.ts and the edge API in
  .cloudflare/apis/src/index.ts; the client reaches them only over HTTP (components/search.tsx,
  app/page.tsx, next.config.ts).
- The catalog generator script (.cloudflare/apis/scripts/generate-models.js) is not part of
  this model, apart from its file-name sanitising (`ToolBar.SanitizeModelId`), which is used to
  compare with the tool bar's links.
- File-system I/O in lib/models.ts: `readdirSync`, `statSync` and `readFileSync` become a tree
  of entries, and `JSON.parse` becomes a parameter that may fail. Symbolic links, I/O errors and
  the platform's listing order are not modelled.
- `path.join` normalisation (`..`, duplicate separators) is not modelled; a join is
  `directory + "/" + item`.
- React rendering, hooks, dialogs and the DOM/Blob download mechanics are left out
  (components/model-form.tsx:81-93). Only the file name and the record handed to
  `JSON.stringify` are modelled, and the serialised text is not.
- The `disabled` property of the PDF output checkbox is left out. It is enforced by the UI
  library, not by the change handler.
- The checkbox's third state, `"indeterminate"`, is left out; `checked` is a boolean.
- zod and react-hook-form internals are left out: error messages, resolver plumbing, and the
  `console.error` of validation errors. The schema is an explicit predicate, and unknown-key
  stripping is modelled only as "not checked and not kept".
- Floating-point semantics are left out. Numbers are reals, and `NaN`, `Infinity` and
  `Number("")` are not modelled. The form's limit fields hold reals directly.
- Static icon/logo tables, skeleton widths and the `{size}B` label text are left out, since
  they have no behaviour beyond their tables.
- Next.js rewrite matching (next.config.ts) is left out; it belongs to the framework.
- Models.ValidModels: its own contract states only the length bound. Membership, order and
  completeness are stated by ValidModelsMembers, ValidModelsAppend and
  ValidModelsKeepsAllValid.

# NUFI_Eval core, modelled in Dafny

NUFI_Eval is a web form over the NUFI identity-data API. A user searches by phone, e-mail, name or CURP. The server validates and forwards the request, or invents a deterministic demo answer. The client shows the returned person record as a dossier and a raw JSON view, and exports it as CSV, JSON or a DOCX report.

This project models the logic between the API payload and what the user sees or downloads, as values and state in Dafny:

- **Export pipeline** (`ExportUtils`, `KeyPolicy`): the recursive deny-list sanitizer, with its debug switch; the flattener into dotted paths; the CSV header and value rows; the HTML formatters.
  - The three sanitizers of the program share one pruning function, `KeyPolicy.Prune`, under three policies: export, document and display. Each policy keeps the key set its own source file keeps.
- **DOCX data pipeline** (`DocxGenerator`): the document sanitizer, phone formatting, selector and country-code extraction, payload unwrapping, person normalisation, the row text of every table, demographics, available-data counts and the fixed section order.
  - A section is a heading plus rows of strings.
- **Text clean-up** (`DocumentUtils`): brand-block deduplication, blank-line collapsing, bullet normalisation, capitalisation, the document sanitizer, the phone search and document validation.
- **Dossier view-model** (`JsonDetails`, `DisplayHelpers`): the primary-value fallback chains and the expandable sections and tables with their `expanded` flag. It also covers the payload and status location and the `@`-key metadata filter.
  - `DisplayHelpers` holds the exported helpers `formatKey`, `formatDisplayValue`, `sanitizeForDisplay`, `buildDossier` and `isMetadataKey`. Their definitions are not part of this model, so they are reconstructed from what `client/src/components/JsonDetailsRenderer.test.js` pins down.
- **Request validation** (`NufiService`, `InputPanel`): the whitelist/trim/require rules of the nine service functions, the network-error classification behind the demo fallback, and the four submit validators of the search form.
- **Export route** (`ExportRoute`): the required-parameter check, the selector priority chain, selector sanitisation and the file name.
- **Request counter** (`RequestCounter`): a class whose counters change on each request and each error reply, and reset.
- **Users and sessions** (`Auth`): a class holding the user table filled from the configuration, the gate and the login decision.
- **Demo generator** (`MockNufi`): the 32-bit string hash and the bucket and threshold choices of each endpoint.
- **JavaScript values** (`Js`): `Json` trees, with `undefined` as an absent value. Objects are ordered key lists, because `Object.entries` order decides the CSV column order. The module also holds truthiness, `||`, property reads that throw on null, `Object.assign`, `trim`, `split`/`join` and `String(n)`.

Operations that update state step by step are methods with loop invariants, proved equal to a specification function whose properties are lemmas. Pure expression code is modelled as functions.

## Model

| member | source | states |
|---|---|---|
| KeyPolicy.PruneItems | client/src/utils/exportUtils.js:113-115 | an array is sanitized element by element: same length, element i is element i sanitized |
| KeyPolicy.PruneFields | client/src/utils/exportUtils.js:117-152 | the rebuilt object never has more entries than the original |
| KeyPolicy.KeptKeys | client/src/utils/exportUtils.js:118-143 | a key is kept exactly when it is in the input and the policy does not drop it |
| KeyPolicy.CleanTree | server/services/docxGenerator.js:40-83 | the recursive `cleanObject` walk returns the pruned tree for the policy |
| KeyPolicy.CleanHasNoDroppedKey | server/services/docxGenerator.js:48-75 | a tree clean for a policy holds none of the keys it drops, at any depth |
| KeyPolicy.PruneRemoves | client/src/utils/exportUtils.js:118-143 | no key the policy drops survives anywhere in the result |
| KeyPolicy.PruneKeeps | client/src/utils/exportUtils.js:145-149 | a top-level entry the policy keeps is present with its value sanitized |
| KeyPolicy.PruneIsClean | client/src/utils/exportUtils.js:110-153 | the result is clean for the policy at every depth |
| KeyPolicy.PruneFixesClean | client/src/utils/exportUtils.js:110-153 | a tree that is already clean comes back unchanged |
| KeyPolicy.PruneIdempotent | client/src/utils/exportUtils.js:110-153 | sanitizing twice equals sanitizing once |
| KeyPolicy.CleanMonotone | client/src/utils/exportUtils.js:120-143 | a tree clean for a stricter policy is clean for any laxer one |
| KeyPolicy.PruneFieldsKeys | client/src/utils/exportUtils.js:118-150 | the keys of the rebuilt object are the kept keys, in their original order |
| KeyPolicy.PruneFieldsKeepsEntries | client/src/utils/exportUtils.js:145-149 | every kept entry appears with its value sanitized |
| KeyPolicy.PruneFieldsOnlyKept | client/src/utils/exportUtils.js:118-150 | every entry of the result comes from a kept entry of the input, value sanitized |
| KeyPolicy.PruneArray | client/src/utils/exportUtils.js:113-115 | arrays keep length and order, each element sanitized on its own |
| KeyPolicy.DebugKeepsOnlyQuota | client/src/utils/exportUtils.js:128-138 | the debug flag changes the fate of quota/QPS keys and of no other key, for both server and client sanitizers |
| KeyPolicy.DocDropsBrandBlocks | server/services/docxGenerator.js:50-55 | the document sanitizer drops exactly the export sanitizer's keys plus `brandBlocks` |
| KeyPolicy.DisplayIsLaxest | client/src/utils/exportUtils.js:120-124 | every key the display sanitizer drops is also dropped by both server-side sanitizers |
| ExportUtils.SanitizeForExport | client/src/utils/exportUtils.js:110-153 | returns the input pruned under the export policy with the given debug flag |
| ExportUtils.ExportDropsInternalKeys | client/src/utils/exportUtils.js:120-143 | `@search_pointer`, `search_pointer`, `*_md5`, `@inferred`, `@id` and `endpoint` are gone at every depth, debug or not |
| ExportUtils.ExportDropsQuotaKeys | client/src/utils/exportUtils.js:129-137 | without debug mode no key containing `quota` or `qps` survives |
| ExportUtils.DebugKeepsQuotaKeys | client/src/utils/exportUtils.js:129-137 | in debug mode a quota/QPS key that is not otherwise deny-listed stays |
| ExportUtils.PathKey | client/src/utils/exportUtils.js:35 | under a prefix the key is `prefix.`-prefixed; without one it is the key itself |
| ExportUtils.FlattenObject | client/src/utils/exportUtils.js:17-56 | the loop with `Object.assign` of nested results computes the flattening function |
| ExportUtils.FlattenCells | client/src/utils/exportUtils.js:31-52 | every flattened value is a string, number or boolean |
| ExportUtils.FlattenDistinct | client/src/utils/exportUtils.js:18-55 | the flattened map never repeats a key |
| ExportUtils.FlattenUnderPrefix | client/src/utils/exportUtils.js:35-49 | under a non-empty prefix every key starts with `prefix.` and the prefix itself is never a key |
| ExportUtils.Retained | client/src/utils/exportUtils.js:22-33 | the retained entries are entries of the input that are neither skipped keys nor null |
| ExportUtils.FlattenSamePrefix | client/src/utils/exportUtils.js:20-53 | the result so far depends only on the entries read so far |
| ExportUtils.FlattenIgnoresSkipped | client/src/utils/exportUtils.js:22-33 | flattening equals flattening the object with skipped keys and null values removed |
| ExportUtils.FlattenKeysGrow | client/src/utils/exportUtils.js:20-53 | a later entry never removes a key already produced |
| ExportUtils.FlattenKeepsPaths | client/src/utils/exportUtils.js:35-52 | the path of every kept leaf or array is a key of the result, as is every key a nested object contributes |
| ExportUtils.HeaderChars | client/src/utils/exportUtils.js:80-83 | after the first four rewrites no `@`, `.` or capital letter remains |
| ExportUtils.CollapseUnderscores | client/src/utils/exportUtils.js:84 | no two underscores are adjacent and no new character appears |
| ExportUtils.TrimUnderscores | client/src/utils/exportUtils.js:85 | no new character appears |
| ExportUtils.HeaderLabelClean | client/src/utils/exportUtils.js:78-89 | column titles hold no `@`, `.` or `_` |
| ExportUtils.UndoubleDouble | client/src/utils/exportUtils.js:94 | doubling quotes is undone by halving them |
| ExportUtils.CsvCellRoundTrip | client/src/utils/exportUtils.js:93-96 | every cell is wrapped in quotes and unquotes back to `String(v)` |
| ExportUtils.HeaderRow | client/src/utils/exportUtils.js:74-89 | one column title per flattened key |
| ExportUtils.ValueRow | client/src/utils/exportUtils.js:75-96 | one quoted cell per flattened value |
| ExportUtils.CsvShape | client/src/utils/exportUtils.js:62-105 | "no data" exactly when the sanitized, flattened object is empty; otherwise one header line and one value line of equal width, titled and quoted cell by cell |
| ExportUtils.ExportNullFails | client/src/utils/exportUtils.js:62-66 | exporting null fails, as `Object.entries(null)` throws |
| ExportUtils.FormatValueScalars | client/src/utils/exportUtils.js:173-176 | null shows N/A, booleans Yes/No, the empty string Empty, other strings as they are, numbers as text that parses back |
| ExportUtils.FormatValueArrays | client/src/utils/exportUtils.js:177-191 | an empty array shows the empty-array marker, an array of primitives its items joined by ", " |
| ExportUtils.SpaceWords | client/src/utils/exportUtils.js:225-226 | the spaced key holds no `_` or `-` |
| ExportUtils.RenderObjectSection | client/src/utils/exportUtils.js:207-251 | computes the section rendering function: the placeholders, then the loop |
| ExportUtils.RenderEntries | client/src/utils/exportUtils.js:220-250 | the `html +=` loop over the entries yields the html of all of them, entry after entry |
| ExportUtils.RenderEntry | client/src/utils/exportUtils.js:220-247 | one iteration skips, renders a subsection or appends a key/value block, as the rendering function does |
| ExportUtils.SectionIgnoresSkipped | client/src/utils/exportUtils.js:222 | entries named `metadata` or starting with `@` add nothing |
| ExportUtils.AllSkippedShowsPlaceholder | client/src/utils/exportUtils.js:250 | a non-empty object whose keys are all skipped shows "No data to display" |
| ExportUtils.SectionLabelClean | client/src/utils/exportUtils.js:224-230 | section labels hold no `_` or `-` |
| ExportUtils.TrimChars | client/src/utils/exportUtils.js:230 | trimming introduces no character |
| ExportUtils.DocPayload | client/src/utils/exportUtils.js:259-266 | the exported payload is `data.data`, else `data.results`, else `data` |
| ExportUtils.DocRequestFor | client/src/utils/exportUtils.js:257-285 | it fails exactly on null data; it stops with "No data to export" exactly when the payload is falsy or an object with no keys; otherwise it posts that payload, the phone number, the API name defaulting to "Enrichment Report", and `data.metadata` when the data was wrapped and it is truthy, else `{}` |
| DocxGenerator.SanitizeForDoc | server/services/docxGenerator.js:35-86 | returns the input pruned under the document policy with the given debug flag |
| DocxGenerator.DocDropsInternalKeys | server/services/docxGenerator.js:50-74 | the deny-listed identifiers, `brandBlocks` and `endpoint` are gone at every depth, debug or not |
| DocxGenerator.DocDropsFixtureFields | server/tests/docxGenerator.test.js:94-104 | none of the quota, QPS, pointer, md5 and endpoint fields the fixture checks survives |
| DocxGenerator.GroupKeepsDigits | server/services/docxGenerator.js:125-136 | a digit string is regrouped exactly when it has 10, 11 or 12 digits, and the grouping has the same digits |
| DocxGenerator.FormatPhoneKeepsDigits | server/services/docxGenerator.js:124-135 | whenever a phone is reformatted the result is a string with exactly the input's digits |
| DocxGenerator.FormatPhoneOtherwise | server/services/docxGenerator.js:123-137 | a falsy phone gives "", any other digit count returns the input itself |
| DocxGenerator.FormatPhoneIdempotent | server/services/docxGenerator.js:122-138 | formatting an already formatted number changes nothing |
| DocxGenerator.FormatPhoneTwelve | server/tests/docxGenerator.test.js:234 | "526671056185" becomes "+52 667 105 6185" |
| DocxGenerator.FormatPhoneTen | server/tests/docxGenerator.test.js:235 | "6671056185" becomes "667 105 6185" |
| DocxGenerator.FormatPhoneFormatted | server/tests/docxGenerator.test.js:236 | "+52 667 105 6185" comes back unchanged |
| DocxGenerator.ExtractSelector | server/services/docxGenerator.js:143-149 | "Unknown" without a query phone; otherwise it throws exactly when the first entry is null or undefined, and else gives its truthy `number`, else its `raw`, else the entry |
| DocxGenerator.ExtractCountryCode | server/services/docxGenerator.js:154-160 | "" without a query phone; otherwise it throws exactly when the first entry is null or undefined, and else gives its truthy `country_code`, else "" |
| DocxGenerator.Unwrap | server/services/docxGenerator.js:753-766 | unwrapping fails exactly when the sanitized tree is null; otherwise the payload is the truthy `data`, else the truthy `results`, else the tree, opened once more when it is a `{data, status}` envelope without `person` |
| DocxGenerator.Opened | server/services/docxGenerator.js:764-766 | an envelope gives its `data`, anything else is kept |
| DocxGenerator.UnwrapEnvelope | server/services/docxGenerator.js:764-766 | a `{status, data}` envelope without `person` yields its payload |
| DocxGenerator.UnwrapKeepsPerson | server/services/docxGenerator.js:754-766 | an inner object with its own `person` is kept whole, under `data` or `results` |
| DocxGenerator.UnwrapBare | server/services/docxGenerator.js:758-760 | without truthy `data` or `results` the sanitized tree itself is the payload |
| DocxGenerator.PropChainPicks | server/services/docxGenerator.js:785-813 | an `a \|\| b \|\| …` chain yields the first truthy property |
| DocxGenerator.PropChainNone | server/services/docxGenerator.js:785-813 | the chain is undefined when no property is truthy |
| DocxGenerator.PickGet | server/services/docxGenerator.js:784-814 | each output field of a normalised item reads its own chain, or "" |
| DocxGenerator.NormalizeList | server/services/docxGenerator.js:784-814 | absent or null gives []; an array is mapped item by item and fails exactly when an item is null; any other value fails |
| DocxGenerator.PersonParts | server/services/docxGenerator.js:784-816 | the explicit properties succeed exactly when each list and the gender normalise, and hold those normalised values |
| DocxGenerator.OverlayGet | server/services/docxGenerator.js:780-817 | after the object literal a key reads its last explicit binding, or the spread value |
| DocxGenerator.NormalizePersonShape | server/services/docxGenerator.js:784-816 | `names`, `phones`, `emails`, `addresses`, `gender` and `languages` read their normalised values |
| DocxGenerator.NormalizePersonSpread | server/services/docxGenerator.js:780-782 | every other key reads the person's entries written over the payload's |
| DocxGenerator.SpecEndsWithDates | server/services/docxGenerator.js:789-813 | every item kind ends with `valid_since` and `last_seen`, each from its `@` key first |
| DocxGenerator.NormalizedField | server/services/docxGenerator.js:785-813 | a two-key field is the first truthy of the two, else "" |
| DocxGenerator.RowOf | server/services/docxGenerator.js:303-326 | a data row fails exactly for a null item and otherwise has one cell per column |
| DocxGenerator.RowsOf | server/services/docxGenerator.js:303-326 | the rows fail exactly when some item is null, and otherwise are one row per item |
| DocxGenerator.TableSection | server/services/docxGenerator.js:262-349 | nothing unless a non-empty array; otherwise one titled table whose first row is the header and whose other rows are exactly the item rows (`RowsOf`); it throws exactly when an item is null |
| DocxGenerator.QuerySummary | server/services/docxGenerator.js:185-257 | the Queried Phone row, a Country Code row exactly when the code is truthy, and a final Query Date row |
| DocxGenerator.LanguageText | server/services/docxGenerator.js:635-640 | a string as is; otherwise "language (region)", the language, or the JSON text; only a null entry throws |
| DocxGenerator.LanguageTexts | server/services/docxGenerator.js:635-640 | one text per language, each the `LanguageText` of its entry; fails exactly when an entry is null |
| DocxGenerator.LanguageLines | server/services/docxGenerator.js:633-650 | no line without a non-empty language array; otherwise one "Languages: " line joining the texts with ", ", failing exactly when an entry is null |
| DocxGenerator.GenderLines | server/services/docxGenerator.js:617-630 | no line unless a truthy gender is chosen; then one "Gender: " line with its first letter upper-cased, and a throw exactly when that gender is not a string |
| DocxGenerator.Demographics | server/services/docxGenerator.js:614-666 | fails exactly when the gender or the languages line throws; otherwise one "Demographics" section holding the gender line then the languages line, present exactly when either exists |
| DocxGenerator.AvailableDataCounts | server/services/docxGenerator.js:672-687 | the sequence of count assignments computes the counts function |
| DocxGenerator.CountList | server/services/docxGenerator.js:681-687 | one assignment replaces that count with the list's length, or 0 |
| DocxGenerator.AvailableCountsShape | server/services/docxGenerator.js:671-720 | six rows in fixed order; each is its list's length or 0, and Genders is 1 for a lone truthy `gender` |
| DocxGenerator.TableFor | server/services/docxGenerator.js:842-860 | a table section appears exactly when its list is non-empty |
| DocxGenerator.PrepareResponseData | server/services/docxGenerator.js:748-818 | sanitizing, unwrapping and normalising compute the report payload function |
| DocxGenerator.BuildSections | server/services/docxGenerator.js:820-882 | the pushes build the section list function |
| DocxGenerator.GenerateDocument | server/services/docxGenerator.js:748-882 | generation equals the composed document function |
| DocxGenerator.Headings | server/services/docxGenerator.js:825-882 | one heading per section |
| DocxGenerator.TablesShape | server/services/docxGenerator.js:842-860 | the tables present are exactly the non-empty lists, in Names, Phones, Emails, Addresses order |
| DocxGenerator.SectionOrder | server/services/docxGenerator.js:825-882 | sections are title, Query Summary, Identity Summary, the present tables, Demographics when it has a line, Available Data, Report Metadata |
| DocxGenerator.SectionsSplit | server/services/docxGenerator.js:825-882 | the section list is the concatenation of each builder's output |
| DocumentUtils.IndexOf | server/utils/documentUtils.js:20 | the first index where the pattern occurs, or none when it never occurs |
| DocumentUtils.ReplaceFirstCuts | server/utils/documentUtils.js:20 | `replace` with a string pattern cuts exactly its first occurrence, and nothing when there is none |
| DocumentUtils.RemoveDuplicateBrandBlocks | server/utils/documentUtils.js:9-26 | the loop computes the as-written cleaning; non-strings and texts with at most one match come back unchanged; strings stay strings |
| DocumentUtils.BrandKeepsLastCopy | server/utils/documentUtils.js:16-22 | with two identical blocks the as-written loop keeps the last copy, where the corrected function keeps the first |
| DocumentUtils.KeepFirstBrandBlock | server/utils/documentUtils.js:17 | strings stay strings and nothing else changes type |
| DocumentUtils.KeepFirstKeepsFirst | server/utils/documentUtils.js:17 | the corrected cleaning leaves the first brand block at the index where it was |
| DocumentUtils.BrandVersionsAgreeOnOneMatch | server/utils/documentUtils.js:16-25 | with at most one match the corrected and as-written functions agree and return the input |
| DocumentUtils.NewlineRun | server/utils/documentUtils.js:35 | the maximal leading run of newlines |
| DocumentUtils.NonNewlines | server/utils/documentUtils.js:35 | the characters other than newlines |
| DocumentUtils.CollapseShape | server/utils/documentUtils.js:35 | the collapsed text has no run of three newlines and starts with the same character |
| DocumentUtils.CollapseFixes | server/utils/documentUtils.js:35 | a text without a run of three newlines is left as it is |
| DocumentUtils.CollapseIdempotent | server/utils/documentUtils.js:35 | collapsing twice equals collapsing once |
| DocumentUtils.CollapseKeepsText | server/utils/documentUtils.js:35 | every character other than a newline survives, in order |
| DocumentUtils.CollapseBlankLines | server/utils/documentUtils.js:31-36 | non-strings are returned as given; strings lose every run of three newlines, keep all other characters and are unchanged when they had no such run |
| DocumentUtils.ReplaceBullets | server/utils/documentUtils.js:46 | same length; each odd glyph becomes "•" and every other character stays |
| DocumentUtils.NormalizeLine | server/utils/documentUtils.js:47 | (per-line reading) a list-item line starts with "• " followed by the text after its marker; any other line is unchanged |
| DocumentUtils.NormalizeLines | server/utils/documentUtils.js:47 | (per-line reading) the rewrite is applied line by line |
| DocumentUtils.ReplaceBulletsLines | server/utils/documentUtils.js:46 | glyph replacement applied line by line |
| DocumentUtils.SplitReplaceBullets | server/utils/documentUtils.js:46 | replacing glyphs touches no newline, so it commutes with splitting into lines |
| DocumentUtils.ReplaceBulletsKeepsItems | server/utils/documentUtils.js:46-47 | replacing glyphs keeps each line's indent and whether it is a list item |
| DocumentUtils.IndentFromSpaces | server/utils/documentUtils.js:47 | lines that agree on which characters are white space have the same indent |
| DocumentUtils.BulletLinesSplit | server/utils/documentUtils.js:45-47 | (per-line reading) the output's lines are the input's lines, glyphs replaced, each normalised |
| DocumentUtils.BulletLine | server/utils/documentUtils.js:45-47 | (per-line reading) line i of the output is "• " and the item text when line i was a list item, otherwise the line with glyphs replaced |
| DocumentUtils.NoOddBulletLeft | server/utils/documentUtils.js:45-47 | (per-line reading) no odd glyph is left anywhere |
| DocumentUtils.SpaceRun | server/utils/documentUtils.js:47 | the greedy `[\s]*` run: every character before it is white space and the one after it is not |
| DocumentUtils.ItemScan | server/utils/documentUtils.js:47 | the global multiline replacement over the whole text: never longer than its input, and every output character comes from the input or is "•" or a space |
| DocumentUtils.ScanKeeps | server/utils/documentUtils.js:47 | a text in which no line start (the start, or after a line terminator) begins a match comes back unchanged |
| DocumentUtils.ScanCopies | server/utils/documentUtils.js:47 | one step of the scan's definition, stated for use in proofs: where no match begins, one character is copied and `^` holds next exactly when it was a line terminator |
| DocumentUtils.ScanReplaces | server/utils/documentUtils.js:47 | one step of the scan's definition, stated for use in proofs: a match is replaced by "• " and the search resumes right after the white space that ended it |
| DocumentUtils.ItemAtPrefix | server/utils/documentUtils.js:47 | whether a match begins depends only on the white-space run and the two characters after it |
| DocumentUtils.ScanCopiesRun | server/utils/documentUtils.js:47 | where no match begins, none begins inside its white-space run either, so the run and the two characters after it are copied unchanged |
| DocumentUtils.ScanLeavesNoItem | server/utils/documentUtils.js:47 | no line start of the result begins a `[\s]*[-*]\s` match: every list marker at a line start has been rewritten |
| DocumentUtils.ScanWord | server/utils/documentUtils.js:47 | a run of non-space, non-marker characters is copied and `^` does not hold after it |
| DocumentUtils.PlainTextKept | server/utils/documentUtils.js:45-47 | where no line start begins a match, only the glyphs are replaced |
| DocumentUtils.BlankLineSwallowed | server/utils/documentUtils.js:47 | `word\n\n- item` becomes `word\n• item`: the blank line is taken by the match |
| DocumentUtils.MarkerJoinsNextLine | server/utils/documentUtils.js:47 | `-\nword` becomes `• word`: a lone marker joins the next line |
| DocumentUtils.NoOddBulletAsWritten | server/utils/documentUtils.js:45-47 | no odd glyph is left anywhere |
| DocumentUtils.NormalizeBulletPoints | server/utils/documentUtils.js:41-48 | non-strings are returned as given; a string result holds no odd glyph and no line start in it begins a `-` or `*` list marker; where no line start began one, only the glyphs are replaced |
| DocumentUtils.NormalizeBulletPointsIdempotent | server/utils/documentUtils.js:41-48 | normalising twice gives what normalising once does |
| DocumentUtils.FormatPhoneNumber | server/utils/documentUtils.js:53-72 | agrees with the document generator's formatter on every input, so its proved properties carry over |
| DocumentUtils.WordLength | server/utils/documentUtils.js:134 | the maximal leading run of non-space characters |
| DocumentUtils.GapLength | server/utils/documentUtils.js:134 | the maximal leading run of white space |
| DocumentUtils.Words | server/utils/documentUtils.js:134 | `split(/\s+/)`: at least one piece, none holds white space, only the first and last may be empty |
| DocumentUtils.WordsJoin | server/utils/documentUtils.js:134-147 | joining words with single spaces and splitting again gives the words back |
| DocumentUtils.TitleWord | server/utils/documentUtils.js:139-146 | a word keeps its length and stays free of white space |
| DocumentUtils.TitleWords | server/utils/documentUtils.js:138-146 | each word is title-cased on its own |
| DocumentUtils.UpperWords | server/utils/documentUtils.js:137-141 | every word of an all-caps text is all caps |
| DocumentUtils.CapsWords | server/utils/documentUtils.js:137-147 | for an all-caps text over 20 characters the result's words are its words, words of at most 3 letters unchanged, longer ones first-upper rest-lower |
| DocumentUtils.TitleWordsResplit | server/utils/documentUtils.js:138-147 | the title-cased words joined by spaces split back into themselves |
| DocumentUtils.NormalizeCapitalization | server/utils/documentUtils.js:130-151 | non-strings come back as given; a string not in all caps or of at most 20 characters is unchanged |
| DocumentUtils.CleanText | server/utils/documentUtils.js:159-163 | the four clean-ups, brand blocks as written, yield a string |
| DocumentUtils.CorrectedCleanText | server/utils/documentUtils.js:159-163 | the same pipeline with the corrected brand-block step yields a string |
| DocumentUtils.CleanTextVersionsAgree | server/utils/documentUtils.js:9-26 | the as-written and corrected pipelines agree on any text with at most one brand block |
| DocumentUtils.SanitizeDoc | server/utils/documentUtils.js:156-179 | strings stay strings, arrays and objects become objects, everything else is returned as given |
| DocumentUtils.SanitizeValue | server/utils/documentUtils.js:168-174 | numbers, booleans and null are copied |
| DocumentUtils.SanitizedValues | server/utils/documentUtils.js:167-175 | one sanitized value per entry |
| DocumentUtils.CleanString | server/utils/documentUtils.js:159-163 | the four reassignments, starting with the as-written brand-block loop, compute the text clean-up function |
| DocumentUtils.SanitizeForDocument | server/utils/documentUtils.js:156-179 | the recursive walk computes the document sanitizing function |
| DocumentUtils.SanitizeEntry | server/utils/documentUtils.js:168-174 | one loop body computes the per-value function |
| DocumentUtils.IndexKeys | server/utils/documentUtils.js:167 | an array's entry keys are "0", "1", … |
| DocumentUtils.IndexKeysDistinct | server/utils/documentUtils.js:167 | an array's entry keys are distinct |
| DocumentUtils.EntryKeys | server/utils/documentUtils.js:167 | one key per entry, in order |
| DocumentUtils.RebuildKeys | server/utils/documentUtils.js:166-175 | assigning distinct keys one after another keeps their order |
| DocumentUtils.RebuildValue | server/utils/documentUtils.js:166-175 | a key not assigned again later holds the value it was assigned |
| DocumentUtils.SanitizeEntriesKeys | server/utils/documentUtils.js:166-175 | the rebuilt object has the entries' keys in their order |
| DocumentUtils.SanitizeKeepsKeys | server/utils/documentUtils.js:164-176 | objects keep every key in order; arrays become objects keyed "0", "1", … |
| DocumentUtils.SanitizeEntriesValue | server/utils/documentUtils.js:167-175 | each key holds the sanitized value of the last entry with that key |
| DocumentUtils.CleanTextKeepsCleanText | server/utils/documentUtils.js:159-163 | a text with one brand block at most, no run of three newlines, no odd glyph, no line start beginning a list-item match and not in all caps comes back unchanged |
| DocumentUtils.FirstTruthyField | server/utils/documentUtils.js:194-198 | the first field truthy on the value, or none exactly when no field is truthy |
| DocumentUtils.QueryPhone | server/utils/documentUtils.js:209-210 | reading `phones[0]` fails only on an array (an empty one) |
| DocumentUtils.FindField | server/utils/documentUtils.js:194-198 | the loop returns at the first truthy field |
| DocumentUtils.ExtractPhoneNumber | server/utils/documentUtils.js:184-220 | the field loops compute the phone search function |
| DocumentUtils.ExtractTopLevelFirst | server/utils/documentUtils.js:194-198 | the first truthy top-level field wins and is formatted |
| DocumentUtils.ExtractFromQuery | server/utils/documentUtils.js:209-219 | with no phone field, the first query phone's `display_international`, else `display`, else null |
| DocumentUtils.ExtractEmptyQueryThrows | server/utils/documentUtils.js:209-211 | an empty `query.phones` array makes the search throw |
| DocumentUtils.ValidateDocumentData | server/utils/documentUtils.js:225-248 | valid exactly when there are no errors; no data gives "No data provided"; a truthy non-string API name throws; otherwise the API-name and empty-object errors, in that order |
| JsonDetails.ExpandableSection.constructor | client/src/components/JsonDetailsRenderer.js:370-371 | a section starts with its title and the given default expansion |
| JsonDetails.ExpandableSection.Icon | client/src/components/JsonDetailsRenderer.js:376 | the arrow follows the expansion state |
| JsonDetails.ExpandableSection.Toggle | client/src/components/JsonDetailsRenderer.js:375 | a header click flips the expansion state and nothing else |
| JsonDetails.ArrowFor | client/src/components/JsonDetailsRenderer.js:376 | the arrow points down exactly while expanded |
| JsonDetails.Cell | client/src/components/JsonDetailsRenderer.js:408-413 | a column's render function when it has one, otherwise the formatted property under the column's key |
| JsonDetails.Row | client/src/components/JsonDetailsRenderer.js:406-415 | one cell per column, in column order |
| JsonDetails.Window | client/src/components/JsonDetailsRenderer.js:391 | all items when expanded, otherwise the first `maxRows`, in order |
| JsonDetails.RenderTable | client/src/components/JsonDetailsRenderer.js:386-426 | nothing for an empty list; otherwise one header per column, one row per shown item, and a button exactly when there are more than `maxRows` items, labelled by state and count |
| JsonDetails.ShortTablesDoNotToggle | client/src/components/JsonDetailsRenderer.js:391-392 | when every item fits, the two states render the same |
| JsonDetails.CollapsedRowsLeadExpanded | client/src/components/JsonDetailsRenderer.js:391 | the collapsed rows are a prefix of the expanded rows |
| JsonDetails.ViewAllCountsEverything | client/src/components/JsonDetailsRenderer.js:421 | the collapsed button names the full item count, which reads back |
| JsonDetails.ExpandableTable.constructor | client/src/components/JsonDetailsRenderer.js:386-387 | a table starts collapsed, over the given items, columns and row limit |
| JsonDetails.ExpandableTable.View | client/src/components/JsonDetailsRenderer.js:389-425 | the view is the rendered table for the current state |
| JsonDetails.ExpandableTable.Toggle | client/src/components/JsonDetailsRenderer.js:420 | a button click flips the expansion state and nothing else |
| JsonDetails.FirstTruthyPicks | client/src/components/JsonDetailsRenderer.js:445-451 | an `a \|\| b \|\| …` chain picks the earliest truthy candidate |
| JsonDetails.FirstTruthyFallsBack | client/src/components/JsonDetailsRenderer.js:445-451 | the chain falls back only when every candidate is falsy |
| JsonDetails.FirstTruthyOfTwo | client/src/components/JsonDetailsRenderer.js:447 | a two-candidate chain is the nested `\|\|` expression |
| JsonDetails.FirstTruthyOfThree | client/src/components/JsonDetailsRenderer.js:446 | a three-candidate chain is the nested `\|\|` expression |
| JsonDetails.OrElse | client/src/components/JsonDetailsRenderer.js:445-451 | a truthy value is kept, anything else gives the fallback |
| JsonDetails.PersonList | client/src/components/JsonDetailsRenderer.js:433-442 | `person.k \|\| []` is always truthy |
| JsonDetails.FullName | client/src/components/JsonDetailsRenderer.js:445 | the trimmed name has no white space at either end |
| JsonDetails.PrimaryName | client/src/components/JsonDetailsRenderer.js:445 | the first name's `display`, else its trimmed "first last", else "Unknown"; always truthy |
| JsonDetails.PrimaryPhone | client/src/components/JsonDetailsRenderer.js:446 | `display_international`, else `display`, else `number` of the first phone, else "N/A"; always truthy |
| JsonDetails.PrimaryEmail | client/src/components/JsonDetailsRenderer.js:447 | the first e-mail's `address`, else the entry itself, else "N/A"; always truthy |
| JsonDetails.PrimaryLocation | client/src/components/JsonDetailsRenderer.js:448 | the first address's `display`, else its trimmed "city, state", else "N/A" |
| JsonDetails.TrimKeeps | client/src/components/JsonDetailsRenderer.js:448 | trimming keeps every non-space character |
| JsonDetails.CityStateHasComma | client/src/components/JsonDetailsRenderer.js:448 | the city-and-state text always holds its comma |
| JsonDetails.LocationNeverFallsBack | client/src/components/JsonDetailsRenderer.js:448 | without a `display` the location is the city-and-state text and never the "N/A" fallback |
| JsonDetails.PrimaryImage | client/src/components/JsonDetailsRenderer.js:449 | the first image's `url`, else the entry itself, else null |
| JsonDetails.Gender | client/src/components/JsonDetailsRenderer.js:450 | `gender.content`, else `gender`, else "N/A"; always truthy |
| JsonDetails.DateOfBirth | client/src/components/JsonDetailsRenderer.js:451 | `dob.display`, else `dob.date_range.start`, else `dob`, else "N/A"; always truthy |
| JsonDetails.ItemOr | client/src/components/JsonDetailsRenderer.js:165 | a cell chain ending in the item itself is always defined |
| JsonDetails.Prefix | client/src/components/JsonDetailsRenderer.js:186 | `substring(0, n)` is a prefix of at most n characters |
| JsonDetails.EntityCandidates | client/src/components/JsonDetailsRenderer.js:67-274 | the card has ten candidate tables: names, phones, e-mails, addresses, usernames, user IDs, URLs, relationships, employment and education |
| JsonDetails.NonEmpty | client/src/components/JsonDetailsRenderer.js:67-274 | exactly the candidates with a non-empty list (order: the three lemmas below) |
| JsonDetails.NonEmptyAppend | client/src/components/JsonDetailsRenderer.js:67-274 | filtering a concatenation filters each part and keeps the parts in order |
| JsonDetails.NonEmptyPosition | client/src/components/JsonDetailsRenderer.js:67-274 | a shown table sits right after the shown tables that come before it among the candidates |
| JsonDetails.NonEmptyKeepsOrder | client/src/components/JsonDetailsRenderer.js:67-274 | two shown tables appear in the order of their candidates |
| JsonDetails.CandidateRows | client/src/components/JsonDetailsRenderer.js:67-274 | each candidate has its list's title and the row limit that title calls for |
| JsonDetails.EntityTablesShown | client/src/components/JsonDetailsRenderer.js:67-274 | a table appears exactly when its list is non-empty; usernames and user IDs collapse at five rows, the others at three |
| JsonDetails.UsernamesShown | client/src/components/JsonDetailsRenderer.js:144-153 | the usernames table appears exactly when there are usernames, with five rows |
| JsonDetails.CareerShown | client/src/components/JsonDetailsRenderer.js:245-274 | the Employment and Education tables appear exactly when there are jobs, respectively educations, each with three rows |
| JsonDetails.Payload | client/src/components/JsonDetailsRenderer.js:627 | `data.data`, else `data`, else the response itself |
| JsonDetails.StatusOf | client/src/components/JsonDetailsRenderer.js:632-636 | each of status, code and message from the top level when truthy there, else from the payload |
| JsonDetails.Literal | client/src/components/JsonDetailsRenderer.js:632-636 | an object literal keeps every key in order, each holding its value, an undefined one as null (rendered "null" like null, :351-354) |
| JsonDetails.MetadataEntries | client/src/components/JsonDetailsRenderer.js:706-708 | exactly the `@` entries of the payload |
| JsonDetails.AssignOtherKey | client/src/components/JsonDetailsRenderer.js:706-708 | spreading entries leaves every other key's value alone |
| JsonDetails.AssignKeysFrom | client/src/components/JsonDetailsRenderer.js:702-709 | every key of a spread result comes from the target or the source |
| JsonDetails.SearchMetadataKeys | client/src/components/JsonDetailsRenderer.js:702-709 | the Search Metadata keys are exactly the three named ones, present even when undefined, and the payload's `@` keys; `search_id` is the payload's `@search_id` |
| JsonDetails.Pick | client/src/components/JsonDetailsRenderer.js:720-728 | the quota object has exactly the requested keys, in order, each holding the payload's value or null when undefined |
| JsonDetails.Candidates | client/src/components/JsonDetailsRenderer.js:638-731 | seven candidate sections with the panel's titles in order |
| JsonDetails.Panel | client/src/components/JsonDetailsRenderer.js:638-731 | seven candidate sections with the panel's titles in order |
| JsonDetails.Shown | client/src/components/JsonDetailsRenderer.js:638-731 | exactly the sections whose condition holds |
| JsonDetails.Render | client/src/components/JsonDetailsRenderer.js:618-621 | nothing but the placeholder exactly when the data is not an object |
| JsonDetails.Titles | client/src/components/JsonDetailsRenderer.js:638-731 | one title per section, in order |
| JsonDetails.PanelTitlesDistinct | client/src/components/JsonDetailsRenderer.js:643-717 | no two panel titles coincide |
| JsonDetails.ShownIff | client/src/components/JsonDetailsRenderer.js:638-731 | a section with a unique title is shown exactly when its condition holds |
| JsonDetails.PanelShownIff | client/src/components/JsonDetailsRenderer.js:638-731 | each panel section is shown exactly when its condition holds |
| JsonDetails.SearchMetadataShown | client/src/components/JsonDetailsRenderer.js:696-711 | shown exactly when the payload has a truthy `@search_id`, collapsed, holding the Search Metadata object |
| JsonDetails.StatusObject | client/src/components/JsonDetailsRenderer.js:632-636 | the status object always has the keys status, code and message, in order, an undefined value standing as null |
| JsonDetails.StatusShown | client/src/components/JsonDetailsRenderer.js:632-649 | shown exactly when the merged status or code is truthy, and it always lists status, code and message |
| JsonDetails.QuotaShown | client/src/components/JsonDetailsRenderer.js:714-730 | shown exactly when the payload has a truthy `QpsAllotted` or `QuotaAllotted` |
| JsonDetails.PersonShown | client/src/components/JsonDetailsRenderer.js:663-671 | shown exactly when the payload has a truthy person |
| DisplayHelpers.IsMetadataKey | client/src/components/JsonDetailsRenderer.test.js:171-183 | a key is metadata exactly when it starts with `@` |
| DisplayHelpers.MetadataKeyPinned | client/src/components/JsonDetailsRenderer.test.js:172-182 | `@search_id`, `@match`, `@valid_since` are metadata keys; `name`, `phone`, `email` are not |
| DisplayHelpers.LabelShape | client/src/components/JsonDetailsRenderer.test.js:149-169 | labels hold no underscore and drop no character |
| DisplayHelpers.LabelAppend | client/src/components/JsonDetailsRenderer.test.js:149-169 | labelling is character by character, so it splits at any point |
| DisplayHelpers.FormatKey | client/src/components/JsonDetailsRenderer.test.js:149-169 | a label holds no underscore and keeps every character except a leading `@` |
| DisplayHelpers.Titles | client/src/components/JsonDetailsRenderer.test.js:149-169 | each word capitalised, in order |
| DisplayHelpers.SnakeCaseLabel | client/src/components/JsonDetailsRenderer.test.js:150-153 | a snake_case key becomes its words capitalised and joined by spaces |
| DisplayHelpers.CamelCaseLabel | client/src/components/JsonDetailsRenderer.test.js:155-158 | a camelCase key becomes its words capitalised and joined by spaces |
| DisplayHelpers.FormatKeyPlain | client/src/components/JsonDetailsRenderer.test.js:149-158 | a key without `@` is labelled as it stands |
| DisplayHelpers.FormatKeyMetadata | client/src/components/JsonDetailsRenderer.test.js:160-163 | a metadata key is labelled as the key without its `@` |
| DisplayHelpers.FormatKeySnakePinned | client/src/components/JsonDetailsRenderer.test.js:151 | "first_name" becomes "First Name" |
| DisplayHelpers.FormatKeyCamelPinned | client/src/components/JsonDetailsRenderer.test.js:157 | "phoneNumber" becomes "Phone Number" |
| DisplayHelpers.FormatKeyMetadataPinned | client/src/components/JsonDetailsRenderer.test.js:161 | "@search_id" becomes "Search Id" |
| DisplayHelpers.FormatKeyMixedPinned | client/src/components/JsonDetailsRenderer.test.js:167 | "QpsAllotted" becomes "Qps Allotted" |
| DisplayHelpers.FormatDisplayValue | client/src/components/JsonDetailsRenderer.test.js:133-136 | null and undefined show "N/A" |
| DisplayHelpers.FormatDisplayPrimitivesPinned | client/src/components/JsonDetailsRenderer.test.js:127-136 | "test", 42, true, null and undefined show as the tests expect |
| DisplayHelpers.FormatDisplayObjectsPinned | client/src/components/JsonDetailsRenderer.test.js:138-141 | an object shows its `display`, else its `content` |
| DisplayHelpers.FormatDisplayNamePinned | client/src/components/JsonDetailsRenderer.test.js:143-146 | first, middle and last parts join into "John Q Doe" |
| DisplayHelpers.FormatDisplayNumber | client/src/components/JsonDetailsRenderer.test.js:129 | a number's text reads back as the same number |
| DisplayHelpers.FormatDisplayString | client/src/components/JsonDetailsRenderer.test.js:128 | a string is shown as it is |
| DisplayHelpers.SanitizeForDisplay | client/src/components/JsonDetailsRenderer.test.js:11-85 | the result holds neither `@search_pointer` nor a `*_md5` key at any depth |
| DisplayHelpers.SanitizeDropsPinned | client/src/components/JsonDetailsRenderer.test.js:12-70 | `@search_pointer` and `*_md5` keys are gone at every depth, arrays of objects included |
| DisplayHelpers.SanitizeKeepsPinned | client/src/components/JsonDetailsRenderer.test.js:72-85 | `@id`, `@match` and `@valid_since` stay with their values sanitized |
| DisplayHelpers.SanitizeIdempotent | client/src/components/JsonDetailsRenderer.test.js:11-85 | sanitizing twice equals sanitizing once |
| DisplayHelpers.ListField | client/src/components/JsonDetailsRenderer.test.js:112-119 | the person's array under a key, or [] when it has none |
| DisplayHelpers.BuildDossier | client/src/components/JsonDetailsRenderer.test.js:87-124 | no dossier exactly for null or undefined; gender and match score copied from the person |
| DisplayHelpers.BuildDossierNullPinned | client/src/components/JsonDetailsRenderer.test.js:121-123 | null gives no dossier |
| DisplayHelpers.MissingListIsEmpty | client/src/components/JsonDetailsRenderer.test.js:112-119 | a list the person lacks is empty |
| DisplayHelpers.BuildDossierMissingPinned | client/src/components/JsonDetailsRenderer.test.js:112-119 | a person with only names keeps them and has no phones and no user IDs |
| NufiService.TrimmedText | server/services/nufiService.js:105 | trimming throws exactly for a value that is not a string under plain `trim` |
| NufiService.CleanParams | server/services/nufiService.js:103-109 | the reduce, as a loop, computes the cleaning function |
| NufiService.CleanedErrSticks | server/services/nufiService.js:103-109 | once a prefix of the entries throws, the whole reduce throws the same error |
| NufiService.CleanedSound | server/services/nufiService.js:103-109 | every cleaned entry comes from a whitelisted, non-blank request entry, trimmed |
| NufiService.CleanStepKeys | server/services/nufiService.js:104-108 | one step keeps every key it had and adds the key of a qualifying entry |
| NufiService.CleanedComplete | server/services/nufiService.js:103-109 | every qualifying request entry's key is among the cleaned keys |
| NufiService.CleanedThrows | server/services/nufiService.js:103-109 | the reduce throws exactly when some whitelisted truthy value cannot be trimmed, with the TypeError |
| NufiService.CleanedEmpty | server/services/nufiService.js:103-111 | nothing is cleaned exactly when nothing qualifies |
| NufiService.CleanedHas | server/services/nufiService.js:204-212 | a cleaned key is truthy exactly when some qualifying request entry has it |
| NufiService.CleanedKeysIn | server/services/nufiService.js:105 | only whitelisted keys are kept |
| NufiService.ToStringNeverThrows | server/services/nufiService.js:291-296 | cleaning with `toString().trim()` never throws |
| NufiService.WhitelistCall | server/services/nufiService.js:99-120 | a throw while trimming propagates; a call is made exactly when something qualifies, sending only whitelisted, qualifying, trimmed keys; otherwise the wrong-API or needs-a-parameter error by whether a phone or e-mail was sent |
| NufiService.GeneralDataEnrichment | server/services/nufiService.js:99-120 | calls exactly when a whitelisted field qualifies; the wrong-API error exactly when nothing qualifies and a phone or e-mail was sent; the needs-a-parameter error otherwise |
| NufiService.InternationalBlacklist | server/services/nufiService.js:132-153 | the same rules over the blacklist whitelist and messages |
| NufiService.WrongApiForContactOnly | server/services/nufiService.js:111-115 | a request with only a phone or e-mail is told it chose the wrong API |
| NufiService.SingleFieldCall | server/services/nufiService.js:160-173 | calls exactly for a non-blank string, sending only the renamed, trimmed field; a truthy non-string throws the TypeError "params.<field>.trim is not a function"; otherwise the missing-field error |
| NufiService.EnrichmentByPhone | server/services/nufiService.js:160-173 | calls exactly for a non-blank phone text, sending only `telefono`, trimmed; no phone gives "Phone number is required"; a phone that is not a string gives "params.phone.trim is not a function" |
| NufiService.EnrichmentByEmail | server/services/nufiService.js:180-193 | calls exactly for a non-blank e-mail text, sending only `correo`, trimmed; a non-string e-mail gives "params.email.trim is not a function" |
| NufiService.ProfilingPhone | server/services/nufiService.js:245-258 | calls exactly for a non-blank phone text, sending only `telefono`, trimmed; a non-string phone gives "params.phone.trim is not a function" |
| NufiService.ProfilingEmail | server/services/nufiService.js:266-279 | calls exactly for a non-blank e-mail text, sending only `correo`, trimmed; a non-string e-mail gives "params.email.trim is not a function" |
| NufiService.Renapo | server/services/nufiService.js:224-237 | calls exactly for a non-blank `curp`, sending only it, trimmed; refuses otherwise; a non-string CURP gives "params.curp.trim is not a function" |
| NufiService.EnrichmentByName | server/services/nufiService.js:200-217 | calls exactly when a first name or paternal surname survives cleaning, sending only name keys |
| NufiService.MaternalSurnameAlone | server/services/nufiService.js:212-214 | a maternal surname alone is refused |
| NufiService.MissingFields | server/services/nufiService.js:305-306 | exactly the required fields that are falsy, in their order |
| NufiService.Tipo | server/services/nufiService.js:299-301 | an explicit search type is kept; otherwise "curp" when a CURP is present, else "datos" |
| NufiService.CurpParams | server/services/nufiService.js:291-296 | cleaning with `toString().trim()` succeeds and keeps only whitelisted keys |
| NufiService.CurpCheck | server/services/nufiService.js:298-316 | "datos" refuses exactly when a required field is missing, naming them; "curp" refuses exactly without a CURP; other types go through with the search type set |
| NufiService.CurpCalculation | server/services/nufiService.js:287-317 | a call sends only whitelisted keys, always with the search type |
| NufiService.MissingFieldsSame | server/services/nufiService.js:306 | the missing list reads only the required keys |
| NufiService.TipoDefaults | server/services/nufiService.js:299-301 | without a type, a request with a CURP validates it and one without calculates it |
| NufiService.DatosWithAllFieldsCalls | server/services/nufiService.js:303-316 | a calculation request with every required field present goes through |
| NufiService.MakeApiCall | server/services/nufiService.js:41-85 | demo data exactly in demo mode or on a network failure, with the fallback reason; success exactly when the API answers, with its data and the keys sent; any other failure is rethrown as `{error: body.message || error.message, status, details: body}` where `body` is the response data |
| NufiService.FallbackCases | server/services/nufiService.js:66-84 | a refused connection falls back to demo data; another code without "timeout" in the message is thrown |
| MockNufi.ToInt32 | server/services/mockNufiService.js:9-10 | the 32-bit two's-complement value congruent to the input, the input itself when it already fits |
| MockNufi.ToInt32Congruent | server/services/mockNufiService.js:9-10 | congruent numbers truncate to the same 32-bit value |
| MockNufi.HashStepWraps | server/services/mockNufiService.js:9-10 | each step is the 32-bit truncation of 31·hash plus the character code |
| MockNufi.Hash32 | server/services/mockNufiService.js:5-11 | the signed hash is a 32-bit value |
| MockNufi.HashIsPolynomial | server/services/mockNufiService.js:5-11 | the hash is the polynomial in 31 over the character codes, wrapped to 32 bits once at the end |
| MockNufi.Abs | server/services/mockNufiService.js:12 | `Math.abs` returns the value or its negation |
| MockNufi.HashOf | server/services/mockNufiService.js:5-13 | at most 2^31, and 0 for the empty string |
| MockNufi.HashString | server/services/mockNufiService.js:5-13 | the loop computes the hash function |
| MockNufi.Pick | server/services/mockNufiService.js:33-35 | indexing a list by `hash * k % length` always yields an element |
| MockNufi.RiskScore | server/services/mockNufiService.js:99 | a score below 100 |
| MockNufi.RiskLevel | server/services/mockNufiService.js:133 | thresholds at 20, 40, 60 and 80 pick the level `score / 20` |
| MockNufi.PhoneRiskLevel | server/services/mockNufiService.js:100-101 | always one of the five levels |
| MockNufi.SameRiskScale | server/services/mockNufiService.js:101 | phone and e-mail profiles grade a score alike |
| MockNufi.RiskLevelMonotone | server/services/mockNufiService.js:133 | a higher score never has a lower level |
| MockNufi.LineType | server/services/mockNufiService.js:53 | "Landline" exactly when `hash % 3 == 2`, "Mobile" otherwise |
| MockNufi.PadStart | server/services/mockNufiService.js:115 | `padStart`: the text right-aligned with zeros to the width |
| MockNufi.Prefix | server/services/mockNufiService.js:49 | `substring(0, n)` is a prefix of at most n characters |
| MockNufi.Take | server/services/mockNufiService.js:116 | `slice(0, n)` is a prefix of at most n items |
| MockNufi.BlacklistRiskAsWritten | server/services/mockNufiService.js:225 | "None" when not listed, otherwise one of Low to Critical |
| MockNufi.ListedIsAlwaysLow | server/services/mockNufiService.js:211-225 | as written, every listed name gets "Low" |
| MockNufi.BlacklistRisk | server/services/mockNufiService.js:225 | "None" when not listed, otherwise one of Low to Critical |
| MockNufi.EveryListedLevelOccurs | server/services/mockNufiService.js:212-225 | with the level drawn from the free part of the hash, every level from Low to Critical is reached |
| MockNufi.MatchDetailsFor | server/services/mockNufiService.js:227-231 | details exactly for a listed name, with a match score from 75 to 99 |
| MockNufi.PhoneEnrichmentData | server/services/mockNufiService.js:24-55 | the searched phone is echoed and the line type follows the hash |
| MockNufi.EmailEnrichmentData | server/services/mockNufiService.js:57-74 | the searched e-mail is echoed and validity follows the hash |
| MockNufi.NameEnrichmentData | server/services/mockNufiService.js:76-95 | two fixed matches, each named by first name and paternal surname |
| MockNufi.PhoneProfilingData | server/services/mockNufiService.js:97-128 | the phone is echoed, the score is the hash mod 100 with its level, the line is Mobile and one to three services are listed |
| MockNufi.EmailProfilingData | server/services/mockNufiService.js:130-153 | the e-mail is echoed, the score is the hash mod 100 with its level, and it is a business address exactly when it mentions "company" or "corp" or the hash is divisible by 3 |
| MockNufi.CurpValidationData | server/services/mockNufiService.js:155-178 | the CURP and date are echoed; registered implies valid; the status follows registration |
| MockNufi.EnrichmentData | server/services/mockNufiService.js:180-207 | a given RFC and CURP are echoed, missing ones are made up, and the zip code has five digits |
| MockNufi.ZipCode | server/services/mockNufiService.js:202 | always five characters |
| MockNufi.FourDigits | server/services/mockNufiService.js:202 | numbers from 1000 to 9999 have four digits |
| MockNufi.BlacklistData | server/services/mockNufiService.js:209-233 | listed exactly when the name's hash is, with the level of the chosen reading (as written or corrected) and the details that follow; an unlisted name has level "None" and no details |
| MockNufi.DataFor | server/services/mockNufiService.js:23-237 | the not-configured message exactly for an endpoint without mock data, under either reading |
| MockNufi.GenerateMockResponse | server/services/mockNufiService.js:15-252 | as written: always a demo-mode success naming the endpoint, timestamp and the parameter names it was given, with the as-written data |
| MockNufi.CorrectedMockResponse | server/services/mockNufiService.js:15-252 | the same envelope around the corrected data |
| MockNufi.CorrectionsAreLocal | server/services/mockNufiService.js:23-237 | the two generators agree on every endpoint except the phone, e-mail and blacklist ones |
| MockNufi.BlacklistAnswerAlwaysLow | server/services/mockNufiService.js:209-233 | as written, every listed name in a blacklist answer is "Low" |
| MockNufi.BlacklistAnswerCorrected | server/services/mockNufiService.js:209-233 | corrected, a listed name's level is drawn from the hash divided by 20 |
| MockNufi.CurpCalculationHasNoDemoData | server/services/mockNufiService.js:235-236 | a CURP calculation in demo mode always gets the not-configured message |
| MockNufi.DemoPhoneData | server/services/mockNufiService.js:24-55 | as written, phone demo data is built from the `phone` parameter; corrected, from `telefono`, else `phone` |
| MockNufi.DemoEmailData | server/services/mockNufiService.js:57-74 | as written, e-mail demo data is built from the `email` parameter; corrected, from `correo`, else `email` |
| MockNufi.AsWrittenPhoneDemoIgnoresInput | server/services/mockNufiService.js:25 | as written, the phone the service sends is never read, so the generator answers every phone search with the data for no phone |
| MockNufi.PhoneDemoEchoesInput | server/services/mockNufiService.js:25 | corrected, the generator builds the answer from the searched phone, trimmed |
| MockNufi.EmailDemoEchoesInput | server/services/mockNufiService.js:58 | as written, the generator answers every e-mail search with the data for no e-mail; corrected, it builds the answer from the searched e-mail, trimmed |
| ExportRoute.StripPhone | server/routes/export.js:49 | no plus sign or white space is left and nothing is added |
| ExportRoute.StripKeepsDigits | server/routes/export.js:49 | stripping keeps every digit, in order |
| ExportRoute.StripKeepsClean | server/routes/export.js:49 | text without a plus sign or white space is left as it is |
| ExportRoute.StripIdempotent | server/routes/export.js:49 | stripping twice equals stripping once |
| ExportRoute.SelectorText | server/routes/export.js:48-49 | numbers become their text and strings are stripped; any other value throws, as it has no `replace` |
| ExportRoute.PhoneSelector | server/routes/export.js:45-49 | the first truthy field, else the entry itself, stripped; a null or missing entry throws |
| ExportRoute.Selector | server/routes/export.js:41-65 | the query phone first, then the `phoneNumber` argument, then the person's first phone, else "Unknown" |
| ExportRoute.QueryDisplayInternationalWins | server/routes/export.js:46 | the query phone's `display_international` wins over everything else |
| ExportRoute.QueryEntryItself | server/routes/export.js:46-49 | a query phone without any of the four fields names the report by the entry itself |
| ExportRoute.PersonPhoneIgnoresRaw | server/routes/export.js:56-60 | a person phone object without the three fields makes the handler throw; its `raw` is never read |
| ExportRoute.KeepFileNameChars | server/routes/export.js:69 | only letters, digits, `_` and `-` are kept, nothing is added |
| ExportRoute.KeepCleanName | server/routes/export.js:69 | text made of file-name characters is kept whole |
| ExportRoute.SanitizeSelector | server/routes/export.js:68-70 | 1 to 50 file-name characters: the kept characters' prefix, or "report" when none is left |
| ExportRoute.SanitizeIdempotent | server/routes/export.js:68-70 | sanitizing twice equals sanitizing once |
| ExportRoute.FileName | server/routes/export.js:73 | a truthy `filename` wins; otherwise the selector followed by " Enrichment.docx" |
| ExportRoute.ExportResponse | server/routes/export.js:16-92 | 400 with the missing-parameter error exactly when `data` or `apiName` is falsy; otherwise a 500 carrying the message of whichever of document generation or selector extraction throws first, and else a download of the generated sections under the derived file name |
| ExportRoute.ExportDocx | server/routes/export.js:16-92 | the handler computes the response function |
| ExportRoute.CleanSelectorFileName | server/routes/export.js:68-73 | a clean selector of at most 50 characters names the file as it is |
| ExportRoute.UnknownFileName | server/routes/export.js:63-73 | a request naming no phone anywhere gets "Unknown Enrichment.docx" |
| ExportRoute.UnknownIsClean | server/routes/export.js:64-73 | "Unknown" survives sanitizing |
| RequestCounter.CountRequest | server/middleware/requestCounter.js:12-21 | an `/api/nufi` request adds one to the total and one to enrichment or else blacklist by its path; errors are untouched |
| RequestCounter.CountSend | server/middleware/requestCounter.js:25-30 | a response with status 400 or more adds one error and changes nothing else |
| RequestCounter.ApplyKeepsBound | server/middleware/requestCounter.js:10-50 | each event keeps the typed counts within the total |
| RequestCounter.RunKeepsBound | server/middleware/requestCounter.js:10-50 | any history keeps the typed counts within the total |
| RequestCounter.AlwaysBounded | server/middleware/requestCounter.js:2-50 | from the zeroed start the typed counts never exceed the total |
| RequestCounter.CountersNeverDecrease | server/middleware/requestCounter.js:10-33 | without a reset no counter ever goes down |
| RequestCounter.RunCounts | server/middleware/requestCounter.js:10-33 | without a reset the total counts the API requests and the errors count the error responses |
| RequestCounter.Stats.constructor | server/middleware/requestCounter.js:2-8 | counting starts from zero |
| RequestCounter.Stats.Count | server/middleware/requestCounter.js:12-21 | one request updates the counters as the request counting function says |
| RequestCounter.Stats.Sent | server/middleware/requestCounter.js:25-30 | one send updates the error count as the send function says |
| RequestCounter.Stats.Reset | server/middleware/requestCounter.js:42-50 | every counter goes back to zero |
| RequestCounter.Stats.Handle | server/middleware/requestCounter.js:10-50 | one event updates the counters as the event function says |
| RequestCounter.Stats.HandleAll | server/middleware/requestCounter.js:10-50 | a history updates the counters as the run function says and keeps the typed counts within the total |
| Auth.ParseEntry | server/middleware/auth.js:21-30 | an entry registers exactly when it has a username and a password, under the lowercased name, with the hashed password, the name defaulting to the username and the role to "user" |
| Auth.Registrations | server/middleware/auth.js:19-31 | one registration outcome per configured entry, in order |
| Auth.RegisterKeys | server/middleware/auth.js:20-31 | a user is in the table exactly when it was there or some entry registers it |
| Auth.RegisterLastWins | server/middleware/auth.js:24-28 | the last registration of a name decides its user |
| Auth.RegisterUntouched | server/middleware/auth.js:20-31 | registrations under other names leave a user alone |
| Auth.InitialUsers | server/middleware/auth.js:11-17 | without a configuration the table stays empty |
| Auth.KeysAreLowercase | server/middleware/auth.js:24 | every key of the table is a lowercased name |
| Auth.UserStore.constructor | server/middleware/auth.js:5 | the user table starts empty |
| Auth.UserStore.InitializeUsers | server/middleware/auth.js:11-32 | without a configuration the table is unchanged; otherwise each entry registers in turn |
| Auth.RequireAuth | server/middleware/auth.js:38-52 | a request passes exactly when no user is configured or the session holds a user; otherwise the 401 answer |
| Auth.NoUsersNoGate | server/middleware/auth.js:14-17 | without a configuration every request passes |
| Auth.Login | server/middleware/auth.js:57-100 | missing credentials are refused first; a login succeeds only for a stored lowercased name whose hash the password verifies, returning the stored name and role; otherwise "Invalid credentials" |
| Auth.LoginIgnoresCase | server/middleware/auth.js:67 | the lookup ignores the case of the username |
| Auth.ConfiguredUserLogsIn | server/middleware/auth.js:11-100 | a configured user, spelled in any case, logs in with the configured password and gets the configured name and role |
| Auth.FoundUserLogsIn | server/middleware/auth.js:67-99 | a stored user with the right password logs in |
| Auth.Session.constructor | server/middleware/auth.js:44 | a session starts without a user |
| Auth.LoginHandler | server/middleware/auth.js:57-100 | the handler answers as the login function and stores the user in the session exactly on success |
| InputPanel.SingleField | client/src/components/InputPanel.js:25-41 | a blank value alerts; otherwise only the key is submitted, trimmed |
| InputPanel.PhoneSubmit | client/src/components/InputPanel.js:25-32 | a blank phone alerts; otherwise `{phone}` trimmed goes to `enrichmentByPhone` |
| InputPanel.EmailSubmit | client/src/components/InputPanel.js:34-41 | a blank e-mail alerts; otherwise `{email}` trimmed goes to `enrichmentByEmail` |
| InputPanel.PhoneFormReachesService | client/src/components/InputPanel.js:31 | whatever the phone form submits, the service forwards as `telefono`, unchanged |
| InputPanel.EmailFormReachesService | client/src/components/InputPanel.js:40 | whatever the e-mail form submits, the service forwards as `correo`, unchanged |
| InputPanel.Optional | client/src/components/InputPanel.js:50-52 | a blank value adds nothing, any other adds its key with the trimmed value |
| InputPanel.NamePayloadHolds | client/src/components/InputPanel.js:49-53 | the name payload holds exactly the non-blank fields, trimmed |
| InputPanel.NameSubmit | client/src/components/InputPanel.js:43-55 | alerts exactly when both first name and paternal surname are blank; otherwise submits the name payload |
| InputPanel.RequiredValues | client/src/components/InputPanel.js:60-68 | one value per required field |
| InputPanel.MissingOf | client/src/components/InputPanel.js:70 | nothing is missing exactly when no value is blank, and every blank one is named |
| InputPanel.BlankRequired | client/src/components/InputPanel.js:70 | whether each required value is blank |
| InputPanel.TrimmedEntries | client/src/components/InputPanel.js:76-86 | each key with its value trimmed, in order |
| InputPanel.TrimmedKeys | client/src/components/InputPanel.js:76-86 | the keys come out in the order given |
| InputPanel.CurpPayload | client/src/components/InputPanel.js:76-86 | the payload opens with `tipo_busqueda` "datos", ends with `sexo` trimmed, and has nine entries exactly when the second surname is filled in, eight otherwise |
| InputPanel.CurpPayloadFields | client/src/components/InputPanel.js:78-83 | entries one to six are the first six required fields, trimmed, in form order |
| InputPanel.CurpPayloadSegundo | client/src/components/InputPanel.js:84 | a filled-in second surname is sent trimmed, just before `sexo` |
| InputPanel.CurpPayloadKeys | client/src/components/InputPanel.js:76-86 | the payload keys are the required names in form order, with `segundo_apellido` before `sexo` when filled in |
| InputPanel.CurpSubmit | client/src/components/InputPanel.js:57-89 | alerts exactly when a required field is blank; otherwise submits the payload as `renapo` |
| InputPanel.CurpPayloadLacksCurp | client/src/components/InputPanel.js:76-86 | the payload never carries a `curp` |
| InputPanel.CurpFormRefusedByRenapo | client/src/components/InputPanel.js:88 | every complete CURP form is refused by the RENAPO service, which needs the `curp` the form never sends |
| Js.Put | client/src/utils/exportUtils.js:146-148 | `obj[k] = v`: an existing key keeps its place, a new one is appended; `k` then reads `v` and every other key reads as before |
| Js.Remove | server/services/docxGenerator.js:779-782 | the key reads as undefined afterwards and every other key reads as before |
| Js.GetFinds | client/src/utils/exportUtils.js:146-148 | reading a key finds a value exactly when the key is present, and the value is the one stored under it |
| Js.PutKeepsDistinct | client/src/utils/exportUtils.js:146-148 | setting a property keeps the keys of an object distinct |
| Js.EscapeChar | server/services/docxGenerator.js:639 | one character as `JSON.stringify` writes it inside a string: never a raw control character, and printable text other than the quote and the backslash as it is |
| Js.EscapeJsonPrintable | server/services/docxGenerator.js:639 | a string's quoted text holds no raw control character, and printable text without quotes or backslashes is written unchanged |
| Js.IntToStringRoundTrip | server/services/mockNufiService.js:115 | `String(n)` reads back as `n` |
| Js.TrimIdempotent | server/middleware/auth.js:21 | trimming a trimmed string changes nothing |
| Js.JoinSplit | server/middleware/auth.js:19-21 | joining the pieces of a split with the separator gives the string back |
| Js.SplitJoin | server/middleware/auth.js:19-21 | splitting a join gives back parts that do not hold the separator |
| Js.DigitsOfDigits | server/services/docxGenerator.js:124 | removing the non-digits of a digit string changes nothing |

## Left out

- The `docx` library objects (`Document`, `Paragraph`, `Table`, styles, borders, headers and footers, `Packer.toBuffer`) are left out. The model keeps only the strings placed in each row and the order of the sections.
- Date and time formatting (`formatDate` and `formatDateTime` in the generator, `formatDate` and `formatTimestamp` in the document utilities, and the current time) depends on JavaScript `Date`, time zones and locale. These are function or string parameters.
- The match-score percentage (`Math.round(match * 100)`) is floating-point rounding and is left out.
- `JSON.stringify` is modelled in its compact form only (`Js.Stringify`); the indented form belongs to the download side, which is left out. String escaping follows `JSON.stringify`: the quote, the backslash, the five short escapes and `\u00xx` for other control characters. Lone surrogates, which it also escapes, cannot occur in a Dafny string. The deep clone through `JSON.parse` is the identity on `Json`.
- The brand-block regular expression is a parameter: the list of matches that `content.match` returns. The bullet pattern `^[\s]*[-*]\s` with the `g` and `m` flags is modelled match by match over the whole text (`ItemScan`); its white space may run across line breaks (see Findings).
- HTTP, Express, axios, `fetch`, Blob downloads (`exportToJSON`, `downloadFile`, the request side of `exportToDOC`), `setTimeout` and the demo delay are left out. So are `console` logging and `alert`.
- `validateCredentials` and `createNufiClient` are folded into the reply parameter of `NufiService.MakeApiCall`.
- React rendering, JSX, hooks and form state beyond the submit validators are left out. `ObjectRenderer` and `PrimitiveValue` are display-only.
- bcrypt hashing and comparison are function parameters. Session storage, `logout` and `checkSession` are left out.
- `getStats` uptime and start time read the wall clock and are left out.
- Numbers are unbounded integers. The one explicit 32-bit wrap is in `hashString` (`MockNufi.ToInt32`).
- The source of `client/src/components/JsonDetailsRenderer.js` does not parse as written.
  - The malformed phone column at lines 90-91 is modelled as the `display_international` column it evidently means.
  - The stray lines at 320-323 are dropped.
  - Of the two `PersonInfoCompact` definitions, the entity tables come from the first (67-274) and the primary values from the second (445-451).
- DocxGenerator.NormalizePersonShape: a gender that normalises to `undefined` is modelled as a removed key. JavaScript keeps the key with an `undefined` value, which reads the same everywhere the model reads it.
- Js.ToUpper: `toUpperCase` is modelled on ASCII letters only. JavaScript maps all of Unicode, so "josé" gives "JOSÉ" there but "JOSé" here, and "ß" gives "SS", which changes the length.
- Js.ToLower: `toLowerCase` is modelled on ASCII letters only, so "JOSÉ" gives "josÉ" here and "josé" in JavaScript.
- Js.CapitalizeFirst: only an ASCII first letter is raised.
- DocumentUtils.TitleWord: a word's first letter is raised and the rest lowered on ASCII letters only (see `Js.ToUpper`). Its "same length" holds for that mapping, not for JavaScript's ("ß" becomes "SS").
- DocumentUtils.CapsWords: "all caps" is judged by the ASCII mapping, so a text with an accented lower-case letter counts as all caps here but not in JavaScript.
- DocumentUtils.NormalizeCapitalization: the all-caps test and the title-casing use the ASCII mapping.
- ExportUtils.HeaderChars: only ASCII upper-case letters start a new word and are lowered.
- MockNufi.EnrichmentData: the upper-cased full name uses the ASCII mapping.
- Auth.ParseEntry: user names are lowered with the ASCII mapping.
- Auth.Login: the user name is matched after the ASCII lowering, so two names that differ only in a non-ASCII letter's case are different users here.
- Auth.LoginIgnoresCase: case is ignored for ASCII letters only.
- DocxGenerator.GenderLines: the gender is capitalised with the ASCII mapping.
- DisplayHelpers.FormatKey: only ASCII letters are capitalised, and only ASCII upper-case letters start a camelCase word.
- DisplayHelpers.Titles: only an ASCII first letter is raised.
- MockNufi.HashOf: the hash reads Unicode code points, while `charCodeAt` reads UTF-16 code units. The two agree on text in the Basic Multilingual Plane; a character beyond it counts once here and as two surrogates in JavaScript.
- MockNufi.HashString: computes `MockNufi.HashOf`, with the same code-point reading.
- MockNufi.HashParam: `hashString(params.x || '')` on a parameter that is not a string hashes it as 0, as JavaScript does for a value without `length`. A non-empty array, or an object with a numeric `length` key, makes `charCodeAt` throw inside the timer instead; the model gives 0 there too. The service only passes trimmed strings, so this does not arise through the app.
- MockNufi.EmailPart: a truthy e-mail that is not a string makes `split` throw inside the timer; the model gives the default part instead.
- MockNufi.EmailEnrichmentData: for a truthy non-string e-mail, the source throws at `split` (see `MockNufi.EmailPart`), while the model answers.
- MockNufi.EmailProfilingData: for a truthy non-string e-mail, the source throws at `includes`, while the model answers with the hash of 0.
- MockNufi.BlacklistData: when the first name and the paternal surname are both numbers, `+` adds them before hashing; the model joins their texts.
- MockNufi.GenerateMockResponse: a parameter that makes the generator throw inside its timer (the cases above) leaves the promise unsettled. The model always answers.
- Js.Prop: reading a property of `null` or `undefined` gives `undefined` here, where JavaScript throws a `TypeError`. Where the model follows such an error, the read is `Js.Read`, which returns it; a read written with `Js.Prop` on such a value gives `undefined` instead of the throw.
- The doc comment of `flattenObject` promises one row per object in an array. The code joins such items into one cell, and the model follows the code.
- The CURP form submits its name and birth fields as `renapo`, and `InputPanel.CurpFormRefusedByRenapo` shows that the service always refuses them. This is modelled as written on both sides.

## Findings

| source | as written | input that shows it | evidently intended | confidence | as-written member | corrected member |
|---|---|---|---|---|---|---|
| server/utils/documentUtils.js:19-20 | each later match is removed with `replace`, which cuts the first occurrence of that text, so two identical brand blocks lose the first copy and keep the last | content `B x B` where `B` is a brand block | keep the first occurrence and drop the later ones | not executed | DocumentUtils.BrandKeepsLastCopy | DocumentUtils.KeepFirstKeepsFirst |
| server/services/mockNufiService.js:211-225 | a name is listed only when its hash is a multiple of 20, and the risk level is chosen by the hash modulo 4, so every listed name is "Low" | any listed name, e.g. one hashing to 0 or 20 | listed names spread over Low to Critical | not executed | MockNufi.ListedIsAlwaysLow | MockNufi.EveryListedLevelOccurs |
| server/utils/documentUtils.js:47 | `[\s]*` and the final `\s` also match line breaks, so a match that starts at one line start can take blank lines or the next line's break | `word\n\n- item` becomes `word\n• item`; `-\nword` becomes `• word` | match white space within one line only, so each list-item line is rewritten on its own | not executed | DocumentUtils.BlankLineSwallowed | DocumentUtils.BulletLine |
| server/services/mockNufiService.js:25,58 | the demo phone and e-mail answers hash `params.phone` and `params.email`, but the service passes its cleaned parameters `telefono` and `correo` (server/services/nufiService.js:165,185), so every answer is the one for `""` and echoes no input | any phone or e-mail search answered in demo or fallback mode | read `telefono` and `correo` | not executed | MockNufi.AsWrittenPhoneDemoIgnoresInput | MockNufi.PhoneDemoEchoesInput |

# PromptEngine in Dafny

A model of PromptEngine's prompt pipeline. The pipeline:

- samples terms from a vocabulary bank;
- renders them through one of three templates;
- remixes generated prompts and logs each remix in a history;
- stores prompts in a tagged memory vault;
- writes prompt batches as json, txt, csv or gpt files, with a SHA-256 ledger line for every prompt.

Both generations of the code are modelled:

- the `core/` package;
- the older top-level copies: `recursive_loop.py` with its two-draw remix, and the engine and writers of `prompt_engine_gui.py`, which pick one term per category.

Randomness is not executed. Each call to `random.sample`, `random.choice` or `random.randint` is given by its outcome, supplied by the caller. The outcome is constrained to what the library can return:

- a sample is a list of distinct positions of the requested size;
- a choice is an index into the sample;
- a `randint` source is any function that answers within its inclusive range.

Other external inputs are handled the same way:

- SHA-256 is a deterministic function `sha256: string -> string` passed in;
- every `datetime.now()` is the timestamp string it produced;
- files are fields that hold what was last written to them.

| file | module | models |
|---|---|---|
| `wrappers.dfy` | `Wrappers` | `Option` and `Result` |
| `py_strings.dfy` | `PyStrings` | `str.join`, `str.split`, `str.strip`, `str.isspace`, and text written line by line |
| `sampling.dfy` | `Sampling` | the vocabulary bank, `dict.get`, and what `random.sample` can return |
| `prefix_map.dfy` | `PrefixMaps` | logs built one entry per input, in order |
| `template_engine.dfy` | `TemplateEngine` | core/template_engine.py |
| `prompt_engine.dfy` | `PromptEngine` | core/prompt_engine.py |
| `recursive_loop.dfy` | `RemixDaemon` | core/recursive_loop.py |
| `legacy_recursive_loop.dfy` | `LegacyRemixDaemon` | recursive_loop.py |
| `memory_vault.dfy` | `Filters`, `MemoryVault` | core/memory_vault.py |
| `output.dfy` | `JsonValues`, `Output` | core/output.py |
| `prompt_engine_gui.dfy` | `GuiPromptEngine` | prompt_engine_gui.py, without the Tk interface |

Behaviour of the code that is easy to miss, and that the model follows:

- **Negative `diff_level`.** `random.sample` raises ValueError for a negative size (core/prompt_engine.py:46 and :51).
  - The model returns `Failure(NegativeSampleSize)` when `diff_level < 0` and a sample is actually drawn: for the targeted category, or for any category of a non-empty vocabulary.
  - An empty vocabulary draws nothing and gives the rendered empty content.
  - In the one-pick engine of prompt_engine_gui.py, a size of 0 or an empty category makes `random.choice` raise IndexError (`ChoiceFromEmpty`).
- **Stripping.** `render` strips the formatted text (core/template_engine.py:28). "plain" without a baseline is therefore the stripped content, and with both parts it is the stripped `"{baseline}, {content}"`.
- **The json `"model"` key.** It is added only when the model is truthy (core/output.py:30), so an empty model string is left out. The same test decides the txt header, the csv header and the gpt default model.
- **Vault tags.** They are a list, not a set (core/memory_vault.py:29), and a record read from the file may lack its `tags` or `category` key.

## Model

| member | source | states |
|---|---|---|
| PyStrings.IsSpace | core/template_engine.py:28 | defines `str.isspace()` on one character: the ASCII controls tab to carriage return and 0x1C-0x1F, space, and the Unicode separators Python counts as whitespace |
| PyStrings.Join | core/recursive_loop.py:34 | defines `sep.join(parts)`: the parts in order with `sep` between neighbours, `""` for no parts; `JoinSplit`, `SplitJoin` and `JoinSnoc` state its properties |
| PyStrings.Split | core/recursive_loop.py:30 | `str.split` with a non-empty separator always returns at least one part |
| PyStrings.JoinSplit | core/recursive_loop.py:30-34 | `", ".join(s.split(", ")) == s` for every string: splitting and re-joining loses nothing |
| PyStrings.SplitJoin | core/recursive_loop.py:30-34 | parts that do not contain an unbordered separator come back from splitting their join, which is the other round trip |
| PyStrings.SplitPartsAreFree | core/recursive_loop.py:30 | no part returned by `split` contains the separator |
| PyStrings.SplitHead | core/recursive_loop.py:30 | the first part returned by `split` is a prefix of the string |
| PyStrings.SplitFree | core/recursive_loop.py:30 | a string without the separator splits into itself alone |
| PyStrings.SplitAfterFree | core/recursive_loop.py:30 | `split` cuts right after a leading separator-free piece |
| PyStrings.PrefixKeepsFree | core/recursive_loop.py:33 | characters other than the separator's first character, put in front of a separator-free string, keep it free of the separator |
| PyStrings.JoinReplacePart | core/recursive_loop.py:33-34 | replacing part i by x changes the joined length by exactly `\|x\| - \|parts[i]\|` |
| PyStrings.ContainsChar | core/output.py:39 | containing a one-character separator is containing that character |
| PyStrings.JoinSnoc | core/output.py:38-39 | joining one more part appends the separator and that part |
| PyStrings.Lines | core/output.py:38-39 | defines what a loop of `f.write(p + "\n")` leaves in a file: every line followed by a newline, in order; `LinesAsJoin` and `LinesSplit` state its properties |
| PyStrings.LinesSnoc | core/output.py:38-39 | writing one more line appends it and its newline |
| PyStrings.LinesAsJoin | core/output.py:38-39 | text written line by line is the lines joined by newlines, plus a final newline |
| PyStrings.LinesSplit | core/output.py:38-39 | when no line contains a newline, the written text splits back into exactly the lines followed by one empty piece |
| PyStrings.TrimStart | core/template_engine.py:28 | defines `lstrip()`: leading whitespace is dropped one character at a time; `TrimStartSpec` states that exactly the longest whitespace prefix goes |
| PyStrings.TrimEnd | core/template_engine.py:28 | defines `rstrip()`: trailing whitespace is dropped one character at a time; `TrimEndSpec` states that exactly the longest whitespace suffix goes |
| PyStrings.Strip | core/template_engine.py:28 | defines `strip()` as `rstrip` after `lstrip`; `StripEnds`, `StripFixpoint` and `StripBlank` state its properties |
| PyStrings.TrimStartSpec | core/template_engine.py:28 | `lstrip` removes exactly the longest whitespace prefix |
| PyStrings.TrimEndSpec | core/template_engine.py:28 | `rstrip` removes exactly the longest whitespace suffix |
| PyStrings.TrimEndKeeps | core/template_engine.py:28 | `rstrip` keeps every character up to the last non-space one |
| PyStrings.StripEnds | core/template_engine.py:28 | the result of `strip` neither starts nor ends with whitespace |
| PyStrings.StripFixpoint | core/template_engine.py:28 | `strip(s) == s` exactly when `s` has no whitespace at either end |
| PyStrings.StripBlank | core/template_engine.py:28 | `strip(s)` is empty exactly when `s` is all whitespace |
| PyStrings.StripAfterBlank | core/template_engine.py:12-28 | a whitespace prefix before a non-space character is removed entirely |
| PyStrings.TrimEndAppend | core/template_engine.py:28 | `rstrip(a + c)` is `a + rstrip(c)` when `c` has a visible character |
| PyStrings.TrimEndBlankTail | core/template_engine.py:12-28 | an all-whitespace tail vanishes under `rstrip` |
| PyStrings.TrimStartAppend | core/template_engine.py:28 | `lstrip(a + c)` is `lstrip(a) + c` when `a` has a visible character |
| PyStrings.TrimStartBlankHead | core/template_engine.py:28 | an all-whitespace head vanishes under `lstrip` |
| PyStrings.TrimBlank | core/template_engine.py:28 | `lstrip` and `rstrip` of an all-whitespace string are empty |
| PyStrings.TrimStartBefore | core/template_engine.py:28 | `lstrip` of a head followed by text starting with a visible character only strips the head |
| PyStrings.TrimEndAfter | core/template_engine.py:28 | `rstrip` of text ending with a visible character followed by a tail only strips the tail |
| PyStrings.StripAround | core/template_engine.py:28 | `strip(b + x + c)` is `lstrip(b) + x + rstrip(c)` when `x` starts and ends with a visible character |
| PyStrings.TrimStartLength | core/template_engine.py:28 | `lstrip(b + y)` is no longer than `lstrip(b)` followed by all of `y` |
| PyStrings.StripWithinTrimEnd | core/template_engine.py:28 | `strip(c)` is no longer than `rstrip(c)` |
| PyStrings.StripLength | core/template_engine.py:28 | `strip(b + x + c)` is no longer than `lstrip(b)`, all of `x` and `rstrip(c)` together |
| PyStrings.TrimStartGrows | core/template_engine.py:28 | appending text never shortens what `lstrip` keeps |
| PyStrings.TrimEndGrows | core/template_engine.py:28 | prepending text never shortens what `rstrip` keeps |
| Sampling.Names | core/prompt_engine.py:23 | defines `list(vocab.keys())`: the category names in insertion order |
| Sampling.WordsOf | core/prompt_engine.py:44-45 | defines `vocab.get(name)`: the word list of the first category with that name, or nothing; `WordsOfNames` states that it finds exactly the listed names |
| Sampling.SampleSize | core/prompt_engine.py:46 | defines `min(diff_level, len(words))`, the size handed to `random.sample`, negative when `diff_level` is |
| Sampling.IsSample | core/prompt_engine.py:46 | defines what `random.sample(range(n), k)` can return: exactly k distinct positions below n |
| Sampling.Select | core/prompt_engine.py:46 | defines the terms at the drawn positions, in draw order; `SelectFromWords` states their count, origin and distinctness |
| Sampling.WordsOfNames | core/prompt_engine.py:44 | `name in vocab` holds exactly for the names `keys()` lists |
| Sampling.SelectFromWords | core/prompt_engine.py:46 | a sample has one term per drawn position, every term is from its list, and there are no repeats when the list has none |
| Sampling.SampleExists | core/prompt_engine.py:46 | `random.sample` has an outcome for every size from 0 to the length of the list |
| Sampling.SampleNeverExceeds | core/prompt_engine.py:46 | distinct positions below n number at most n, so a sample never holds more terms than its list |
| TemplateEngine.Format | core/template_engine.py:28 | defines `pattern.format(baseline=..., content=..., sep=...)` over a pattern of literal text and `{field}` holes; `FormatPlain`, `FormatInstruction` and `FormatCot` state what it gives for each template |
| TemplateEngine.FormatCons | core/template_engine.py:28 | `str.format` proceeds piece by piece through the pattern |
| TemplateEngine.FormatPlain | core/template_engine.py:10 | the "plain" pattern formats to `baseline + sep + content` |
| TemplateEngine.FormatInstruction | core/template_engine.py:11 | the "instruction" pattern formats to `"Instruction: " + baseline + "\nPrompt: " + content` and ignores `sep` |
| TemplateEngine.FormatCot | core/template_engine.py:12 | the "cot" pattern formats to `baseline + " Let's think step by step. " + content` |
| TemplateEngine.Lookup | core/template_engine.py:9-13 | defines `TEMPLATES.get(name)` over the three-entry table; `AvailableAreKnown` states that it finds exactly the listed names |
| TemplateEngine.AvailableTemplates | core/template_engine.py:16-18 | the template names, in table order, are exactly plain, instruction, cot |
| TemplateEngine.AvailableAreKnown | core/template_engine.py:9-18 | a name is listed exactly when the table has a pattern for it |
| TemplateEngine.Render | core/template_engine.py:25-28 | defines `render(content, baseline, template)`: the pattern looked up with "plain" as fallback, formatted with the separator, then stripped; the lemmas below state its properties |
| TemplateEngine.RenderTrimmed | core/template_engine.py:28 | a rendered prompt neither starts nor ends with whitespace, and stripping it again changes nothing |
| TemplateEngine.UnknownRendersPlain | core/template_engine.py:26 | an unknown template name renders exactly as "plain" |
| TemplateEngine.KnownDiffersFromPlain | core/template_engine.py:9-28 | for every content and baseline, "instruction" and "cot" render at least 19 characters longer than "plain", so they never render alike and the fallback applies only to unknown names |
| TemplateEngine.PlainLength | core/template_engine.py:10-28 | a "plain" render is no longer than the left-stripped baseline, two characters and the right-stripped content |
| TemplateEngine.InstructionRender | core/template_engine.py:11-28 | an "instruction" render is exactly `"Instruction: " + baseline + "\nPrompt:"` followed by the right-stripped `" " + content`: the labels and the whole baseline survive the strip |
| TemplateEngine.InstructionLength | core/template_engine.py:11-28 | hence an "instruction" render is at least as long as its 21 label characters, the whole baseline and the right-stripped content |
| TemplateEngine.CotRender | core/template_engine.py:12-28 | a "cot" render is exactly the left-stripped `baseline + " "`, the whole sentence, then the right-stripped `" " + content` |
| TemplateEngine.CotLength | core/template_engine.py:12-28 | hence a "cot" render is at least as long as the left-stripped baseline, the 25-character sentence and the right-stripped content |
| TemplateEngine.Sep | core/template_engine.py:27 | defines `", " if baseline and content else ""`; `SepOnlyBetweenNonEmpty` states it |
| TemplateEngine.SepOnlyBetweenNonEmpty | core/template_engine.py:27 | `sep` is ", " exactly when baseline and content are both non-empty, and "" otherwise |
| TemplateEngine.PlainWithoutBaseline | core/template_engine.py:27-28 | "plain" without a baseline renders `strip(content)`, so no separator leaks in |
| TemplateEngine.PlainWithBaseline | core/template_engine.py:27-28 | "plain" with both parts renders `strip(baseline + ", " + content)` |
| TemplateEngine.InstructionLayout | core/template_engine.py:11-28 | "instruction" renders `rstrip("Instruction: " + b + "\nPrompt: " + c)`, keeps its head intact, and always contains a newline |
| TemplateEngine.CotStripsLeadingBlank | core/template_engine.py:12-28 | "cot" without a baseline loses the pattern's leading blank |
| TemplateEngine.CotWithoutBaseline | core/template_engine.py:12-28 | "cot" without a baseline is the sentence, a blank and the right-stripped content, or the bare sentence when the content is blank |
| PromptEngine.PartSepUnbordered | core/prompt_engine.py:53 | the ", " separator has no proper suffix that is also a prefix |
| PromptEngine.Categories | core/prompt_engine.py:21-23 | defines `categories()` as the vocabulary's keys in insertion order; `CategoriesSelectTargets` relates them to targeted sampling |
| PromptEngine.Templates | core/prompt_engine.py:67-69 | `templates()` is exactly plain, instruction, cot |
| PromptEngine.CategoriesSelectTargets | core/prompt_engine.py:44 | targeted sampling applies exactly when the category is non-empty and one of `categories()` |
| PromptEngine.Parts | core/prompt_engine.py:43-52 | defines the list `generate_prompt` joins: the targeted category's sample, or every category's sample in key order |
| PromptEngine.PromptOf | core/prompt_engine.py:29-54 | defines the prompt `generate_prompt` returns, or the ValueError it raises; `GeneratePrompt` is proved against it |
| PromptEngine.GeneratePrompt | core/prompt_engine.py:29-54 | the loop over categories returns the prompt `PromptOf` specifies: a failure exactly when a negative size is sampled, otherwise the joined sample rendered |
| PromptEngine.NextPrompt | core/prompt_engine.py:64 | one call of the batch: fails exactly when sampling fails, and extends the results so that each is the prompt of its own draws |
| PromptEngine.BatchPrompts | core/prompt_engine.py:56-64 | results that are the prompts of their draws and all succeed give a batch whose i-th prompt is `PromptOf` of the i-th draws |
| PromptEngine.GenerateBatch | core/prompt_engine.py:56-64 | `max(n, 0)` prompts, the i-th generated from the i-th draws; a failure exactly when n > 0 and sampling fails |
| PromptEngine.TargetedSample | core/prompt_engine.py:44-47 | a present category gives exactly `min(diff_level, len(words))` terms, all from that category, with no repeats when the list has none |
| PromptEngine.UnknownCategoryFallsBack | core/prompt_engine.py:44-52 | an absent, empty or unknown category samples every category, as with no category, and fails only for a negative size over a non-empty vocabulary |
| PromptEngine.SamplesCount | core/prompt_engine.py:48-52 | the flattened samples of the first n categories number the sum of their sample sizes |
| PromptEngine.SamplesMembers | core/prompt_engine.py:48-52 | every flattened term comes from one of the categories sampled |
| PromptEngine.AllCategorySample | core/prompt_engine.py:48-52 | all-category sampling joins the categories' samples in key order; category i contributes `min(diff_level, len(words))` terms of its own list, with no repeats when the list has none; the total is the sum of those sizes |
| PromptEngine.NoSizeNoTerms | core/prompt_engine.py:50-51 | with `diff_level = 0` no category contributes a term |
| PromptEngine.ZeroDiffRendersEmpty | core/prompt_engine.py:46-54 | `diff_level = 0` renders the template on empty content |
| RemixDaemon.Remix | core/recursive_loop.py:29-34 | defines `_review_and_remix`: split on ", ", with more than two parts prefix the drawn part with "evolved ", and re-join; `RemixProperties` states its properties |
| RemixDaemon.ReviewAndRemix | core/recursive_loop.py:29-34 | the in-place update of `parts[idx]` gives the remix `Remix` specifies |
| RemixDaemon.MarkedPartIsFree | core/recursive_loop.py:33 | prefixing "evolved " does not put a ", " into a part |
| RemixDaemon.RemixProperties | core/recursive_loop.py:29-34 | at most two parts: the prompt is unchanged; more: the result splits into the same parts with exactly the drawn one prefixed by "evolved ", and is 8 characters longer |
| RemixDaemon.RecordsIsEntryOf | core/recursive_loop.py:39-46 | an entry records a round exactly when it is the entry the loop builds for it |
| RemixDaemon.LoggedRecords | core/recursive_loop.py:39-48 | every logged entry holds its round's timestamp, the prompt generated with an empty baseline and no category, its remix, and the remix's digest |
| RemixDaemon.RecursivePromptDaemon.constructor | core/recursive_loop.py:13-22 | the history starts as the stored file, or empty when none exists |
| RemixDaemon.RecursivePromptDaemon.SaveHistory | core/recursive_loop.py:24-27 | the file is overwritten with the in-memory history |
| RemixDaemon.RecursivePromptDaemon.RecordRound | core/recursive_loop.py:39-46 | one iteration's entry, or the sampling failure |
| RemixDaemon.RecursivePromptDaemon.AppendRound | core/recursive_loop.py:38-48 | one iteration appends exactly one entry after the untouched earlier ones, keeps the log, and returns the remix it appended |
| RemixDaemon.RecursivePromptDaemon.RunRecursiveLoop | core/recursive_loop.py:36-50 | `max(k, 0)` remixes in generation order; the history grows by exactly that many logged entries behind an unchanged prefix; it is saved once, equal to memory; nothing changes on failure |
| LegacyRemixDaemon.LegacyRemix | recursive_loop.py:25-30 | defines the older `review_and_remix`: with more than two parts, the slot of the second draw gets "evolved " and the part of the first draw; `LegacyRemixProperties` states its properties |
| LegacyRemixDaemon.LegacyReviewAndRemix | recursive_loop.py:25-30 | the assignment stores the evolved copy of the first draw's part into the second draw's slot |
| LegacyRemixDaemon.LegacyRemixProperties | recursive_loop.py:25-30 | at most two parts: the prompt is unchanged; more: the same number of parts, slot i set to "evolved " + part j, every other slot unchanged, and the length changes accordingly |
| LegacyRemixDaemon.OverwrittenPartVanishes | recursive_loop.py:29-30 | when the parts are distinct and the overwrite changes slot i, the original part i no longer appears in the result |
| LegacyRemixDaemon.LegacyRecordsIsEntryOf | recursive_loop.py:35-44 | an entry records a round exactly when it is the entry the loop builds for it |
| LegacyRemixDaemon.LegacyLoggedRecords | recursive_loop.py:35-45 | every logged entry holds the prompt generated with the defaults (empty baseline, no category, "plain"), its remix, and the remix's digest |
| LegacyRemixDaemon.LegacyPromptDaemon.constructor | recursive_loop.py:10-19 | the history starts as the stored file, or empty |
| LegacyRemixDaemon.LegacyPromptDaemon.SaveHistory | recursive_loop.py:21-23 | the file is overwritten with the in-memory history |
| LegacyRemixDaemon.LegacyPromptDaemon.RecordRound | recursive_loop.py:35-44 | one iteration's entry, or the sampling failure |
| LegacyRemixDaemon.LegacyPromptDaemon.AppendRound | recursive_loop.py:34-46 | one iteration appends exactly one entry after the untouched earlier ones and returns its remix |
| LegacyRemixDaemon.LegacyPromptDaemon.RunRecursiveLoop | recursive_loop.py:32-49 | `max(k, 0)` remixes in order; exactly that many logged entries appended; saved once after the loop; nothing changes on failure |
| Filters.Filter | core/memory_vault.py:35-39 | a comprehension with a condition keeps exactly the elements that pass, and never more than it was given |
| Filters.FilterIsSubsequence | core/memory_vault.py:35-39 | a filtered list is a subsequence: order is kept |
| Filters.SubsequenceOfTail | core/memory_vault.py:35-39 | a subsequence of the tail is a subsequence of the whole |
| Filters.FilterAppend | core/memory_vault.py:35-39 | filtering a concatenation concatenates the filtered parts |
| Filters.FilterAll | core/memory_vault.py:35-39 | a list whose every element passes comes back whole |
| MemoryVault.NewEntry | core/memory_vault.py:24-30 | the record carries the prompt, timestamp and category given, and a missing tag list is stored as [] |
| MemoryVault.SearchByTag | core/memory_vault.py:35-36 | defines `search_by_tag` as the records whose tag list holds the tag, in vault order; `SearchByTagSpec` states it |
| MemoryVault.FilterByCategory | core/memory_vault.py:38-39 | defines `filter_by_category` as the records with that category, in vault order; `FilterByCategorySpec` states it |
| MemoryVault.SearchByTagSpec | core/memory_vault.py:35-36 | exactly the records carrying the tag, as a subsequence of the vault; later additions come after |
| MemoryVault.FilterByCategorySpec | core/memory_vault.py:38-39 | exactly the records of the category, as a subsequence of the vault; later additions come after |
| MemoryVault.SingleCategoryFilter | core/memory_vault.py:38-39 | a vault of one category comes back whole from that category's filter |
| MemoryVault.QueriesAfterAdd | core/memory_vault.py:31-39 | after an addition, each query returns its earlier answer followed by the new record exactly when it matches |
| MemoryVault.PromptMemoryVault.constructor | core/memory_vault.py:9-17 | the vault starts as the stored file, or empty |
| MemoryVault.PromptMemoryVault.SaveVault | core/memory_vault.py:19-22 | the file is overwritten with the in-memory vault |
| MemoryVault.PromptMemoryVault.AddEntry | core/memory_vault.py:24-33 | exactly one record is appended after the unchanged earlier ones, the file then equals the vault, and the record is returned |
| MemoryVault.PromptMemoryVault.AddEntryDefault | core/memory_vault.py:24 | without a category, "general" is stored |
| MemoryVault.PromptMemoryVault.Search | core/memory_vault.py:35-36 | returns exactly the vault's records that carry the tag, as a subsequence of the vault, and changes nothing |
| MemoryVault.PromptMemoryVault.FilterCategory | core/memory_vault.py:38-39 | returns exactly the vault's records of that category, as a subsequence of the vault, and changes nothing |
| JsonValues.StringsOfStringArray | core/output.py:29-33 | a JSON array of the prompts reads back as the same list, in order |
| JsonValues.FindCons | core/output.py:29-31 | a key lookup answers with the first field of that name |
| Output.FileName | core/output.py:25 | defines the batch file name `batch_{stamp}_{tag}.{format}` |
| Output.FileNameExtension | core/output.py:25 | the batch file's extension is the format |
| Output.ExtensionAfterDot | core/output.py:25 | the text after a name's last dot is what follows it |
| Output.JsonPayload | core/output.py:29-31 | defines the "json" document `{"prompts": prompts}`, with `"model"` added when the model is truthy |
| Output.JsonPayloadReadBack | core/output.py:28-33 | the json document reads back as the prompts, and has "model" exactly when the model is truthy |
| Output.GptPayload | core/output.py:51-54 | defines the "gpt" document: one record per prompt with the model, or "gpt-4o", and a single user message |
| Output.GptPayloadReadBack | core/output.py:50-56 | gpt record i names the model, or "gpt-4o", and holds one user message whose content is prompt i |
| Output.CsvRow | core/output.py:44-49 | defines one csv row: the prompt in unescaped double quotes, after `model,` when the model is truthy |
| Output.CsvLines | core/output.py:40-49 | defines the csv lines: the header `model,prompt` or `prompt`, then one row per prompt |
| Output.CsvRowQuotesPrompt | core/output.py:40-49 | the quotes of a csv row enclose exactly the unescaped prompt, after `model,` when a model is given |
| Output.WriteLines | core/output.py:38-39 | the write loop leaves each line followed by "\n", in order |
| Output.TxtLines | core/output.py:34-39 | defines the txt lines: `# model: m` when the model is truthy, then the prompts |
| Output.TxtReadBack | core/output.py:34-39 | when neither the prompts nor the model hold a newline, a txt file reads back as the optional `# model:` header, then the prompts one per line |
| Output.CsvReadBack | core/output.py:40-49 | when neither the prompts nor the model hold a newline, the csv file splits back into the header, one row per prompt and a final empty piece |
| Output.Rendered | core/output.py:28-58 | defines the file `save_prompts` writes for each of the four formats, and none for any other |
| Output.RenderedFormats | core/output.py:28-58 | exactly json, txt, csv and gpt produce a file |
| Output.LedgerText | core/output.py:12 | defines the text of one ledger record, `{ts} \| {hash} \| {prompt}` |
| Output.LedgerTexts | core/output.py:60-61 | one ledger record per prompt |
| Output.LedgerTextsMapped | core/output.py:60-61 | records written call by call, one per prompt, are the batch's records |
| Output.LedgerReadBack | core/output.py:60-61 | when no stamp, digest or prompt holds a newline, the ledger lines of a batch read back as one `ts \| hash \| prompt` record per prompt, in order |
| Output.TextFile.constructor | core/output.py:11 | a text file holds the content given |
| Output.TextFile.Append | core/output.py:11-12 | appending keeps everything already written |
| Output.OutputDir.constructor | core/output.py:23-24 | the output directory holds the files given |
| Output.OutputDir.Write | core/output.py:32 | opening with "w" replaces only that file |
| Output.SavePromptHash | core/output.py:7-12 | one line `ts + " \| " + sha256(p) + " \| " + p + "\n"` is appended to the ledger (prompt_engine_gui.py:31-34 writes the same line) and returned |
| Output.SavePromptHashes | core/output.py:60-61 | the ledger gains exactly one line per prompt, in order, after its untouched earlier content |
| Output.SavePrompts | core/output.py:15-62 | the file `batch_<ts>_<tag>.<format>` gets the format's content and the ledger one line per prompt; any other format fails with nothing written |
| GuiPromptEngine.GuiError | prompt_engine_gui.py:22-24 | defines the exception the older `generate_prompt` raises: ValueError for a negative size, IndexError when a category's sample is empty, none for an empty vocabulary |
| GuiPromptEngine.NoErrorChoosable | prompt_engine_gui.py:23-24 | without an exception, every category's sample is non-empty and the choice is one of its terms |
| GuiPromptEngine.GuiPromptOf | prompt_engine_gui.py:20-25 | defines the prompt the older `generate_prompt` returns, one chosen term per category joined by ", ", or its exception |
| GuiPromptEngine.GeneratePrompt | prompt_engine_gui.py:20-25 | the loop returns the prompt `GuiPromptOf` specifies, or the first exception raised |
| GuiPromptEngine.GuiFailures | prompt_engine_gui.py:22-24 | a call fails exactly when the vocabulary is non-empty and the size is at most 0 or some category is empty; ValueError exactly for a negative size |
| GuiPromptEngine.OneTermPerCategory | prompt_engine_gui.py:21-25 | exactly one term per category, in key order, each from its category; with terms free of ", " the prompt splits back into them |
| GuiPromptEngine.GenerateBatch | prompt_engine_gui.py:27-28 | `max(n, 0)` prompts, each from its own draws; a failure exactly when n > 0 and a call would fail |
| GuiPromptEngine.GuiRendered | prompt_engine_gui.py:42-55 | defines the file the older `save_prompts` writes: a bare json list, the txt lines, or the csv lines without a model |
| GuiPromptEngine.GuiRenderedVsCore | prompt_engine_gui.py:42-55 | txt and csv write what core/output.py writes without a model; json is the bare list, which has no "prompts" key; only json, txt and csv are accepted |
| GuiPromptEngine.GuiSavePrompts | prompt_engine_gui.py:37-60 | the batch file gets the format's content and the ledger one line per prompt; gpt or any other format fails before anything is written |

## Left out

- core/dictionary.py and `PromptEngine.category_definition`: a lookup in a definitions file read at import time.
- Loading the vocabulary (`_load_vocab`, `load_vocab`): the vocabulary is a parameter, with categories in insertion order.
- A caller-supplied `template_renderer` (core/prompt_engine.py:12-15): the engine always renders with `TemplateRenderer`, modelled as `TemplateEngine.Render`; a different renderer passed in is not modelled.
- Duplicate category names: a vocabulary is a list of (name, terms) pairs, and nothing requires the names to be distinct, as the keys of the loaded dict are. With a repeated name, `Sampling.Names` would list it twice and `Sampling.WordsOf` would find its first list, where Python's `json.load` keeps only the last.
- Default argument values (`diff_level=5`, `n=100`, `iterations=5`, `baseline=""`, `category=None`, `template="plain"`, `format="json"`, `tag="default"`, `out_dir="outputs"`, `model=None`): every modelled operation takes these arguments explicitly, and a call that relies on a default is the call with that value. The one default that changes behaviour on its own, the vault's `category="general"`, is `MemoryVault.PromptMemoryVault.AddEntryDefault`.
- The command-line front ends, `PromptGUI`, gui/app.py, prompt_preview.py and the profile loaders: argument parsing, Tk widgets and a profile lookup, with no pipeline logic.
- Randomness: every draw is a caller-supplied outcome, constrained to what `random.sample`, `random.choice` and `random.randint` can return. Uniformity is not modelled.
- SHA-256 and the clock: the digest is a deterministic function passed in, and each timestamp is the string the call read. Nothing about collision resistance or the `strftime` layout is modelled.
- The byte layout of `json.dump` (indentation, escaping) and the `json.load` of a file: JSON documents are values. A vault or history file that does not hold a list is not modelled.
- `mkdir`, `Path` joining and file handles: the output directory maps file names to their last content, and `save_prompts` returns the file name rather than the joined path.
- Failures of the file system (full disk, permissions, partial writes) and concurrent writers: the model is single-process, and every write succeeds.
- A vault record whose `tags` value is `null`: `tag in None` raises TypeError in `search_by_tag`, but the model reads a missing or null tag list as empty.
- Output.TxtReadBack: the one-line-per-prompt read-back is proved only for prompts and a model without a newline. The "instruction" template always puts a newline into a prompt (TemplateEngine.InstructionLayout), and such a prompt spans two lines of the file.
- Output.CsvReadBack: the one-row-per-prompt read-back is proved only for prompts and a model without a newline; an "instruction" prompt spans two csv rows, because the row quotes but does not escape it.
- Output.LedgerReadBack: the one-record-per-line read-back is proved only when no stamp, digest or prompt holds a newline; an "instruction" prompt spans two ledger lines.

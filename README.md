# FiveQ core, modelled in Dafny

FiveQ is a small web app. It shows batches of ten "Name 3 …" conversation questions
and a five-second countdown for answering them. This project models the logic under
the user interface:

- **The question service** (`LlmService`). It picks the API key and falls back to a
  sample from a bank of 25 questions when the key is missing or the call fails. It
  turns the text of a completion into a batch of ten questions: the lines are
  filtered, bullets are stripped, lines starting with "name 3" are kept, each kept
  line gets a category, and the batch is padded with bank draws. It numbers and
  categorises the questions.
- **The MCP facade** (`McpService`). A connection flag gates question generation. A
  fallback list of ten questions gets random categories.
- **The prompt template** (`QuestionConfig`, `QuestionConfigText`). `createPrompt`
  builds its text from the question configuration.
- **The countdown component** (`Timer`). It models the idle, running and finished
  states, the interval handle, the display class, the status message and which
  buttons are enabled.
- **The application shell** (`QuestionApp`). Its mock generator produces numbered
  batches of ten. The model keeps its state: the questions on show, the loading flag
  and the set counter.

Shared pieces:

- `Questions` holds the question record and a model of `Array.prototype.slice(0, n)`.
- `JsStrings` models the JavaScript string operations the core uses: `trim`,
  `toLowerCase`, `startsWith`, `includes`, `split('\n')`, `join('\n')` and decimal
  formatting of integers.
- `Wrappers` holds `Option` and `Result`.

Randomness is a parameter:

- Each `[...bank].sort(() => 0.5 - Math.random())` is a `Shuffle`, an ordering of the
  bank positions.
- Each `Math.floor(Math.random() * 5)` is a `CategoryPick`, an index from 0 to 4.
- A sequence of draws is a function from the draw number to the draw (`shuffles`,
  `picks`).

The HTTP reply of the Anthropic API is an abstract `ApiResponse`: a failed fetch, or a
status with a body that may or may not carry a text in its first content block.

Behaviour of the code worth knowing, all modelled as written:

- **A parsed batch always has ten questions** (`LlmService.ParsedWhenAnswered`). The
  `count` passed to `generateQuestions` only shapes the request and caps the bank
  sample.
- **Parsed ids come from line positions, not from the kept questions.**
  - A kept question takes the position of its line among the non-blank lines, plus
    one (`src/services/llmService.ts:87`).
  - Padding questions are numbered by the current batch length, plus one
    (`src/services/llmService.ts:97`).
  - So ids can skip numbers, and a padding id can repeat a parsed one.
    `LlmExamples.ParsedIdsCollide` proves this for any two-line reply whose first line
    is not blank and is not kept (once one leading bullet is stripped and the line
    trimmed, its lower-case form does not start with "name 3"), and whose second line
    is kept.
    Both of the first two questions carry id 2, and no question carries id 1. (A blank
    first line is filtered out before numbering, so it causes no collision.)
    `LlmExamples.HelloThenFoods` shows that "Hello" followed by "Name 3 foods" is
    such a reply.
- **Category keywords are matched as substrings, in a fixed priority.** So
  "Name 3 songs you both love" is Entertainment and not Relationship
  (`LlmExamples.CategorizeSongsExample`). "Name 3 places you want to travel" is
  Travel & Adventure and not Dreams & Goals (`LlmExamples.CategorizePlacesExample`).
- **The catch branch of the MCP service's `generateQuestions` is never reached.** The
  question service catches its own failures and never throws. So when connected,
  `McpService.Service.GenerateQuestions` always returns the question service's batch.
  `getFallbackQuestions` is modelled in its own right.
- **The question service does not use `createPrompt`.** `callAnthropicAPI` builds its
  own inline prompt. `createPrompt` is modelled as the configured template it is.
- **The timer's interval handle is not cleared when a run finishes.** The interval is
  stopped, but the ref keeps the stale handle. The model records this as the state
  `Cleared`. A later `stopTimer` or `resetTimer` then forgets the handle.

## Model

| member | source | states |
|---|---|---|
| Questions.SliceLength | src/services/llmService.ts:155 | How many elements `slice(0, end)` keeps: never more than the length, and a non-negative end is clamped to the length |
| JsStrings.SkipWhitespace | src/services/llmService.ts:84 | The first non-whitespace position at or after `i`: everything skipped is whitespace, and what it stops at is not |
| JsStrings.TrimStart | src/services/llmService.ts:84 | The regex `\s*` after a bullet: the result is a suffix of the input, what was removed is all whitespace, and the result is empty or starts with a non-whitespace character |
| JsStrings.TrimSpec | src/services/llmService.ts:80 | `trim` gives a contiguous slice of the input with whitespace only before and after it. It is empty exactly when the input is all whitespace; otherwise it starts and ends with non-whitespace |
| JsStrings.TrimAfterTrimStart | src/services/llmService.ts:84 | Trimming after stripping leading whitespace is trimming |
| JsStrings.Trim | src/services/llmService.ts:80 | `trim`: the input without its leading and trailing whitespace runs (characterised by TrimSpec) |
| JsStrings.ToLower | src/services/llmService.ts:105 | `toLowerCase` keeps the length and lower-cases each character on its own |
| JsStrings.ToLowerIdempotent | src/services/llmService.ts:105 | Lower-casing twice is lower-casing once |
| JsStrings.StartsWith | src/services/llmService.ts:85 | `startsWith`: the prefix is a prefix of the text |
| JsStrings.Contains | src/services/llmService.ts:107 | `includes`: the substring occupies some stretch of the text (matched to the scanning reading by ScanFindsOccurrence) |
| JsStrings.ScanFindsOccurrence | src/services/llmService.ts:107 | The scanning `includes` is true exactly when the substring occurs at some position |
| JsStrings.AbsentPair | src/services/llmService.ts:107 | A keyword whose first two characters never stand side by side in the text is not contained in it |
| JsStrings.Split | src/services/llmService.ts:80 | `split` gives at least one piece, and no piece holds the separator |
| JsStrings.Join | src/config/questionConfig.ts:66 | `join`: the pieces with the separator between neighbours, and "" for no pieces (its inverse is proved in JoinSplit and SplitJoin) |
| JsStrings.JoinSplit | src/services/llmService.ts:80 | Joining the pieces of a split with the separator gives back the text |
| JsStrings.SplitJoin | src/config/questionConfig.ts:66 | Splitting a join of pieces without the separator gives back the pieces |
| JsStrings.NatToString | src/config/questionConfig.ts:77 | Decimal text of a natural number: at least one digit, all digits, no leading zero |
| JsStrings.NatToStringValue | src/config/questionConfig.ts:77 | Reading the decimal text back gives the number |
| JsStrings.IntToString | src/App.tsx:27 | Template-literal formatting of an integer: the decimal text, with a minus sign for negative numbers, and never a line break |
| LlmService.Categorize | src/services/llmService.ts:104-122 | `categorizeQuestion` always gives one of the seven labels |
| LlmService.CategorizeIsFirstHit | src/services/llmService.ts:104-122 | The if/else chain is the priority search over the keyword families, applied to the lower-cased text |
| LlmService.FamilyKeywords | src/services/llmService.ts:107-118 | Each family hits exactly when one of the keywords of its branch occurs |
| LlmService.FirstHitIsEarliest | src/services/llmService.ts:107-121 | In a priority search, the earliest family that hits decides the label |
| LlmService.CategorizeByPriority | src/services/llmService.ts:107-121 | The label is that of the earliest family with a keyword in the lower-cased text |
| LlmService.CategorizeDefault | src/services/llmService.ts:119-121 | "Personal" when no family has a keyword in the text |
| LlmService.CategorizeIgnoresCase | src/services/llmService.ts:105 | The label does not depend on letter case |
| LlmService.BankWellFormed | src/services/llmService.ts:125-151 | The bank holds 25 entries with distinct texts, each labelled with one of the seven labels |
| LlmService.GenerateEnhancedMockQuestions | src/services/llmService.ts:124-160 | The first `count` bank entries (as `slice` counts them) in shuffled order, numbered from 1, with their texts and labels |
| LlmService.MockQuestionsDistinct | src/services/llmService.ts:153-159 | A sample never repeats a bank question, and each of its labels is one of the seven |
| LlmService.PadEntryIsOneDraw | src/services/llmService.ts:96-97 | A padding question is the single question of a one-question sample, renumbered |
| LlmService.NonBlank | src/services/llmService.ts:80 | `filter(line => line.trim().length > 0)` over a list of lines, in order (characterised by the lemmas below) |
| LlmService.NonBlankLines | src/services/llmService.ts:80 | `text.split('\n').filter(line => line.trim().length > 0)`: the filter over the split pieces (characterised by JoinSplit, NonBlankSpec, NonBlankAppend and NonBlankPosition) |
| LlmService.NonBlankSpec | src/services/llmService.ts:80 | Membership both ways: every kept line trims to something and comes from the input, and every such input line is kept. The result is no longer than the input |
| LlmService.NonBlankAppend | src/services/llmService.ts:80 | Filtering a concatenation concatenates the filtered parts, so order and repetitions are kept |
| LlmService.NonBlankSingle | src/services/llmService.ts:80 | One line is kept exactly when it does not trim to nothing |
| LlmService.NonBlankPosition | src/services/llmService.ts:80 | A line that does not trim to nothing sits in the filtered list right after the filtered lines before it, which is the position its parsed id is based on |
| LlmService.ParsedQuestion | src/services/llmService.ts:86-90 | The object pushed for a kept line: id `index + 1` from the line's position among the non-blank lines, the cleaned text, its category (characterised by KeptQuestionsSound) |
| LlmService.KeptQuestions | src/services/llmService.ts:83-92 | The questions the `forEach` pushes, in line order (characterised by KeptQuestionsSound, KeptQuestionsOrdered and KeptQuestionsComplete) |
| LlmService.CollectQuestions | src/services/llmService.ts:83-92 | The `forEach` pass yields exactly the kept-lines selection over the non-blank lines |
| LlmService.KeptStep | src/services/llmService.ts:83-92 | One more line extends the selection by that line's question when the line is kept, and leaves it alone otherwise |
| LlmService.SelectSound | src/services/llmService.ts:83-92 | Every selected question is built from a line that passes the filter, at the position its id names |
| LlmService.SelectOrdered | src/services/llmService.ts:83-92 | The ids of the selected questions strictly increase |
| LlmService.SelectComplete | src/services/llmService.ts:83-92 | Every line that passes the filter yields its question |
| LlmService.KeptQuestionsSound | src/services/llmService.ts:84-90 | Each kept question is the cleaned, categorised line at the position named by its id, and that line starts with "name 3" after cleaning and lower-casing |
| LlmService.KeptQuestionsOrdered | src/services/llmService.ts:83-92 | Kept questions appear in line order, with increasing ids |
| LlmService.KeptQuestionsComplete | src/services/llmService.ts:83-92 | No line that passes the filter is lost |
| LlmService.StripBullet | src/services/llmService.ts:84 | `replace(/^[-*•]\s*/, '')`: a bullet in the first position goes with the whitespace after it, and any other line is unchanged (characterised by CleanLineSpec and BulletStripped) |
| LlmService.CleanLine | src/services/llmService.ts:84 | The bullet is stripped, then the line is trimmed (characterised by CleanLineSpec) |
| LlmService.Keeps | src/services/llmService.ts:85 | The cleaned, lower-cased line starts with "name 3" (instances in BulletedQuestionKept and IndentedBulletDiscarded) |
| LlmService.CleanLineSpec | src/services/llmService.ts:84 | Cleaning trims the rest of the line after a leading bullet, and trims the whole line otherwise |
| LlmService.IndentedBulletDiscarded | src/services/llmService.ts:84-85 | A bullet with whitespace before it is not stripped, and the line is dropped |
| LlmService.BulletStripped | src/services/llmService.ts:84 | A bullet in the first position goes, with the whitespace after it |
| LlmService.BulletedQuestionCleaned | src/services/llmService.ts:84 | "- Name 3 favorite foods" cleans to "Name 3 favorite foods" |
| LlmService.BulletedQuestionKept | src/services/llmService.ts:85 | "- Name 3 favorite foods" is kept |
| LlmService.PadEntry | src/services/llmService.ts:96-97 | The question pushed when the batch has `position` questions: the first of a fresh one-question sample, numbered `position + 1` (characterised by PadEntryIsOneDraw) |
| LlmService.Padding | src/services/llmService.ts:95-99 | The entries the `while` loop appends, draw `j` numbered by the length before it (characterised by PaddingStep and PaddedToTenLayout) |
| LlmService.BulletedQuestionCategorized | src/services/llmService.ts:104-108 | The cleaned line "Name 3 favorite foods" is Food & Dining |
| LlmService.PaddedToTen | src/services/llmService.ts:95-101 | The padded and cut batch holds ten questions |
| LlmService.PaddingStep | src/services/llmService.ts:95-99 | One more draw extends the padding by the entry drawn |
| LlmService.PadToTen | src/services/llmService.ts:94-101 | The `while` loop and the final `slice` give the padded batch |
| LlmService.PaddedToTenLayout | src/services/llmService.ts:94-101 | The kept questions come first, then bank draws. Draw `j` fills slot `kept + j` and carries the id of its slot |
| LlmService.ParsedBatch | src/services/llmService.ts:79-102 | The parsed batch holds ten questions |
| LlmService.ParseQuestionsFromText | src/services/llmService.ts:79-102 | `parseQuestionsFromText` returns the parsed batch of the text |
| LlmService.ParsedBatchLayout | src/services/llmService.ts:79-102 | The parsed batch starts with the questions of the kept lines in line order, then bank draws numbered by their slots |
| LlmService.ResolveApiKey | src/services/llmService.ts:23 | `||` gives the environment key when it is set and non-empty, and the configured key otherwise. A non-empty key is found exactly when either is non-empty |
| LlmService.HasUsableKey | src/services/llmService.ts:25 | The key passes the guard: set, non-empty and not the placeholder (used by MockWithoutKey and ParsedWhenAnswered) |
| LlmService.CompletionText | src/services/llmService.ts:69-74 | The text handed to the parser, or why the call throws first (characterised by CompletionTextSpec) |
| LlmService.CompletionTextSpec | src/services/llmService.ts:69-74 | A text reaches the parser exactly when the request succeeded with a 2xx status and the first content block has a text, and it is that text. A non-2xx status fails with that status |
| LlmService.CompletionIgnoresLaterBlocks | src/services/llmService.ts:74 | Content blocks after the first are never read |
| LlmService.CallAnthropicApi | src/services/llmService.ts:69-76 | The call gives the parsed batch of the completion text, or the failure it throws |
| LlmService.GeneratedBatch | src/services/llmService.ts:21-36 | The batch of `generateQuestions` for given keys, reply and draws (characterised by MockWithoutKey, MockAfterFailure, ParsedWhenAnswered and GeneratedBatchShape) |
| LlmService.GenerateQuestions | src/services/llmService.ts:21-36 | `generateQuestions` returns the batch defined by the key guard and the try/catch |
| LlmService.MockWithoutKey | src/services/llmService.ts:25-28 | A missing, empty or placeholder key gives the bank sample for `count`, whatever the reply |
| LlmService.MockAfterFailure | src/services/llmService.ts:32-35 | A failed call gives the bank sample for `count` |
| LlmService.ParsedWhenAnswered | src/services/llmService.ts:30-31 | A usable key and a readable reply give the parsed batch: ten questions, the same for every `count` |
| LlmService.GeneratedBatchShape | src/services/llmService.ts:21-36 | Every batch is the bank sample for `count` or ten questions |
| LlmExamples.CategorizeSongsExample | src/services/llmService.ts:111-114 | "Name 3 songs you both love" is Entertainment: the song keyword outranks the love keyword |
| LlmExamples.CategorizePlacesExample | src/services/llmService.ts:109-116 | "Name 3 places you want to travel" is Travel & Adventure, although it contains "want" |
| LlmExamples.NoEatInExamples | src/services/llmService.ts:107 | Neither example text contains "eat", so the food family does not hit on it |
| LlmExamples.OnlySecondKept | src/services/llmService.ts:80-92 | For a two-line reply whose first line is not blank and is not kept (once one leading bullet is stripped and the line trimmed, its lower-case form does not start with "name 3"), and whose second line is kept, only the second line's question is kept, with id 2 |
| LlmExamples.ParsedIdsCollide | src/services/llmService.ts:87-97 | For such a reply (first line not blank and not kept, second line kept), the first two questions of the batch both carry id 2, and none carries id 1 |
| LlmExamples.HelloThenFoods | src/services/llmService.ts:84-85 | "Hello" then "Name 3 foods" meets the conditions of the collision |
| McpService.Service.constructor | src/services/mcpService.ts:11-12 | A fresh service holds no client and is not connected |
| McpService.Service.Connect | src/services/mcpService.ts:14-24 | `connect` raises the flag and leaves the client alone |
| McpService.Service.Disconnect | src/services/mcpService.ts:74-77 | `disconnect` lowers the flag and drops the client |
| McpService.Service.GenerateQuestions | src/services/mcpService.ts:26-46 | When not connected, it fails with "MCP Service not connected". When connected, it succeeds with the question service's batch |
| McpService.ConnectionLifecycle | src/services/mcpService.ts:14-77 | Refused before `connect`, served after it, refused again after `disconnect` |
| McpService.RandomCategory | src/services/mcpService.ts:69-72 | `getRandomCategory` gives one of its five labels |
| McpService.EveryCategoryDrawn | src/services/mcpService.ts:70-71 | Every one of the five labels can be drawn |
| McpService.FallbackQuestions | src/services/mcpService.ts:48-67 | The first `count` fallback texts (as `slice` counts them), numbered from 1, each with one of the five labels |
| McpService.FallbackTextsArePrefix | src/services/mcpService.ts:62-66 | The texts are the fallback list in order, whatever the draws. A non-negative count gives `min(count, 10)` questions |
| McpService.FallbackTextsInBank | src/services/mcpService.ts:49-60 | The fallback list is the first ten texts of the question service's bank |
| McpService.FallbackDistinct | src/services/mcpService.ts:49-66 | A fallback batch never repeats a question |
| QuestionConfig.PromptFor | src/config/questionConfig.ts:62-82 | The template of `createPrompt` over any configuration (characterised by PromptIsJoinOfLines, PromptLinesSplit, CountReadable and StyleVerbatim) |
| QuestionConfig.CreatePrompt | src/config/questionConfig.ts:62-82 | `createPrompt(count)`: the template over the shipped configuration (characterised by CreatePromptLines) |
| QuestionConfig.Bullets | src/config/questionConfig.ts:66-75 | ``items.map(item => `- ${item}`).join('\n')``, the block each of the three lists becomes (characterised by BulletsSplit) |
| QuestionConfig.TaskLine | src/config/questionConfig.ts:77 | The TASK line with the count in decimal (characterised by CountLinesPlace and CountReadable) |
| QuestionConfig.FinalLine | src/config/questionConfig.ts:81 | The closing line with the count in decimal (characterised by CountLinesPlace and CountReadable) |
| QuestionConfig.PromptIsJoinOfLines | src/config/questionConfig.ts:62-82 | The prompt is its sections' lines joined by line breaks: the intro, the headers, one `- ` line per entry, the style text, the TASK, FORMAT and closing lines, with a blank line between sections |
| QuestionConfig.BulletsSplit | src/config/questionConfig.ts:66 | A bulleted block splits back into its `- ` lines |
| QuestionConfig.PromptLinesSplit | src/config/questionConfig.ts:62-82 | Splitting the prompt at its line breaks gives exactly that list of lines, when the entries are single lines |
| QuestionConfig.CountLinesPlace | src/config/questionConfig.ts:77-81 | The TASK line is fifth from the end, and the closing line is last |
| QuestionConfig.CountReadable | src/config/questionConfig.ts:77-81 | The count sits as a word between spaces in the TASK line and in the closing line, and its digits read back as the count |
| QuestionConfig.StyleVerbatim | src/config/questionConfig.ts:68-72 | The style text is inserted verbatim below its header and followed by the topics-to-avoid header |
| QuestionConfigText.DefaultConfigSingleLines | src/config/questionConfig.ts:11-59 | Every list of the configuration has entries, and no entry holds a line break |
| QuestionConfigText.CreatePromptLines | src/config/questionConfig.ts:62-82 | `createPrompt(count)` splits into exactly the lines of the template over the configuration |
| Timer.DisplayClass | src/components/Timer.tsx:52-57 | The warning class exactly in the last two seconds of a run, and the base class otherwise |
| Timer.StatusMessage | src/components/Timer.tsx:59-70 | `getStatusMessage` for each of the three statuses (partner: StatusMessagesDistinct) |
| Timer.StatusMessagesDistinct | src/components/Timer.tsx:59-70 | Each status has its own message |
| Timer.Timer.StartDisabled | src/components/Timer.tsx:84 | Start is disabled exactly while running (tied to the no-op case of Start) |
| Timer.Timer.StopDisabled | src/components/Timer.tsx:92 | Stop is disabled exactly while idle (established by Stop and Reset) |
| Timer.Timer.constructor | src/components/Timer.tsx:6-8 | A mounted timer shows 5 seconds, is idle and holds no interval |
| Timer.Timer.Start | src/components/Timer.tsx:10-16 | `startTimer` does nothing while running, which is exactly when Start is disabled. Otherwise it runs from 5 with a fresh interval, keeping the invariant |
| Timer.Timer.Tick | src/components/Timer.tsx:17-26 | A tick decrements the counter. At one second or less it finishes the run at 0 and clears the interval without forgetting the handle |
| Timer.Timer.Stop | src/components/Timer.tsx:30-36 | `stopTimer` forgets the interval and goes idle, which disables Stop, and keeps the counter |
| Timer.Timer.Reset | src/components/Timer.tsx:38-42 | `resetTimer` stops and shows 5 seconds again, idle |
| Timer.FullRun | src/components/Timer.tsx:10-57 | Start and five ticks: the counter goes 5, 4, 3, 2, 1, 0, the last tick finishes the run, and the warning look shows at 2 and 1 |
| QuestionApp.QuestionId | src/App.tsx:26 | `(currentQuestionSet - 1) * 10 + index + 1` (characterised by BatchIdsBlock and ConsecutiveBatchesAdjacent) |
| QuestionApp.QuestionText | src/App.tsx:27 | The template text of a mock question (characterised by QuestionTextNamesId) |
| QuestionApp.MockBatch | src/App.tsx:25-29 | A mock batch has ten questions, each labelled with one of the five categories |
| QuestionApp.BatchIdsBlock | src/App.tsx:26 | The ids of set `k` are `(k-1)*10+1` to `k*10`, one per position and increasing |
| QuestionApp.ConsecutiveBatchesAdjacent | src/App.tsx:26 | Consecutive sets continue the numbering with no id shared |
| QuestionApp.QuestionTextNamesId | src/App.tsx:27 | A question's text starts "Question ", then its id in decimal and a colon, then asks about its topic, and ends with "?" |
| QuestionApp.BatchTextsNameIds | src/App.tsx:27 | Each text of a batch names the question's own id and the topic of its position |
| QuestionApp.App.DisplayedSetNumber | src/App.tsx:65 | "Question Set #" shows one less than the counter (HandleGenerateQuestions proves it is the set just generated) |
| QuestionApp.App.GenerateDisabled | src/App.tsx:59 | The generate button is disabled exactly while loading (set by StartGeneration, cleared by FinishGeneration) |
| QuestionApp.App.constructor | src/App.tsx:13-15 | The first render holds no questions, is not loading, and is at set 1 |
| QuestionApp.App.StartGeneration | src/App.tsx:19 | The loading flag goes up, which disables the button |
| QuestionApp.App.FinishGeneration | src/App.tsx:25-32 | The batch of the current set is built, and the loading flag comes down |
| QuestionApp.App.HandleGenerateQuestions | src/App.tsx:35-39 | The new batch replaces the old one, and the counter goes up by one. The batch on show is always the id block of the displayed set number |
| QuestionApp.MountThenNext | src/App.tsx:35-44 | Mounting shows ids 1 to 10, and the next click shows ids 11 to 20 as set 2 |

## Left out

- `server.js`, the relay server, is not part of this model. Neither service calls it.
- HTTP, JSON decoding and `fetch`: the reply is the abstract `ApiResponse`. The
  request headers, model name and token limit are not modelled.
- `import.meta.env` and the service's constructor configuration: both keys are
  parameters, with `None` for an unset value.
- The inline prompt text of `callAnthropicAPI`: it does not influence the result, only
  the reply does.
- `Math.random`: shuffles and category picks are parameters. The model says nothing about
  their distribution. A comparator-based `sort` is taken to yield some ordering of the
  bank.
- Time: the 1000 ms delay, `setTimeout` and `setInterval`. A tick is an explicit
  `Tick` call. React's batching of state updates, stale closures, and StrictMode's
  double mount are not modelled.
- Timer: the effect cleanup on unmount is left out, because unmounting ends the component's state.
- JsStrings.ToLower: lower-cases only ASCII letters. Non-ASCII case mapping (U+0130 to two characters, U+212A to 'k' and the like) is not modelled.
- `count` values that are not integers, and the default parameter `count = 10`: counts are `int`
  arguments.
- Console logging, `DebugPanel.tsx` and `QuestionDisplay.tsx` (presentation only).
- The protocol SDK `Client`: the service never creates one, so only the nullable field
  is kept.
- The `default` branch of `getStatusMessage`: the status type has only three values.
- JsStrings.IntToString: gives the exact decimal text of every integer. A JavaScript number is a double: `${n}` switches to exponent form from 1e21, and integers are exact only up to 2^53. The model takes counts, set numbers and ids below 2^53, where the decimal text is exact, and does not model the double arithmetic of `currentQuestionSet + 1` or the id formula beyond that.
- Questions.SliceLength: the contract states only the non-negative `end` case. The body
  also follows `slice` for negative ends.
- QuestionConfig.PromptLinesSplit: requires non-empty, single-line lists. An empty list
  or an entry holding a line break would merge or split lines. The default
  configuration meets the condition (`QuestionConfigText.DefaultConfigSingleLines`).
- LlmService.GenerateQuestions: draws are numbered per call, and the contract does
  not relate two calls. The sample draws `shuffles(0)`, and padding draw `j` uses
  `shuffles(j)`.

# fabric core, modelled in Dafny

This project models the core of *fabric*, a command-line tool and web UI
that sends prompts ("patterns") to AI vendors. The model covers these parts:

- **The chatter** (`Chatter`).
  - `BuildSession` assembles the message list for one turn. It starts with the stored session and an optional meta line. Then comes a system text built from the context, the pattern, the strategy prompt and a language instruction. The user's message is last.
  - `Send` hands that list to the vendor, collects the reply (streamed or not), appends it as the assistant's message and saves named sessions.
- **Two vendors** (`OpenAI`, `Ollama`): how each builds its request from the messages and options, `Send`, `SendStream` (what goes on the channel and when the channel is closed) and `ListModels`.
- **Strategies** (`Strategy`): `LoadStrategy` looks a strategy up by name. `LoadAllFiles` loads the strategies directory into a map keyed by name. `ListStrategies` prints the names sorted, with the descriptions in an aligned column.
- **The patterns loader** (`PatternsLoader`).
  - It downloads the pattern folders of a git repository into a temporary folder. When the old `patterns` folder of the repository is empty, it migrates to `data/patterns`.
  - It keeps the user's own (custom) pattern folders, copies everything into the patterns directory and drops a `loaded` marker there.
  - It writes the sorted list of every pattern name to the unique-patterns file.
  - It counts as configured once setup is done and something stands at the marker's path; `os.Stat` does not tell a file from a directory, so a directory named `loaded` counts too.
  - `Move`, `Migration`, `Clone`, `Unique` and `Populate` state each step's whole outcome as a function of the file system before it, and the methods are proved equal to them.
- **The REST server**: the API-key middleware (`Auth`) and the model-names handler (`Models`).
- **The web UI**: the note store (`NoteStore`) and the tooltip positioning helpers (`Tooltip`).

`Common` holds the shared messages, options and string helpers. This includes Go's `strings.TrimSpace` and byte-wise string order with a sort.

Collaborators whose code is outside this model become parameters. These are the session, context and pattern stores, the template engine, the vendor SDK clients, git, the file copy, the clock and the `/notes` endpoint. They appear as function-valued fields of the `Env`, `Vendor`, `Api` and `Remote` datatypes, or as plain values (`Clock`, `Reply`). The file system of the patterns loader and of the strategies directory is a value (`Fs`, `StrategyDir`), and the loader's methods update it in place.

Three behaviours of the code that the model makes explicit:

- **The request message is never missing when the session is built** (`core/chatter.go:148-153`). `BuildSession` puts a `" "` user placeholder in when the request has no message. So the raw-mode branch that would make a system message out of nothing (`core/chatter.go:198-202`) cannot be reached. Neither can the "no session, pattern or user messages provided" error (`core/chatter.go:213-216`). `Chatter.BuildEndsWithRequestMessage` proves this.
- **The summary is kept even when parsing fails** (`core/chatter.go:106`). For `create_coding_feature` the assistant's message is the summary returned by `ParseFileChanges`, even when parsing failed.
- **The vendors close the channel only on success.** On an error they leave it open, and the chatter's goroutine then sends the error text on it. `OpenAI.StreamClosedIffNoError` and `Ollama.StreamClosedIffNoError` prove that both vendors keep to this. The consumer loop (`Chatter.Drain`) never ends for a stream that is left open. The model reports that as `Hangs`.

## Model

| member | source | states |
|---|---|---|
| Auth.Check | internal/server/auth.go:15-38 | a request passes exactly when its path starts with "/swagger/" or it carries a non-empty `X-API-Key` equal to the key; every refusal is a 401 |
| Auth.SwaggerIsPublic | internal/server/auth.go:19-22 | documentation paths pass whatever the header |
| Auth.MissingBeforeWrong | internal/server/auth.go:24-34 | a missing header is reported as "Missing API Key", a different one as "Wrong API Key", and an empty configured key lets nothing through |
| Models.GetAllModelNames | internal/server/models.go:48-54 | the flat list is every group's items in group order, as long as the sum of the group sizes |
| Models.AllNamesLength | internal/server/models.go:48-54 | the flat list's length is the sum of the group sizes |
| Models.AllNamesAt | internal/server/models.go:48-54 | item `j` of group `i` sits at the sum of the earlier groups' sizes plus `j`: nothing is dropped, duplicated or reordered |
| Models.VendorsMap | internal/server/models.go:39-41 | the vendors map has one key per group name, holding the items of the last group with that name |
| Models.LastOfIsLast | internal/server/models.go:39-41 | a later group of the same name overwrites an earlier one |
| Models.LastOfNone | internal/server/models.go:39-41 | a name is absent from the map exactly when no group has it |
| Models.GetModelNames | internal/server/models.go:29-46 | failure gives a 500 with "Server failed to retrieve model names"; success gives a 200 with the flat list and the grouped map |
| Tooltip.CalculateTooltipPosition | web/src/lib/components/ui/tooltip/positioning.ts:10-23 | the tooltip is `gap` away from the chosen side and centred along it |
| Tooltip.CentredAndOutside | web/src/lib/components/ui/tooltip/positioning.ts:10-23 | for a consistent rectangle and a positive gap, the tooltip is equidistant from both ends of its side and lies outside the rectangle |
| Tooltip.FormatPositionStyle | web/src/lib/components/ui/tooltip/positioning.ts:25-27 | the style starts with "top: " and ends with "px;", and its length is both numbers' texts plus the fixed 18 characters |
| Tooltip.GapShifts | web/src/lib/components/ui/tooltip/positioning.ts:1-23 | changing the gap moves the tooltip by the difference along its axis only |
| Tooltip.SamplePositions | web/src/lib/components/ui/tooltip/Tooltip.test.ts:17-55 | the positions the component's tests expect for all four sides and for a gap of 16 |
| Tooltip.StyleDeterminesPosition | web/src/lib/components/ui/tooltip/positioning.ts:25-27 | the style text determines both numbers shown in it |
| Tooltip.SampleStyle | web/src/lib/components/ui/tooltip/Tooltip.test.ts:45-49 | the style the component's tests expect |
| NoteStore.RemoveMarkdown | web/src/lib/store/note-store.ts:26-29 | the cleaned text holds no `#`, `*`, backquote or `_` |
| NoteStore.CleanContent | web/src/lib/store/note-store.ts:26-29 | the cleaned content neither starts nor ends with a JavaScript space |
| NoteStore.CleanContentIsClean | web/src/lib/store/note-store.ts:26-29 | the cleaned content has no markdown characters, single plain spaces, no leading or trailing space and no newline |
| NoteStore.CleanContentIdempotent | web/src/lib/store/note-store.ts:26-29 | cleaning cleaned content changes nothing |
| NoteStore.RemoveMarkdownCounts | web/src/lib/store/note-store.ts:26 | removing markdown keeps every other character exactly as often as it occurred |
| NoteStore.RemoveMarkdownKeepsVisible | web/src/lib/store/note-store.ts:26 | removing markdown keeps the characters that are neither markdown nor space, in order |
| NoteStore.CollapseKeepsVisible | web/src/lib/store/note-store.ts:27 | collapsing the runs of spaces keeps the characters that are neither markdown nor space, in order |
| NoteStore.CleanContentKeepsVisible | web/src/lib/store/note-store.ts:26-29 | cleaning touches only markdown characters and spacing: the note's other characters all survive, in order |
| NoteStore.Description | web/src/lib/store/note-store.ts:34 | the description is the first 150 characters of the cleaned content; a longer content gets exactly "..." after them, a shorter one is kept whole |
| NoteStore.CreateFrontmatter | web/src/lib/store/note-store.ts:18-40 | the title is "Note " and the local time, date and updated are the same ISO time, the aliases, tags and author "User" are fixed, and the description is the cleaned content's description: at most 153 characters, its first 150, with "..." exactly when it was longer |
| NoteStore.FrontmatterDescription | web/src/lib/store/note-store.ts:18-40 | the frontmatter's description is one line of at most 153 characters |
| NoteStore.FileContent | web/src/lib/store/note-store.ts:58-68 | the file starts with the frontmatter's title line, and the block ends with "---" and a blank line, after which the note follows unchanged |
| NoteStore.FixedLines | web/src/lib/store/note-store.ts:18-40 | the aliases and tags lines as written |
| NoteStore.ReplaceColons | web/src/lib/store/note-store.ts:46 | every ':' becomes '-' and nothing else changes |
| NoteStore.UniqueFilename | web/src/lib/store/note-store.ts:42-49 | the file name ends in ".md" |
| NoteStore.FilenameParts | web/src/lib/store/note-store.ts:42-49 | the name is the date, '-', the time without ':' or fraction, and ".md" |
| NoteStore.IsoFilename | web/src/lib/store/note-store.ts:42-49 | for an ISO text `<date>T<time>.<fraction>` the name is `<date>-<time with '-' for ':'>.md` |
| NoteStore.Store.constructor | web/src/lib/store/note-store.ts:12-16 | the initial state is an empty note, never saved and not changed |
| NoteStore.Store.UpdateContent | web/src/lib/store/note-store.ts:90-94 | the new text is marked changed, and the save time stays |
| NoteStore.Store.Save | web/src/lib/store/note-store.ts:51-106 | outside a browser nothing is posted; in one, the posted name and content come from the clocks and the note; a failed reply is an error with the state unchanged; otherwise the note is marked saved and clean |
| NoteStore.Store.Reset | web/src/lib/store/note-store.ts:107-111 | back to the initial state |
| PatternsLoader.DirNamesAreDirectories | internal/tools/patterns_loader.go:300-314 | a listing counts no pattern exactly when it has no sub-directory, and the counted names are its directory names |
| PatternsLoader.Loader.CountPatternsInDirectory | internal/tools/patterns_loader.go:300-314 | the number of sub-directories, or a read error for a missing directory |
| PatternsLoader.CustomIsDifference | internal/tools/patterns_loader.go:148-167 | the custom patterns are the current directories minus the downloaded ones |
| PatternsLoader.PreservedAreCopiedCustom | internal/tools/patterns_loader.go:148-167 | a preserved entry is exactly a custom pattern whose copy succeeded |
| PatternsLoader.PersistedNames | internal/tools/patterns_loader.go:125-169 | after persisting, the download holds its own patterns plus every custom one that was copied, and no downloaded pattern is overwritten |
| PatternsLoader.Loader.PersistPatterns | internal/tools/patterns_loader.go:125-169 | with no patterns directory nothing changes; with no download it fails; otherwise the custom patterns are copied into the download |
| PatternsLoader.Loader.CopyCustomPatterns | internal/tools/patterns_loader.go:148-167 | the download gains exactly the copied custom patterns, in listing order |
| PatternsLoader.MergeKeeps | internal/tools/patterns_loader.go:182-184 | copying into a directory keeps everything copied and every entry under another name |
| PatternsLoader.Loader.CopyDownload | internal/tools/patterns_loader.go:182-184 | the patterns directory gains the download's entries, or the copy error is returned |
| PatternsLoader.Loader.WriteMarker | internal/tools/patterns_loader.go:205-208 | the "loaded" marker is created as an empty file, and it fails where a directory of that name stands |
| PatternsLoader.MarkerKeepsPatterns | internal/tools/patterns_loader.go:193-208 | writing the marker leaves at least one pattern directory in place |
| PatternsLoader.Loader.MovePatterns | internal/tools/patterns_loader.go:172-212 | the new file system and error are those of `Move` on the old file system; on success the patterns directory holds a pattern, the marker file exists and the download is gone; a failure writes no file |
| PatternsLoader.Loader.MoveErrors | internal/tools/patterns_loader.go:172-212 | a missing download is a read error, a failed copy is returned, "no patterns copied" comes exactly when the copied directory holds no directory, success needs a working copy, a pattern and no directory named "loaded"; a failure writes no file |
| PatternsLoader.Loader.MoveSuccess | internal/tools/patterns_loader.go:172-212 | on success the patterns directory is the old listing overwritten by the download with its preserved custom patterns, plus the marker; the download is removed and the marker is the only file written |
| PatternsLoader.Loader.MoveKeepsDownload | internal/tools/patterns_loader.go:182-208 | on success every downloaded pattern, and at least one, is in the patterns directory |
| PatternsLoader.Loader.TryPathMigration | internal/tools/patterns_loader.go:250-297 | the result is `Migration` of the old state: only the old "patterns" folder migrates, only to a "data/patterns" holding a pattern; on success the temporary folder holds exactly that download and the test folder is gone; a failed copy is reported after the setting has changed |
| PatternsLoader.Loader.Migration | internal/tools/patterns_loader.go:250-297 | a migration without error starts from "patterns" and sets "data/patterns" |
| PatternsLoader.Loader.MigrationSucceeds | internal/tools/patterns_loader.go:250-297 | a successful migration fetched a "data/patterns" holding a pattern, and the temporary folder holds exactly it, with the test folder gone |
| PatternsLoader.Loader.GitCloneAndCopy | internal/tools/patterns_loader.go:214-247 | the result is `Clone` of the old state, including the read error when the temporary folder is missing after a fetch that wrote nothing; on success the temporary folder holds at least one pattern; the folder only ever changes from the old one to the new one; no file is written |
| PatternsLoader.MergeHasPatterns | internal/tools/patterns_loader.go:182-184 | copying a listing that holds a directory into another leaves a directory there |
| PatternsLoader.Loader.CloneDirect | internal/tools/patterns_loader.go:214-247 | a failed fetch is "download failed" with nothing changed; an empty fetch into a missing temporary folder is the temporary-folder read error with nothing changed; a fetch holding a pattern is copied over the temporary folder and ends the step |
| PatternsLoader.Loader.CloneKeepsFiles | internal/tools/patterns_loader.go:214-247 | no file is written, and the folder changes only from "patterns" to "data/patterns" |
| PatternsLoader.Loader.CloneHasPatterns | internal/tools/patterns_loader.go:214-247 | after success the temporary folder holds a pattern |
| PatternsLoader.Loader.CloneRetries | internal/tools/patterns_loader.go:233-241 | when the fetch holds no pattern, a failed migration is returned wrapped with the folder, and a successful one is followed by the step once more |
| PatternsLoader.Loader.CloneAfterMigration | internal/tools/patterns_loader.go:214-247 | the step after a migration copies the "data/patterns" download over itself in the temporary folder and succeeds |
| PatternsLoader.Loader.CloneMigrated | internal/tools/patterns_loader.go:214-297 | after a migration the temporary folder holds the "data/patterns" download copied over itself, and the test folder is gone |
| PatternsLoader.UniqueFileNames | internal/tools/patterns_loader.go:356-364 | the file lists each name once, in increasing order, and nothing else |
| PatternsLoader.AddDirNames | internal/tools/patterns_loader.go:324-332 | the name set gains exactly the listing's directory names |
| PatternsLoader.Loader.CreateUniquePatternsFile | internal/tools/patterns_loader.go:317-371 | the file holds the sorted union of the pattern and custom pattern names, one per line; it fails with the one-directory or two-directory message when the union is empty |
| PatternsLoader.Loader.PopulateDB | internal/tools/patterns_loader.go:94-122 | the result is `Populate` of the old state: download, move, unique file, each failure wrapped as the failing step's error; on success the loader counts as configured |
| PatternsLoader.Loader.PopulateOutcome | internal/tools/patterns_loader.go:94-122 | on success the patterns directory is the old listing overwritten by the download plus the marker and holds a pattern, the marker is present, and the unique-patterns file lists the sorted names of the patterns and custom patterns directories |
| PatternsLoader.Loader.IsConfigured | internal/tools/patterns_loader.go:72-80 | configured needs the setup done and something, a file or a directory, at the "loaded" marker's path; without the marker it is false |
| Strategy.Base | internal/plugins/strategy/strategy.go:213 | the last element of a path, holding no '/' |
| Strategy.LoadStrategy | internal/plugins/strategy/strategy.go:183-216 | the empty name yields no strategy and no error, and nothing else does |
| Strategy.LoadStrategyLookup | internal/plugins/strategy/strategy.go:194-202 | "<name>.json" is preferred to "<name>", and neither existing is "not found" |
| Strategy.LoadedNameIsFileStem | internal/plugins/strategy/strategy.go:213 | the loaded strategy is named after its file, whatever the JSON says |
| Strategy.JsonNameStem | internal/plugins/strategy/strategy.go:213 | trimming ".json" from a plain name with it gives the name back |
| Strategy.WalkAgreesUnlessPanic | internal/plugins/strategy/strategy.go:67-85 | where the walk as written does not panic, it equals the corrected walk |
| Strategy.WalkAsWritten | internal/plugins/strategy/strategy.go:61-88 | the walk as written, where it does not panic, keeps every entry it started with |
| Strategy.Walk | internal/plugins/strategy/strategy.go:61-88 | the corrected walk keeps every entry it started with and adds at most one per name |
| Strategy.DotJsonFilePanics | internal/plugins/strategy/strategy.go:76-82 | a strategies directory holding only a file named ".json" makes the walk as written dereference a nil strategy |
| Strategy.StrategyFileLoad | internal/plugins/strategy/strategy.go:76-83 | a top-level ".json" file loads through its stem, named by it |
| Strategy.WalkKeysAreNames | internal/plugins/strategy/strategy.go:61-88 | every loaded strategy is keyed by its own name |
| Strategy.WalkKeysFromFiles | internal/plugins/strategy/strategy.go:61-88 | every key comes from a top-level ".json" file whose stem it is |
| Strategy.WalkLoadsAll | internal/plugins/strategy/strategy.go:61-88 | when every file decodes, every top-level ".json" file is loaded |
| Strategy.WalkKeepsAcc | internal/plugins/strategy/strategy.go:61-88 | the walk only adds entries |
| Strategy.LoadAllFiles | internal/plugins/strategy/strategy.go:61-88 | with no home directory, an empty map and the error; otherwise the walk over the sorted top-level entries, with no error |
| Strategy.IsConfigured | internal/plugins/strategy/strategy.go:90-98 | configured exactly when the plugin's own setup is done and the strategy map is not empty |
| Strategy.Utf8Len | internal/plugins/strategy/strategy.go:236-240 | a name's byte length is at least its character count |
| Strategy.MaxLenIsLongest | internal/plugins/strategy/strategy.go:236-242 | the width is the length of a longest name, and no name is longer |
| Strategy.MaxNameLength | internal/plugins/strategy/strategy.go:236-242 | the loop finds the longest name's byte length |
| Strategy.PadRight | internal/plugins/strategy/strategy.go:244-250 | a padded name starts with the name and is exactly the column width |
| Strategy.RenderRows | internal/plugins/strategy/strategy.go:245-252 | one row per name, in order |
| Strategy.SortedNames | internal/plugins/strategy/strategy.go:227-233 | the names are the map's keys, sorted |
| Strategy.ListStrategies | internal/plugins/strategy/strategy.go:219-255 | an empty map is exactly the "none found" error with nothing printed; otherwise the listing is the header and one aligned row per sorted name |
| Strategy.NameColumnWidth | internal/plugins/strategy/strategy.go:244-250 | the description column starts at the longest name's byte length plus 2 |
| Chatter.SystemTextEmpty | core/chatter.go:174-190 | the system text is empty exactly when context and pattern are blank, no strategy prompt applies and no language is set |
| Chatter.SystemTextLayout | core/chatter.go:174-190 | strategy prompt and newline first, then the trimmed context and pattern, then the language instruction |
| Chatter.ComposeSystemMessage | core/chatter.go:174-190 | the steps compose the system text above |
| Chatter.BuildEndsWithRequestMessage | core/chatter.go:117-218 | a built session keeps the stored messages and the meta line in front and ends with the request's final message, so it is never empty |
| Chatter.ResolveKeepsPrior | core/chatter.go:145-211 | the steps after the context never remove or reorder earlier messages |
| Chatter.SystemMessageIffNotRaw | core/chatter.go:192-211 | raw mode adds no system message but replaces the user content; normal mode adds exactly one when there is system text |
| Chatter.PlaceholderReachesSession | core/chatter.go:148-153 | with no message, the session ends with the " " user placeholder |
| Chatter.Place | core/chatter.go:192-211 | one or two messages ending with the user's role; raw mode gives one; normal mode ends with the user message and puts the system message first exactly when there is system text |
| Chatter.BuildSpec | core/chatter.go:117-218 | a build without error has a session ending with the final request message; a session returned with an error only comes with a missing context |
| Chatter.Resolve | core/chatter.go:145-211 | a session exists exactly when there is no error, and then it keeps the earlier messages and ends with the final request message |
| Chatter.Finish | core/chatter.go:163-211 | a session exists exactly when there is no error; then it keeps the earlier messages and ends with a message of the user's role, which becomes the request message; on error the request message is the user message |
| Chatter.Session.Append | core/chatter.go:131 | a message is added at the end |
| Chatter.Chatter.BuildSession | core/chatter.go:117-218 | the session, error and final request message are those of the build specification |
| Chatter.Chatter.ResolveRequest | core/chatter.go:145-211 | the template step and the rest match the specification |
| Chatter.Chatter.FinishRequest | core/chatter.go:163-211 | pattern, strategy and placement match the specification |
| Chatter.Drain | core/chatter.go:61-72 | a closed stream gives the fragments concatenated in order; a stream closed with an error panics; an open one blocks |
| Chatter.BlockedEndsWithError | core/chatter.go:63-66 | a stream left open delivers the vendor's error text last |
| Chatter.StreamedReply | core/chatter.go:61-72 | the streamed answer exists exactly when the vendor closed without error, and is the concatenation |
| Chatter.WithDefaults | core/chatter.go:51-57 | an empty model becomes the chatter's model and a zero context length the chatter's length; nothing else changes |
| Chatter.WithDefaultsKeepsExplicit | core/chatter.go:51-57 | explicit values are kept and filling twice changes nothing |
| Chatter.Chatter.SaveSession | core/chatter.go:111-113 | the store records the session, or the save error is returned and the store is unchanged |
| Chatter.Chatter.Send | core/chatter.go:34-115 | build errors pass through; no vendor messages saves a named session and fails; the vendor's failure, an empty reply and a non-empty reply each give the stated session, error and store |
| Chatter.OneAssistantMessage | core/chatter.go:86-109 | exactly one assistant message is added, carrying the summary for `create_coding_feature` and the reply otherwise |
| OpenAI.RawRequestIsModelAndMessages | plugins/ai/openai/openai.go:127-138 | the messages are sent unchanged with the model; raw mode sets nothing else |
| OpenAI.RawIgnoresSampling | plugins/ai/openai/openai.go:134-138 | in raw mode sampling options and seed have no effect |
| OpenAI.SeedOnlyWhenSet | plugins/ai/openai/openai.go:139-160 | the sampling values are copied, and a seed is sent exactly when it is not 0 |
| OpenAI.BuildRequest | plugins/ai/openai/openai.go:127-161 | the request carries the messages and model, does not stream, copies the sampling values outside raw mode, and has a seed exactly when not raw and the seed is not 0 |
| OpenAI.SendIsFirstChoice | plugins/ai/openai/openai.go:113-125 | the reply is the first choice's content, "" with no choice, and errors pass through |
| OpenAI.Send | plugins/ai/openai/openai.go:113-125 | the call fails exactly when the API call does, with its error |
| OpenAI.SendStream | plugins/ai/openai/openai.go:76-111 | the channel receives the stream's fragments, and is closed, as the receive protocol says |
| OpenAI.StreamClosedIffNoError | plugins/ai/openai/openai.go:76-111 | the channel is closed exactly when no error is returned |
| OpenAI.ProtocolClosedIffNoError | plugins/ai/openai/openai.go:90-109 | the receive loop closes exactly when it ends without error |
| OpenAI.ClosedEndsWithNewline | plugins/ai/openai/openai.go:93-104 | a stream that ends normally ends with "\n" |
| OpenAI.ListModels | plugins/ai/openai/openai.go:63-74 | the model IDs in the API's order, or its error |
| Ollama.RequestOptions | plugins/ai/ollama/ollama.go:101-123 | the four sampling options are always sent, `num_ctx` exactly when the length is not 0, and nothing else; messages and model are kept |
| Ollama.IgnoresRawAndSeed | plugins/ai/ollama/ollama.go:101-123 | the raw flag and the seed do not affect the request |
| Ollama.CreateChatRequest | plugins/ai/ollama/ollama.go:101-123 | the request keeps the model and messages, leaves streaming unset, and has `num_ctx` exactly when the context length is not 0 |
| Ollama.Last | plugins/ai/ollama/ollama.go:89-96 | the last response's content, or "" when there was none |
| Ollama.Send | plugins/ai/ollama/ollama.go:84-99 | the last response's content and the call's error, from the non-streaming request |
| Ollama.SendDisablesStreaming | plugins/ai/ollama/ollama.go:85-88 | `Send`'s request is the streaming one with streaming turned off |
| Ollama.SendStream | plugins/ai/ollama/ollama.go:66-82 | every response's content goes to the channel in order; it is closed exactly on success |
| Ollama.StreamClosedIffNoError | plugins/ai/ollama/ollama.go:66-82 | closed exactly when no error is returned, after all of the call's contents |
| Ollama.ListModels | plugins/ai/ollama/ollama.go:52-64 | the listed models' names in order, or the error |
| Common.TrimSpaceIsCore | core/chatter.go:174 | `TrimSpace` removes exactly the leading and trailing Go spaces |

## Left out

- Printing, terminal colours, `i18n` message lookup and `slog` output are not modelled. Errors are datatypes, not formatted strings.
- Concurrency is reduced to one stream run. `Send` cannot return when a vendor leaves its stream open. The model reports this as `Hangs`, and a send on a closed channel as `Panics`.
- Floating point: sampling values are `real`. The `float32` casts of the OpenAI request are not modelled.
- JSON encoding is not modelled. In particular the difference between `null` and `[]` for an empty model list is not captured.
- Contexts, timeouts and `context.Background` are not modelled.
- Chatter.Chatter.Send: `create_coding_feature` side effects are not modelled. These are `ApplyFileChanges` writing files and `os.Getwd`. The summary is taken as a function of the reply.
- Chatter.Chatter.Send: the options are returned as `filled` and not updated in the caller's record.
- Chatter.Env: the stores (`fsdb`), the template engine and the pattern engine are not modelled. They are functions of their inputs. `GetVendorMessages` is a parameter.
- Constructors, `configure` and `Setup` of the vendors, the strategies manager and the loader are not modelled. They only ask setup questions and create SDK clients.
- `Strategy.gitCloneAndCopy`, `Strategy.PopulateDB` and `Strategy.Setup` are not modelled. They download strategies in the same way as the patterns loader.
- Strategy.Base: Go's `filepath.Base` returns "." for an empty path and drops trailing slashes. The model never passes such paths.
- Strategy.LoadAllFiles: walk errors from unreadable sub-directories are not modelled, because the code ignores `WalkDir`'s result.
- PatternsLoader.Loader: `os.MkdirAll`, `os.RemoveAll` and `os.WriteFile` are not modelled as failing. Stat errors other than "does not exist" are not modelled either.
- PatternsLoader.Fs: only directory listings and file texts are kept, not the contents of nested directories.
- PatternsLoader.Loader.CopyDownload, PatternsLoader.Loader.CopyCustomPatterns: a failed `copy.Copy` is modelled as changing nothing; a copy that stops part-way and leaves a partial tree is not modelled.
- PatternsLoader.Remote: `FetchFilesFromRepo` is not part of this model; the model assumes that a fetch writing nothing leaves a missing temporary folder missing, so the count then fails with the read error of internal/tools/patterns_loader.go:233-234.
- PatternsLoader.Loader.GitCloneAndCopy: `fetch` is a function of the URL and folder, so repeated fetches are assumed to return the same result. The retry after a migration therefore gets the migration's test download again and always succeeds. In the code the retry is a second network call, which can fail ("failed to download" with the folder already set to "data/patterns") or come back empty (then the migration of "data/patterns" fails); neither outcome is modelled.
- PatternsLoader.Loader.TryPathMigration: the temporary test folder's name comes from `os.TempDir()`. It is a constructor parameter.
- NoteStore.Description: JavaScript counts UTF-16 code units, while the model counts characters. They differ only outside the Basic Multilingual Plane.
- NoteStore.Store.Save: an edit made while the request is in flight is not modelled. The code would mark such an edit as saved.
- NoteStore.Store.Save: the clocks and the `/notes` reply are parameters.
- Tooltip.FormatPositionStyle: JavaScript's number-to-string conversion is a parameter.

## Findings

| source | as written | input that shows it | evidently intended | confidence | as-written member | corrected member |
|---|---|---|---|---|---|---|
| internal/plugins/strategy/strategy.go:76-82 | a top-level file named `.json` has the empty stem, so `LoadStrategy("")` returns a nil strategy and no error, and the walk dereferences it | a strategies directory holding only `.json` | skip such a file (or treat the empty name as not found) | not executed | Strategy.DotJsonFilePanics | Strategy.LoadAllFiles |

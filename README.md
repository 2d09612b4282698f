# Credential synthesis and routing-strategy resolution, in Dafny

This project models two pieces of CLIProxyAPI, a proxy that routes model
requests over a pool of stored credentials, and proves properties of them.

**The file synthesizer** (`internal/watcher/synthesizer/file.go`) turns the
credential files of an auth directory into `Auth` records:

- **One credential file.** A usable `*.json` file with a string `type` gives one record:
  - the provider is the lower-cased type, with "gemini" renamed "gemini-cli";
  - the label is the email, or else the provider;
  - the id is the path relative to the auth directory;
  - the routing prefix is cleaned of white space and slashes;
  - the status follows `disabled`;
  - the `priority` and `weight` attributes are read by a tolerant integer reader (`readMetadataIntValue`).
- **Gemini credentials with several projects.** A "gemini-cli" credential whose `project_id` lists two or more distinct projects is split (`SynthesizeGeminiVirtualAuths`):
  - the primary is disabled in place and tagged with its children;
  - one active virtual credential is built per project, with an id from `buildGeminiVirtualID`;
  - the primary comes first in the output, immediately followed by its virtuals.
- **How it is modelled.** `Auth` is a class, because the split changes the primary in place. Each method is proved against a function over `AuthRecord` values, and the properties are lemmas about those functions.

**The routing-strategy resolver** (`sdk/cliproxy/routing_strategy.go`) handles the configured strategy name:

- the name is trimmed and lower-cased, then mapped through a table of synonyms onto "weighted", "round-robin" or "fill-first", together with a flag saying whether it was recognised;
- each strategy then selects a kind of credential selector.

Modules:

- `Wrappers`: `Option`.
- `Text`: `strings.TrimSpace`, `Trim`, `ToLower`, `HasSuffix`, `Split` and `Join` over code points.
- `Numbers`: 64-bit `int`, `strconv.ParseInt` base 10 and `strconv.Itoa`.
- `Json`: decoded `map[string]any`.
- `MetadataInt`: `readMetadataIntValue`.
- `AuthModel`: the `Auth` record and class.
- `GeminiVirtual`: the project split and virtual credentials.
- `FileSynthesizer`: the directory loop.
- `RoutingStrategy`: the resolver.

## Model

| member | source | states |
|---|---|---|
| `Json.StringAt` | internal/watcher/synthesizer/file.go:60 | a non-empty result is a string stored under the key (a failed `.(string)` assertion reads as "") |
| `Json.StringAtStored` | internal/watcher/synthesizer/file.go:60 | a string stored under the key is exactly what the assertion reads |
| `Numbers.ParseIntItoa` | internal/watcher/synthesizer/file.go:114-132 | every 64-bit integer written by `strconv.Itoa` parses back to itself with `strconv.ParseInt` |
| `Text.SplitFacts` | internal/watcher/synthesizer/file.go:298 | `strings.Split` gives at least one piece, no piece holds the separator, and joining the pieces gives the input back |
| `Text.SplitJoin` | internal/watcher/synthesizer/file.go:228 | splitting a join of separator-free pieces gives the pieces back |
| `Text.TrimSpaceToLower` | sdk/cliproxy/routing_strategy.go:16 | trimming and lower-casing commute |
| `MetadataInt.FloatToIntAsWritten` | internal/watcher/synthesizer/file.go:163-173 | the float64 branch as written: a success is a whole value and returns it; a failure returns 0 |
| `MetadataInt.FloatUpperBoundAdmitsTwoToThe63` | internal/watcher/synthesizer/file.go:170 | the bound `float64(maxInt)` is 2^63, so a float of exactly 2^63 is accepted although it exceeds the largest `int` |
| `MetadataInt.FloatToInt` | internal/watcher/synthesizer/file.go:163-173 | corrected float64 branch: succeeds exactly for whole values in the `int` range, returning the value; NaN, infinities and fractions give (0, false) |
| `MetadataInt.FloatToIntDiffersOnlyAtTwoToThe63` | internal/watcher/synthesizer/file.go:170 | the corrected branch agrees with the written one on every input except a whole float of 2^63, which only the written one accepts |
| `MetadataInt.ReadMetadataIntValue` | internal/watcher/synthesizer/file.go:149-207 | nil, booleans, arrays, objects and blank strings fail; `int` and `int64` pass unchanged; float64 succeeds exactly when whole and in range (the corrected bound), returning that value; a string succeeds exactly when it is not blank and its trimmed text parses as a base-10 64-bit integer, returning the parsed value; every failure returns 0 |
| `MetadataInt.ReadPaddedDecimal` | internal/watcher/synthesizer/file.go:194-203 | any 64-bit integer written in decimal, with any white space around it, reads back as itself |
| `MetadataInt.ReadStringShape` | internal/watcher/synthesizer/file.go:194-203 | a string that reads successfully is, once trimmed, an optionally signed run of decimal digits |
| `GeminiVirtual.TrimAllAt` | internal/watcher/synthesizer/file.go:301-302 | each comma piece is looked at trimmed |
| `GeminiVirtual.FirstSeenFacts` | internal/watcher/synthesizer/file.go:300-311 | the deduplicated list holds exactly the non-empty ids of the input, each once |
| `GeminiVirtual.FirstSeenOrder` | internal/watcher/synthesizer/file.go:300-311 | the deduplicated list is in the order of first occurrence in the input |
| `GeminiVirtual.ProjectIDs` | internal/watcher/synthesizer/file.go:293-297 | a missing, non-string or blank `project_id` gives no projects |
| `GeminiVirtual.ProjectIDsWellFormed` | internal/watcher/synthesizer/file.go:292-313 | every project list has no empty entry, no repeat, no white space at either end of an entry and no comma inside one |
| `GeminiVirtual.ProjectIDsFromPieces` | internal/watcher/synthesizer/file.go:298-312 | a non-blank `project_id` yields exactly its non-empty trimmed comma pieces, in first-occurrence order |
| `GeminiVirtual.SplitGeminiProjectIDs` | internal/watcher/synthesizer/file.go:292-313 | the loop with its `seen` set returns exactly the project list specified by `ProjectIDs` |
| `GeminiVirtual.Sanitize` | internal/watcher/synthesizer/file.go:321-322 | the replacer keeps the length and changes exactly slash, backslash and space, each into an underscore |
| `GeminiVirtual.VirtualIDShape` | internal/watcher/synthesizer/file.go:316-323 | a virtual id is the base id, "::", then a non-empty segment with no slash, backslash or space |
| `GeminiVirtual.VirtualIDOfSafeProject` | internal/watcher/synthesizer/file.go:316-323 | a trimmed, non-empty project id without those three code points appears in the id unchanged |
| `GeminiVirtual.VirtualIDCollision` | internal/watcher/synthesizer/file.go:316-323 | two projects of one credential get the same id exactly when their trimmed, sanitised segments agree |
| `GeminiVirtual.VirtualIDExampleCollision` | internal/watcher/synthesizer/file.go:321-322 | the projects "p 1" and "p_1" get the same virtual id, so the id is not injective |
| `GeminiVirtual.VirtualsFor` | internal/watcher/synthesizer/file.go:239-288 | one virtual credential per project |
| `GeminiVirtual.VirtualsForPrefix` | internal/watcher/synthesizer/file.go:240-287 | each loop turn appends the virtual of the next project, so the virtuals are in project order |
| `GeminiVirtual.SplitOutcome` | internal/watcher/synthesizer/file.go:211-289 | no virtuals exactly when metadata is nil or there are fewer than two projects, and then the primary is unchanged; otherwise one virtual per project |
| `GeminiVirtual.SplitPrimaryFields` | internal/watcher/synthesizer/file.go:219-228 | the split primary is disabled, has status disabled, `gemini_virtual_primary` = "true", `virtual_children` = the projects joined by commas and the shared handle; every other field and attribute is kept |
| `GeminiVirtual.SplitPrimaryChildren` | internal/watcher/synthesizer/file.go:228 | splitting `virtual_children` at commas gives the project list back |
| `GeminiVirtual.VirtualAttributesKeys` | internal/watcher/synthesizer/file.go:241-245 | a virtual's attributes hold `runtime_only` = "true" and its parent id and project |
| `GeminiVirtual.VirtualMetadataKeys` | internal/watcher/synthesizer/file.go:252-258 | a virtual's metadata holds its project id and its parent id |
| `GeminiVirtual.VirtualFields` | internal/watcher/synthesizer/file.go:273-285 | a virtual has id `buildGeminiVirtualID(primary id, project)`, is active, points back at the primary, takes the provider (default "gemini-cli"), takes the label with " [project]" appended, and copies the proxy URL, prefix and timestamps |
| `GeminiVirtual.VirtualOverrides` | internal/watcher/synthesizer/file.go:259-272 | `disable_cooling` and `request_retry` come from the underscore key, else from the hyphen key, and are absent when neither is present; `proxy_url` is present exactly when the primary's proxy URL is not blank, and it holds that URL trimmed |
| `GeminiVirtual.SplitInPlace` | internal/watcher/synthesizer/file.go:219-228 | the in-place updates of the primary produce `SplitPrimary` of its old value |
| `GeminiVirtual.NewVirtual` | internal/watcher/synthesizer/file.go:240-286 | one loop turn allocates a fresh `Auth` whose record is `VirtualRecord` for that project |
| `GeminiVirtual.NewVirtuals` | internal/watcher/synthesizer/file.go:239-288 | the loop allocates fresh credentials whose records are `VirtualsFor` the projects, in order |
| `GeminiVirtual.SynthesizeGeminiVirtualAuths` | internal/watcher/synthesizer/file.go:211-289 | a nil primary gives nothing; otherwise the primary's new state and the returned records are `SplitOutcome` of its old state, and every returned credential is new |
| `FileSynthesizer.ProviderFacts` | internal/watcher/synthesizer/file.go:64-67 | the provider is lower case and never "gemini"; it is empty only for an empty type; it depends on the type only through its lower case; it is "gemini-cli" exactly for the types "gemini" and "gemini-cli" in any case |
| `FileSynthesizer.NameCaseIgnored` | internal/watcher/synthesizer/file.go:47-50 | whether an entry is used or skipped depends on its name only through the lower case |
| `FileSynthesizer.CleanPrefixFacts` | internal/watcher/synthesizer/file.go:83-90 | a kept prefix is empty or has no slash; a non-empty prefix with no slash and no outer white space is kept as it is |
| `FileSynthesizer.PriorityAndWeight` | internal/watcher/synthesizer/file.go:114-132 | `priority` is written exactly when it reads as an integer, and it parses back to that integer; `weight` is always written, parses back to the read value (negatives included), and is "1" when missing or invalid; other attributes are kept |
| `FileSynthesizer.FileAuthUsed` | internal/watcher/synthesizer/file.go:43-63 | an entry gives a credential exactly when it is a file, its name ends in ".json" in any case, it decoded, and it has a non-empty string `type` |
| `FileSynthesizer.FileRecordFields` | internal/watcher/synthesizer/file.go:64-132 | the credential of a used file is keyed by its id; it has a lower-case, non-empty provider, the email or else the provider as label, a slash-free prefix, the status following `disabled`, its full path as `source` and `path`, the metadata as decoded, and both timestamps at `now` |
| `FileSynthesizer.EmittedAlone` | internal/watcher/synthesizer/file.go:134-144 | a credential that is not a multi-project "gemini-cli" one is emitted alone and unchanged |
| `FileSynthesizer.EmittedGroup` | internal/watcher/synthesizer/file.go:134-142 | a multi-project "gemini-cli" credential is emitted as its disabled primary, whose `virtual_children` split back into the projects, followed immediately by one active virtual per project, in order, each naming the primary as parent |
| `FileSynthesizer.AllEntriesAppend` | internal/watcher/synthesizer/file.go:43-145 | the output for a listing is the output of any split of it, concatenated: entries contribute independently, in directory order |
| `FileSynthesizer.AllEntriesSnoc` | internal/watcher/synthesizer/file.go:43-145 | each loop turn appends exactly the contribution of the current entry |
| `FileSynthesizer.NewFileAuth` | internal/watcher/synthesizer/file.go:64-113 | the literal of the loop body is a fresh `Auth` with the provider, label, id, prefix, status, `source`/`path` attributes, proxy URL, metadata and timestamps of `LiteralRecord` |
| `FileSynthesizer.SetPriorityAndWeight` | internal/watcher/synthesizer/file.go:114-132 | only the attributes change, and they become `WithPriorityAndWeight` of the old ones |
| `FileSynthesizer.Emit` | internal/watcher/synthesizer/file.go:134-144 | the credential, and its virtuals when split, are appended with records `Emitted` of its old record; the primary comes first |
| `FileSynthesizer.EntryStep` | internal/watcher/synthesizer/file.go:44-144 | one loop turn appends the new credentials whose records are `EntryAuths` of the entry (none for a skipped entry) |
| `FileSynthesizer.Synthesize` | internal/watcher/synthesizer/file.go:28-147 | a nil context, an empty auth directory or an unreadable directory gives nothing; otherwise the output records are the contributions of all entries in directory order, and every returned credential is new |
| `RoutingStrategy.NormalizeRoutingStrategyWithKnown` | sdk/cliproxy/routing_strategy.go:15-30 | the strategy is always one of the three canonical names, and an unrecognised name gives "weighted" |
| `RoutingStrategy.NormalizeRoutingStrategy` | sdk/cliproxy/routing_strategy.go:32-35 | canonical, and equal to the first component of `normalizeRoutingStrategyWithKnown` |
| `RoutingStrategy.SelectorForRoutingStrategy` | sdk/cliproxy/routing_strategy.go:37-46 | fill-first selector exactly for "fill-first", round-robin selector exactly for "round-robin", weighted selector exactly for "weighted" |
| `RoutingStrategy.ResolverMatchesTable` | sdk/cliproxy/routing_strategy.go:15-30 | the resolver is the synonym table applied to the trimmed, lower-cased name: a blank name gives ("weighted", true), a name in the table gives (its entry, true), and any other name gives ("weighted", false) |
| `RoutingStrategy.BlankIsWeighted` | sdk/cliproxy/routing_strategy.go:16-19 | an empty or white-space name gives ("weighted", true) |
| `RoutingStrategy.UnknownIsWeighted` | sdk/cliproxy/routing_strategy.go:27-28 | a name is unrecognised exactly when it is not blank and its normal form is outside the table |
| `RoutingStrategy.ResolveCanonical` | sdk/cliproxy/routing_strategy.go:20-26 | the switch sends each canonical name to itself, recognised |
| `RoutingStrategy.CanonicalResolvesToItself` | sdk/cliproxy/routing_strategy.go:15-30 | each canonical name resolves to itself with `known` = true |
| `RoutingStrategy.NormalizeIdempotent` | sdk/cliproxy/routing_strategy.go:32-35 | normalising a normalised strategy changes nothing |
| `RoutingStrategy.NormalizedIdempotent` | sdk/cliproxy/routing_strategy.go:16 | the trimmed, lower-cased form of a trimmed, lower-cased name is itself |
| `RoutingStrategy.ResolverUsesNormalForm` | sdk/cliproxy/routing_strategy.go:16 | resolving the normal form of a name gives the same answer as resolving the name |
| `RoutingStrategy.ResolverIgnoresCase` | sdk/cliproxy/routing_strategy.go:16 | lower-casing a name first changes nothing |
| `RoutingStrategy.ResolverIgnoresPadding` | sdk/cliproxy/routing_strategy.go:16 | surrounding white space changes nothing |
| `RoutingStrategy.ShortForms` | sdk/cliproxy/routing_strategy_test.go:32-34 | "ff", "rr" and "weight" resolve to fill-first, round-robin and weighted, recognised |
| `RoutingStrategy.UnknownName` | sdk/cliproxy/routing_strategy_test.go:35 | "not-real" gives ("weighted", false) |
| `RoutingStrategy.SelectorTable` | sdk/cliproxy/routing_strategy_test.go:79-136 | the selector is fill-first exactly for the fill-first synonyms, round-robin exactly for the round-robin synonyms, and weighted for everything else, blank and unknown names included |

## Left out

- Directory listing, file reading and JSON decoding (internal/watcher/synthesizer/file.go:34-59): each entry arrives already read. It carries its name, its kind, the joined path, the outcome of `filepath.Rel` and the decoded object. `None` stands for a failed read, an empty file or failed decoding.
- `filepath.Join` and `filepath.Rel` (internal/watcher/synthesizer/file.go:51, 74) are inputs of each entry, not computed. The model therefore does not tie the full path, the id or the `source` and `path` attributes to the exact-case name; `FileSynthesizer.NameCaseIgnored` speaks only of whether an entry is used.
- `ApplyAuthExcludedModelsMeta` (internal/watcher/synthesizer/file.go:133, 137): its source is not part of this model, so the records leave out what it adds.
- `geminicli.NewSharedCredential` and `NewVirtualCredential` (internal/watcher/synthesizer/file.go:220, 284): their code is not part of this model. Each handle is recorded by the arguments it was built from.
- `log.Warnf` calls, including the warning for a negative weight: they only log.
- `time.Time` is an opaque value that is only copied. The `now` argument of `SynthesizeGeminiVirtualAuths` is unused there, as in the source.
- Floating point: a float64 is abstracted to NaN, an infinity, a value with a fraction, or a whole value. A `json.Number` carries its text and the outcome of `ParseFloat` on it; rounding is not modelled.
- `Text.ToLower`: exact only for code points whose lower case is ASCII, which are the ASCII capitals, U+0130 and U+212A; every other code point is kept as it is. This covers everything compared here: the ".json" suffix, "gemini" and the strategy table.
- Go's distinction between a nil map and an empty map, and the `nil` slice returned for no projects, are not modelled: both are empty values.
- The `Auth` fields that the synthesizer does not set are not modelled.
- `ctx.Config` is not modelled; it is used only by `ApplyAuthExcludedModelsMeta`.
- `NewFileSynthesizer` and the empty `FileSynthesizer` struct are not modelled: the struct holds no state.
- The selector implementations (`FillFirstSelector`, `RoundRobinSelector`, `WeightedSelector`) are not modelled: `selectorForRoutingStrategy` is modelled as returning the kind of selector it allocates, which is never nil.
- MetadataInt.ReadMetadataIntValue: the float64 and `json.Number` float branches use the corrected bound (`MetadataInt.FloatToInt`), not the one written at internal/watcher/synthesizer/file.go:170 and 188. So the model, and everything built on it (`PriorityOf`, `WeightOf`, `FileRecord`, `Synthesize`), rejects a whole float of exactly 2^63. The source accepts it and writes out an implementation-dependent `int(v)`. The behaviour as written is `MetadataInt.FloatToIntAsWritten`; see "## Findings".
- Go's `int` is taken to be 64 bits wide, so the range check of the `int64` and `json.Number` integer branches never rejects.

## Findings

| source | as written | input that shows it | evidently intended | confidence | as-written member | corrected member |
|---|---|---|---|---|---|---|
| internal/watcher/synthesizer/file.go:170 | `v > float64(maxInt)` compares against `float64(2^63 - 1)`, which rounds to 2^63, so 2^63 itself passes and `int(v)` overflows; line 188 repeats the check for `json.Number` | a credential file holding `"priority": 9223372036854775807`, which `json.Unmarshal` decodes to the float64 2^63 | accept only whole values from -2^63 to 2^63 - 1 | not executed | `MetadataInt.FloatUpperBoundAdmitsTwoToThe63` | `MetadataInt.FloatToInt` |

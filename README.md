# Ensime reply handlers of envim, in Dafny

envim connects Vim to the Ensime Scala server over an asynchronous RPC
protocol. When a reply to a call arrives, it goes to the handler for that call
type. The handler's `response` turns a success payload into effects on the
editor. Its `abort` reports a failure. This project models the nine handlers
of `python/Responses.py` and proves what each one delivers.

- `payloads.dfy` (`Payloads`): the reply shapes the handlers read. A field the
  server may leave out is an `Option`. A reply that may be nil as a whole is
  an `Option` of its shape.
- `text.dfy` (`Text`): the two Python built-ins the handlers rely on. `str`
  of an integer is proved to read back to the same number. String order, as
  `sorted` uses it, is proved reflexive, total and transitive.
- `symbol_preview.dfy` (`SymbolPreview`): the symbol-at-point preview line.
- `completions.dfy` (`Completions`): the completion menu. It has a seed entry,
  a prefix filter on the typed base, one `{word, info, kind?}` entry per kept
  candidate, and a stable sort by word. The sort is proved sorted, a
  permutation and stable.
- `responses.dfy` (`Responses`): a `World` class with one method per handler
  and a shared `Abort`. `World` holds the process state (`initialized`,
  `scalaNotes`) and the completion base the omni sink reports. It also holds
  `trace`, the ordered list of every outbound call: echo, error echo, preview
  set, quickfix set/open, omni set/show/continue, Vim commands and the chained
  init-project call. Each method's `modifies` clause names exactly the fields
  it changes. Its `ensures` gives the exact calls it appends to `trace`, in
  order. So each "once", "then" and "only when" is stated in the contract.

The quickfix list is set and then opened in both branches of the
uses-of-symbol handler (`python/Responses.py:148-149`), also when no use was
found. `Completions.BaseFilterExample` uses the base `f`, which keeps `foo`
and `far` and drops `bar`.

The uses-of-symbol handler reports failures as "SymbolAtPoint abort", just as
the code does. `Responses.AbortMessagesDistinct` shows that this is the only
pair of handlers whose failure reports cannot be told apart.

## Model

| member | source | states |
|---|---|---|
| `Text.IntToString` | python/Responses.py:35 | `str` of an integer is never empty and starts with '-' exactly when the integer is negative |
| `Text.NatToStringRoundTrip` | python/Responses.py:35 | the digits `str` writes for a natural number denote that number |
| `Text.IntToStringRoundTrip` | python/Responses.py:35 | `str` of any integer reads back to it: an optional sign, then digits with no leading zero (except for 0 itself) whose value is the magnitude, so each integer has one form |
| `Text.LexLe` | python/Responses.py:182 | Python's string order as `sorted` uses it: a string that starts another sorts no later than it |
| `Responses.PidText` | python/Responses.py:34-35 | the pid shows as nothing exactly when it is absent or zero (falsy); otherwise it shows as `str(pid)`, which `Text.IntToStringRoundTrip` reads back to the pid |
| `Responses.ServerLine` | python/Responses.py:37 | the connection echo is `server: name (version) ` followed by exactly the pid text |
| `Responses.World.ConnectionInfoResponse` | python/Responses.py:33-47 | one server echo, then at most one init-project call; the call is made only when the config file is found and it parses, and it carries the parsed config |
| `Responses.World.InitProjectResponse` | python/Responses.py:55-61 | echoes the project name and leaves `initialized` true, whatever it was before |
| `Responses.World.ShutdownServerResponse` | python/Responses.py:69-70 | echoes the shutdown line and changes nothing else |
| `Responses.World.TypecheckFileResponse` | python/Responses.py:78-82 | `scalaNotes` is empty afterwards, whatever it held; a truthy result gives the in-progress echo and a falsy one the error echo |
| `Responses.World.TypecheckAllResponse` | python/Responses.py:90-94 | the same for typecheck-all, with its own error line |
| `SymbolPreview.SymbolLine` | python/Responses.py:117-128 | the line starts with `name : typeName`; it is exactly that when both `decl-as` and `full-name` are empty or absent; otherwise it continues with ` (declAs fullName)` |
| `SymbolPreview.SymbolLineNotNoSymbol` | python/Responses.py:103-117 | a symbol line is never the "No symbol here" line |
| `SymbolPreview.AbsentMeansEmpty` | python/Responses.py:119-125 | an absent `decl-as` or `full-name` gives the same line as an empty one |
| `SymbolPreview.PlainValueLine` | python/Responses.py:117-128 | `toto` of type `String` with no declaration data gives `toto : String` |
| `SymbolPreview.FullyDeclaredLine` | python/Responses.py:117-128 | with `class` and `java.lang.String` the line is `toto : String (class java.lang.String)` |
| `SymbolPreview.LoneDeclAsLine` | python/Responses.py:117-128 | a lone `decl-as` of `class` gives `toto : String (class )` |
| `Responses.World.SymbolAtPointResponse` | python/Responses.py:102-133 | exactly one preview call with exactly one line: "No symbol here" when no symbol came back, the symbol line otherwise |
| `Responses.World.UsesOfSymbolAtPointResponse` | python/Responses.py:141-149 | with no ranges: the "Symbol not used" echo and an empty list; otherwise the converted list. In both cases the list is set once and then opened once |
| `Completions.Seed` | python/Responses.py:171 | the seed entry carries the server prefix as its word, has no info and no kind, and equals no candidate's entry |
| `Completions.PassesBase` | python/Responses.py:163-173 | a name is kept exactly when the base is a prefix of it (an empty base keeps every name); a kept name never sorts before the base |
| `Completions.KindLetter` | python/Responses.py:167-178 | the kind is 'f' exactly for a callable candidate and 'v' exactly for a non-callable one |
| `Completions.ToEntry` | python/Responses.py:174-178 | an entry's word is the name and its info the type signature; it has a kind exactly when `is-callable` is present, 'f' for true and 'v' for false |
| `Completions.MenuEntries` | python/Responses.py:172-180 | no more entries than candidates |
| `Completions.MenuEntriesMembers` | python/Responses.py:163-180 | an entry is kept exactly when it is the entry of a candidate whose name passes the base filter |
| `Completions.EmptyBaseKeepsAll` | python/Responses.py:163-165 | with an empty base every candidate is kept, in order |
| `Completions.SeedNotAmongEntries` | python/Responses.py:171 | the seed entry is never one of the candidate entries |
| `Completions.Insert` | python/Responses.py:182 | inserting adds exactly that entry to the multiset of entries |
| `Completions.InsertSorted` | python/Responses.py:182 | inserting into a list sorted by word keeps it sorted |
| `Completions.InsertStable` | python/Responses.py:182 | inserting puts the new entry ahead of the entries with the same word and keeps their order |
| `Completions.SortByWord` | python/Responses.py:182 | the sorted list is a permutation of its input |
| `Completions.SortByWordSorted` | python/Responses.py:182 | the sorted list is ordered by word in Python's string order |
| `Completions.SortByWordStable` | python/Responses.py:182 | for each word, the entries with that word keep their relative order |
| `Completions.CompletionMenu` | python/Responses.py:171-182 | the delivered menu is sorted by word and is a permutation of the seed plus the kept entries; it contains the seed and has between 1 and 1 + (number of candidates) entries |
| `Completions.CompletionMenuMembers` | python/Responses.py:163-182 | an entry is in the delivered menu exactly when it is the seed or the entry of a candidate passing the base filter |
| `Completions.BaseFilterExample` | python/Responses.py:163-182 | base `f` over `foo`, `far`, `bar` with prefix `f` delivers the seed, `far`, `foo`, in that order |
| `Responses.World.CompletionsResponse` | python/Responses.py:157-186 | with no result, or no completions list: the "Empty completions" echo and then continue, with no results set and nothing shown; otherwise the menu is set once and then shown once. The loop that builds the list is proved to build the seed plus the kept entries |
| `Responses.World.FormatSourceResponse` | python/Responses.py:194-206 | on a truthy result: the two reload commands in one call, in order, then "FormatSource done"; on a falsy one only the error echo |
| `Responses.AbortLabel` | python/Responses.py:138-139 | each label is non-empty with no space in it; the label is "SymbolAtPoint" exactly for the symbol-at-point and uses-of-symbol handlers |
| `Responses.AbortMessage` | python/Responses.py:30-31 | every abort line is the handler's label and " abort: " followed by exactly the server's code and detail text, the same shape as at lines 53, 67, 76, 88, 100, 139, 155 and 192 |
| `Responses.World.Abort` | python/Responses.py:138-139 | an abort makes exactly one error echo and changes nothing else; the uses-of-symbol handler uses the symbol-at-point label |
| `Responses.AbortMessagesDistinct` | python/Responses.py:99-100 | two different handlers give the same abort line exactly when they are the symbol-at-point and uses-of-symbol pair |

## Left out

- The dispatch registry (`SwankCallHandler`, defined elsewhere), the RPC transport and the event loop are not modelled. So "exactly one of response or abort per request" is not modelled either. Each handler method is one invocation.
- The editor primitives (`echo`, `echoe`, `PreviewOutput`, `QuickFixOutput`, `OmniOutput`, `vimCommands`, `SwankRpc`) are not modelled inside. Each call is recorded as one `Effect` in `World.trace`, and nothing is stated about what the editor then does.
- `codeDetailsString`, `rangePosToQuickFixList` and `ensimeConfigToPython` are not part of this model. The methods take them as function parameters and state nothing about their results.
- `getEnsimeConfigFile` reads the file system. Its result is a parameter of `ConnectionInfoResponse`.
- `QuickFixItem`, `Note` and `ProjectConfig` are placeholder shapes, because their real shapes belong to code outside this model.
- Logging (`log.debug`) and the `source_roots` loop of the init-project handler are left out. The loop only logs.
- `Completions.PassesBase`: the base is compiled unescaped into the regular expression `^base.*`. The model uses a literal prefix test, so it differs when the base holds regex metacharacters (the source keeps `abc` under the base `a.c`; the model does not).
- Python truthiness is narrowed to the cases the handlers meet. A nil list of ranges is the empty sequence. The typecheck and format results are booleans. `is-callable` is a boolean, so the `KeyError` for any other value is not modelled.
- Mandatory fields (`name`, `type`, `type_sig`, `prefix`, `project_name`, `implementation`, `version`, `source_roots`) are always present in the model. An `AttributeError` from a missing one is not modelled, nor the `TypeError` a nil `source_roots` raises at line 58, which would stop the init-project handler before it sets `initialized`.
- `str(r.project_name)` is modelled with the project name as a string, where `str` is the identity.

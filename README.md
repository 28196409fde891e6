# gcpx context store — a Dafny model

gcpx keeps named *contexts* of Google Cloud credentials on one workstation.
A context is a directory under the store root (`~/.config/gcpx`). It holds
a copy of the Application Default Credentials file (`adc.json`) and, for
contexts saved by current versions, a `metadata.json` record. The record
holds the gcloud configuration name, the account, the project and the
kubectl context that were active at save time. A `.current` marker file in
the root names the context last saved or switched to. The commands are:

- `save`: copies the live credentials into a context and records the metadata.
- `switch`: activates the recorded gcloud configuration, copies the stored
  credentials back over the live ones and switches kubectl.
- `delete`: removes a context, and optionally its gcloud configuration.
- `run`: starts a command with the environment pointing at one context. It
  does not switch.

This project models the store and these four operations. It also models
the name validator and the rules that parse gcloud's and kubectl's output.

Layout (one module per file):

| file | module | models |
|---|---|---|
| wrappers.dfy | Wrappers | `Option`, `Result`, and `Outcome` (a `Result<()>`) |
| errors.dfy | Errors | the error each `bail!` or `?` of the source reports |
| names.dfy | Names | `validate_context_name` |
| tools.dfy | Tools | outputs of gcloud and kubectl, `str::trim`, the parsing rules |
| ordering.dfy | StringOrder | Rust's `String` ordering and the sort in `list_contexts` |
| paths.dfy | Paths | how context paths are built from the store root |
| config.dfy | Config | the store (`class Store`), metadata, marker, `list_contexts` |
| save.dfy | SaveCommand | `save_context` |
| switch.dfy | SwitchCommand | `switch_context`, `interactive_switch` |
| delete.dfy | DeleteCommand | `delete_context` |
| run.dfy | RunCommand | `run_with_context` |
| scenarios.dfy | Scenarios | the repository's integration tests, as proved command sequences |

State. `Config.Store` has the following fields:

- `dirs`: the store root's subdirectories, by name. Each holds an optional
  `adc.json` (its bytes and whether its mode is 0600) and a metadata file
  that is absent, unparsable, or a record.
- `files`: the root's other plain files.
- `marker`: the `.current` marker.
- `liveAdc`: gcloud's live credential file.
- `activeConfig`: gcloud's active configuration.

The commands are methods that change these fields, and each names its
effect in full. External programs are not run. Each method takes their
results as parameters: `None` when the program cannot be started, otherwise
its exit status, stdout and stderr. `switch` and `delete` also return the
list of calls they make that act on external state (gcloud activation and
deletion, kubectl `use-context`), so "no tool is called" can be stated;
`run` returns the child it starts, if any. The read-only queries `save`
makes are not recorded as calls: only their outputs appear, as parameters.

## Model

| member | source | states |
|---|---|---|
| Names.ValidateContextName | src/config.rs:24-41 | a name passes exactly when it is non-empty, does not start with a dot, and has no `/`, `\` or ASCII control character (U+0000–U+001F, U+007F) |
| Names.HasControl | src/config.rs:37-39 | true exactly when some character is an ASCII control character |
| Names.RejectionReason | src/config.rs:24-41 | the reported error follows the check order: empty, then `.`/`..`, then leading dot, then separator, then control character, each stated as an if-and-only-if |
| Names.ValidNameIsPlainEntry | src/config.rs:31-33 | a valid name is never hidden, never `.current`, `.` or `..`, and contains no separator |
| Names.CheckOrderExamples | tests/integration.rs:235-269 | `.` and `..` get their own error; `../etc` and `.hidden` fail on the leading dot; `a/../etc`, `foo/bar` and `foo\bar` fail on the separator; the empty name fails as empty; a name containing U+007F fails as a control character |
| Names.AcceptedExamples | tests/integration.rs:271-278 | `my-project`, `work`, `project_123` and `My-GCP-Context` are accepted |
| Tools.TrimStart | src/config.rs:138 | strips exactly a leading run of Unicode whitespace: the result is a suffix, the removed part is all whitespace, and the result is empty or starts with non-whitespace |
| Tools.TrimEnd | src/config.rs:138 | strips exactly a trailing run of Unicode whitespace, stated the same way |
| Tools.Trim | src/config.rs:138 | the result is the part of the input between a leading and a trailing run of whitespace; it is empty exactly when the input is all whitespace, and otherwise starts and ends with non-whitespace |
| Tools.TrimIdempotent | src/config.rs:138 | trimming twice is trimming once |
| Tools.ParseActiveConfig | src/config.rs:138-143 | output that is all whitespace gives `default`; otherwise the trimmed output; never empty |
| Tools.ParseConfigValue | src/config.rs:153-158 | absent exactly when the trimmed output is empty or `(unset)`; otherwise the trimmed output |
| Tools.QueryActiveConfig | src/config.rs:126-144 | fails only when gcloud cannot be started; the exit status is ignored and the value is the parsed stdout |
| Tools.QueryConfigValue | src/config.rs:147-174 | fails only when gcloud cannot be started, with the queried key; otherwise the parsed stdout |
| Tools.CurrentKubectlContext | src/config.rs:177-193 | a context exactly when kubectl started, succeeded and printed non-whitespace; the value is the trimmed stdout |
| Tools.SwitchKubectlContext | src/config.rs:196-219 | never fails; true exactly when kubectl started and succeeded |
| Tools.Contains | src/commands/delete.rs:47 | true exactly when the pattern occurs in the text at some index |
| StringOrder.LexLeqReflexive | src/config.rs:256 | the `String` order is reflexive |
| StringOrder.LexLeqTotal | src/config.rs:256 | the `String` order is total |
| StringOrder.LexLeqAntisymmetric | src/config.rs:256 | the `String` order is antisymmetric |
| StringOrder.LexLeqTransitive | src/config.rs:256 | the `String` order is transitive |
| StringOrder.LexLeqCommonPrefix | src/config.rs:256 | strings with a common prefix compare as their remainders do |
| StringOrder.InsertSorted | src/config.rs:256 | inserting into a sorted sequence keeps it sorted and adds exactly that element |
| StringOrder.SortStrings | src/config.rs:256 | `sort` returns a sorted permutation of its input |
| StringOrder.SortedPermutationUnique | src/config.rs:256 | two sorted permutations of the same strings are equal |
| Paths.ContextPathShape | src/config.rs:91-104 | for a valid name, the context directory is one level below the root and `adc.json`/`metadata.json` sit directly in it; the marker is directly in the root |
| Paths.ContextPathsDistinct | src/config.rs:91-99 | distinct valid names get distinct directories and credential files, and no valid name reaches the marker |
| Paths.ContextDirPath | src/config.rs:96-99 | for a valid name, the root as a directory prefix followed by the name, never ending in a separator |
| Paths.ContextAdcPath | src/config.rs:91-94 | for a valid name, `adc.json` directly inside the context's directory |
| Paths.ContextMetadataPath | src/config.rs:101-104 | for a valid name, `metadata.json` directly inside the context's directory |
| Paths.MarkerPath | src/config.rs:223 | the `.current` marker sits directly in the root |
| Config.LoadContextMetadata | src/config.rs:115-123 | no directory or no file gives "no metadata" (not an error); an unparsable file gives `CorruptMetadata`; otherwise the stored record |
| Config.CurrentTracking | src/config.rs:228-236 | a present marker is read verbatim; any answer other than `none` means the marker holds exactly that name (its round trip with the marker write is `Config.Store.SetCurrentTracking`) |
| Config.ContextExistsIn | src/config.rs:260-264 | a context exists only when its directory does; the directory alone is not enough (`Config.ListedWithoutCredentials`) |
| Config.ConfigFor | src/commands/switch.rs:59-62 | the recorded gcloud configuration, or the context's own name when there is no record; never empty for a valid name and a captured record; `run` uses the same fallback (src/commands/run.rs:36-39) |
| Config.ListedWithoutCredentials | src/config.rs:261-264 | a directory without `adc.json` is listed but the context does not exist |
| Config.ExistingContextIsListed | src/config.rs:246-252 | every existing context with a valid name is listed |
| Config.VisibleAfterWrite | src/config.rs:246-252 | writing a valid name's directory adds exactly that name to the listed names |
| Config.VisibleAfterRemove | src/config.rs:246-252 | removing a directory removes exactly that name from the listed names |
| Config.NoneIsAmbiguous | src/config.rs:230-236 | `none` is a valid name, and a missing marker reads the same as a marker naming `none` |
| Config.Store.constructor | src/config.rs:74-84 | an empty store root: no contexts, no plain files, no marker |
| Config.Store.SetCurrentTracking | src/config.rs:222-226 | after writing the marker, `get_current_tracking` returns exactly the name |
| Config.Store.SaveContextMetadata | src/config.rs:107-112 | replaces the whole record, so a load returns exactly the new record; the write fails when the context has no directory |
| Config.Store.ListContexts | src/config.rs:239-258 | the result is sorted and is a permutation of the non-hidden subdirectory names; plain files and the marker are never listed |
| Config.ListingIsDetermined | src/config.rs:239-258 | the listing depends only on the set of directories, not on the order the directory yields them |
| Config.ListedOnce | src/config.rs:244-256 | each non-hidden directory name appears exactly once; nothing else appears |
| SaveCommand.CaptureMetadata | src/commands/save.rs:35-41 | succeeds exactly when gcloud starts for all three queries; failures are reported in query order; kubectl never causes a failure |
| SaveCommand.CapturedValues | src/commands/save.rs:53-58 | the record holds the parsed configuration (never empty), account, project and kubectl context; no kubectl means no kubectl context |
| SaveCommand.StoreContext | src/commands/save.rs:43-83 | fails only on a plain file with the context's name, and then changes nothing; otherwise the context holds an owner-only copy of the live credentials and exactly the given record, the marker names it, and nothing else changes |
| SaveCommand.SaveContext | src/commands/save.rs:23-85 | each guard's error in order (invalid name, no credentials, query failure, plain file in the way); success exactly when all pass; a failed save changes nothing; on success only this context's entry and the marker change, and the stored bytes equal the live credentials |
| SaveCommand.SavedContextIsComplete | src/commands/save.rs:43-59 | after a save the context exists, is listed, loads exactly the captured record, and every other context reads as before |
| SwitchCommand.ActivationOutcome | src/commands/switch.rs:66-80 | activation succeeds exactly when gcloud starts and succeeds; otherwise a start failure, or gcloud's trimmed stderr |
| SwitchCommand.KubectlCalls | src/commands/switch.rs:88-94 | kubectl is called once exactly when the record names a kubectl context, with that context |
| SwitchCommand.RestoreContext | src/commands/switch.rs:64-97 | activates the recorded configuration (or the context's own name without a record); a failed activation changes nothing; on success the live credentials equal the stored bytes, the active configuration is the activated one, and the marker names the context |
| SwitchCommand.SwitchContext | src/commands/switch.rs:24-114 | errors in order (invalid name, not found, corrupt metadata); an already-tracked context is a success with no call and no change, and corrupt metadata is then ignored; otherwise the outcome and effects of `RestoreContext`; the store's directories never change |
| SwitchCommand.InteractiveSwitch | src/commands/switch.rs:117-131 | an empty store is a success with no change; a failed prompt changes nothing; otherwise the chosen entry of the sorted listing is switched to |
| DeleteCommand.ConfigDeleteOutcome | src/commands/delete.rs:37-53 | success exactly when gcloud starts and either succeeds or reports "does not exist"; otherwise the untrimmed stderr |
| DeleteCommand.DeleteContext | src/commands/delete.rs:14-56 | errors in order (invalid name, not found) with nothing removed; otherwise exactly this directory is removed before gcloud runs; gcloud is called only when asked, with the context's name; the marker, live credentials, active configuration and plain files never change |
| DeleteCommand.DeletedContextIsGone | src/commands/delete.rs:30-32 | after the removal the name neither exists nor is listed, and every other context reads as before |
| RunCommand.ChildOutcome | src/commands/run.rs:51-63 | success exactly on exit code 0; a program that cannot start is named in the error; a missing exit code is reported as -1 |
| RunCommand.ChildEnvironment | src/commands/run.rs:51-54 | exactly two variables: `GOOGLE_APPLICATION_CREDENTIALS` is the context's `adc.json` path, and `CLOUDSDK_ACTIVE_CONFIG_NAME` is the recorded configuration or the context name |
| RunCommand.RunWithContext | src/commands/run.rs:18-64 | errors in order (invalid name, no command, not found, corrupt metadata); the child starts exactly when all checks pass, as `cmd[0]` with arguments `cmd[1..]`; the store is never written |
| Scenarios.SaveSucceeds | tests/integration.rs:96-115 | a valid save with credentials present and gcloud answering succeeds, adds exactly its name to the listing, and stores the owner-only copy and the captured record |
| Scenarios.EmptyStore | tests/integration.rs:66-80 | an empty store lists nothing and tracks `none` |
| Scenarios.SaveWithoutCredentials | tests/integration.rs:82-94 | without live credentials, save fails with `NoCredentials` and nothing is listed |
| Scenarios.SaveAndList | tests/integration.rs:96-115 | after one save the listing is exactly that name, it is tracked, its stored copy is owner-only and its record is the captured one |
| Scenarios.MultipleContexts | tests/integration.rs:132-145 | three saves list as `project-a`, `project-b`, `project-c`, in that order |
| Scenarios.ThreeProjectsListing | tests/integration.rs:132-145 | the only sorted listing of those three names is the ordered one |
| Scenarios.ThreeProjectsSorted | tests/integration.rs:144 | the expected listing is sorted |
| Scenarios.SaveThenDelete | tests/integration.rs:156-167 | a saved context exists until it is deleted; afterwards the marker still names it, and switching to it fails as not found |
| Scenarios.MissingContext | tests/integration.rs:147-185 | switch, delete and run of a never-saved name all fail as not found |
| Scenarios.RunWithoutCommand | tests/integration.rs:187-196 | running a saved context with no command fails with `NoCommand` and starts nothing |
| Scenarios.SwitchAfterSave | src/commands/switch.rs:36-55 | right after a save, switching to the same context succeeds with no call and no change |
| Scenarios.SwitchBackRestores | src/commands/switch.rs:57-97 | with `alpha` saved from one login and `beta` from a later one, switching back to `alpha` restores `alpha`'s credential bytes (not the later login's) and its recorded configuration, and switches kubectl as `alpha` recorded |
| Scenarios.QuietOnlyPrints | tests/integration.rs:198-222 | saves that differ only in `quiet` give the same result and the same store |

## Behaviour followed where the code and its description differ

- A control character is any character that `char::is_ascii_control` matches.
  That covers U+0000–U+001F and also U+007F. The doc comment on
  `validate_context_name` mentions only codes below 32.
- `save` queries account and project with `?`. So a gcloud that cannot be
  started aborts the save at any of the three queries, not only the first.
  A gcloud that starts but fails is not an error: its stdout is parsed
  whatever the exit status is.
- `delete` tests whether `<name>/adc.json` exists, not whether the
  directory exists. A directory without credentials is reported as not found.
- `delete --gcloud-config` deletes the gcloud configuration named like the context.
  It does not use the configuration recorded in the context's metadata.
- `get_current_tracking` answers `none` when there is no marker. `none` is
  also a valid context name. So when there is no marker, switching to a
  context named `none` takes the "already active" path (`NoneIsAmbiguous`).
  This is modelled as written.

## Left out

- Starting gcloud, kubectl and user commands: their results are parameters, and the calls that `switch` and `delete` make, and the child `run` starts, are returned as `ToolCall`s (the read-only queries of `save` are not recorded); what the programs themselves do is not modelled, except that a successful activation sets the active configuration.
- The decoding of program output (`from_utf8_lossy`): outputs are given as already-decoded strings.
- `src/commands/login.rs`, `src/main.rs`, `src/lib.rs` and `src/commands/mod.rs` are not part of this model: argument parsing, printing, shell completion and the interactive login flow, whose only store effect is a call to `save_context`.
- The selection menu of `interactive_switch`: its answer is the `selection` parameter (an index, or `None` when the prompt fails).
- Locating the home directory and the `GCPX_HOME` / `GCPX_GCLOUD_DIR` overrides: the store root is a parameter, the live credential file is the `liveAdc` field, and the root always exists, as `get_store_dir` creates it on access.
- JSON encoding of metadata: a metadata file is a record, `Unparsable` (unreadable, not UTF-8, or not valid JSON) or absent. Writing a record always succeeds.
- Filesystem faults: the one failure modelled is `create_dir_all` over a plain file of the same name. Read and write errors, permission and disk-space failures, partial writes and a failing `remove_dir_all` are not modelled. Removal is all-or-nothing.
- File modes: only whether `adc.json` is owner-only (0600) is tracked. A newly created copy is taken to be not owner-only whatever the umask. Platforms without `chmod` are not modelled.
- Directory entries whose names are not UTF-8, symbolic links, and an `adc.json` that is itself a directory are not modelled.
- Paths follow Unix `Path::join`. Windows separators and drive prefixes are not modelled.
- The child's inherited environment and its standard streams: only the two variables `run` sets are recorded.
- Printed output: `quiet` has no effect on state, which `Scenarios.QuietOnlyPrints` shows for `save`.
- Concurrency between invocations: the tool takes no locks.
- SwitchCommand.InteractiveSwitch: states the effect of the switch it makes only through the tracked name and the not-found error; it does not restate every clause of `SwitchContext`.
- Scenarios.SwitchBackRestores: builds its two contexts with `StoreContext`, the writing half of `save_context`, with the metadata as a parameter. Combined with `SaveContext`'s postcondition this is the full save-then-switch round trip.

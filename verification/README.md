# tempsystem, modelled in Dafny

`tempsystem` creates a throw-away Arch Linux container and drops the user into a shell inside it. It runs in this order:

1. Pull the image `codeberg.org/land/tempsystem:latest`, showing one progress bar per layer.
2. Create the container, with the working directory and optionally the zsh history bind-mounted, and start it.
3. Provision it. It can add the Chaotic-AUR and landware repositories, upgrade the system, refresh the pkgfile database, and search for and install extra repository and AUR packages. Each step is a batched `zsh -c` exec run as user `tempsystem`.
4. Run the requested command attached to the terminal.
5. Delete the container.

`main` races this session against Ctrl-C. It also deletes the container when the session fails or is cancelled, and turns the outcome into the process exit code.

This project models that core as pure functions over immutable data and proves what the code promises.

- **Engine as oracle.** The container engine is an oracle record (`Engine.EngineReplies`). It holds:
  - the pull stream;
  - the container create and start results;
  - one `ExecReply` per exec, in creation order;
  - one result per removal request.
- **Other external inputs.** The local terminal (`Engine.Terminal`) and the host facts (`Engine.Host`: working directory, home directory, history file) are inputs too.
- **Trace.** The session records every request it issues in a trace of `Engine.Op`s. It records every "[cur/total]" counter it displays in `shown`.

The modules:

| module | file | contents |
|---|---|---|
| `Wrappers`, `Ints`, `Errors` | `wrappers.dfy`, `ints.dfy`, `errors.dfy` | `Option`/`Result`; Rust's `i64`/`u64`/`u8` and the `as u64` / `as u8` casts; the error enum |
| `Text` | `text.dfy` | `split` on one character, `join`, `strip_prefix`, `split_whitespace`, `escape_default`, each with its inverse |
| `Diagnostics` | `diagnostics.dfy` | `get_error_from_pacman`, `get_error_from_pacman_key`, `get_error_from_either` |
| `PullProgress` | `progress.dfy` | the per-layer progress-bar aggregator of `pull_image` |
| `Engine` | `engine.dfy` | container and exec descriptions, bind list, primary command, engine replies, request trace |
| `Session` | `session.dfy` | `perform_all_enter` and every helper it calls |
| `SessionProperties`, `SessionTheorems` | `session_properties.dfy`, `session_theorems.dfy` | the session's plan, stage lemmas, and whole-session theorems |
| `Entry` | `entry.dfy` | `main` after argument parsing |

Two properties of the code are stated as it behaves, not as one might expect.

- **Re-splitting.** The primary command's arguments are escaped with `escape_default` and joined with spaces. `zsh -c` splits them again, so `["ls", "a b"]` and `["ls", "a", "b"]` give the same exec string (`Engine.JoinedArgumentsAreResplit`). Exactly, the shell sees the escapes of every argument's space-separated pieces (`Engine.PrimaryCommandPieces`). For arguments without spaces the string does determine the arguments (`Engine.PrimaryCommandRoundTrip`).
- **Double deletion.** When the primary command ran but the in-session deletion failed, `main` deletes the same container a second time (`Entry.MainSessionError`).

Behaviour of the code worth noting, which the model keeps:

- A failed or cancelled session exits with status 0 (src/main.rs:135), not with a failure status.
- A cancellation before the container exists deletes the default empty id (src/main.rs:115, src/docker.rs:104-108).
- Ctrl-C while the container's creation is in flight drops the session with the creation already sent. `main` then removes the empty default id, so a container the engine goes on to create is never removed (`Entry.CancelDuringCreateLeaks`).
- Ctrl-C while the session's own removal is in flight means `delete_container` is called twice (`Entry.CancelDuringDeleteDeletesTwice`).
- The "Executing" step shows `total - 1`, because `cur` has counted every earlier step by then; "Deleting" shows `total`.
- Every exec, the primary one included, runs as user `tempsystem` (src/docker.rs:441).
- `main.rs`'s `Args` has no `sync_zsh_history` field, although `perform_all_enter` reads one. The model gives `Session.Args` a field `syncZshHistory` with the three values the code compares against or implies: no sync, `Mount` and `Copy`.

## Model

| member | source | states |
|---|---|---|
| Ints.AsU8 | src/main.rs:128-130 | `code as u8` keeps the low eight bits: the result is congruent to the code modulo 256 and equals it when it is in 0..255 (so -1 gives 255) |
| Ints.AsU64 | src/docker.rs:553-557 | `as u64` on an `i64` leaves non-negative values alone and adds 2^64 to negative ones |
| Text.StripPrefix | src/docker.rs:113 | a rest is returned exactly when the string starts with the prefix, and prefix + rest is the string |
| Text.Split | src/docker.rs:112 | splitting gives at least one piece and no piece contains the separator |
| Text.JoinSplit | src/docker.rs:112 | joining the pieces of a split with the separator gives back the string |
| Text.SplitJoin | src/docker.rs:111-113 | splitting a join of separator-free pieces gives back the pieces |
| Text.SplitOfJoin | src/docker.rs:387-392 | splitting a join of any non-empty list gives every joined string's own pieces, in order |
| Text.Words | src/docker.rs:148 | `split_whitespace` yields only non-empty pieces free of Unicode whitespace |
| Text.Gaps | src/docker.rs:148 | every string is its words interleaved with whitespace gaps, non-empty between two words: no character is dropped and no word merged or reordered |
| Text.WordsOfInterleave | src/docker.rs:148 | words interleaved with any such gaps split back into exactly those words, so with `Text.Gaps` the words are the maximal whitespace-free runs, in order |
| Text.WordsOfTabSeparated | src/docker.rs:148 | "a\tb" splits into "a" and "b", derived from the characterisation with the body of `Words` hidden |
| Text.WordsJoin | src/docker.rs:245-255 | words joined by single spaces split back into the same words, so the total counts exactly the listed packages |
| Text.ParseHexOfHex | src/docker.rs:390 | the hexadecimal digits in a `\u{..}` escape read back as the escaped code point |
| Text.UnescapeEscape | src/docker.rs:390 | `escape_default` is undone by reading the escapes back, for every string |
| Text.EscapeKeepsSpaces | src/docker.rs:388-392 | the escaped text contains a space exactly when the input does, and as many spaces |
| Text.EscapeSplit | src/docker.rs:388-392 | escaping keeps every space where it is: the escaped text split on " " is the input's pieces, each escaped |
| Diagnostics.LastStripped | src/docker.rs:111-115 | no result exactly when no line bears the prefix; otherwise the text after the prefix on the last line bearing it |
| Diagnostics.ErrorFromPacman | src/docker.rs:119-126 | the text after "error: " on the last newline-separated line that starts with it, or "" when no line does |
| Diagnostics.ErrorFromPacmanKey | src/docker.rs:110-117 | the text after "==> ERROR: " on the last line that starts with it, or "" when no line does |
| Diagnostics.ErrorFromEither | src/docker.rs:128-135 | the pacman diagnostic when it is non-empty, otherwise the pacman-key diagnostic |
| Diagnostics.ExtractedIsUnique | src/docker.rs:110-126 | two results that both meet the extraction description are equal |
| Diagnostics.ErrorIsUnique | src/docker.rs:119-126 | the extraction equals the text after the prefix on the last line bearing it, as located on the split lines |
| Diagnostics.LastMatchingLineWins | src/docker.rs:119-126 | of two "error: " lines the later one is reported, whatever unmarked text follows |
| Diagnostics.EmptyPacmanFallsBackToKey | src/docker.rs:128-135 | a bare "error: " line gives an empty pacman diagnostic, so the pacman-key line is reported |
| PullProgress.Step | src/docker.rs:546-575 | events without an id or with the "latest" id are ignored; other ids have an entry afterwards unless the status is "Pull complete", created even without a size; other entries are untouched; for the surviving entry, only a size pair sets the length; the position becomes the length when a " complete" status meets a known length (from this event or earlier), else the size pair's current value, else stays; the message becomes the status unless the status snapped the position, else stays |
| PullProgress.CompletionSnapsKnownLength | src/docker.rs:567-570 | a " complete" status without a size pair snaps a bar of known length to full and changes nothing else, derived from the contract of `Step` alone |
| PullProgress.AggregateFaults | src/docker.rs:544-545 | the fold fails exactly when the stream holds an error item, and then with the first one |
| PullProgress.AggregateOpen | src/docker.rs:544-576 | after the fold, an id has a bar exactly when its last event was not "Pull complete" (or, never mentioned, it had one before) |
| PullProgress.PullImage | src/docker.rs:529-582 | the pull fails with `ImageCreate` of the first stream error exactly when there is one; otherwise the bars left to clear at stream end are exactly the layers whose last event did not complete them, never "latest" |
| PullProgress.SizedThenCompleted | src/docker.rs:549-566 | a layer at 50 of 100 gets a bar of length 100 at 50, and a following "Pull complete" leaves no bar |
| PullProgress.CompletionOfUnknownLayerChangesNothing | src/docker.rs:559-566 | a "Pull complete" for an unseen layer creates its bar and removes it in the same event |
| Engine.Binds | src/docker.rs:586-603 | the bind list fails exactly when a requested mount lacks its path, with `GetCWD` before `HomeDir`; otherwise it is the cwd bind (":ro" on request) then the history bind, each only when requested |
| Engine.CwdBindRoundTrip | src/docker.rs:588-592 | the cwd bind splits on ':' into host path, ~/work and the optional "ro" |
| Engine.HistoryBindRoundTrip | src/docker.rs:595-602 | the history bind splits on ':' into the host history file and the guest's |
| Engine.PrimaryCommandRoundTrip | src/docker.rs:383-396 | for a command other than the bare shell whose arguments hold no space, splitting the exec string on spaces and unescaping gives back the command |
| Engine.UnescapeAllEscapeAll | src/docker.rs:388-391 | escaping each argument is undone argument by argument |
| Engine.JoinedArgumentsAreResplit | src/docker.rs:387-392 | two different argument lists give the same exec string |
| Engine.PrimaryCommandPieces | src/docker.rs:383-396 | for a non-empty command other than the bare shell, the exec string split on " " is the escapes of every argument's space-separated pieces, in order, so the joined command has spaces exactly where arguments meet or contain them |
| Engine.Delivered | src/docker.rs:495 | the output loop consumes the text chunks up to the end of the stream or its first error item |
| Session.VerdictClearIffPasses | src/docker.rs:158-169 | a task's exec lets the session go on exactly when it was created, started attached, inspected, and exited with status 0 |
| Session.CreateExec | src/docker.rs:432-451 | without a connection it fails with `NotConnected` and issues nothing; otherwise it issues one exec creation in the container with the given command and attach flag, and succeeds exactly when the engine returns an id |
| Session.FirstStdoutFault | src/docker.rs:495-500 | the first chunk whose write or flush fails: every earlier chunk's write and flush succeed |
| Session.Relay | src/docker.rs:495-500 | each chunk is written in order; it fails exactly when some write or flush fails, at the first such chunk, with that chunk's `StdoutWrite` or `StdoutFlush` fault, having written the chunks before it (and that chunk too when only its flush failed); it succeeds exactly when every write and flush succeeds |
| Session.Bridge | src/docker.rs:480-500 | the attached session succeeds exactly when the terminal size is read, the resize is accepted, raw mode is entered and every chunk is written; it issues at most one resize and relays chunks, never creating an exec or removing anything; a failed size query gives `TerminalSize` before any request, then a refused resize gives `ExecResize` and a raw-mode fault `Rawmode`, each right after the resize request, and otherwise the first failing chunk gives its `StdoutWrite` or `StdoutFlush` error |
| Session.StartExec | src/docker.rs:453-527 | starting an exec only adds requests that create and remove nothing, the start request first; a batched start fails with the start or inspection error, or returns the exit code (0 when absent) with the output up to the end of the stream or its first error; an attached start fails exactly when `AttachedError` names a fault, and with that error: `ExecStart`, `ExpectedAttached`, the bridge's terminal, resize, raw-mode or stdout error, then `ExecInspect`; a successful attached run returns the exit code and no output; once the output is drained the inspection is the last request |
| Session.Started | src/docker.rs:453-527 | connected, the start request comes first and the run fails or succeeds as `StartExec` states: batched by `StartOutcome`, attached exactly when `AttachedError` names a fault |
| Session.Streamed | src/docker.rs:453-527 | with the exec started attached: the start request, then the drained output and the inspection, with the same error and exit-code promises |
| Session.Drain | src/docker.rs:496-527 | after an attached start: batched, the output gathered up to the end of the stream or its first error with the exit code or `ExecInspect`; attached, failure exactly when `AttachedError` names one, with that error; the inspection is the last request whenever it was reached |
| Session.RunTask | src/docker.rs:151-169 | one task issues one exec creation with its command, then only quiet requests; it succeeds exactly when its verdict is clear and otherwise fails with that verdict's error |
| Session.PackageTasks | src/docker.rs:148-171 | each package contributes a search and then an install, in the listed order |
| SessionProperties.PreparePlanOfFlags | src/docker.rs:289-355 | the optional steps are Chaotic-AUR, landware, system upgrade and pkgfile refresh, in that order, each exactly when its flag is set |
| SessionProperties.TotalCountsEveryStep | src/docker.rs:245-259 | the total is 5 plus one per enabled optional step and one per listed package |
| SessionProperties.ScreenIsFirstRejection | src/docker.rs:158-168 | the screen of a task list stops at the first exec that does not pass, after which nothing runs, and reports that exec's verdict |
| SessionProperties.RunTaskFollows | src/docker.rs:151-169 | one task creates exactly its exec, removes nothing, shows no counter, and goes on exactly when its reply passes |
| SessionProperties.FlagStepStage | src/docker.rs:289-315 | a disabled step does nothing; an enabled one shows its counter, runs its task and advances the counter by one on success |
| SessionProperties.FlagStepsStage | src/docker.rs:289-355 | the optional steps run their enabled tasks in order, showing one counter each |
| SessionProperties.InstallOneStage | src/docker.rs:149-170 | one package runs a search then an install under the same counter |
| SessionProperties.SearchRejects | src/docker.rs:151-160 | a package whose search fails stops the session before any install exec for it |
| SessionProperties.SearchPasses | src/docker.rs:158-164 | a package whose search passes is installed next, under the same counter |
| SessionProperties.InstallEachStage | src/docker.rs:148-171 | the package loop runs a search and install per package, in order, showing `i + current_task` for the i-th |
| SessionProperties.InstallWordsStage | src/docker.rs:147-203 | `install_packages` and `install_aur_packages` follow the package pairs of the whitespace-separated list |
| SessionProperties.OptionalInstallStage | src/docker.rs:356-365 | an absent package option runs nothing; a present one runs its pairs from the current counter |
| SessionProperties.PrepareStage | src/docker.rs:289-355 | the optional steps follow their plan from counter 4 |
| SessionProperties.InstallSourcesStage | src/docker.rs:356-365 | the package sources run their pairs in order, one counter per package |
| SessionProperties.InstallRequestedStage | src/docker.rs:356-365 | repository packages are installed before AUR packages |
| SessionProperties.ProvisionStage | src/docker.rs:289-365 | provisioning runs exactly the planned tasks up to the first rejection, fails with its error, and shows one counter per step from 4 |
| SessionTheorems.SetupNotConnected | src/docker.rs:143-145 | without a connection the session fails at the pull with `NotConnected`, having shown only counter 1 and issued nothing |
| SessionTheorems.SetupTrace | src/docker.rs:262-288 | the container id is recorded exactly when creation succeeded, and setup creates no exec and removes nothing |
| SessionTheorems.SetupCounters | src/docker.rs:260-288 | setup shows counters 1, 2, 3 in order, all three on success |
| SessionTheorems.SetupOutcome | src/docker.rs:262-286 | setup fails with the first error of pull, bind list, container creation and start, and succeeds exactly when there is none |
| SessionTheorems.SetupFacts | src/docker.rs:262-288 | the conjunction of the three setup lemmas above |
| SessionTheorems.SetupRequests | src/docker.rs:604-621 | a successful setup issues pull, create and start of the created id, the create carrying the fixed image, hostname and DNS and the flags' network, privilege, read-only root and bind list |
| SessionTheorems.CopyHistoryFacts | src/docker.rs:220-241 | copying the history creates no exec and removes nothing, succeeds exactly when home, history file and upload are fine, and otherwise fails with the first of them to go wrong (`CopyError`): `HomeDir`, then `OpenHistory`, then `Tar`, then `ContainerUpload` |
| SessionTheorems.AttachedRunsIffClear | src/docker.rs:455-526 | the success condition of an attached start and its first-fault reference agree: no fault exactly when the reply is attached, the terminal cooperates for every delivered chunk and the inspection succeeds |
| SessionTheorems.StartAttachedIff | src/docker.rs:455-526 | the attached start succeeds exactly when the reply is attached, the terminal cooperates for every delivered chunk and the inspection succeeds, returning the exit code or 0, and otherwise fails with the first fault |
| SessionTheorems.ExecuteFacts | src/docker.rs:366-409 | the primary exec is created exactly when the history copy succeeds; the container is removed exactly when the primary command ran; the step shows `cur`, then `total` once it ran; success needs a successful removal and returns the primary exit code; a failure carries the first fault (`ExecuteError`): the copy's, `ExecCreate`, the attached start's, or `ContainerDelete` when the primary command ran but the removal failed |
| SessionTheorems.ExecuteErrorIffFails | src/docker.rs:366-409 | the first-fault reference of "Executing" names none exactly when the copy succeeds, the primary command runs and the removal goes through |
| SessionTheorems.SessionNotConnected | src/docker.rs:262-266 | a disconnected session fails with `NotConnected` having shown counter 1 and issued no request |
| SessionTheorems.SessionExecs | src/docker.rs:289-397 | the execs created are a prefix of the planned ones (provisioning tasks, then the primary command), and all of them on success; a failed setup creates none; after a rejected provisioning exec they are exactly the planned tasks up to and including the rejected one, so the primary exec is never created |
| SessionTheorems.SessionError | src/docker.rs:262-409 | a setup error ends the session with that error; otherwise the first rejected provisioning task ends it with its verdict; otherwise it fails exactly when "Executing" meets a fault, with the first one |
| SessionTheorems.SessionCounters | src/docker.rs:245-405 | the counters shown are 1, 2, 3, ... in order, never more than `total`, and exactly `total` of them on success |
| SessionTheorems.SessionOutcome | src/docker.rs:366-412 | the container is removed exactly once when provisioning succeeded and the primary command ran, never otherwise; success returns the primary command's exit code (0 when absent), even when it is non-zero |
| SessionTheorems.PlannedExecsAsUser | src/docker.rs:437-443 | every planned exec runs as `tempsystem` under `zsh -c`, and only the last, the primary one, attaches stdin |
| SessionTheorems.SessionExecsAsUser | src/docker.rs:441-443 | every exec a session creates runs as `tempsystem` under `zsh -c` |
| Entry.FinishError | src/main.rs:120-127 | a failed session is reported, deleted once more by the id in the context, and exits with 0 |
| Entry.FinishCancel | src/main.rs:114-118 | a cancellation exits with 0 after one more deletion, of the id held once the completed requests were answered (the empty default before creation), the request in flight, if any, counting as sent |
| Entry.CancelDuringCreateLeaks | src/main.rs:113-118 | Ctrl-C with the creation in flight: the creation was sent and only "" is removed afterwards, so the created container leaks |
| Entry.CancelDuringDeleteDeletesTwice | src/main.rs:113-118 | Ctrl-C with the session's removal in flight: two `delete_container` calls, both removals requested |
| Entry.FinishNonZero | src/main.rs:113-135 | a non-zero exit code arises only from a session that finished first and succeeded |
| Entry.MainSuccess | src/main.rs:119-130 | a successful session needed a connection and exits with its code's low eight bits after exactly one deletion, of the created container |
| Entry.MainSessionError | src/main.rs:120-127 | a failed session exits with 0 after one more deletion, of the created container or of "" when none was created |
| Entry.MainNotConnected | src/main.rs:108-111 | a failed connection is only reported; the session and every deletion then fail with `NotConnected`, no request is issued, and the exit code is 0 |
| Entry.MainCancel | src/main.rs:114-118 | a cancellation after k completed requests, with or without one more in flight, exits with 0 after deleting the id held then; a cancellation before the first request completed deletes "" |
| Entry.AlwaysAttemptsDelete | src/main.rs:113-135 | whatever the race and outcome, `delete_container` is called at least once, and with a connection a removal is requested |

## Left out

- The engine calls themselves (pull, create, start, exec, resize, inspect, upload, remove) are network I/O against a daemon. Their answers are oracle inputs in `Engine.EngineReplies`.
- The `tokio::select!` race and the Ctrl-C handler are concurrency. The race is the input `Entry.Race`: the session finished first, or it was cancelled after a given number of its requests had completed, with or without the next one sent and unanswered. The engine's answer to that request is not modelled: it is lost with the dropped session, whatever the engine did.
- The stdin-forwarding task spawned by `start_exec` is concurrent and never ends the exec. The `sleep` calls and steady ticks are timing only.
- Terminal size, raw mode and stdout writes are terminal I/O. They are inputs in `Engine.Terminal`: their success or error per call, with no bytes modelled.
- indicatif rendering and styles are left out. Only the bar state (length, position, message) is kept, and the spinner is kept as the sequence of counters it shows; its messages are left out.
- The tar archive, `File::open`, `home_dir`/`canonicalize` and `current_dir` are filesystem access. Their outcomes are inputs in `Engine.Host`.
- The `--verbose` printing of exec output is output only, and its `unwrap` cannot fail on a batched exec. The "note: running with --verbose" line and the colourised `print_error!` text are left out too; `Entry.Exit` keeps the errors reported, in order.
- The failing `write_fmt` into a `String` buffer (src/docker.rs:512-514) is left out: writing into a `String` does not fail. `Errors.Error` still declares `StdoutFmtWrite`, only to mirror the source's error enum; nothing in the model produces it.
- clap parsing, the man-page and completion generators, and version/build.rs are build and command-line plumbing.

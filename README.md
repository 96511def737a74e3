# rust_kanban: mouse normaliser and IO command handler

A Dafny model of two parts of a terminal kanban board written in Rust:

- **The mouse-event normaliser** (`src/inputs/mouse.rs`). A raw terminal mouse event is a kind, a
  column, a row and a set of modifier flags. It is mapped onto one of nine semantic events.
  Each semantic event has a fixed label, except `Move(x, y)`, whose label spells out the
  coordinates. Module `MouseInput`, with the decimal text of coordinates in module `Decimal`.
- **The IO command handler** (`src/io/handler.rs`). It runs the five commands `Initialize`,
  `GetLocalData`, `GetCloudData`, `Reset` and `SaveLocalData` against the shared `App`. Each command
  may replace the boards or set the initialized flag. Every command ends by setting the loaded flag.
  `App` and `IoAsyncHandler` are classes whose methods update the app's fields in place (module
  `IoHandler`). Each handler method states the new app state and its result in its own
  contract. `HandleIoEvent` is proved against `Dispatch`, a function giving the app state after
  one command. The lemmas about `Dispatch` and about `Run` (commands handled in order) state what
  the commands promise.
- **Board selection at start-up** (`prepare_boards`, module `SaveFiles`). It takes the greatest listed
  save-file name in Rust's string order, or `"1"` when none is listed. It takes the text after that
  name's last `'v'` and parses it as a `u32`, defaulting to 1. It then loads that version, falling
  back to one default board when loading fails.

The collaborators whose bodies are not part of this model are parameters. These are
`get_available_local_savefiles`, `get_local_kanban_state`, `save_kanban_state_locally` and
`reset_config`. They are bundled in the `Storage` datatype as the listed names, a loader function,
a saver function and a function on the `Disk`. The `Disk` records only what the handler checks and
creates by itself: the config directory, the config file and the save directory.

Rust's `Ord` for `String` compares UTF-8 bytes. That order is the same as the code-point order
`SaveFiles.LexLe` uses on Dafny strings. `u16` and `u32` are newtypes with their Rust ranges.

Four behaviours of the code worth knowing:

- The latest save file is the greatest name compared as strings, not as numbers: of `v1`, `v2`
  and `v10`, `v2` is chosen and version 2 is loaded (`SaveFiles.TextualNotNumericMaximum`).
- The Control remap of scrolling applies only when Control is the only modifier, so
  Control+Shift scrolls keep their direction (`MouseInput.ControlShiftScroll`).
- The label of a remapped scroll names the opposite raw direction: Ctrl+ScrollDown gives
  `ScrollLeft`, labelled `<Mouse::Ctrl + ScrollUp>`, and Ctrl+ScrollUp gives `ScrollRight`,
  labelled `<Mouse::Ctrl + ScrollDown>` (`MouseInput.ControlScrollLabelOpposite`).
- The handler only calls `initialized()` and `loaded()`, so the app's lifecycle is kept as two
  flags.

## Model

| member | source | states |
|---|---|---|
| MouseInput.FromEvent | src/inputs/mouse.rs:35-76 | the normaliser is total; a `Move` result carries the event's own column and row |
| MouseInput.PressFromDown | src/inputs/mouse.rs:38-49 | the result is `LeftPress`/`RightPress`/`MiddlePress` exactly when the event is a press of that button, whatever the modifiers and position |
| MouseInput.ControlScrollRemap | src/inputs/mouse.rs:50-59 | the result is `ScrollLeft` exactly for scroll-down with modifiers equal to `CONTROL`, and `ScrollRight` exactly for scroll-up with `CONTROL` |
| MouseInput.PlainScroll | src/inputs/mouse.rs:60-67 | the result is plain `ScrollUp`/`ScrollDown` exactly for that raw scroll with any modifier value other than `CONTROL` |
| MouseInput.ControlShiftScroll | src/inputs/mouse.rs:50-67 | Control together with Shift is not `CONTROL`, so such scrolls keep their direction |
| MouseInput.MoveKeepsPosition | src/inputs/mouse.rs:68-73 | the result is a `Move` exactly for moved events, and then it is `Move(column, row)` |
| MouseInput.UnknownOtherwise | src/inputs/mouse.rs:74 | the result is `Unknown` exactly for releases, drags and kinds with no pattern |
| MouseInput.FromEventOnto | src/inputs/mouse.rs:35-76 | every one of the nine semantic events is produced by some raw event |
| MouseInput.Label | src/inputs/mouse.rs:19-33 | every label is at least 13 characters long, starts with `<Mouse::` and ends with `>` |
| MouseInput.RemappedScrollLabels | src/inputs/mouse.rs:27-28 | `ScrollLeft` is labelled `<Mouse::Ctrl + ScrollUp>` and `ScrollRight` `<Mouse::Ctrl + ScrollDown>` |
| MouseInput.ControlScrollLabelOpposite | src/inputs/mouse.rs:27-59 | a Ctrl+ScrollDown event is labelled `<Mouse::Ctrl + ScrollUp>` and a Ctrl+ScrollUp event `<Mouse::Ctrl + ScrollDown>`, at any position |
| MouseInput.MoveLabel | src/inputs/mouse.rs:29 | the label of `Move(x, y)` is `<Mouse::Move(` then x and y in decimal separated by `, `, then `)>` |
| MouseInput.LabelInjective | src/inputs/mouse.rs:21-31 | distinct semantic events have distinct labels |
| Decimal.Format | src/inputs/mouse.rs:29 | a coordinate is written as at least one ASCII digit with no leading zero |
| Decimal.ValueOfFormat | src/inputs/mouse.rs:29 | reading the written digits back gives the number again |
| Decimal.FormatOfValue | src/io/handler.rs:144 | a canonical run of digits is the written form of its own value |
| SaveFiles.MaxName | src/io/handler.rs:138 | `max` of the names is absent only for an empty list; otherwise it is a listed name that no listed name exceeds in string order |
| SaveFiles.MaxNameUnique | src/io/handler.rs:138 | a listed name that no listed name exceeds is the maximum, whatever the listing order |
| SaveFiles.LatestSaveName | src/io/handler.rs:136-138 | the selected name is `"1"` for an empty listing, otherwise the listed maximum in string order |
| SaveFiles.LexLe | src/io/handler.rs:138 | Rust's string order: a prefix is at most the whole, and a name is at most another only if its first character is |
| SaveFiles.LexLeTotal | src/io/handler.rs:138 | any two names are ordered one way or the other |
| SaveFiles.LexLeTransitive | src/io/handler.rs:138 | the string order is transitive |
| SaveFiles.LexLeAntisymmetric | src/io/handler.rs:138 | two names each at most the other are equal |
| SaveFiles.Split | src/io/handler.rs:140 | splitting yields at least one part, and no part holds the separator |
| SaveFiles.JoinSplit | src/io/handler.rs:140 | joining the parts with the separator gives back the name |
| SaveFiles.SplitAround | src/io/handler.rs:140 | a separator cuts the text into the parts before it and the parts after it |
| SaveFiles.LastPart | src/io/handler.rs:140-142 | the popped part holds no `'v'` |
| SaveFiles.TextAfterLastSeparator | src/io/handler.rs:140-142 | the popped part is the text after the last `'v'` |
| SaveFiles.LastPartNoSeparator | src/io/handler.rs:140-142 | without a `'v'` the popped part is the whole name |
| SaveFiles.ParseU32 | src/io/handler.rs:144 | a parse succeeds only on digits, optionally after one `+`, and yields their value |
| SaveFiles.ParseFormat | src/io/handler.rs:144 | every `u32` written in decimal, with or without `+`, parses back to itself |
| SaveFiles.ParseDigits | src/io/handler.rs:144 | every non-empty run of digits of value at most `u32::MAX` parses to its value, with or without one `+` before it |
| SaveFiles.ParseLeadingZeros | src/io/handler.rs:144 | leading zeros are accepted and do not change the value |
| SaveFiles.ParseOverflow | src/io/handler.rs:144 | a number above `u32::MAX` does not parse |
| SaveFiles.ParseRejects | src/io/handler.rs:144 | empty text, a lone `+`, a leading `-` and a non-digit after the first character do not parse |
| SaveFiles.VersionOf | src/io/handler.rs:140-144 | the version is 1, or the value of the digits (with at most one `+` before them) that make up the whole text after the last `'v'` |
| SaveFiles.VersionWithoutV | src/io/handler.rs:140-144 | a name without `'v'` is parsed whole, defaulting to 1 |
| SaveFiles.VersionAfterV | src/io/handler.rs:140-144 | a name ending in `v` and a decimal `u32` selects that number, whatever precedes the `v` |
| SaveFiles.VersionDefault | src/io/handler.rs:144 | when the text after the last `'v'` does not parse, the version is 1 |
| SaveFiles.VersionExampleBoards | src/io/handler.rs:140-144 | `"boardsv7"` gives version 7 |
| SaveFiles.VersionExampleNonsense | src/io/handler.rs:140-144 | `"nonsense"` gives version 1 |
| SaveFiles.VersionTrailingV | src/io/handler.rs:140-144 | a name ending in `'v'` gives version 1 |
| SaveFiles.PrepareBoards | src/io/handler.rs:135-157 | the result is the loaded sequence unchanged when loading the selected version succeeds, and exactly one default board when it fails |
| SaveFiles.NoSaveFilesLoadsVersionOne | src/io/handler.rs:136-145 | with no save file listed, version 1 is loaded |
| SaveFiles.LoadsGreatestName | src/io/handler.rs:135-157 | when the greatest listed name ends in `v` and a decimal `u32` n, version n is loaded, whatever the other names are |
| SaveFiles.TextualNotNumericMaximum | src/io/handler.rs:138 | of `"v1"`, `"v2"` and `"v10"` the name `"v2"` is selected and version 2 is loaded |
| IoHandler.PrepareConfigDir | src/io/handler.rs:111-125 | reports success; afterwards the config directory and a config file exist, an existing config is kept, and a missing one becomes the default |
| IoHandler.PrepareSaveDir | src/io/handler.rs:127-133 | reports success; afterwards the save directory exists and the config is untouched |
| IoHandler.PrepareDirsAlwaysSucceed | src/io/handler.rs:49-54 | both directory checks report success, so the two error branches never run |
| IoHandler.InitializePreparesDisk | src/io/handler.rs:111-133 | after `Initialize` both directories exist, and the config file is the old one if there was one, the default otherwise |
| IoHandler.App.SetBoards | src/io/handler.rs:65 | the boards are replaced and the flags kept |
| IoHandler.App.Initialized | src/io/handler.rs:57 | the initialized flag is set and nothing else changes |
| IoHandler.App.Loaded | src/io/handler.rs:42 | the loaded flag is set and nothing else changes |
| IoHandler.IoAsyncHandler.constructor | src/io/handler.rs:23-25 | the handler shares the given app |
| IoHandler.DiskAfter | src/io/handler.rs:28-43 | after `Initialize` both directories and a config file exist; `Reset` gives the config reset's disk; the other commands leave directories and config file as they were |
| IoHandler.IoAsyncHandler.HandleIoEvent | src/io/handler.rs:28-43 | the new app state is `Dispatch` of the command and the old state; the directories and the config file change only under `Initialize` and `Reset` |
| IoHandler.IoAsyncHandler.DoInitialize | src/io/handler.rs:46-60 | returns `Ok`; the boards become the prepared boards, the initialized flag is set, both directories are prepared |
| IoHandler.IoAsyncHandler.GetLocalSave | src/io/handler.rs:62-68 | returns `Ok`; the boards become empty and the flags are kept |
| IoHandler.IoAsyncHandler.GetCloudSave | src/io/handler.rs:70-76 | returns `Ok`; the boards become empty and the flags are kept |
| IoHandler.IoAsyncHandler.ResetConfig | src/io/handler.rs:78-83 | returns `Ok`; only the config reset touches the disk, and the app is not modified |
| IoHandler.IoAsyncHandler.SaveLocalData | src/io/handler.rs:85-95 | hands the app's current boards to the saver and returns `Ok` whether or not the save fails; the app is not modified |
| IoHandler.Dispatch | src/io/handler.rs:28-43 | every command ends with the loaded flag set; the initialized flag is set exactly when it was or the command is `Initialize` |
| IoHandler.InitializeInstallsBoards | src/io/handler.rs:55-57 | `Initialize` installs the result of `prepare_boards` and sets the initialized flag |
| IoHandler.InitializeSurvivesLoadFailure | src/io/handler.rs:46-60 | when loading fails, `Initialize` leaves exactly one default board with the app initialized and loaded |
| IoHandler.LoadingEmptiesBoards | src/io/handler.rs:62-76 | local and cloud loading both leave an empty board sequence and set the loaded flag |
| IoHandler.ResetAndSaveKeepBoards | src/io/handler.rs:78-95 | `Reset` and `SaveLocalData` leave the boards unchanged |
| IoHandler.DispatchIdempotent | src/io/handler.rs:28-43 | handling the same command twice in the same environment gives the state of handling it once |
| IoHandler.RunKeepsBoards | src/io/handler.rs:28-43 | any run of `Reset` and `SaveLocalData` commands leaves the boards unchanged |
| IoHandler.RunFlags | src/io/handler.rs:28-43 | after a non-empty run the app is loaded; it is initialized exactly when it was or the run held `Initialize` |
| IoHandler.RunLastWriterWins | src/io/handler.rs:28-43 | the boards after a run are those written by its last `Initialize`, `GetLocalData` or `GetCloudData` |

## Left out

- The `Arc<Mutex<App>>`, `async`/`await` and the command channel: commands are handled one at a time on a single owned `App`. The code holds the app's lock while it prepares directories and while it saves; the model does not represent the lock.
- The worker loop and all of `src/main.rs` (terminal raw mode, panic hook, argument parsing, logger, spawned workers, the bounded channel of capacity 100) are not part of this model. `IoHandler.Run` only states what handling commands in order does to the app.
- The bodies of `get_available_local_savefiles`, `get_local_kanban_state`, `save_kanban_state_locally` and `reset_config` are not part of this model. They are the fields of `Storage`. So the round trip "save, then load on the next start" is not stated.
- IoAsyncHandler.SaveLocalData: the save file that `save_kanban_state_locally` writes is not modelled. Only the saver's reported status is, and `Disk` holds no save files.
- Run: the listed save-file names, the loader and the saver are the same for every command of a run, so a save does not change what a later `Initialize` lists or loads.
- The effect of `reset_config` on the disk is whatever `Storage.resetConfig` returns.
- The internals of `Board`, `Card`, `App` and `AppConfig` are not part of this model. `Board::default()` is modelled as a nameless board without cards. The serialised default configuration is the `DefaultConfig` value.
- Paths (`home_dir`, `temp_dir`, the directory and file names) are not modelled. The panics of `create_dir_all(...).unwrap()`, `std::fs::write(...).unwrap()` and `home_dir().unwrap()` are filesystem failures and are left out, as is JSON serialisation.
- Logging (`info!`, `error!`, `debug!`) is left out; the branches that only log are empty.
- Raw mouse kinds that the back-end may report beyond presses, releases, drags, moves and vertical scrolls are all represented by `Other`.

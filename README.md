# work_tools: profile switching, modelled in Dafny

`work_tools` is two small macOS scripts for switching between a work and a
personal browsing profile.

- `sandbox.py` (`start_sandbox`) saves the current session to the profile
  that looks current, closes every Chrome window and opens one blank window.
- `go_work.py` (`load_work_state`) always saves the current session as the
  personal profile, closes every Chrome window, and restores the saved work
  session: its tabs first, then its apps.

Both scripts ask for confirmation first. Both keep the two profiles in JSON
state files in the home directory.

This project models the logic inside those scripts. The operating system and
the browser become inputs and a record of effects:

- **OutputList** (`output_list.dfy`) is the comprehension
  `[x.strip() for x in stdout.split(',') if x.strip()]`. It is built from
  Python's `str.split(',')` and `str.strip()`, using Python's whitespace set.
- **Environment** (`environment.dfy`) is `get_running_apps` and
  `get_chrome_tabs`. Each takes the answer of its AppleScript query
  (`Completed(returnCode, stdout)` or `Raised`) as input.
- **ProfileStore** (`profile_store.dfy`) holds the two state files. Each slot
  maps to its decoded content and its modification time. It also has
  `save_current_state`'s snapshot (`Capture`), the overwrite (`Saved`) and the
  reading done by `load_work_state` (`Load`).
- **ModeDetector** (`mode_detector.dfy`) is `detect_current_mode`.
- **Confirmation** (`confirmation.dfy`) is `get_confirmation`'s loop. It runs
  over the sequence of lines the user types. Running out of lines is an
  end-of-file, on which `input()` raises.
- **Trace** (`trace.dfy`) is the effect record:
  - the effects are `Save(slot)`, `CloseAll`, `NewWindow`, `OpenTab(url)` and
    `Launch(app)`;
  - a run ends in one of five outcomes;
  - projections pick out what was saved, opened and launched.
- **Host** (`host.dfy`) is the class `Workstation`. Its mutable fields are the
  files and the trace. `save_current_state` and the one-shot commands are
  methods on it.
- **Sandbox** (`sandbox.dfy`) and **GoWork** (`go_work.dfy`) are the two
  orchestrators:
  - each is a specification function of the whole run (`SandboxRun`,
    `WorkSwitch`);
  - each has an imperative method over a `Workstation` that is proved equal to
    that function;
  - lemmas state the properties of each run.

The helpers that the two scripts define identically are modelled once:
`get_running_apps`, `get_chrome_tabs` and `save_current_state`. The same goes
for the `while` loops of the two `get_confirmation` functions (sandbox.py:81-88,
go_work.py:68-75), which are identical. The two functions differ in the header
they print and in the sandbox's call of `detect_current_mode()` before the
loop (sandbox.py:74). That call is modelled as `StartSandbox`'s `announced`.

Three behaviours of the code are easy to miss. The model follows the code in
each:

- `get_running_apps` has no `try`. It ignores the query's return code, and a
  query that raises makes `save_current_state` raise. The whole run then ends
  in the top-level handler (`Aborted`) before anything is written. Only
  `get_chrome_tabs` is best-effort.
- `detect_current_mode` counts a missing file as time 0. So with only the
  personal file present, and its modification time before the epoch, the
  mode is `work` (`ModeDetector.DetectMode`).
- `load_work_state` saves to the personal slot whatever the mode is. With a
  clock that does not go backwards, the detector therefore says `personal`
  after every switch to work
  (`GoWork.WorkSwitchLeavesDetectorOnPersonal`). After a sandbox switch the
  detector keeps the mode it had (`Sandbox.SandboxKeepsMode`).

## Model

| member | source | states |
|---|---|---|
| OutputList.TrimLeftSpec | sandbox.py:23 | The left half of `strip()` drops exactly a leading run of whitespace and keeps the rest of the string unchanged. |
| OutputList.TrimRightSpec | sandbox.py:23 | The right half of `strip()` drops exactly a trailing run of whitespace and keeps the rest unchanged. |
| OutputList.Strip | sandbox.py:23 | Definition of `str.strip()`; properties in `OutputList.StripSpec`, `StripEmptyIffAllSpace`, `StripUnpads` and `StripPadding`. |
| OutputList.StripSpec | sandbox.py:23 | A stripped string has no whitespace at either end. A string without such whitespace is left as it is. |
| OutputList.StripEmptyIffAllSpace | sandbox.py:23 | `x.strip()` is empty, so the field is filtered out, exactly when the field is all whitespace. |
| OutputList.StripKeepsCharacters | sandbox.py:23 | Stripping adds no character. |
| OutputList.StripUnpads | sandbox.py:23 | Every string is its stripped form with whitespace on both sides. |
| OutputList.StripPadding | sandbox.py:23 | Whitespace added at either end does not change the stripped result. |
| OutputList.TrimLeftPadding | sandbox.py:23 | Leading whitespace does not change the left-trimmed result. |
| OutputList.TrimRightPadding | sandbox.py:23 | Trailing whitespace does not change the right-trimmed result. |
| OutputList.TrimLeftAppend | sandbox.py:23 | Left-trimming a concatenation trims into the second part only when the first part is all whitespace. |
| OutputList.Split | sandbox.py:23 | `split(',')` returns at least one field. No field contains a comma. Joining the fields with `,` gives back the input. |
| OutputList.SplitCommaFree | sandbox.py:23 | A comma-free string splits into itself alone. |
| OutputList.SplitAppend | sandbox.py:23 | The fields of `a,b` are the fields of `a` followed by the fields of `b`. |
| OutputList.Clean | sandbox.py:23 | The filter keeps at most one item per field. Every item kept is non-empty and stripped. |
| OutputList.CleanKeepsCommaFree | sandbox.py:23 | Cleaning comma-free fields yields comma-free items. |
| OutputList.CleanAppend | sandbox.py:23 | Cleaning distributes over concatenation, so the order of fields is kept. |
| OutputList.ParseList | sandbox.py:23 | Every parsed item is non-empty, has no whitespace at either end and contains no comma. |
| OutputList.ParseListAppend | sandbox.py:23 | The parser keeps left-to-right order: the items of `a,b` are those of `a` followed by those of `b`. |
| OutputList.ParseListLeadingSpace | sandbox.py:23 | A whitespace character in front of the output does not change the parse. |
| OutputList.ParseJoinRoundTrip | sandbox.py:23 | A list of non-empty, stripped, comma-free names, written out with `, ` between them, parses back to the same list. |
| OutputList.CommaItemDoesNotRoundTrip | sandbox.py:23 | A name that contains a comma never parses back to itself. |
| Environment.RunningApps | sandbox.py:14-23 | The app list is the parse of the query's output whatever its return code. It is absent exactly when the query raises. |
| Environment.ChromeTabs | sandbox.py:26-45 | The tab list is the parse of the output when the return code is 0. It is empty when the code is non-zero or the query raises. |
| ProfileStore.Capture | sandbox.py:48-54 | The snapshot holds the timestamp, the parsed apps and the tabs. It cannot be built exactly when the app query raises. |
| ProfileStore.Load | go_work.py:98-107 | A missing file is `Missing` and an undecodable file is `Corrupt`. Otherwise the two lists are read, and an absent key reads as the empty list. |
| ProfileStore.Saved | sandbox.py:56-57 | Saving replaces the slot's file with a record of all three keys and the new modification time. The other slot is unchanged. |
| ProfileStore.SaveLoadRoundTrip | go_work.py:48-57 | Reading back the slot just saved gives the saved lists. Reading the other slot gives what it gave before, with its old modification time. |
| ModeDetector.DetectMode | sandbox.py:60-69 | The result is `work` exactly when: both files exist and work is strictly newer; or only the work file exists and its time is positive; or only the personal file exists and its time is negative. |
| ProfileStore.MtimeOf | sandbox.py:62-65 | Definition of `os.path.exists` and `os.path.getmtime` on a slot's file (`None` when it does not exist); properties in `ProfileStore.SaveLoadRoundTrip` and `ModeDetector.ModeAfterSave`. |
| ModeDetector.OrZero | sandbox.py:62-65 | Definition of `getmtime(f) if exists(f) else 0`; properties in `ModeDetector.DetectMode`. |
| ModeDetector.ModeOf | sandbox.py:60-69 | Definition of `detect_current_mode()` on the files present; properties in `ModeDetector.DetectMode`, `ModeAfterSave` and `SaveToDetectedSlotKeepsMode`. |
| ModeDetector.WorkIffStrictlyNewer | sandbox.py:62-69 | For times not before the epoch, the result is `work` exactly when the work file exists and is strictly newer than the personal one. A missing personal file counts as time 0. |
| ModeDetector.PersonalByDefault | sandbox.py:67-69 | A tie, two missing files or a newer personal file all give `personal`. |
| ModeDetector.ModeAfterSave | sandbox.py:60-69 | After a save, the detector names the saved slot exactly when the new time beats the other file's. The comparison is strict for work and non-strict for personal. |
| ModeDetector.SaveToDetectedSlotKeepsMode | sandbox.py:99-103 | With a monotonic clock, saving to the detected slot keeps the detected mode. |
| Confirmation.Lower | sandbox.py:83 | Definition of `str.lower()` on ASCII letters; properties in `Confirmation.LowerAppend`, `LowerOfSpace` and `LowerIdempotent`. |
| Confirmation.Normalize | sandbox.py:82-83 | Definition of `.lower().strip()` on a typed line; properties in `Confirmation.SpellsNormalized` and `ClassifyIgnoresCaseAndPadding`. |
| Confirmation.Classify | sandbox.py:82-87 | Definition of the two `in` tests on the lower-cased, stripped line; properties in `Confirmation.ClassifyExactly` and `ClassifyIgnoresCaseAndPadding`. |
| Confirmation.Decision | sandbox.py:81-88 | Definition of the loop's outcome on the whole input; properties in `Confirmation.DecisionSpec`. |
| Confirmation.GetConfirmation | sandbox.py:81-88 | The loop returns the decision of the whole input: the first decisive line, or the end of input. |
| Confirmation.DecisionFromSpec | go_work.py:68-75 | Reading on from undecided lines: input runs out exactly when no line is decisive. Otherwise the decision is the first yes or no. |
| Confirmation.DecisionSpec | sandbox.py:81-88 | The loop proceeds on the first line read as yes and cancels on the first read as no. Every earlier line re-prompts. It ends undecided exactly when no line is decisive. |
| Confirmation.ClassifyExactly | sandbox.py:82-87 | A line accepts exactly when, lower-cased, it is `yes` or `y` with only whitespace around it. It declines exactly when it is `no` or `n` padded the same way. |
| Confirmation.SpellsNormalized | sandbox.py:82-83 | Lower-casing and stripping a line gives a stripped word exactly when the lower-cased line is that word with whitespace around it. |
| Confirmation.ClassifyIgnoresCaseAndPadding | sandbox.py:82-83 | Surrounding whitespace and letter case do not change how a line is read. |
| Confirmation.LowerAppend | sandbox.py:83 | Lower-casing works character by character over a concatenation. |
| Confirmation.LowerOfSpace | sandbox.py:83 | Lower-casing leaves whitespace alone. |
| Confirmation.LowerIdempotent | sandbox.py:83 | Lower-casing twice is lower-casing once. |
| Confirmation.PaddedUpperCaseYesAccepted | sandbox.py:82-85 | `" Yes\n"` accepts. |
| Confirmation.UpperCaseNDeclines | sandbox.py:82-87 | `"N"` declines. |
| Confirmation.NearMissReprompts | sandbox.py:82-88 | `"yeah"` neither accepts nor declines. |
| Trace.OpenTabs | go_work.py:103-104 | One tab opening per URL, at the URL's position. |
| Trace.Launches | go_work.py:107-108 | One launch attempt per app, at the app's position. |
| Trace.Failures | go_work.py:107-111 | The failed apps are drawn from the saved list, at most one per attempt. With no failing attempt there are none. |
| Trace.FailuresReportsEvery | go_work.py:107-111 | Every attempt that raises is reported as "Could not open". When every attempt raises, every app is reported, in order. |
| Trace.ProjectionsAppend | go_work.py:86-111 | What was saved, opened, launched and closed distributes over concatenation. |
| Trace.SavedSlotsAppend | go_work.py:86 | The saved slots of a concatenation are those of each part in turn. |
| Trace.OpenedAppend | go_work.py:103-104 | The URLs opened in a concatenation are those of each part in turn. |
| Trace.LaunchedAppend | go_work.py:107-108 | The apps launched in a concatenation are those of each part in turn. |
| Trace.ClosesAppend | go_work.py:89-95 | The closes of a concatenation add up. |
| Trace.OpenTabsProjections | go_work.py:103-104 | The tab loop opens exactly its URLs, in order, and saves, closes and launches nothing. |
| Trace.LaunchesProjections | go_work.py:107-108 | The launch loop attempts exactly its apps, in order, and saves, closes and opens nothing. |
| Trace.RestorePhased | go_work.py:86-111 | Save, close, tabs, launches: every effect of an earlier phase precedes every effect of a later one. |
| Trace.RestoreProjections | go_work.py:86-111 | A restore saves one slot, closes once, and opens and launches exactly the given lists, in order. |
| Host.Workstation.SaveCurrentState | sandbox.py:48-57 | The file is written exactly when the snapshot can be built. The slot then holds it and one `Save` is recorded. Otherwise nothing changes. |
| Host.Workstation.Issue | sandbox.py:107-121 | A command is recorded at the end of the trace and touches no file. |
| Sandbox.SandboxRun | sandbox.py:91-127 | Definition of one run of `start_sandbox`; properties in `Sandbox.SandboxDeclineChangesNothing`, `SandboxSavesDetectedSlot`, `SandboxStartsIff` and `SandboxKeepsMode`. |
| Sandbox.StartSandbox | sandbox.py:91-127 | The prompt names the mode detected before any input. The outcome, the files and the effects are those of `SandboxRun` for the decision of the typed lines. |
| Sandbox.SandboxDeclineChangesNothing | sandbox.py:94-96 | The run is cancelled exactly on a decisive no. Every run that does not start the sandbox writes nothing and issues nothing. |
| Sandbox.SandboxSavesDetectedSlot | sandbox.py:74 | On start, the effects are exactly save to the detected slot, close, new window. One slot is written, the one the prompt named, and it reads back as the snapshot. The other slot is untouched. No tab is opened and no app launched. |
| Sandbox.SandboxStartsIff | sandbox.py:93-104 | The sandbox starts exactly on a decisive yes with an app query that does not raise. |
| Sandbox.SandboxKeepsMode | sandbox.py:99-103 | With a monotonic clock the detected mode is the same after a run as before it. |
| GoWork.WorkSwitch | go_work.py:78-117 | Definition of one run of `load_work_state`; properties in `GoWork.WorkDeclineChangesNothing`, `WorkSavesToPersonal`, `WorkSwitchPhased`, `WorkRestoresSavedSession` and the lemmas below. |
| GoWork.Confirmed | go_work.py:85-115 | Definition of the run after a yes; properties in `GoWork.ConfirmedShape`. |
| GoWork.Resume | go_work.py:89-115 | Definition of the run after the personal save; properties in `GoWork.ConfirmedShape`. |
| GoWork.LoadWorkState | go_work.py:78-117 | The outcome, the files, the effects and the failed apps are those of `WorkSwitch` for the decision of the typed lines. |
| GoWork.SwitchConfirmed | go_work.py:85-115 | After a yes: an app query that raises aborts with nothing done. Otherwise the personal save is followed by the rest of the run. |
| GoWork.RestoreWork | go_work.py:89-115 | After the save: close everything, then on the work file's reading either stop (missing), abort (unreadable) or restore. |
| GoWork.OpenAll | go_work.py:103-104 | The tab loop appends one `OpenTab` per saved URL, in order, and touches no file. |
| GoWork.LaunchAll | go_work.py:107-111 | The launch loop appends one `Launch` per saved app, in order, touches no file, and returns `Failures` of the attempts, so every failing attempt is reported (`Trace.FailuresReportsEvery`). |
| GoWork.WorkDeclineChangesNothing | go_work.py:81-83 | The run is cancelled exactly on a decisive no. Nothing is issued exactly when the run stops before the save, and then nothing is written or reported. |
| GoWork.ConfirmedShape | go_work.py:86-111 | After a successful save the effects are save, close, then the work file's tabs and apps. The outcome is set by the work file. |
| GoWork.WorkSavesToPersonal | go_work.py:86 | On acceptance exactly the personal slot is saved, whatever the modification times, and it reads back as the snapshot. The work slot is not written. |
| GoWork.WorkSwitchPhased | go_work.py:86-111 | The save comes first, then exactly one close, then all tabs, then all launches. |
| GoWork.WorkRestoresSavedSession | go_work.py:98-111 | With a readable work file: exactly its tabs in order, then exactly its apps in order, and the failed apps are `Failures` of the saved apps, which holds every failing attempt (`Trace.FailuresReportsEvery`). Absent lists count as empty. |
| GoWork.LaunchFailuresDoNotStopRestore | go_work.py:107-111 | Which launches fail changes neither the effects nor the outcome. |
| GoWork.WorkFreshWithoutWorkFile | go_work.py:97-115 | Without a work file the run ends after the close: no tab and no launch. |
| GoWork.WorkAbortsOnUnreadableWorkFile | go_work.py:99-100 | An unreadable work file aborts after the save and the close, which stay done. |
| GoWork.WorkSwitchLeavesDetectorOnPersonal | go_work.py:86 | With a monotonic clock the detector says `personal` after a switch to work. |

## Left out

- The AppleScript text, `osascript`, `subprocess.run`, `open -a` and `webbrowser`. They are opaque OS and browser calls. A query is represented only by what it answered, and a command only by its entry in the trace.
- JSON encoding and decoding. A state file is represented by what it decodes to (`Content`). A value other than a list of strings under `chrome_tabs` or `running_apps` is not modelled. Such values behave differently: `null` or a number makes the loop raise; a string is iterated one character at a time, so one tab or launch is issued per character; an object is iterated by its keys; and a non-string entry in `running_apps` raises inside the launch `try`, so it is reported as "Could not open".
- `datetime.now().isoformat()` and real file times. The timestamp is an input string. Modification times are integers, not floats, and the time a write gives the file is an input.
- Failures of the closing command, the new-window command, `open_new_tab` and the file write. These calls are taken to succeed. Among the exceptions only these are modelled: end of input at the prompt, an app query that raises, a tab query that raises (caught in `get_chrome_tabs`), an unreadable work file, and a failing launch (caught).
- `print` output and the prompt text. These are output only. The mode the sandbox prompt names is returned (`announced`).
- Lower-casing (`str.lower()`) is modelled on ASCII letters only. Other characters' case mappings are left out.
- Concurrent runs against the same files. The scripts do no locking.
- `get_running_apps` is taken as the code has it: its failures are not swallowed, and its return code is not checked.
- A launch counts as failed only when `subprocess.run(['open', '-a', app])` raises (`launchFails`), as the code has it. The call has no `check=True`, so an app that is not installed makes `open` exit non-zero without raising, and it is never reported as "Could not open".

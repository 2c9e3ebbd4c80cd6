# ACES — a Dafny model of its scheduling core

ACES (Amendable Controller for Execution of Scripts) is a small desktop tool
that schedules scripts — Python files or typed command lines — to run once
at a date, repeatedly at an interval, or on a cron-like schedule. This
project models the part of it that carries behaviour beyond widgets:

- **Scripts** (`scripts.dfy`): the two script classes, `CmdScript` and
  `ActionScript`. They show a display name, `Cmd{…}` or `File{basename}`. An
  `ActionScript` reads its file once, when it is constructed, and raises
  `ScriptError("Script file not found!")` when the file cannot be read.
- **Scheduler** (`scheduling.dfy`): the slice of the background scheduler
  that the program relies on.
  - `add_job` hands back a handle to a new live job.
  - Removing a handle ends that job. The library also ends a date job by
    itself once its run date has passed.
  - Removing a handle that is not live raises `JobLookupError`.
  - Whether the library accepts the trigger arguments is decided inside the
    library, so it enters as a boolean.
- **Registry** (`registry.dfy`): the `Handler` class.
  - It keeps the scripts in a list, in the order they were added.
  - It registers a script under a date, interval or cron trigger.
  - It removes a script by object: the job is cancelled first, then
    `list.remove` runs.
  - It removes a script by id, with a linear search and a `found` flag.
- **Cache** (`cache.dfy`): the dictionary of last-used form values.
  - It holds 18 keys.
  - It is loaded from the cache file, or set to built-in defaults when there
    is no file.
  - It is copied to and from the form field by field.
- **GUI** (`gui.dfy`): the form fields, the cache update and load, and the
  job list shown in the "View Jobs" list box (`ID {i}: {name} [{exec_type}]`,
  one line per registered script). It also models what the three schedule
  buttons and the "Remove" button do.
- **Text** (`text.dfy`): decimal rendering of integers as `str()` and
  f-strings write them, plus the reading of digits back.

The model keeps four behaviours of the program as written:

- **Scripts never get an `id`.** No code ever assigns `script.id`. Every
  script the program builds therefore lacks the attribute that
  `remove_scipt_by_id` (the method's name as spelled) reads. On a non-empty
  list, that method raises `AttributeError` at the first script
  (`Registry.ScriptsWithoutIds`). Registering a script never touches its
  `id`, and the schedule buttons build scripts without one.
  - The model gives scripts an optional `id` so that the by-id path can be
    stated at all.
  - `None` means the attribute is absent.
- **By-id removal leaves the job running.** `remove_scipt_by_id` never
  cancels the removed script's job, so the scheduler keeps running it.
- **A finished dated job cannot be removed.** Once its run date has passed,
  fired or missed, the library drops a date job by itself
  (`Scheduling.BackgroundScheduler.Expire`). `remove_script` then raises
  `JobLookupError` before `list.remove` runs, so `remove_job` can never take
  that script off the list.
- **A rejected trigger still leaves the script registered.** Each
  `add_*_script` appends the script before calling `add_job`. If the
  scheduler rejects the trigger, the script stays in the list with no job
  handle.

The fields of the form are named by an enumeration, `Cache.Field`, and
`Cache.Key` maps each one to the dictionary key the program uses. The 18
unrolled assignments of `update_cache` and `load_cache` become loops over
`Cache.Fields`, which lists the fields in the program's order.

## Model

| member | source | states |
|---|---|---|
| Text.DecimalText | aces.py:423 | `str(i)` of a list index is a non-empty run of decimal digits with no leading zero except for 0 itself |
| Text.DecimalRoundTrip | aces.py:423 | reading the digits of `str(i)` back gives `i` |
| Text.LeadingZeros | aces.py:442 | zeros in front of a digit string leave its value unchanged |
| Text.DecimalTextLength | aces.py:442 | a number below 10^k (k at least 1) takes at most k digits |
| Text.ZeroPadded | aces.py:442 | each field of `str(datetime)` is the field's value in decimal, zero-padded to its width: exactly `max(width, digits of n)` characters, so exactly the width when the value fits, denoting `n` |
| Scripts.Basename | aces.py:95 | `basename` is the separator-free suffix of the path after its last `/` or `\`, or the whole path if it has none |
| Scripts.CommandName | aces.py:63-66 | `get_name` is always `"Cmd{" + content + "}"`; the empty-content branch gives the same string `"Cmd{}"` |
| Scripts.CommandNameContent | aces.py:63-66 | the command text can be read back from between the braces, so different commands get different names |
| Scripts.FileNameShowsBasename | aces.py:94-95 | an `ActionScript`'s name is `File{` + a separator-free tail of the path starting after its last separator + `}` |
| Scripts.LoadContent | aces.py:74-79 | reading succeeds exactly when a path is given and readable, and yields that file's text; otherwise it raises `ScriptError("Script file not found!")` |
| Scripts.Script.Command | aces.py:55-58 | a `CmdScript` holds the given content, handle and exec type, and has no `id` |
| Scripts.Script.Loaded | aces.py:69-72 | an `ActionScript` remembers its path, content, handle and exec type, and has no `id` |
| Scripts.NewActionScript | aces.py:69-79 | construction yields a fresh `ActionScript` holding the file's text exactly when the file is readable, and raises `ScriptError` otherwise |
| Scheduling.BackgroundScheduler.constructor | aces.py:104 | a new scheduler has no jobs |
| Scheduling.BackgroundScheduler.AddJob | aces.py:113 | an accepted `add_job` returns a handle at or above every handle issued before, adds exactly that job and advances the issue counter by one; a rejected one raises and changes neither the jobs nor the counter, so no handle is ever handed out twice |
| Scheduling.BackgroundScheduler.Expire | aces.py:110-115 | the library ending a finished job (a date job past its run date, fired or missed) kills exactly that handle and issues none |
| Scheduling.BackgroundScheduler.RemoveJob | aces.py:148 | removing a live handle deletes exactly that job; a dead handle raises `JobLookupError` and changes nothing |
| Registry.RemoveFirst | aces.py:149 | `list.remove` makes the list one element shorter |
| Registry.RemoveFirstCount | aces.py:149 | `list.remove` takes away one occurrence of the element and leaves every other element's count unchanged |
| Registry.RemoveFirstAt | aces.py:140 | `list.remove` deletes exactly the first occurrence and keeps the others in order |
| Registry.ScanFrom | aces.py:137-145 | the by-id search stops at the first script whose id matches, or at the first without an id, or at the end; every script it passes has an id different from the one sought |
| Registry.ScanWithoutIds | aces.py:136-145 | over ids none of which is present, the search stops at the first position, or finds nothing in an empty list |
| Registry.ScriptsWithoutIds | aces.py:136-145 | over scripts that have no `id`, which is every script the program builds, `remove_scipt_by_id` stops at the first one (`AttributeError`), or finds nothing in an empty list (`ScriptError`) |
| Registry.Handler.constructor | aces.py:100-104 | a new handler has no scripts and a fresh scheduler with no jobs |
| Registry.Handler.Register | aces.py:110-115 | the script is appended as the last element, with earlier entries unchanged. If the trigger is accepted, the returned handle is a new live job for this script, never issued before, and is stored in `exec_job_handle`. If it is rejected, the call raises, the script stays appended and the scheduler is unchanged. The script's `id` is untouched |
| Registry.Handler.AddDatedScript | aces.py:110-115 | as `Register`, with a date trigger at the given run date |
| Registry.Handler.AddIntervalScript | aces.py:118-124 | as `Register`, with an interval trigger of the given days, hours, minutes and seconds |
| Registry.Handler.AddCronScript | aces.py:128-134 | as `Register`, with a cron trigger of the six given fields |
| Registry.Handler.RemoveScriptById | aces.py:136-145 | removes only the first script whose id matches. With no match it raises `ScriptError("Given script ID not stored by handler object")` and leaves the list as it was. A script without an id, met first, raises `AttributeError`. The live jobs never change |
| Registry.Handler.RemoveScript | aces.py:147-149 | a script with a live handle has its job cancelled and its first occurrence removed. If the script is not in the list, the job is still cancelled before `ValueError`. A missing handle raises `AttributeError` and a dead one `JobLookupError`, both before anything changes. No handle is issued |
| Cache.FieldsListsAll | aces.py:549-570 | `update_cache` and `load_cache` visit every one of the 18 fields, each exactly once |
| Cache.KeysDistinct | aces.py:41-47 | different fields have different dictionary keys |
| Cache.DefaultSnapshot | aces.py:41-47 | the default snapshot holds every field's key with its listed value (`Cache.Default`: 2024-3-5 16:00:00, zero intervals except `interval_seconds = 1`, `*` cron fields except `cron_second = "*/1"`, no selected file, empty command), and no other key |
| Cache.StoreFields | aces.py:549-570 | after the writes, every written field's key holds the form's value, keys not written keep their values, and only the written keys are added |
| Cache.CopyFields | aces.py:572-595 | after the reads, every read field holds the dictionary's value under its key and the others keep theirs |
| Cache.LoadFieldsComplete | aces.py:572-595 | when every key is present, `load_cache` raises nothing and copies every field |
| Cache.LoadFieldsPartial | aces.py:572-595 | when the i-th key is the first missing one, `load_cache` raises `KeyError` for it after copying exactly the fields before it |
| Cache.StoreThenLoad | aces.py:549-595 | writing every field and reading every field back restores the form, whatever it held in between |
| Cache.CacheRoundTrip | aces.py:549-595 | `update_cache` then `load_cache` restores all 18 form fields and raises nothing |
| Cache.DefaultSnapshotLoads | aces.py:36-47 | with no cache file, loading raises nothing and every field takes its default |
| Cache.CacheFile.constructor | aces.py:28-33 | a cache file remembers its path and is loaded at once |
| Cache.CacheFile.Load | aces.py:35-47 | the cache is the stored dictionary, or the default snapshot when there is no file |
| Gui.BlankFormComplete | aces.py:233-379 | the form variables, created blank, cover all 18 fields |
| Gui.DateTimeText | aces.py:442-444 | for any datetime `datetime()` accepts, `str(datetime)` is `YYYY-MM-DD HH:MM:SS`: 19 characters with `-`, `-`, space, `:`, `:` at positions 4, 7, 10, 13, 16, and the six fields, zero-padded, denoting their values at the positions between |
| Gui.DateText | aces.py:442-444 | the date part is `YYYY-MM-DD`: ten characters, each field zero-padded and denoting its value |
| Gui.ClockText | aces.py:442-444 | the time part is `HH:MM:SS`: eight characters, each field zero-padded and denoting its value |
| Gui.ExecTypeKinds | aces.py:442-478 | the exec type a schedule button gives its script is `"dated:"` followed by `str(datetime)` of the run date, `"interval"` or `"cron"`, and each of these belongs to exactly one kind of trigger |
| Gui.JobLabelIndex | aces.py:423 | every job-list line announces its own position `i`, whatever the script's name contains |
| Gui.Gui.constructor | aces.py:160-185 | a new GUI has an empty registry, an empty job list and remembered array, a cache file at `aces_memory.cache` holding the stored dictionary (or the default snapshot when there is no file), and a form loaded from that cache: the defaults when there is no file |
| Gui.Gui.UpdateCache | aces.py:549-570 | every form field is written under its key; other keys keep their values |
| Gui.Gui.WriteFields | aces.py:549-570 | writing a list of fields one after another gives the dictionary `StoreFields` describes |
| Gui.Gui.LoadCache | aces.py:572-595 | the form becomes what `LoadFields` describes, and a missing key raises `KeyError` naming that key |
| Gui.Gui.PopulateJobList | aces.py:415-424 | the list box holds exactly one line per registered script, in registry order, the i-th being `"ID " + i + ": " + name + " [" + exec_type + "]"`, and the remembered array is the registry |
| Gui.Gui.RemoveJob | aces.py:518-527 | with no line selected nothing changes. Otherwise the script behind the selected line is removed as `remove_script` does (`Registry.Handler.Removed`). The job list is rebuilt only when that raised nothing; an exception leaves the list and the remembered array as they were. No handle is issued on any path |
| Gui.Gui.BuildScript | aces.py:440-444 | on the file tab, an `ActionScript` of the selected file (or `ScriptError` if it is unreadable or none is selected); otherwise a `CmdScript` of the typed command; both tagged with the trigger's exec type, with no job handle and no `id` |
| Gui.Gui.AddToHandler | aces.py:446 | the schedule button's `add_*_script` call for its trigger has the effect `Register` states |
| Gui.Gui.RegisterAndRefresh | aces.py:446-448 | an accepted trigger adds the job under a handle never issued before (at or above the old issue counter, which advances by one), then updates the cache from the form and rebuilds the job list and the remembered array from the registry. A rejected one raises after the append, and the scheduler (jobs and issue counter), the cache, the list and the array are left as they were. The script's `id` is untouched |
| Gui.Gui.ScheduleScript | aces.py:431-483 | an unreadable file raises `ScriptError` before anything is registered, and the scheduler, including its issue counter, is unchanged. Otherwise exactly one fresh script, with no `id`, is appended with the right kind, content and exec type, and the job, cache, list and array effects are those of `RegisterAndRefresh` |

## Left out

- The scheduler's inside: when date, interval and cron jobs fire, its threads, `start` (`mainloop`) and `shutdown(wait=True)` (`close`). Only the adding and removing of job handles is modelled.
- Whether the scheduler accepts trigger arguments is an input (`schedulerAccepts`), not computed. The library's validation of interval and cron fields cannot be seen.
- Running a script: `subprocess.call` and `exec` of the file's text. These are foreign process and interpreter calls.
- Reading files. The readable files enter as a map from path to text. The cache file's unpickled dictionary enters as an optional map, where None means no file. `CacheFile.save` (pickling to disk) is not modelled.
- `datetime(...)` construction and its validation, and the conversions done by the `IntVar`/`StringVar` `.get()` calls. The schedule buttons take the trigger already built. Which script tab is showing enters as a boolean.
- Console `print` output, the window update after a refresh, dialogs, menus, child windows, the sound beep and hiding the window.
- The GUI handlers `open_file_dialog`, `update_filepath_label`, `load_job`, `show_cache_details` and `cache_filepath_update`. They read widget state (dialog results, list-box selection) that is outside the model. `remove_job` is modelled as `Gui.Gui.RemoveJob`, with the list-box selection as a parameter and the error dialog left out.
- Scheduling.BackgroundScheduler: when the library ends a job by itself is not computed, since time is not modelled. `Expire` can be applied to any handle at any point; the program only sees its effect, a dead handle.
- The process-wide `instances` lists. They are bookkeeping with no effect on behaviour.
- Gui.Gui.constructor: a `KeyError` raised by the initial `load_cache` would abort construction. The model instead states the form as far as it was loaded.
- Scripts.Basename: Windows drive prefixes without a separator (`C:name`) are not split off.
- Gui.Gui.BuildScript: a selected path that is not a string (an integer would open a file descriptor) is treated as no file selected.
- Gui.Gui.ScheduleScript: it states that the new script has no `id`, but does not restate that scripts registered earlier still have none. Those scripts are outside its frame, and the program never assigns an `id` anywhere.

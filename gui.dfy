/** The parts of the GUI that carry behaviour: the form fields copied to and
    from the cache, the job list shown in the "View Jobs" list box, and the
    schedule buttons that build a script and register it. Widgets, layout,
    dialogs and sounds are outside the model. */
module Gui {
  import opened Common
  import opened Text
  import opened Scripts
  import opened Scheduling
  import opened Registry
  import opened Cache

  const CacheFilepath := "aces_memory.cache"

  /** The form as the GUI creates it: integer variables at 0, string variables
      empty, no file selected. */
  function BlankForm(): map<Field, Value> {
    map[
      DatedYear := IntV(0), DatedMonth := IntV(0), DatedDate := IntV(0),
      DatedHour := IntV(0), DatedMinute := IntV(0), DatedSecond := IntV(0),
      IntervalDays := IntV(0), IntervalHours := IntV(0),
      IntervalMinutes := IntV(0), IntervalSeconds := IntV(0),
      CronYear := StrV(""), CronMonth := StrV(""), CronDay := StrV(""),
      CronHour := StrV(""), CronMinute := StrV(""), CronSecond := StrV(""),
      SelectedFilepath := NoneV, CmdVar := StrV("")]
  }

  /** The blank form holds every field. */
  lemma BlankFormComplete()
    ensures Complete(BlankForm())
  {
    forall f: Field ensures f in BlankForm() {
      match f
      case DatedYear => case DatedMonth => case DatedDate =>
      case DatedHour => case DatedMinute => case DatedSecond =>
      case IntervalDays => case IntervalHours => case IntervalMinutes => case IntervalSeconds =>
      case CronYear => case CronMonth => case CronDay =>
      case CronHour => case CronMinute => case CronSecond =>
      case SelectedFilepath => case CmdVar =>
    }
  }

  /** The text a string variable gives back for a value set into it. */
  function ValueText(v: Value): string {
    match v
    case StrV(s) => s
    case IntV(n) => IntText(n)
    case NoneV => "None"
  }

  /** The selected file path; anything but a string opens nothing. */
  function PathOf(v: Value): Option<string> {
    match v
    case StrV(p) => Some(p)
    case _ => None
  }

  /** str() of a datetime without microseconds, YYYY-MM-DD HH:MM:SS: for any
      datetime that datetime() accepts, 19 characters with the separators at
      fixed positions and each field zero-padded to its width between them. */
  function DateTimeText(d: DateTime): (r: string)
    ensures InDatetimeRange(d) ==>
      && |r| == 19
      && r[4] == '-' && r[7] == '-' && r[10] == ' ' && r[13] == ':' && r[16] == ':'
      && Denotes(r[..4], d.year) && Denotes(r[5..7], d.month) && Denotes(r[8..10], d.day)
      && Denotes(r[11..13], d.hour) && Denotes(r[14..16], d.minute) && Denotes(r[17..], d.second)
  {
    var r := Joined(DateText(d), ' ', ClockText(d));
    if InDatetimeRange(d) then
      DateHalf(d, r);
      ClockHalf(d, r);
      r
    else
      r
  }

  /** Where the date fields sit in str(datetime). */
  lemma DateHalf(d: DateTime, r: string)
    requires InDatetimeRange(d) && r == Joined(DateText(d), ' ', ClockText(d))
    ensures |r| == 19 && r[4] == '-' && r[7] == '-' && r[10] == ' '
    ensures Denotes(r[..4], d.year) && Denotes(r[5..7], d.month) && Denotes(r[8..10], d.day)
  {
    var date := DateText(d);
    PrefixSlice(r, date, 0, 4);
    PrefixSlice(r, date, 5, 7);
    PrefixSlice(r, date, 8, 10);
  }

  /** Where the time fields sit in str(datetime). */
  lemma ClockHalf(d: DateTime, r: string)
    requires InDatetimeRange(d) && r == Joined(DateText(d), ' ', ClockText(d))
    ensures |r| == 19 && r[13] == ':' && r[16] == ':'
    ensures Denotes(r[11..13], d.hour) && Denotes(r[14..16], d.minute) && Denotes(r[17..], d.second)
  {
    var time := ClockText(d);
    assert |DateText(d)| == 10 && |time| == 8;
    assert r[11..] == time;
    SuffixDenotes(r, 11, time, 0, 2, d.hour);
    SuffixDenotes(r, 11, time, 3, 5, d.minute);
    SuffixDenotes(r, 11, time, 6, 8, d.second);
  }

  /** A field that sits in the suffix from position k sits in the text k
      further on, with the same value. */
  lemma SuffixDenotes(r: string, k: nat, part: string, i: nat, j: nat, n: nat)
    requires k <= |r| && r[k..] == part
    requires i <= j <= |part|
    requires Denotes(part[i..j], n) || (i == 0 && Denotes(part[..j], n)) || (j == |part| && Denotes(part[i..], n))
    ensures Denotes(r[k + i..k + j], n)
    ensures j == |part| ==> Denotes(r[k + i..], n)
  {
    SuffixSlice(r, k, part, i, j);
    assert part[..j] == part[i..j] || i != 0;
    assert part[i..] == part[i..j] || j != |part|;
    assert r[k + i..] == r[k + i..k + j] || j != |part|;
  }

  /** The date half of str(datetime): YYYY-MM-DD. */
  function DateText(d: DateTime): (r: string)
    ensures InDatetimeRange(d) ==>
      && |r| == 10 && r[4] == '-' && r[7] == '-'
      && Denotes(r[..4], d.year) && Denotes(r[5..7], d.month) && Denotes(r[8..], d.day)
  {
    assert Pow10(2) == 100 && Pow10(4) == 10000;
    Joined3(ZeroPadded(d.year, 4), '-', ZeroPadded(d.month, 2), ZeroPadded(d.day, 2))
  }

  /** The time half of str(datetime): HH:MM:SS. */
  function ClockText(d: DateTime): (r: string)
    ensures InDatetimeRange(d) ==>
      && |r| == 8 && r[2] == ':' && r[5] == ':'
      && Denotes(r[..2], d.hour) && Denotes(r[3..5], d.minute) && Denotes(r[6..], d.second)
  {
    assert Pow10(2) == 100;
    Joined3(ZeroPadded(d.hour, 2), ':', ZeroPadded(d.minute, 2), ZeroPadded(d.second, 2))
  }

  /** A slice of a text's prefix is that slice of the text. */
  lemma PrefixSlice(r: string, part: string, i: nat, j: nat)
    requires |part| <= |r| && r[..|part|] == part
    requires i <= j <= |part|
    ensures r[i..j] == part[i..j]
  {
    forall n | 0 <= n < j - i
      ensures r[i..j][n] == part[i..j][n]
    {
      assert r[i + n] == r[..|part|][i + n];
    }
  }

  /** A slice of the suffix from position k is the text's slice shifted by
      k. */
  lemma SuffixSlice(r: string, k: nat, part: string, i: nat, j: nat)
    requires k <= |r| && r[k..] == part
    requires i <= j <= |part|
    ensures r[k + i..k + j] == part[i..j]
  {
    forall n | 0 <= n < j - i
      ensures r[k + i..k + j][n] == part[i..j][n]
    {
      assert r[k + i + n] == r[k..][i + n];
    }
  }

  /** Two texts with a separator between them, and where each part sits. */
  function Joined(a: string, sep: char, b: string): (r: string)
    ensures |r| == |a| + 1 + |b|
    ensures r[..|a|] == a && r[|a|] == sep && r[|a| + 1..] == b
  {
    a + [sep] + b
  }

  /** Three texts with the same separator between them, and where each part
      sits. */
  function Joined3(a: string, sep: char, b: string, c: string): (r: string)
    ensures |r| == |a| + |b| + |c| + 2
    ensures r[..|a|] == a && r[|a|] == sep && r[|a| + 1..|a| + 1 + |b|] == b
    ensures r[|a| + 1 + |b|] == sep && r[|a| + |b| + 2..] == c
  {
    var ab := Joined(a, sep, b);
    var r := Joined(ab, sep, c);
    assert r[..|a|] == ab[..|a|] && r[|a| + 1..|a| + 1 + |b|] == ab[|a| + 1..];
    r
  }

  /** The exec_type the schedule buttons give a script for its trigger. */
  function ExecTypeOf(trigger: Trigger): string {
    match trigger
    case Date(d) => "dated:" + DateTimeText(d)
    case Interval(_, _, _, _) => "interval"
    case Cron(_, _, _, _, _, _) => "cron"
  }

  /** The exec_type is "dated:" and the run date, "interval" or "cron", so
      each kind of trigger gets a text no other kind gets. */
  lemma ExecTypeKinds(trigger: Trigger)
    ensures var r := ExecTypeOf(trigger);
      && (trigger.Date? <==> |r| >= 6 && r[..6] == "dated:")
      && (trigger.Date? ==> r[6..] == DateTimeText(trigger.runDate))
      && (trigger.Interval? <==> r == "interval")
      && (trigger.Cron? <==> r == "cron")
  {
    if trigger.Interval? {
      assert "interval"[0] != "dated:"[0];
    }
  }

  /** f"{exec_type}": a script built without one shows None. */
  function ExecTypeText(execType: Option<string>): string {
    match execType
    case None => "None"
    case Some(t) => t
  }

  /** The list-box line for the script at position i of the registry. */
  function JobLabel(i: nat, script: Script): string {
    "ID " + DecimalText(i) + LabelTail(script)
  }

  /** What follows the index in a list-box line: ": {name} [{exec_type}]". */
  function LabelTail(script: Script): string {
    ": " + script.Name() + " [" + ExecTypeText(script.execType) + "]"
  }

  /** One line per registered script, in registry order. */
  function JobLabels(scripts: seq<Script>): seq<string> {
    seq(|scripts|, i requires 0 <= i < |scripts| => JobLabel(i, scripts[i]))
  }

  /** The position a list-box line announces: the number between "ID " and
      the first colon. */
  function LabelIndex(line: string): Option<nat> {
    if |line| < 3 || line[..3] != "ID " then None
    else
      var k := LeadingDigits(line[3..]);
      if k == 0 || 3 + k >= |line| || line[3 + k] != ':' then None
      else
        assert line[3..3 + k] == line[3..][..k];
        Some(DecimalValue(line[3..3 + k]))
  }

  /** A line made of "ID ", a run of digits and a text starting with a colon
      announces the number those digits denote. */
  lemma LabelIndexOf(digits: string, rest: string)
    requires |digits| >= 1 && AllDigits(digits)
    requires |rest| >= 1 && rest[0] == ':'
    ensures LabelIndex("ID " + digits + rest) == Some(DecimalValue(digits))
  {
    var line := "ID " + digits + rest;
    assert line[..3] == "ID ";
    assert line[3..] == digits + rest;
    LeadingDigitsOfRun(digits, rest);
    assert line[3..3 + |digits|] == digits;
  }

  /** Every line names its own position, whatever the script's name holds, so
      the line selected in the list box identifies the script at that index. */
  lemma JobLabelIndex(i: nat, script: Script)
    ensures LabelIndex(JobLabel(i, script)) == Some(i)
  {
    var digits := DecimalText(i);
    var rest := LabelTail(script);
    LabelIndexOf(digits, rest);
    DecimalRoundTrip(i);
  }

  /** Listbox.delete(first, last): removes the items first..last, both
      included, as far as they exist. */
  function ListboxDelete(items: seq<string>, first: nat, last: nat): seq<string>
    requires first <= |items|
  {
    items[..first] + items[if last + 1 <= |items| then last + 1 else |items|..]
  }

  /** Listbox.insert(index, item): the item goes before position index, or
      at the end when index is past it. */
  function ListboxInsert(items: seq<string>, index: nat, item: string): seq<string> {
    var at := if index <= |items| then index else |items|;
    items[..at] + [item] + items[at..]
  }

  /** A prefix one longer is the shorter prefix and the next line. */
  lemma PrefixStep(lines: seq<string>, i: nat)
    requires i < |lines|
    ensures lines[..i + 1] == lines[..i] + [lines[i]]
  {
  }

  /** Deleting 0..n from a list box of n lines empties it. */
  lemma DeleteAll(items: seq<string>)
    ensures ListboxDelete(items, 0, |items|) == []
  {
  }

  /** Inserting at the end of a list box appends. */
  lemma InsertAtEnd(items: seq<string>, item: string)
    ensures ListboxInsert(items, |items|, item) == items + [item]
  {
  }

  class Gui {
    const cacheFile: CacheFile
    const handler: Handler
    /** The 17 form variables and selected_filepath. */
    var form: map<Field, Value>
    /** The lines of the job list box. */
    var listbox: seq<string>
    /** The scripts as they were when the list box was filled. */
    var listerArray: seq<Script>
    var listerCount: nat

    /** The form holds the 18 fields and the list box as many lines as it
        was last filled with. (The handler's own invariant is kept apart.) */
    ghost predicate Valid()
      reads this
    {
      && Complete(form)
      && listerCount == |listerArray|
      && listbox == JobLabels(listerArray)
    }

    /** GUI(): opens the cache file, creates an empty handler and blank form
        variables, fills the (empty) job list and loads the cache into the
        form. `onDisk` is the cache file's dictionary, None when there is no
        file. */
    constructor (onDisk: Option<map<string, Value>>)
      ensures Valid() && handler.Valid()
      ensures fresh(cacheFile) && fresh(handler) && fresh(handler.scheduler)
      ensures cacheFile.filepath == CacheFilepath
      ensures handler.scripts == [] && handler.scheduler.jobs == map[]
      ensures listbox == [] && listerArray == [] && listerCount == 0
      ensures onDisk.None? ==> cacheFile.cache == DefaultSnapshot()
      ensures onDisk.Some? ==> cacheFile.cache == onDisk.value
      ensures onDisk.None? ==> forall f: Field :: form[f] == Default(f)
      ensures onDisk.Some? ==> form == LoadFields(BlankForm(), onDisk.value, Fields).form
    {
      cacheFile := new CacheFile(CacheFilepath, onDisk);
      handler := new Handler();
      form := BlankForm();
      BlankFormComplete();
      listbox := [];
      listerArray := [];
      listerCount := 0;
      new;
      PopulateJobList();
      var loaded := LoadCache();
      if onDisk.None? {
        DefaultSnapshotLoads(BlankForm());
      }
    }

    /** update_cache: every form field is written into the dictionary under
        its key; other keys keep their values. */
    method UpdateCache()
      requires Valid()
      modifies cacheFile`cache
      ensures cacheFile.cache == StoreFields(old(cacheFile.cache), form, Fields)
    {
      WriteFields(Fields);
    }

    /** Writes the given fields into the dictionary, one after another. */
    method WriteFields(fields: seq<Field>)
      requires Valid()
      modifies cacheFile`cache
      ensures cacheFile.cache == StoreFields(old(cacheFile.cache), form, fields)
    {
      var i := 0;
      while i < |fields|
        invariant 0 <= i <= |fields|
        invariant StoreFields(cacheFile.cache, form, fields[i..]) == StoreFields(old(cacheFile.cache), form, fields)
      {
        var field := fields[i];
        StoreFieldsStep(cacheFile.cache, form, fields, i);
        cacheFile.cache := cacheFile.cache[Key(field) := form[field]];
        i := i + 1;
      }
    }

    /** load_cache: every form field takes the dictionary's value, in key
        order; a key the dictionary lacks raises KeyError, leaving the fields
        before it loaded and the rest as they were. */
    method LoadCache() returns (r: Outcome)
      requires Valid()
      modifies this`form
      ensures Valid()
      ensures var loaded := LoadFields(old(form), cacheFile.cache, Fields);
        form == loaded.form && r == if loaded.missing.None? then Pass else Fail(KeyError(loaded.missing.value))
    {
      var i := 0;
      while i < |Fields|
        invariant 0 <= i <= |Fields|
        invariant Complete(form)
        invariant LoadFields(form, cacheFile.cache, Fields[i..]) == LoadFields(old(form), cacheFile.cache, Fields)
      {
        var field := Fields[i];
        LoadFieldsStep(form, cacheFile.cache, Fields, i);
        if Key(field) !in cacheFile.cache {
          return Fail(KeyError(Key(field)));
        }
        form := form[field := cacheFile.cache[Key(field)]];
        i := i + 1;
      }
      return Pass;
    }

    /** __populate_jobview_lister: empties the list box, then shows one line
        per registered script, in registry order, and remembers the scripts
        the lines refer to. */
    method PopulateJobList()
      requires Valid()
      modifies this`listbox, this`listerArray, this`listerCount
      ensures Valid()
      ensures listerArray == handler.scripts && listerCount == |handler.scripts|
      ensures listbox == JobLabels(handler.scripts)
      ensures form == old(form)
    {
      if listerCount > 0 {
        DeleteAll(listbox);
        listbox := ListboxDelete(listbox, 0, listerCount);
      }
      assert listbox == [];
      listerCount := |handler.scripts|;
      listerArray := handler.scripts;
      for i := 0 to listerCount
        invariant listerCount == |handler.scripts| && listerArray == handler.scripts
        invariant listbox == JobLabels(handler.scripts)[..i]
      {
        var line := JobLabel(i, handler.scripts[i]);
        InsertAtEnd(listbox, line);
        PrefixStep(JobLabels(handler.scripts), i);
        listbox := ListboxInsert(listbox, i, line);
      }
    }

    /** remove_job: the script behind the selected list-box line is removed
        from the handler, and the job list is refilled if that raised nothing.
        With no line selected, an error dialog is shown and nothing changes.
        `selection` is the list box's selected position, if any. */
    method RemoveJob(selection: Option<nat>) returns (r: Outcome)
      requires Valid() && handler.Valid()
      requires selection.Some? ==> selection.value < |listbox|
      modifies this`listbox, this`listerArray, this`listerCount, handler, handler.scheduler
      ensures Valid() && handler.Valid() && form == old(form)
      ensures selection.None? ==>
        && r == Pass && handler.scripts == old(handler.scripts)
        && handler.scheduler.jobs == old(handler.scheduler.jobs)
        && handler.scheduler.issued == old(handler.scheduler.issued)
        && listbox == old(listbox) && listerArray == old(listerArray) && listerCount == old(listerCount)
      ensures selection.Some? ==>
        && selection.value < |old(listerArray)|
        && handler.Removed(old(listerArray)[selection.value], r)
      ensures selection.Some? && r.Pass? ==>
        listbox == JobLabels(handler.scripts) && listerArray == handler.scripts && listerCount == |handler.scripts|
      ensures selection.Some? && r.Fail? ==>
        listbox == old(listbox) && listerArray == old(listerArray) && listerCount == old(listerCount)
    {
      if selection.None? {
        return Pass;
      }
      var selected := listerArray[selection.value];
      r := handler.RemoveScript(selected);
      if r.Fail? {
        return;
      }
      PopulateJobList();
    }

    /** The script a schedule button builds: an ActionScript from the selected
        file when the first script tab is showing, a CmdScript from the typed
        command otherwise, tagged with the trigger's exec_type. An unreadable
        or unselected file raises ScriptError. `files` maps each readable path
        to its text. */
    method BuildScript(fileTab: bool, trigger: Trigger, files: map<string, string>) returns (r: Result<Script>)
      requires Valid()
      ensures var path := PathOf(form[SelectedFilepath]);
        r.Err? <==> fileTab && (path.None? || path.value !in files)
      ensures r.Err? ==> r.error == ScriptError(FileNotFoundMessage)
      ensures r.Ok? ==> fresh(r.value) && r.value.execType == Some(ExecTypeOf(trigger))
      ensures r.Ok? ==> r.value.execJobHandle.None? && r.value.id.None?
      ensures r.Ok? && fileTab ==> var path := PathOf(form[SelectedFilepath]).value;
        r.value.kind == PythonFile(path) && r.value.content == files[path]
      ensures r.Ok? && !fileTab ==>
        r.value.kind == CommandLine && r.value.content == ValueText(form[CmdVar])
    {
      var execType := Some(ExecTypeOf(trigger));
      if fileTab {
        r := NewActionScript(PathOf(form[SelectedFilepath]), files, None, execType);
      } else {
        var script := new Script.Command(ValueText(form[CmdVar]), None, execType);
        r := Ok(script);
      }
    }

    /** The add_*_script call each schedule button makes for its trigger. */
    method AddToHandler(script: Script, trigger: Trigger, schedulerAccepts: bool) returns (r: Result<JobId>)
      requires handler.Valid()
      modifies handler, handler.scheduler, script
      ensures handler.Valid() && handler.Registered(script, trigger, schedulerAccepts, r)
    {
      match trigger {
        case Date(runDate) =>
          r := handler.AddDatedScript(script, runDate, schedulerAccepts);
        case Interval(days, hours, minutes, seconds) =>
          r := handler.AddIntervalScript(script, days, hours, minutes, seconds, schedulerAccepts);
        case Cron(year, month, day, hour, minute, second) =>
          r := handler.AddCronScript(script, year, month, day, hour, minute, second, schedulerAccepts);
      }
    }

    /** What registering a built script does to the scheduler, the cache and
        the job list: an accepted trigger adds a live job under a handle never
        issued before, then the cache is updated from the form and the job list
        and the remembered array are rebuilt from the registry; a rejected one
        raises, and the scheduler, the cache, the list and the array are left
        as they were. */
    twostate predicate Refreshed(new script: Script, trigger: Trigger, accepts: bool, r: Outcome)
      reads this, handler, handler.scheduler, cacheFile, script
    {
      && (accepts ==>
            && r == Pass && script.execJobHandle.Some?
            && script.execJobHandle.value !in old(handler.scheduler.jobs)
            && old(handler.scheduler.issued) <= script.execJobHandle.value
            && script.execJobHandle.value < handler.scheduler.issued == old(handler.scheduler.issued) + 1
            && handler.scheduler.jobs == old(handler.scheduler.jobs)[script.execJobHandle.value := Job(script, trigger)]
            && Complete(form) && cacheFile.cache == StoreFields(old(cacheFile.cache), form, Fields)
            && listbox == JobLabels(handler.scripts)
            && listerArray == handler.scripts && listerCount == |handler.scripts|)
      && (!accepts ==>
            && r == Fail(TriggerRejected)
            && handler.scheduler.jobs == old(handler.scheduler.jobs)
            && handler.scheduler.issued == old(handler.scheduler.issued)
            && listbox == old(listbox) && cacheFile.cache == old(cacheFile.cache)
            && listerArray == old(listerArray) && listerCount == old(listerCount))
    }

    /** What a schedule button does once its script is built: register it
        under the trigger, then refresh the cache and the job list. A rejected
        trigger raises after the script has been appended, and nothing is
        refreshed. */
    method RegisterAndRefresh(script: Script, trigger: Trigger, schedulerAccepts: bool) returns (r: Outcome)
      requires Valid() && handler.Valid()
      modifies this`listbox, this`listerArray, this`listerCount, handler, handler.scheduler, cacheFile`cache, script
      ensures Valid() && handler.Valid() && form == old(form)
      ensures handler.scripts == old(handler.scripts) + [script]
      ensures script.id == old(script.id)
      ensures !schedulerAccepts ==> script.execJobHandle == old(script.execJobHandle)
      ensures Refreshed(script, trigger, schedulerAccepts, r)
    {
      var added := AddToHandler(script, trigger, schedulerAccepts);
      if added.Err? {
        return Fail(added.error);
      }
      UpdateCache();
      PopulateJobList();
      return Pass;
    }

    /** schedule_dated_script, schedule_interval_script and
        schedule_cron_script once the trigger arguments are read: build the
        script, register it, then refresh the cache and the job list. A file
        that cannot be read raises before anything is registered. */
    method ScheduleScript(fileTab: bool, trigger: Trigger, files: map<string, string>, schedulerAccepts: bool)
      returns (r: Outcome)
      requires Valid() && handler.Valid()
      modifies this`listbox, this`listerArray, this`listerCount, handler, handler.scheduler, cacheFile`cache
      ensures Valid() && handler.Valid()
      ensures var path := PathOf(form[SelectedFilepath]);
        fileTab && (path.None? || path.value !in files) ==>
          && r == Fail(ScriptError(FileNotFoundMessage))
          && handler.scripts == old(handler.scripts)
          && handler.scheduler.jobs == old(handler.scheduler.jobs)
          && handler.scheduler.issued == old(handler.scheduler.issued)
          && listbox == old(listbox) && cacheFile.cache == old(cacheFile.cache)
          && listerArray == old(listerArray) && listerCount == old(listerCount)
      ensures var path := PathOf(form[SelectedFilepath]);
        !fileTab || (path.Some? && path.value in files) ==>
          && |handler.scripts| == |old(handler.scripts)| + 1
          && handler.scripts[..|old(handler.scripts)|] == old(handler.scripts)
          && var s := handler.scripts[|old(handler.scripts)|];
             && fresh(s) && s.execType == Some(ExecTypeOf(trigger)) && s.id.None?
             && (fileTab ==> s.kind == PythonFile(path.value) && s.content == files[path.value])
             && (!fileTab ==> s.kind == CommandLine && s.content == ValueText(form[CmdVar]))
             && (!schedulerAccepts ==> s.execJobHandle.None?)
             && Refreshed(s, trigger, schedulerAccepts, r)
    {
      var built := BuildScript(fileTab, trigger, files);
      if built.Err? {
        return Fail(built.error);
      }
      r := RegisterAndRefresh(built.value, trigger, schedulerAccepts);
      assert handler.scripts[|old(handler.scripts)|] == built.value;
      assert handler.scripts[..|old(handler.scripts)|] == old(handler.scripts);
    }
  }
}

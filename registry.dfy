/** The job registry: Handler keeps the scheduled script objects in a list, in
    the order they were added, next to the scheduler that runs them. */
module Registry {
  import opened Common
  import opened Scripts
  import opened Scheduling

  const UnknownIdMessage := "Given script ID not stored by handler object"

  /** Python's list.remove(x): drop the first element equal to x. */
  function RemoveFirst<T(==)>(s: seq<T>, x: T): (r: seq<T>)
    requires x in s
    ensures |r| == |s| - 1
  {
    if s[0] == x then s[1..] else [s[0]] + RemoveFirst(s[1..], x)
  }

  /** list.remove takes away one occurrence of the element and nothing else. */
  lemma {:induction false} RemoveFirstCount<T>(s: seq<T>, x: T)
    requires x in s
    ensures multiset(RemoveFirst(s, x)) == multiset(s) - multiset{x}
  {
    assert s == [s[0]] + s[1..];
    if s[0] != x {
      RemoveFirstCount(s[1..], x);
    }
  }

  /** list.remove deletes exactly the first occurrence and keeps the other
      elements in their order. */
  lemma {:induction false} RemoveFirstAt<T>(s: seq<T>, x: T, i: nat)
    requires i < |s| && s[i] == x && forall j :: 0 <= j < i ==> s[j] != x
    ensures RemoveFirst(s, x) == s[..i] + s[i + 1..]
  {
    if i > 0 {
      var t := s[1..];
      RemoveFirstAt(t, x, i - 1);
      assert s[..i] == [s[0]] + t[..i - 1];
      assert s[i + 1..] == t[i..];
    }
  }

  /** The `id` attribute of every script, in list order. */
  function IdsOf(scripts: seq<Script>): seq<Option<int>>
    reads scripts
  {
    seq(|scripts|, i requires 0 <= i < |scripts| reads scripts => scripts[i].id)
  }

  /** Where the search of remove_scipt_by_id stops: at the first script whose
      id matches, at the first script that has no id attribute (reading it
      raises AttributeError), or at the end of the list. */
  datatype IdScan = Match(index: nat) | MissingId(index: nat) | NoMatch {
    function Stop(length: nat): nat {
      match this
      case Match(i) => i
      case MissingId(i) => i
      case NoMatch => length
    }
  }

  /** The search from position `from` on. Every script it passes has an id
      different from the one sought. */
  function ScanFrom(ids: seq<Option<int>>, givenId: int, from: nat): (r: IdScan)
    requires from <= |ids|
    ensures r.Match? ==> from <= r.index < |ids| && ids[r.index] == Some(givenId)
    ensures r.MissingId? ==> from <= r.index < |ids| && ids[r.index] == None
    ensures forall j :: from <= j < r.Stop(|ids|) ==> ids[j].Some? && ids[j].value != givenId
    decreases |ids| - from
  {
    if from == |ids| then NoMatch
    else if ids[from].None? then MissingId(from)
    else if ids[from].value == givenId then Match(from)
    else ScanFrom(ids, givenId, from + 1)
  }

  /** A search over ids none of which is present stops at once: at the first
      position, unless there is none. */
  lemma {:induction false} ScanWithoutIds(ids: seq<Option<int>>, givenId: int)
    requires forall j :: 0 <= j < |ids| ==> ids[j].None?
    ensures ScanFrom(ids, givenId, 0) == if ids == [] then NoMatch else MissingId(0)
  {
  }

  /** Over a list of scripts none of which has an id, the by-id search stops
      at the first script, so remove_scipt_by_id raises AttributeError on any
      non-empty list and ScriptError on the empty one. */
  lemma ScriptsWithoutIds(scripts: seq<Script>, givenId: int)
    requires forall s :: s in scripts ==> s.id.None?
    ensures ScanFrom(IdsOf(scripts), givenId, 0) == if scripts == [] then NoMatch else MissingId(0)
  {
    ScanWithoutIds(IdsOf(scripts), givenId);
  }

  class Handler {
    /** The registered scripts, oldest first. */
    var scripts: seq<Script>
    const scheduler: BackgroundScheduler

    ghost predicate Valid()
      reads this, scheduler
    {
      scheduler.Valid()
    }

    /** A fresh handler: no scripts, a new scheduler with no jobs. */
    constructor ()
      ensures Valid() && fresh(scheduler)
      ensures scripts == [] && scheduler.jobs == map[]
    {
      scripts := [];
      scheduler := new BackgroundScheduler();
    }

    /** What each add_*_script call does: the script is appended whatever
        happens next; if the scheduler accepts the trigger, the script's handle
        is a new live job running that script under that trigger, never issued
        before, and that handle is returned; otherwise the exception leaves the
        handle and the scheduler as they were. The script's id is not touched. */
    twostate predicate Registered(script: Script, trigger: Trigger, accepts: bool, new r: Result<JobId>)
      reads this, scheduler, script
    {
      && scripts == old(scripts) + [script]
      && script.id == old(script.id)
      && (accepts ==>
            && r.Ok? && r.value !in old(scheduler.jobs)
            && old(scheduler.issued) <= r.value < scheduler.issued == old(scheduler.issued) + 1
            && scheduler.jobs == old(scheduler.jobs)[r.value := Job(script, trigger)]
            && script.execJobHandle == Some(r.value))
      && (!accepts ==>
            && r == Err(TriggerRejected)
            && scheduler.jobs == old(scheduler.jobs) && scheduler.issued == old(scheduler.issued)
            && script.execJobHandle == old(script.execJobHandle))
    }

    method Register(script: Script, trigger: Trigger, accepts: bool) returns (r: Result<JobId>)
      requires Valid()
      modifies this, scheduler, script
      ensures Valid() && Registered(script, trigger, accepts, r)
    {
      scripts := scripts + [script];
      r := scheduler.AddJob(script, trigger, accepts);
      if r.Ok? {
        script.execJobHandle := Some(r.value);
      }
    }

    /** add_dated_script: run once at the given date. */
    method AddDatedScript(script: Script, runDate: DateTime, accepts: bool) returns (r: Result<JobId>)
      requires Valid()
      modifies this, scheduler, script
      ensures Valid() && Registered(script, Date(runDate), accepts, r)
    {
      r := Register(script, Date(runDate), accepts);
    }

    /** add_interval_script: run repeatedly, the given time apart. */
    method AddIntervalScript(script: Script, days: int, hours: int, minutes: int, seconds: int, accepts: bool)
      returns (r: Result<JobId>)
      requires Valid()
      modifies this, scheduler, script
      ensures Valid() && Registered(script, Interval(days, hours, minutes, seconds), accepts, r)
    {
      r := Register(script, Interval(days, hours, minutes, seconds), accepts);
    }

    /** add_cron_script: run whenever the clock matches the six fields. */
    method AddCronScript(script: Script, year: string, month: string, day: string,
                         hour: string, minute: string, second: string, accepts: bool)
      returns (r: Result<JobId>)
      requires Valid()
      modifies this, scheduler, script
      ensures Valid() && Registered(script, Cron(year, month, day, hour, minute, second), accepts, r)
    {
      r := Register(script, Cron(year, month, day, hour, minute, second), accepts);
    }

    /** remove_scipt_by_id: drops the first script whose id matches. It never
        cancels that script's job, so the scheduler keeps running it. With no
        match it raises ScriptError; a script without an id attribute met
        before any match raises AttributeError. */
    method RemoveScriptById(givenId: int) returns (r: Outcome)
      requires Valid()
      modifies this
      ensures Valid() && scheduler.jobs == old(scheduler.jobs)
      ensures match ScanFrom(IdsOf(old(scripts)), givenId, 0)
        case Match(i) => r == Pass && scripts == old(scripts)[..i] + old(scripts)[i + 1..]
        case NoMatch => r == Fail(ScriptError(UnknownIdMessage)) && scripts == old(scripts)
        case MissingId(_) => r == Fail(AttributeError) && scripts == old(scripts)
    {
      ghost var ids := IdsOf(scripts);
      var found := false;
      var i := 0;
      while i < |scripts|
        invariant 0 <= i <= |scripts| == |ids|
        invariant scripts == old(scripts) && ids == IdsOf(scripts) && !found
        invariant ScanFrom(ids, givenId, i) == ScanFrom(ids, givenId, 0)
        invariant forall j :: 0 <= j < i ==> ids[j].Some? && ids[j].value != givenId
      {
        var script := scripts[i];
        if script.id.None? {
          return Fail(AttributeError);
        }
        if script.id.value == givenId {
          assert forall j :: 0 <= j < i ==> scripts[j] != script by {
            forall j | 0 <= j < i ensures scripts[j] != script {
              assert ids[j] == scripts[j].id;
            }
          }
          RemoveFirstAt(scripts, script, i);
          scripts := RemoveFirst(scripts, script);
          found := true;
          break;
        }
        i := i + 1;
      }
      if !found {
        return Fail(ScriptError(UnknownIdMessage));
      }
      return Pass;
    }

    /** What remove_script does: a script never given a handle raises
        AttributeError and a dead handle JobLookupError, both before anything
        changes; otherwise the job is cancelled, and then the first occurrence
        of the script is dropped, or ValueError is raised when it is not in the
        list. No handle is issued. */
    twostate predicate Removed(script: Script, r: Outcome)
      reads this, scheduler, script
    {
      && scheduler.issued == old(scheduler.issued)
      && (script.execJobHandle.None? ==>
            r == Fail(AttributeError) && scripts == old(scripts) && scheduler.jobs == old(scheduler.jobs))
      && (script.execJobHandle.Some? && script.execJobHandle.value !in old(scheduler.jobs) ==>
            r == Fail(JobLookupError) && scripts == old(scripts) && scheduler.jobs == old(scheduler.jobs))
      && (script.execJobHandle.Some? && script.execJobHandle.value in old(scheduler.jobs) ==>
            && scheduler.jobs == old(scheduler.jobs) - {script.execJobHandle.value}
            && (script in old(scripts) ==> r == Pass && scripts == RemoveFirst(old(scripts), script))
            && (script !in old(scripts) ==> r == Fail(ValueError) && scripts == old(scripts)))
    }

    /** remove_script: cancels the script's job first, then drops the first
        occurrence of the script from the list. A script never given a handle
        raises AttributeError and a dead handle JobLookupError, both before the
        list is touched; a script not in the list raises ValueError after its
        job has already been cancelled. */
    method RemoveScript(script: Script) returns (r: Outcome)
      requires Valid()
      modifies this, scheduler
      ensures Valid() && Removed(script, r)
    {
      if script.execJobHandle.None? {
        return Fail(AttributeError);
      }
      var cancelled := scheduler.RemoveJob(script.execJobHandle.value);
      if cancelled.Fail? {
        return cancelled;
      }
      if script !in scripts {
        return Fail(ValueError);
      }
      scripts := RemoveFirst(scripts, script);
      return Pass;
    }
  }
}

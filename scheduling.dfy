/** The part of the background scheduler library that the registry relies on:
    add_job hands back a handle to a new live job, and removing a handle, or
    the library finishing the job, makes that job dead. When jobs fire, and on
    which thread, is the library's business and is not modelled. */
module Scheduling {
  import opened Common
  import Scripts

  /** The fields of the datetime object a dated job is given. */
  datatype DateTime = DateTime(year: nat, month: nat, day: nat, hour: nat, minute: nat, second: nat)

  /** The ranges datetime() accepts for each field (the day is further
      limited by the month, which str() does not depend on). */
  predicate InDatetimeRange(d: DateTime) {
    && 1 <= d.year <= 9999 && 1 <= d.month <= 12 && 1 <= d.day <= 31
    && d.hour < 24 && d.minute < 60 && d.second < 60
  }

  /** The arguments of the three add_job calls: trigger "date" with run_date,
      "interval" with days, hours, minutes and seconds, and "cron" with the six
      field expressions, passed on as typed. */
  datatype Trigger =
    | Date(runDate: DateTime)
    | Interval(days: int, hours: int, minutes: int, seconds: int)
    | Cron(year: string, month: string, day: string, hour: string, minute: string, second: string)

  /** A registered job: the script whose execute() it calls, and when. */
  datatype Job = Job(target: Scripts.Script, trigger: Trigger)

  class BackgroundScheduler {
    /** The live jobs, by handle. */
    var jobs: map<JobId, Job>
    /** Handles below this have been issued; the next one is fresh. */
    var issued: nat

    ghost predicate Valid()
      reads this
    {
      forall h :: h in jobs ==> h < issued
    }

    constructor ()
      ensures Valid() && jobs == map[]
    {
      jobs := map[];
      issued := 0;
    }

    /** add_job(target.execute, trigger). Whether the library accepts the
        trigger arguments is decided inside it, so it comes in as `accepts`;
        on acceptance the handle is one never issued before. */
    method AddJob(target: Scripts.Script, trigger: Trigger, accepts: bool) returns (r: Result<JobId>)
      requires Valid()
      modifies this
      ensures Valid()
      ensures accepts ==> r.Ok? && r.value !in old(jobs) && old(issued) <= r.value < issued
      ensures accepts ==> jobs == old(jobs)[r.value := Job(target, trigger)] && issued == old(issued) + 1
      ensures !accepts ==> r == Err(TriggerRejected) && jobs == old(jobs) && issued == old(issued)
    {
      if !accepts {
        return Err(TriggerRejected);
      }
      r := Ok(issued);
      jobs := jobs[issued := Job(target, trigger)];
      issued := issued + 1;
    }

    /** Job.remove() on the handle: the job stops being live; a handle that is
        not live raises JobLookupError. */
    method RemoveJob(h: JobId) returns (r: Outcome)
      requires Valid()
      modifies this
      ensures Valid() && issued == old(issued)
      ensures h in old(jobs) ==> r == Pass && jobs == old(jobs) - {h}
      ensures h !in old(jobs) ==> r == Fail(JobLookupError) && jobs == old(jobs)
    {
      if h !in jobs {
        return Fail(JobLookupError);
      }
      jobs := jobs - {h};
      return Pass;
    }

    /** The library ending a job by itself once its trigger has no further run
        time: a date job after its run date, whether it fired or was skipped
        as missed. Its handle is then dead, exactly as if it had been
        removed. */
    method Expire(h: JobId)
      requires Valid()
      modifies this
      ensures Valid() && issued == old(issued)
      ensures jobs == old(jobs) - {h}
    {
      jobs := jobs - {h};
    }
  }
}

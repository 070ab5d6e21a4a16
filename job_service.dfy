/** The job registry: an ordered list of named jobs, with duplicates allowed, that
    can be listed, run and cancelled by name, plus the `job` command interpreter
    over it. */
module JobService {
  import opened Base

  const ErrJobNotFound := "job not found"

  /** A registered job: its name and an identity that tells apart jobs of the same
      name (the Go registry holds pointers). */
  datatype Job = Job(name: string, id: nat)

  /** The job names, in registration order. */
  function Names(jobs: seq<Job>): (r: seq<string>)
    ensures |r| == |jobs|
    ensures forall k :: 0 <= k < |jobs| ==> r[k] == jobs[k].name
    decreases |jobs|
  {
    if |jobs| == 0 then [] else Names(jobs[..|jobs| - 1]) + [jobs[|jobs| - 1].name]
  }

  /** The position of the first job named `name`, or -1. */
  function IndexOf(jobs: seq<Job>, name: string): (r: int)
    ensures -1 <= r < |jobs|
    ensures r >= 0 ==> jobs[r].name == name && forall k :: 0 <= k < r ==> jobs[k].name != name
    ensures r == -1 ==> forall k :: 0 <= k < |jobs| ==> jobs[k].name != name
    decreases |jobs|
  {
    if |jobs| == 0 then -1
    else if jobs[0].name == name then 0
    else
      var i := IndexOf(jobs[1..], name);
      if i == -1 then -1 else i + 1
  }

  /** The list without its `i`-th job. */
  function RemoveAt(jobs: seq<Job>, i: nat): (r: seq<Job>)
    requires i < |jobs|
    ensures |r| == |jobs| - 1
    ensures forall k :: 0 <= k < i ==> r[k] == jobs[k]
    ensures forall k :: i <= k < |r| ==> r[k] == jobs[k + 1]
  {
    jobs[..i] + jobs[i + 1..]
  }

  /** Removing a job takes exactly that one job out of the collection. */
  lemma RemoveAtMultiset(jobs: seq<Job>, i: nat)
    requires i < |jobs|
    ensures multiset(RemoveAt(jobs, i)) == multiset(jobs) - multiset{jobs[i]}
  {
    assert jobs == jobs[..i] + [jobs[i]] + jobs[i + 1..];
  }

  /** The names after a cancel are the names before with the first occurrence of the
      name taken out, the others kept in order. */
  lemma CancelNames(jobs: seq<Job>, name: string)
    requires IndexOf(jobs, name) >= 0
    ensures var i := IndexOf(jobs, name);
            Names(RemoveAt(jobs, i)) == Names(jobs)[..i] + Names(jobs)[i + 1..]
            && name !in Names(jobs)[..i]
  {
    var i := IndexOf(jobs, name);
    var r := Names(RemoveAt(jobs, i));
    var e := Names(jobs)[..i] + Names(jobs)[i + 1..];
    assert |r| == |e|;
    forall k | 0 <= k < |r| ensures r[k] == e[k] {
      if k < i {
        assert e[k] == Names(jobs)[k] == jobs[k].name;
        assert r[k] == RemoveAt(jobs, i)[k].name;
      } else {
        assert e[k] == Names(jobs)[k + 1] == jobs[k + 1].name;
        assert r[k] == RemoveAt(jobs, i)[k].name;
      }
    }
  }

  /** Adding a job and then cancelling its name, when no job had it before, gives
      back the earlier list. */
  lemma {:induction false} AddThenCancel(jobs: seq<Job>, job: Job)
    requires IndexOf(jobs, job.name) == -1
    ensures IndexOf(jobs + [job], job.name) == |jobs|
    ensures RemoveAt(jobs + [job], |jobs|) == jobs
    decreases |jobs|
  {
    if |jobs| > 0 {
      AddThenCancel(jobs[1..], job);
      assert (jobs + [job])[1..] == jobs[1..] + [job];
    }
    assert (jobs + [job])[..|jobs|] == jobs;
  }

  class JobService {
    var jobs: seq<Job>

    constructor ()
      ensures jobs == []
    {
      jobs := [];
    }

    /** The names of the registered jobs, in registration order. */
    method ListJobs() returns (list: seq<string>)
      ensures list == Names(jobs)
    {
      list := [];
      var i := 0;
      while i < |jobs|
        invariant 0 <= i <= |jobs| && list == Names(jobs[..i])
      {
        assert jobs[..i + 1][..i] == jobs[..i];
        list := list + [jobs[i].name];
        i := i + 1;
      }
      assert jobs[..i] == jobs;
    }

    /** Appends; jobs of the same name may coexist. */
    method AddJob(job: Job) returns (err: Option<string>)
      modifies this`jobs
      ensures jobs == old(jobs) + [job] && err.None?
    {
      jobs := jobs + [job];
      err := None;
    }

    /** Removes the first job named `name`; an absent name is `ErrJobNotFound` and
        changes nothing. */
    method CancelJob(name: string) returns (err: Option<string>)
      modifies this`jobs
      ensures IndexOf(old(jobs), name) >= 0 ==>
                err.None? && jobs == RemoveAt(old(jobs), IndexOf(old(jobs), name))
      ensures IndexOf(old(jobs), name) == -1 ==> err == Some(ErrJobNotFound) && jobs == old(jobs)
    {
      var i := 0;
      while i < |jobs|
        invariant 0 <= i <= |jobs|
        invariant forall k :: 0 <= k < i ==> jobs[k].name != name
      {
        if jobs[i].name == name {
          jobs := jobs[..i] + jobs[i + 1..];
          return None;
        }
        i := i + 1;
      }
      return Some(ErrJobNotFound);
    }

    /** The first job named `name`, or `ErrJobNotFound`. */
    method FindJob(name: string) returns (job: Result<Job>)
      ensures IndexOf(jobs, name) >= 0 ==> job == Ok(jobs[IndexOf(jobs, name)])
      ensures IndexOf(jobs, name) == -1 ==> job == Err(ErrJobNotFound)
    {
      var i := 0;
      while i < |jobs|
        invariant 0 <= i <= |jobs|
        invariant forall k :: 0 <= k < i ==> jobs[k].name != name
      {
        if jobs[i].name == name {
          return Ok(jobs[i]);
        }
        i := i + 1;
      }
      return Err(ErrJobNotFound);
    }

    /** Runs the first job named `name`; `execute(job)` is the error its execution
        function returns, a panic inside it already recovered into its text. */
    method RunJob(name: string, execute: Job -> Option<string>) returns (err: Option<string>)
      ensures IndexOf(jobs, name) >= 0 ==> err == execute(jobs[IndexOf(jobs, name)])
      ensures IndexOf(jobs, name) == -1 ==> err == Some(ErrJobNotFound)
    {
      var job := FindJob(name);
      if job.Err? {
        return Some(job.error);
      }
      err := execute(job.value);
    }

    /** The `job` command: "list" gives the names one per line; "run" starts the job
        in the background and answers "OK" whether or not it exists; "cancel"
        removes it. "run" and "cancel" without a name answer with their usage. */
    method ExecuteCommand(cmd: string, args: seq<string>) returns (content: string, err: Option<string>)
      modifies this`jobs
      ensures cmd == "list" ==> content == Join(Names(jobs), "\n") && err.None? && jobs == old(jobs)
      ensures cmd == "run" ==> jobs == old(jobs) && err.None?
                               && content == (if |args| < 1 then "Usage: job run name" else "OK")
      ensures cmd == "cancel" && |args| < 1 ==>
                content == "Usage: job cancel name" && err.None? && jobs == old(jobs)
      ensures cmd == "cancel" && |args| >= 1 && IndexOf(old(jobs), args[0]) >= 0 ==>
                content == "OK" && err.None? && jobs == RemoveAt(old(jobs), IndexOf(old(jobs), args[0]))
      ensures cmd == "cancel" && |args| >= 1 && IndexOf(old(jobs), args[0]) == -1 ==>
                content == "" && jobs == old(jobs)
                && err == Some("cancel of job '" + args[0] + "' was failed, " + ErrJobNotFound)
      ensures cmd != "list" && cmd != "run" && cmd != "cancel" ==>
                content == "" && err == Some("unknown job command '" + cmd + "'") && jobs == old(jobs)
    {
      if cmd == "list" {
        var list := ListJobs();
        return Join(list, "\n"), None;
      } else if cmd == "run" {
        if |args| < 1 {
          return "Usage: job run name", None;
        }
        return "OK", None;
      } else if cmd == "cancel" {
        if |args| < 1 {
          return "Usage: job cancel name", None;
        }
        var jobName := args[0];
        var cancelErr := CancelJob(jobName);
        if cancelErr.Some? {
          return "", Some("cancel of job '" + jobName + "' was failed, " + cancelErr.value);
        }
        return "OK", None;
      } else {
        return "", Some("unknown job command '" + cmd + "'");
      }
    }
  }

  /** "list" lists what the registry holds: splitting its answer at newlines gives
      back the names when no name contains one. */
  lemma ListAnswerSplits(jobs: seq<Job>)
    requires |jobs| > 0
    requires forall k :: 0 <= k < |jobs| ==> '\n' !in jobs[k].name
    ensures Split(Join(Names(jobs), "\n"), '\n') == Names(jobs)
  {
    SplitJoin(Names(jobs), '\n');
  }
}

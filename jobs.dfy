/**
 * The bot's job queue as the queue monitor uses it: repeating jobs that carry
 * a name (the chat id, as a string) and a context (the user's `user_data`
 * dictionary, shared by reference). Scheduling a removal takes a job out of
 * every later lookup; a removed job is kept here with its flag set.
 */
module Jobs {
  import opened Dal

  class Job {
    /** The job name `str(chat_id)`; `str` is injective on integers, so the id stands for it. */
    const name: int
    /** The job context: the dictionary the job reads and writes. */
    const data: UserData
    var removed: bool

    constructor (name: int, data: UserData)
      ensures this.name == name && this.data == data && !removed
    {
      this.name := name;
      this.data := data;
      removed := false;
    }

    /** `job.schedule_removal()` */
    method ScheduleRemoval()
      modifies this
      ensures removed
    {
      removed := true;
    }
  }

  /** `get_jobs_by_name(name)`: the jobs not yet removed that carry `name`, in queue order. */
  function LiveNamed(jobs: seq<Job>, name: int): (r: seq<Job>)
    reads jobs
    ensures |r| <= |jobs|
    ensures forall i :: 0 <= i < |r| ==> r[i] in jobs && r[i].name == name && !r[i].removed
    ensures forall i :: 0 <= i < |jobs| && jobs[i].name == name && !jobs[i].removed ==> jobs[i] in r
  {
    if jobs == [] then []
    else
      var rest := LiveNamed(jobs[1..], name);
      if jobs[0].name == name && !jobs[0].removed then [jobs[0]] + rest else rest
  }

  /** No job appears twice, and no two live jobs share a name. */
  ghost predicate AtMostOneLive(jobs: seq<Job>)
    reads jobs
  {
    && (forall i, k :: 0 <= i < k < |jobs| ==> jobs[i] != jobs[k])
    && (forall i, k :: 0 <= i < k < |jobs| && jobs[i].name == jobs[k].name ==>
          jobs[i].removed || jobs[k].removed)
  }

  /** Under the registry invariant, a lookup by name finds at most one job. */
  lemma {:induction false} AtMostOneLiveNamed(jobs: seq<Job>, name: int)
    requires AtMostOneLive(jobs)
    ensures |LiveNamed(jobs, name)| <= 1
  {
    if jobs != [] {
      var tail := jobs[1..];
      assert AtMostOneLive(tail) by {
        forall i, k | 0 <= i < k < |tail|
          ensures tail[i] != tail[k]
          ensures tail[i].name == tail[k].name ==> tail[i].removed || tail[k].removed
        {
          assert tail[i] == jobs[i + 1] && tail[k] == jobs[k + 1];
        }
      }
      AtMostOneLiveNamed(tail, name);
      if jobs[0].name == name && !jobs[0].removed {
        forall i | 0 <= i < |tail|
          ensures tail[i].name != name || tail[i].removed
        {
          assert tail[i] == jobs[i + 1];
        }
        NoneLiveNamed(tail, name);
      }
    }
  }

  /** A lookup finds nothing when every job is removed or named otherwise. */
  lemma NoneLiveNamed(jobs: seq<Job>, name: int)
    requires forall i :: 0 <= i < |jobs| ==> jobs[i].name != name || jobs[i].removed
    ensures LiveNamed(jobs, name) == []
  {
  }

  /** A lookup over the queue with one job appended. */
  lemma {:induction false} LiveNamedAppend(jobs: seq<Job>, job: Job, name: int)
    ensures LiveNamed(jobs + [job], name)
         == LiveNamed(jobs, name) + (if job.name == name && !job.removed then [job] else [])
    decreases |jobs|
  {
    if jobs != [] {
      assert (jobs + [job])[1..] == jobs[1..] + [job];
      LiveNamedAppend(jobs[1..], job, name);
    } else {
      assert LiveNamed([job], name)
          == (if job.name == name && !job.removed then [job] else []) + LiveNamed([], name);
    }
  }

  /** The job queue of the bot. */
  class JobQueue {
    var jobs: seq<Job>

    ghost predicate Valid()
      reads this, jobs
    {
      AtMostOneLive(jobs)
    }

    constructor ()
      ensures Valid() && jobs == []
    {
      jobs := [];
    }

    /**
     * The loop shared by `handle_queue_input` and `cancel`: every job that
     * `get_jobs_by_name(name)` returns is scheduled for removal.
     */
    method RemoveNamed(name: int)
      requires Valid()
      modifies jobs
      ensures Valid()
      ensures forall j :: j in jobs ==> j.removed == (old(j.removed) || j.name == name)
      ensures LiveNamed(jobs, name) == []
    {
      var found := LiveNamed(jobs, name);
      for i := 0 to |found|
        invariant forall j :: j in jobs && j !in found[..i] ==> j.removed == old(j.removed)
        invariant forall j :: j in found[..i] ==> j.removed
      {
        found[i].ScheduleRemoval();
      }
      forall j | j in jobs
        ensures j.removed == (old(j.removed) || j.name == name)
      {
        assert j in found[..|found|] <==> j in found;
      }
      NoneLiveNamed(jobs, name);
    }

    /** `run_repeating(poll_queue, context=data, name=name)`: a new live job is added. */
    method RunRepeating(name: int, data: UserData) returns (job: Job)
      requires Valid()
      modifies this
      ensures fresh(job) && job.name == name && job.data == data && !job.removed
      ensures jobs == old(jobs) + [job]
      ensures LiveNamed(old(jobs), name) == [] ==> Valid()
    {
      job := new Job(name, data);
      jobs := jobs + [job];
      if LiveNamed(old(jobs), name) == [] {
        assert forall i :: 0 <= i < |old(jobs)| ==> old(jobs)[i].name != name || old(jobs)[i].removed;
      }
    }

    /**
     * The job replacement of `handle_queue_input`: every job of `name` is
     * removed, then a new repeating job over `data` is added, so that it is
     * the one live job of that name.
     */
    method Replace(name: int, data: UserData) returns (job: Job)
      requires Valid()
      modifies this, jobs
      ensures Valid()
      ensures fresh(job) && job.name == name && job.data == data && !job.removed
      ensures jobs == old(jobs) + [job]
      ensures forall j :: j in old(jobs) ==> j.removed == (old(j.removed) || j.name == name)
      ensures LiveNamed(jobs, name) == [job]
    {
      RemoveNamed(name);
      ghost var before := jobs;
      job := RunRepeating(name, data);
      LiveNamedAppend(before, job, name);
    }
  }
}

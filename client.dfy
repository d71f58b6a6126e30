/**
 * The JPPF client's own rules for submitting a job, resetting itself, and picking a
 * connection pool among those found.
 */
module Client {

  datatype Option<T> = None | Some(value: T)

  /** Why a submission was refused. */
  datatype Refusal = ClientClosed | NullJob | EmptyJob | AlreadySubmitted

  /** How `submitJob` ends: refused with an exception, or returning the awaited results (blocking job) or null. */
  datatype SubmitOutcome = IllegalState(why: Refusal) | IllegalArgument(why: Refusal) | Returned(awaitedResults: bool)

  /** Where a reset takes the new configuration from. */
  datatype ConfigSource = ReloadedGlobal | Given(properties: map<string, string>)

  /** A job, as far as the client touches it. */
  class Job {
    var tasks: seq<nat>
    /** The id of the client that submitted it, if any. */
    var client: Option<nat>
    var cancelled: bool
    /** The positions of the tasks that have results. */
    var results: set<nat>
    var done: bool
    var blocking: bool

    constructor(tasks: seq<nat>, blocking: bool)
      ensures this.tasks == tasks && this.blocking == blocking
      ensures client == None && !cancelled && results == {} && !done
    {
      this.tasks := tasks;
      this.blocking := blocking;
      client := None;
      cancelled := false;
      results := {};
      done := false;
    }
  }

  class JPPFClient {
    const id: nat
    var closed: bool
    /** Whether a reset has been started. */
    var resetting: bool
    /** The jobs handed to the job manager, in order. */
    var submitted: seq<Job>
    /** The `close(true)` calls a reset makes, and the configurations it re-initializes from, in order. */
    var resetCloses: nat
    var inits: seq<ConfigSource>

    constructor(id: nat)
      ensures this.id == id && !closed && !resetting && submitted == [] && resetCloses == 0 && inits == []
    {
      this.id := id;
      closed := false;
      resetting := false;
      submitted := [];
      resetCloses := 0;
      inits := [];
    }

    /**
     * `submitJob`: refused when the client is closed, the job is null or has no task, or
     * the job was submitted before and is not done; a resubmitted job has its cancelled
     * flag and previous results cleared. The job then belongs to this client and goes to
     * the job manager; a blocking job's results are awaited, a non-blocking job gives null.
     */
    method SubmitJob(job: Option<Job>) returns (r: SubmitOutcome)
      modifies this`submitted, if job.Some? then {job.value} else {}
      ensures closed ==> r == IllegalState(ClientClosed)
      ensures !closed && job.None? ==> r == IllegalArgument(NullJob)
      ensures !closed && job.Some? && job.value.tasks == [] ==> r == IllegalState(EmptyJob)
      ensures !closed && job.Some? && job.value.tasks != [] && old(job.value.client).Some? && !job.value.done ==>
        r == IllegalState(AlreadySubmitted)
      ensures r.Returned? <==>
        !closed && job.Some? && job.value.tasks != [] && (old(job.value.client).None? || job.value.done)
      ensures !r.Returned? ==> submitted == old(submitted) && (job.Some? ==> unchanged(job.value))
      ensures r.Returned? ==>
        var j := job.value;
        j.client == Some(id)
        && submitted == old(submitted) + [j]
        && r.awaitedResults == j.blocking
        && (old(j.client).Some? ==> !j.cancelled && j.results == {})
        && (old(j.client).None? ==> j.cancelled == old(j.cancelled) && j.results == old(j.results))
        && j.tasks == old(j.tasks) && j.done == old(j.done)
    {
      if closed {
        return IllegalState(ClientClosed);
      }
      if job.None? {
        return IllegalArgument(NullJob);
      }
      var j := job.value;
      if j.tasks == [] {
        return IllegalState(EmptyJob);
      }
      if j.client.Some? {
        if !j.done {
          return IllegalState(AlreadySubmitted);
        }
        j.cancelled := false;
        j.results := {};
      }
      j.client := Some(id);
      submitted := submitted + [j];
      r := Returned(j.blocking);
    }

    /**
     * `reset` and `reset(configuration)`: nothing for a closed client or once a reset has
     * started; otherwise the client is closed for a reset and initialized again from the
     * reloaded global configuration, or from the one given.
     */
    method Reset(source: ConfigSource)
      modifies this`resetting, this`resetCloses, this`inits
      ensures closed || old(resetting) ==> unchanged(this)
      ensures !closed && !old(resetting) ==>
        resetting && resetCloses == old(resetCloses) + 1 && inits == old(inits) + [source]
    {
      if closed {
        return;
      }
      if !resetting {
        resetting := true;
        resetCloses := resetCloses + 1;
        inits := inits + [source];
      }
    }
  }

  /** `awaitConnectionPool`: the first pool found, or null when none was. */
  function FirstPool(found: seq<nat>): (p: Option<nat>)
    ensures p.None? <==> found == []
    ensures p.Some? ==> p.value == found[0] && p.value in found
  {
    if found == [] then None else Some(found[0])
  }
}

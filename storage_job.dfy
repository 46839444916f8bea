/**
 * The storage-backed job (`StorageJob`): a job record together with a handle
 * on the storage, resolving its experiment and its runs through the storage
 * on every call.
 */
module StorageJobs {
  import opened Values
  import opened Records
  import opened Store

  /** A job whose relations are looked up in `storage`; `job` holds the fields the base constructor unpacks. */
  class StorageJob {
    const job: JobBase
    const storage: Storage

    /** Unpacks `d` as the base job does and keeps the storage handle; `create` has no effect. */
    constructor (storage: Storage, d: Dict, create: bool)
      requires MissingKey(d).None?
      ensures fresh(job) && this.storage == storage
      ensures job.id == d["id"] && job.name == d["name"] && job.user == d["user"]
      ensures job.timestamp == d["timestamp"] && job.args == d["args"]
      ensures job.kwargs == d["kwargs"] && job.experiment == d["experiment"]
      ensures job.ToDict() == Normalized(d)
    {
      job := new JobBase(d);
      this.storage := storage;
    }

    /** `runs()`: exactly the records of the `runs` collection whose `job` field is this job's id, in collection order. */
    function Runs(): (rs: seq<Dict>)
      reads storage
      ensures forall r :: r in rs <==> r in storage.Collection("runs") && Matches(r, "job", job.Id())
      ensures rs == [] <==> forall r :: r in storage.Collection("runs") ==> !Matches(r, "job", job.Id())
      ensures multiset(rs) <= multiset(storage.Collection("runs"))
    {
      var rs := storage.Where("runs", "job", job.Id());
      assert rs != [] ==> rs[0] in rs;
      rs
    }

    /** `runs()` as written: the name `QueryOp` is not bound in the module, so the call raises `NameError`. */
    function RunsAsWritten(): (r: Result<seq<Dict>>)
      ensures r == Err(NameError("QueryOp"))
    {
      Err(NameError("QueryOp"))
    }

    /** `experiment()`: the record of the `experiments` collection whose id is this job's experiment, None (`NotFound`) when the reference dangles. */
    function Experiment(): (e: Option<Dict>)
      reads storage
      ensures e.None? <==> forall r :: r in storage.Collection("experiments") ==> !Matches(r, "id", job.experiment)
      ensures e.Some? ==> e.value in storage.Collection("experiments") && Matches(e.value, "id", job.experiment)
    {
      storage.Get("experiments", job.experiment)
    }
  }

  /** Where the intended query finds a run, the code as written raises instead of returning it. */
  lemma RunsAsWrittenLosesRuns(j: StorageJob, run: Dict)
    requires run in j.storage.Collection("runs") && Matches(run, "job", j.job.Id())
    ensures run in j.Runs()
    ensures j.RunsAsWritten().Err? && j.RunsAsWritten() != Ok(j.Runs())
  {
  }
}

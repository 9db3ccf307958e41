/**
 * The InferenceRun reconciler (internal/controller/controller.go): the job
 * status classifier, the auto-delete decision table, the contract handed to
 * the workload, and the four verbs Observe, Create, Update and Delete the
 * managed-resource runtime calls, each against the store of the Store module.
 */
module Controller {
  import opened Wrappers
  import opened Api
  import opened Store
  import opened Workload
  import JobNames

  /** The prefix of every workload name (JOB_NAME_PREFIX). */
  const JobNamePrefix := "inf"

  const UnknownError := "unknown error"

  datatype JobStatus = Pending | Running | Succeeded | Failed | Unknown

  /**
   * computeJobStatus (controller.go:347-358): the checks in order are "all
   * counters zero", "some active", "some succeeded", "some failed".
   */
  function ComputeJobStatus(s: BatchJobStatus): (r: JobStatus)
    ensures r == Pending <==> s.active == 0 && s.succeeded == 0 && s.failed == 0
    ensures r == Running ==> s.active > 0
    ensures r == Unknown ==> s.active < 0 || s.succeeded < 0 || s.failed < 0
  {
    if s.active == 0 && s.succeeded == 0 && s.failed == 0 then Pending
    else if s.active > 0 then Running
    else if s.succeeded > 0 then Succeeded
    else if s.failed > 0 then Failed
    else Unknown
  }

  /**
   * For the counters a Job reports (never negative) the classifier is a
   * total table: Unknown never comes out, and an active pod wins over
   * succeeded and failed ones, a succeeded pod over failed ones.
   */
  lemma JobStatusTable(s: BatchJobStatus)
    requires s.active >= 0 && s.succeeded >= 0 && s.failed >= 0
    ensures ComputeJobStatus(s) != Unknown
    ensures ComputeJobStatus(s) == Running <==> s.active > 0
    ensures ComputeJobStatus(s) == Succeeded <==> s.active == 0 && s.succeeded > 0
    ensures ComputeJobStatus(s) == Failed <==> s.active == 0 && s.succeeded == 0 && s.failed > 0
  {
  }

  /**
   * autoDeletePolicy (controller.go:374-400): whether the run goes once its
   * job has the given status. DeleteOnCompletion deletes after success and
   * after failure, DeleteOnSuccess only after success; no policy, None, or a
   * value outside the enum deletes nothing.
   */
  function AutoDelete(conf: InferenceConfigSpec, status: JobStatus): (r: bool)
    ensures r <==>
      && conf.autoDeletePolicy.Some?
      && (|| (conf.autoDeletePolicy.value == DeleteOnCompletion && (status == Succeeded || status == Failed))
          || (conf.autoDeletePolicy.value == DeleteOnSuccess && status == Succeeded))
  {
    match status
    case Succeeded =>
      if conf.autoDeletePolicy.None? then false
      else (match conf.autoDeletePolicy.value
            case PolicyNone => false
            case DeleteOnCompletion => true
            case DeleteOnSuccess => true
            case Unrecognized(_) => false)
    case Failed =>
      if conf.autoDeletePolicy.None? then false
      else (match conf.autoDeletePolicy.value
            case PolicyNone => false
            case DeleteOnCompletion => true
            case DeleteOnSuccess => false
            case Unrecognized(_) => false)
    case _ => false
  }

  /** Only a finished job can take its run with it, and DeleteOnSuccess deletes in fewer cases than DeleteOnCompletion. */
  lemma AutoDeleteOnlyWhenFinished(conf: InferenceConfigSpec, status: JobStatus)
    ensures AutoDelete(conf, status) ==> status == Succeeded || status == Failed
    ensures AutoDelete(conf.(autoDeletePolicy := Some(DeleteOnSuccess)), status)
        ==> AutoDelete(conf.(autoDeletePolicy := Some(DeleteOnCompletion)), status)
    ensures conf.autoDeletePolicy.None? || conf.autoDeletePolicy == Some(PolicyNone) ==> !AutoDelete(conf, status)
  {
  }

  /** The messages of the conditions whose status is False, each followed by "; ", in order. */
  function FalseMessages(conds: seq<JobCondition>): string {
    if conds == [] then ""
    else
      var last := conds[|conds| - 1];
      FalseMessages(conds[..|conds| - 1]) + (if last.status == CondFalse then last.message + "; " else "")
  }

  /** The accumulated text is empty exactly when no condition is False; otherwise it ends with a blank. */
  lemma {:induction false} FalseMessagesEmpty(conds: seq<JobCondition>)
    ensures FalseMessages(conds) == [] <==> forall i :: 0 <= i < |conds| ==> conds[i].status != CondFalse
    ensures FalseMessages(conds) != [] ==> FalseMessages(conds)[|FalseMessages(conds)| - 1] == ' '
  {
    if conds != [] {
      var init := conds[..|conds| - 1];
      FalseMessagesEmpty(init);
      assert forall i :: 0 <= i < |init| ==> init[i] == conds[i];
    }
  }

  /**
   * The failure message Observe logs for a failed job (controller.go:177-187):
   * every False condition's message followed by "; ", or "unknown error"
   * when there is none.
   */
  method FailureMessage(conds: seq<JobCondition>) returns (msg: string)
    ensures msg == if FalseMessages(conds) == [] then UnknownError else FalseMessages(conds)
    ensures msg == UnknownError <==> forall i :: 0 <= i < |conds| ==> conds[i].status != CondFalse
  {
    msg := "";
    for i := 0 to |conds|
      invariant msg == FalseMessages(conds[..i])
    {
      assert conds[..i + 1][..i] == conds[..i];
      if conds[i].status == CondFalse {
        msg := msg + conds[i].message + "; ";
      }
    }
    assert conds[..|conds|] == conds;
    FalseMessagesEmpty(conds);
    if msg == "" {
      msg := UnknownError;
    }
  }

  /**
   * The contract of a run (controller.go:127-134): its uid as job id, the
   * workload name, the model and storage of the config, the run's parameters.
   * The workload name is a label that starts with "inf-" and ends with the
   * uid suffix.
   */
  function ContractFor(meta: ObjectMeta, spec: InferenceRunSpec, conf: InferenceConfigSpec): (c: ContractSpec)
    ensures c.jobId == meta.uid && c.jobName == JobNames.JobName(JobNamePrefix, meta.name, meta.uid)
    ensures c.kserve == conf.kserve && c.input == conf.input && c.output == conf.output
    ensures c.parameters == spec.parameters
    ensures JobNames.LabelChars(c.jobName) && |c.jobName| <= JobNames.MaxLabel - 1
    ensures c.jobName[..4] == "inf-"
    ensures c.jobName[|c.jobName| - JobNames.UidLen..] == JobNames.UidSuffix(meta.uid)
  {
    JobNames.ControllerJobNamePrefix(meta.name, meta.uid);
    JobNames.JobNameShape(JobNamePrefix, meta.name, meta.uid);
    ContractSpec(meta.uid, JobNames.JobName(JobNamePrefix, meta.name, meta.uid),
                 conf.kserve, conf.input, conf.output, spec.parameters)
  }

  function ConfigKey(spec: InferenceRunSpec): Key {
    Key(spec.configRef.namespace, spec.configRef.name)
  }

  /** The job status the run records after a lookup: the Job's status if there is a Job, else none. */
  function JobStatusOf(lookup: JobLookup): Option<BatchJobStatus> {
    if lookup.job.Some? then Some(lookup.job.value.status) else None
  }

  /** What the runtime learns from Observe. */
  datatype Observation = Observation(resourceExists: bool, resourceUpToDate: bool)

  /** The zero observation, returned beside every error. */
  const NoObservation := Observation(false, false)

  /** How Observe ends once the status and the ConfigMap are written. */
  datatype Verdict = NoJobYet | JobFailed | RunAutoDeleted | JobHealthy

  /**
   * Observe's branch on the freshly fetched status (controller.go:167-229):
   * no status, a failed job, a succeeded job whose policy deletes the run,
   * or anything else.
   */
  function ObserveVerdict(conf: InferenceConfigSpec, jobStatus: Option<BatchJobStatus>): (v: Verdict)
    ensures v == NoJobYet <==> jobStatus.None?
    ensures v == JobFailed <==> jobStatus.Some? && ComputeJobStatus(jobStatus.value) == Failed
    ensures v == RunAutoDeleted <==>
      jobStatus.Some? && ComputeJobStatus(jobStatus.value) == Succeeded && AutoDelete(conf, Succeeded)
  {
    if jobStatus.None? then NoJobYet
    else
      match ComputeJobStatus(jobStatus.value)
      case Failed => JobFailed
      case Succeeded => if AutoDelete(conf, Succeeded) then RunAutoDeleted else JobHealthy
      case _ => JobHealthy
  }

  /**
   * Observe leaves a failed run alone even under DeleteOnCompletion: only
   * Update, on the next pass, deletes it.
   */
  lemma ObserveLeavesFailedRuns(conf: InferenceConfigSpec, s: BatchJobStatus)
    requires ComputeJobStatus(s) == Failed
    ensures ObserveVerdict(conf, Some(s)) == JobFailed
    ensures conf.autoDeletePolicy == Some(DeleteOnCompletion) ==> AutoDelete(conf, ComputeJobStatus(s))
  {
  }

  /** Deleting a key just written leaves the map as deleting it from the original would. */
  lemma WriteThenRemove<K, V>(m: map<K, V>, k: K, v: V)
    ensures m[k := v] - {k} == m - {k}
  {
  }

  /** The in-memory InferenceRun the runtime hands to each verb; the verbs set its status. */
  class RunObject {
    const meta: ObjectMeta
    const spec: InferenceRunSpec
    var ready: Option<ReadyReason>
    var contract: seq<byte>
    var jobStatus: Option<BatchJobStatus>

    constructor (r: InferenceRun)
      ensures Snapshot() == r
    {
      meta, spec := r.meta, r.spec;
      ready, contract, jobStatus := r.status.ready, r.status.contract, r.status.jobStatus;
    }

    /** The object as the store receives it. */
    function Snapshot(): InferenceRun
      reads this
    {
      SnapshotWith(ready)
    }

    /** The object with the given Ready condition and its current contract and job status. */
    function SnapshotWith(r: Option<ReadyReason>): InferenceRun
      reads this
    {
      InferenceRun(meta, spec, InferenceRunStatus(r, contract, jobStatus))
    }

    /** Where the store keeps the run. */
    function StoreKey(): Key {
      Key(meta.namespace, meta.name)
    }
  }

  /** What Observe has in hand before it writes anything. */
  datatype Preparation = NoConfig | Unmarshallable | Prepared(conf: InferenceConfigSpec, jobName: string, contract: seq<byte>)

  /**
   * The external client of the reconciler: the store it talks to, the JSON
   * encoder of contracts (opaque; it can fail), and the service account the
   * workload pods run as (SA_RUNNER in the controller's environment).
   */
  class External {
    const cluster: Cluster
    const marshal: ContractSpec -> Option<seq<byte>>
    const serviceAccount: string

    constructor (cluster: Cluster, marshal: ContractSpec -> Option<seq<byte>>, serviceAccount: string)
      ensures this.cluster == cluster && this.marshal == marshal && this.serviceAccount == serviceAccount
    {
      this.cluster, this.marshal, this.serviceAccount := cluster, marshal, serviceAccount;
    }

    /** Config resolution, contract assembly and serialisation (controller.go:116-139). */
    function Prepare(meta: ObjectMeta, spec: InferenceRunSpec): (p: Preparation)
      ensures p == NoConfig <==> cluster.ReadConfig(ConfigKey(spec)).Failure?
      ensures p == Unmarshallable <==>
        && cluster.ReadConfig(ConfigKey(spec)).Success?
        && marshal(ContractFor(meta, spec, cluster.ReadConfig(ConfigKey(spec)).value)).None?
      ensures p.Prepared? ==>
        && cluster.ReadConfig(ConfigKey(spec)) == Success(p.conf)
        && p.jobName == JobNames.JobName(JobNamePrefix, meta.name, meta.uid)
        && marshal(ContractFor(meta, spec, p.conf)) == Some(p.contract)
    {
      match cluster.ReadConfig(ConfigKey(spec))
      case Failure(_) => NoConfig
      case Success(conf) =>
        var c := ContractFor(meta, spec, conf);
        match marshal(c)
        case None => Unmarshallable
        case Some(bytes) => Prepared(conf, c.jobName, bytes)
    }

    /**
     * The recording half of Observe (controller.go:144-165): fetch the Job,
     * record its status and the serialised contract on the run, write the
     * run, then upsert the contract ConfigMap; stop at the first failure.
     */
    method Record(run: RunObject, jobName: string, contract: seq<byte>) returns (err: Option<Error>)
      modifies run`contract, run`jobStatus, cluster`runs, cluster`configMaps
      ensures run.contract == contract && run.jobStatus == JobStatusOf(old(GetJob(cluster, jobName, run.Snapshot())))
      ensures run.ready == old(run.ready) && cluster.deleteLog == old(cluster.deleteLog)
      ensures var statusErr := old(StatusWriteError(cluster, run.StoreKey()));
        statusErr.Some? ==>
          err == statusErr && cluster.runs == old(cluster.runs) && cluster.configMaps == old(cluster.configMaps)
      ensures var statusErr := old(StatusWriteError(cluster, run.StoreKey()));
        statusErr.None? ==>
          var cmKey := Key(run.meta.namespace, jobName);
          && cluster.runs == old(cluster.runs)[run.StoreKey() := run.Snapshot()]
          && err == old(UpsertError(cluster, cmKey))
          && cluster.configMaps == if err.None? then old(cluster.configMaps)[cmKey := ContractConfigMap(jobName, contract, run.meta)]
                                   else old(cluster.configMaps)
    {
      var lookup := GetJob(cluster, jobName, run.Snapshot());
      run.jobStatus := JobStatusOf(lookup);
      run.contract := contract;
      err := UpdateStatus(cluster, run.Snapshot());
      if err.Some? {
        return;
      }
      err := CreateOrUpdateConfigMap(cluster, jobName, run.meta.namespace, run.contract, run.Snapshot());
    }

    /**
     * The deciding half of Observe (controller.go:167-229), on the status
     * just recorded: with no status the resource does not exist; a failed
     * job exists but is not up to date, with its failure message; a
     * succeeded job whose policy says so deletes the run; every other path
     * marks the run Available and reports it existing and up to date.
     */
    method Conclude(run: RunObject, conf: InferenceConfigSpec) returns (obs: Observation, err: Option<Error>, failure: Option<string>)
      modifies run`ready, cluster`runs, cluster`deleteLog
      ensures err.Some? ==> obs == NoObservation
      ensures obs.resourceUpToDate ==> obs.resourceExists && run.ready == Some(Available)
      ensures failure.Some? <==> obs == Observation(true, false)
      ensures run.SnapshotWith(old(run.ready)) == old(run.Snapshot())
      ensures cluster.configMaps == old(cluster.configMaps)
      ensures run.contract == old(run.contract) && run.jobStatus == old(run.jobStatus)
      ensures ObserveVerdict(conf, run.jobStatus) != RunAutoDeleted ==>
        err.None? && cluster.runs == old(cluster.runs) && cluster.deleteLog == old(cluster.deleteLog)
      ensures ObserveVerdict(conf, run.jobStatus) == NoJobYet ==>
        obs == NoObservation && failure.None? && run.ready == old(run.ready)
      ensures ObserveVerdict(conf, run.jobStatus) == JobFailed ==>
        && obs == Observation(true, false) && run.ready == old(run.ready)
        && failure == Some(if FalseMessages(run.jobStatus.value.conditions) == [] then UnknownError
                           else FalseMessages(run.jobStatus.value.conditions))
      ensures ObserveVerdict(conf, run.jobStatus) == JobHealthy ==>
        obs == Observation(true, true) && failure.None? && run.ready == Some(Available)
      ensures ObserveVerdict(conf, run.jobStatus) == RunAutoDeleted ==>
        && cluster.deleteLog == old(cluster.deleteLog) + [DeleteRequest(RunKind, run.StoreKey(), DefaultPropagation)]
        && err == cluster.DeleteError(RunKind, run.StoreKey(), run.StoreKey() in old(cluster.runs)) && failure.None?
        && (err.Some? ==> obs == NoObservation && cluster.runs == old(cluster.runs) && run.ready == old(run.ready))
        && (err.None? ==> obs == Observation(true, true) && cluster.runs == old(cluster.runs) - {run.StoreKey()} && run.ready == Some(Available))
    {
      if run.jobStatus.None? {
        return NoObservation, None, None;
      }
      var status := ComputeJobStatus(run.jobStatus.value);
      if status == Failed {
        var message := FailureMessage(run.jobStatus.value.conditions);
        return Observation(true, false), None, Some(message);
      } else if status == Succeeded {
        if AutoDelete(conf, ComputeJobStatus(run.jobStatus.value)) {
          err := DeleteRun(cluster, run.Snapshot());
          if err.Some? {
            return NoObservation, err, None;
          }
        }
      }
      run.ready := Some(Available);
      obs, err, failure := Observation(true, true), None, None;
    }

    /**
     * Observe (controller.go:108-230). Without a config it reports that the
     * resource does not exist and writes nothing; a contract that does not
     * serialise is an error. Otherwise it records the observation (Record)
     * and, if that succeeds, decides on the recorded status (Conclude).
     */
    method Observe(run: RunObject) returns (obs: Observation, err: Option<Error>, failure: Option<string>)
      modifies run`ready, run`contract, run`jobStatus, cluster`runs, cluster`configMaps, cluster`deleteLog
      ensures err.Some? ==> obs == NoObservation
      ensures obs.resourceUpToDate ==> obs.resourceExists && run.ready == Some(Available)
      ensures failure.Some? <==> obs == Observation(true, false)
      ensures !Prepare(run.meta, run.spec).Prepared? ==>
        && obs == NoObservation && failure.None?
        && err == (if Prepare(run.meta, run.spec) == NoConfig then None else Some(MarshalFailed))
        && unchanged(run, cluster)
      ensures var p := Prepare(run.meta, run.spec);
        p.Prepared? ==> run.contract == p.contract && run.jobStatus == JobStatusOf(old(GetJob(cluster, p.jobName, run.Snapshot())))
      ensures var p, statusErr := Prepare(run.meta, run.spec), old(StatusWriteError(cluster, run.StoreKey()));
        p.Prepared? && statusErr.Some? ==>
          && obs == NoObservation && err == statusErr && failure.None?
          && unchanged(cluster) && run.ready == old(run.ready)
      ensures var p, statusErr := Prepare(run.meta, run.spec), old(StatusWriteError(cluster, run.StoreKey()));
        p.Prepared? && statusErr.None? ==>
          var cmKey, written := Key(run.meta.namespace, p.jobName), run.SnapshotWith(old(run.ready));
          && (old(UpsertError(cluster, cmKey)).Some? ==>
                && obs == NoObservation && err == old(UpsertError(cluster, cmKey)) && failure.None?
                && cluster.runs == old(cluster.runs)[run.StoreKey() := written]
                && cluster.configMaps == old(cluster.configMaps)
                && cluster.deleteLog == old(cluster.deleteLog) && run.ready == old(run.ready))
          && (old(UpsertError(cluster, cmKey)).None? ==>
                cluster.configMaps == old(cluster.configMaps)[cmKey := ContractConfigMap(p.jobName, p.contract, run.meta)])
      ensures var p, statusErr := Prepare(run.meta, run.spec), old(StatusWriteError(cluster, run.StoreKey()));
        p.Prepared? && statusErr.None? && old(UpsertError(cluster, Key(run.meta.namespace, p.jobName))).None? ==>
          var written := run.SnapshotWith(old(run.ready));
          var verdict := ObserveVerdict(p.conf, run.jobStatus);
          && (verdict != RunAutoDeleted ==>
                && err.None? && cluster.deleteLog == old(cluster.deleteLog)
                && cluster.runs == old(cluster.runs)[run.StoreKey() := written])
          && (verdict == NoJobYet ==> obs == NoObservation && failure.None? && run.ready == old(run.ready))
          && (verdict == JobFailed ==>
                && obs == Observation(true, false) && run.ready == old(run.ready)
                && failure == Some(if FalseMessages(run.jobStatus.value.conditions) == [] then UnknownError
                                   else FalseMessages(run.jobStatus.value.conditions)))
          && (verdict == JobHealthy ==> obs == Observation(true, true) && failure.None? && run.ready == Some(Available))
      ensures var p, statusErr := Prepare(run.meta, run.spec), old(StatusWriteError(cluster, run.StoreKey()));
        && p.Prepared? && statusErr.None? && old(UpsertError(cluster, Key(run.meta.namespace, p.jobName))).None?
        && ObserveVerdict(p.conf, run.jobStatus) == RunAutoDeleted ==>
          var written := run.SnapshotWith(old(run.ready));
          && cluster.deleteLog == old(cluster.deleteLog) + [DeleteRequest(RunKind, run.StoreKey(), DefaultPropagation)]
          && err == cluster.DeleteError(RunKind, run.StoreKey(), true) && failure.None?
          && (err.Some? ==>
                obs == NoObservation && cluster.runs == old(cluster.runs)[run.StoreKey() := written] && run.ready == old(run.ready))
          && (err.None? ==>
                obs == Observation(true, true) && cluster.runs == old(cluster.runs) - {run.StoreKey()} && run.ready == Some(Available))
    {
      var p := Prepare(run.meta, run.spec);
      if p.NoConfig? {
        return NoObservation, None, None;
      } else if p.Unmarshallable? {
        return NoObservation, Some(MarshalFailed), None;
      }
      err := Record(run, p.jobName, p.contract);
      if err.Some? {
        return NoObservation, err, None;
      }
      WriteThenRemove(old(cluster.runs), run.StoreKey(), run.Snapshot());
      obs, err, failure := Conclude(run, p.conf);
    }

    /**
     * Create as written (controller.go:232-274): resolve the config, mark
     * the run Creating, create a plain Job whatever the schedule, look the
     * Job up and write the run with its status.
     */
    method Create(run: RunObject) returns (err: Option<Error>)
      modifies run`ready, run`jobStatus, cluster`jobs, cluster`runs
      ensures var conf := cluster.ReadConfig(ConfigKey(run.spec));
        conf.Failure? ==> err == Some(conf.error) && unchanged(run, cluster)
      ensures var conf := cluster.ReadConfig(ConfigKey(run.spec));
        conf.Success? ==>
          var jobName := JobNames.JobName(JobNamePrefix, run.meta.name, run.meta.uid);
          var jobKey := WorkloadKey(run.Snapshot(), jobName);
          var jobErr := cluster.CreateError(JobKind, jobKey, jobKey in old(cluster.jobs));
          && run.ready == Some(Creating)
          && (jobErr.Some? ==>
                && err == jobErr && cluster.jobs == old(cluster.jobs)
                && cluster.runs == old(cluster.runs) && run.jobStatus == old(run.jobStatus))
          && (jobErr.None? ==>
                && jobKey in cluster.jobs && cluster.jobs == old(cluster.jobs)[jobKey := cluster.jobs[jobKey]]
                && JobFor(cluster.jobs[jobKey], jobName, run.Snapshot(), conf.value, serviceAccount)
                && run.jobStatus == JobStatusOf(GetJob(cluster, jobName, run.Snapshot()))
                && err == old(StatusWriteError(cluster, RunKey(run.Snapshot())))
                && cluster.runs == if err.None? then old(cluster.runs)[RunKey(run.Snapshot()) := run.Snapshot()]
                                   else old(cluster.runs))
      ensures var jobKey := WorkloadKey(run.Snapshot(), JobNames.JobName(JobNamePrefix, run.meta.name, run.meta.uid));
        && cluster.ReadConfig(ConfigKey(run.spec)).Success? && run.spec.schedule.None?
        && cluster.CreateError(JobKind, jobKey, jobKey in old(cluster.jobs)).None?
        && Fault(Get, JobKind, jobKey) !in cluster.faults
        ==> run.jobStatus == Some(EmptyJobStatus())
      ensures var jobKey := WorkloadKey(run.Snapshot(), JobNames.JobName(JobNamePrefix, run.meta.name, run.meta.uid));
        && run.spec.schedule.Some? && jobKey !in cluster.cronJobs && cluster.ReadConfig(ConfigKey(run.spec)).Success?
        && cluster.CreateError(JobKind, jobKey, jobKey in old(cluster.jobs)).None?
        ==> jobKey in cluster.jobs && run.jobStatus.None?
    {
      var confResult := cluster.ReadConfig(ConfigKey(run.spec));
      if confResult.Failure? {
        return Some(confResult.error);
      }
      run.ready := Some(Creating);
      var jobName := JobNames.ComputeJobName(JobNamePrefix, run.meta.name, run.meta.uid);
      err := CreateJob(cluster, jobName, run.Snapshot(), confResult.value, serviceAccount);
      if err.Some? {
        return;
      }
      var lookup := GetJob(cluster, jobName, run.Snapshot());
      run.jobStatus := JobStatusOf(lookup);
      err := UpdateStatus(cluster, run.Snapshot());
    }

    /**
     * Create as the scheduled case evidently intends: the same steps, with
     * the Job-or-CronJob dispatch of createJobOrCronJob. A scheduled run gets
     * a CronJob and no Job, and until the CronJob starts a Job the run
     * records no job status.
     */
    method CreateWithDispatch(run: RunObject) returns (err: Option<Error>)
      modifies run`ready, run`jobStatus, cluster`jobs, cluster`cronJobs, cluster`runs
      ensures var conf := cluster.ReadConfig(ConfigKey(run.spec));
        conf.Failure? ==> err == Some(conf.error) && unchanged(run, cluster)
      ensures var conf := cluster.ReadConfig(ConfigKey(run.spec));
        conf.Success? ==>
          var jobName := JobNames.JobName(JobNamePrefix, run.meta.name, run.meta.uid);
          var key := WorkloadKey(run.Snapshot(), jobName);
          && run.ready == Some(Creating)
          && (run.spec.schedule.Some? ==>
                var createErr := cluster.CreateError(CronJobKind, key, key in old(cluster.cronJobs));
                && cluster.jobs == old(cluster.jobs)
                && (createErr.Some? ==>
                      && err == createErr && cluster.cronJobs == old(cluster.cronJobs)
                      && cluster.runs == old(cluster.runs) && run.jobStatus == old(run.jobStatus))
                && (createErr.None? ==>
                      && key in cluster.cronJobs && cluster.cronJobs == old(cluster.cronJobs)[key := cluster.cronJobs[key]]
                      && CronJobFor(cluster.cronJobs[key], jobName, run.Snapshot(), conf.value, serviceAccount)
                      && run.jobStatus.None?
                      && (Fault(Get, CronJobKind, key) !in cluster.faults ==> GetJob(cluster, jobName, run.Snapshot()).notMaterialised)))
          && (run.spec.schedule.None? ==>
                var createErr := cluster.CreateError(JobKind, key, key in old(cluster.jobs));
                && cluster.cronJobs == old(cluster.cronJobs)
                && (createErr.Some? ==>
                      && err == createErr && cluster.jobs == old(cluster.jobs)
                      && cluster.runs == old(cluster.runs) && run.jobStatus == old(run.jobStatus))
                && (createErr.None? ==>
                      && key in cluster.jobs && cluster.jobs == old(cluster.jobs)[key := cluster.jobs[key]]
                      && JobFor(cluster.jobs[key], jobName, run.Snapshot(), conf.value, serviceAccount)
                      && run.jobStatus == (if Fault(Get, JobKind, key) in cluster.faults then None else Some(EmptyJobStatus()))))
      ensures var conf := cluster.ReadConfig(ConfigKey(run.spec));
        var key := WorkloadKey(run.Snapshot(), JobNames.JobName(JobNamePrefix, run.meta.name, run.meta.uid));
        var createErr := if run.spec.schedule.Some? then cluster.CreateError(CronJobKind, key, key in old(cluster.cronJobs))
                         else cluster.CreateError(JobKind, key, key in old(cluster.jobs));
        conf.Success? && createErr.None? ==>
          && err == old(StatusWriteError(cluster, RunKey(run.Snapshot())))
          && cluster.runs == if err.None? then old(cluster.runs)[RunKey(run.Snapshot()) := run.Snapshot()]
                             else old(cluster.runs)
    {
      var confResult := cluster.ReadConfig(ConfigKey(run.spec));
      if confResult.Failure? {
        return Some(confResult.error);
      }
      run.ready := Some(Creating);
      var jobName := JobNames.ComputeJobName(JobNamePrefix, run.meta.name, run.meta.uid);
      err := CreateJobOrCronJob(cluster, jobName, run.Snapshot(), confResult.value, serviceAccount);
      if err.Some? {
        return;
      }
      var lookup := GetJob(cluster, jobName, run.Snapshot());
      run.jobStatus := JobStatusOf(lookup);
      err := UpdateStatus(cluster, run.Snapshot());
    }

    /**
     * Update (controller.go:276-307): nothing without a recorded job status;
     * otherwise delete the run if the policy says so for the recorded
     * status, or else delete the workload with Background propagation so
     * that the next pass creates it afresh.
     */
    method Update(run: RunObject) returns (err: Option<Error>)
      modifies cluster`runs, cluster`jobs, cluster`cronJobs, cluster`deleteLog
      ensures var conf := cluster.ReadConfig(ConfigKey(run.spec));
        conf.Failure? ==> err == Some(conf.error) && unchanged(cluster)
      ensures cluster.ReadConfig(ConfigKey(run.spec)).Success? && run.jobStatus.None? ==>
        err.None? && unchanged(cluster)
      ensures var conf := cluster.ReadConfig(ConfigKey(run.spec));
        conf.Success? && run.jobStatus.Some? && AutoDelete(conf.value, ComputeJobStatus(run.jobStatus.value)) ==>
          var runKey := RunKey(run.Snapshot());
          && cluster.deleteLog == old(cluster.deleteLog) + [DeleteRequest(RunKind, runKey, DefaultPropagation)]
          && err == cluster.DeleteError(RunKind, runKey, runKey in old(cluster.runs))
          && cluster.runs == (if err.None? then old(cluster.runs) - {runKey} else old(cluster.runs))
          && cluster.jobs == old(cluster.jobs) && cluster.cronJobs == old(cluster.cronJobs)
      ensures var conf := cluster.ReadConfig(ConfigKey(run.spec));
        conf.Success? && run.jobStatus.Some? && !AutoDelete(conf.value, ComputeJobStatus(run.jobStatus.value)) ==>
          var key := WorkloadKey(run.Snapshot(), JobNames.JobName(JobNamePrefix, run.meta.name, run.meta.uid));
          var kind := if run.spec.schedule.Some? then CronJobKind else JobKind;
          && cluster.deleteLog == old(cluster.deleteLog) + [DeleteRequest(kind, key, Background)]
          && cluster.runs == old(cluster.runs)
          && (run.spec.schedule.Some? ==>
                && err == cluster.DeleteError(CronJobKind, key, key in old(cluster.cronJobs))
                && cluster.cronJobs == (if err.None? then old(cluster.cronJobs) - {key} else old(cluster.cronJobs))
                && cluster.jobs == old(cluster.jobs))
          && (run.spec.schedule.None? ==>
                && err == cluster.DeleteError(JobKind, key, key in old(cluster.jobs))
                && cluster.jobs == (if err.None? then old(cluster.jobs) - {key} else old(cluster.jobs))
                && cluster.cronJobs == old(cluster.cronJobs))
    {
      var confResult := cluster.ReadConfig(ConfigKey(run.spec));
      if confResult.Failure? {
        return Some(confResult.error);
      }
      err := None;
      if run.jobStatus.Some? {
        if AutoDelete(confResult.value, ComputeJobStatus(run.jobStatus.value)) {
          err := DeleteRun(cluster, run.Snapshot());
        } else {
          var jobName := JobNames.ComputeJobName(JobNamePrefix, run.meta.name, run.meta.uid);
          err := DeleteJob(cluster, run.Snapshot(), jobName, true);
        }
      }
    }

    /**
     * Delete (controller.go:309-345): resolve the config (its failure is the
     * error), mark the run Deleting and delete the workload, with Background
     * propagation exactly when a job status is recorded and the policy says
     * delete for it.
     */
    method Delete(run: RunObject) returns (err: Option<Error>)
      modifies run`ready, cluster`jobs, cluster`cronJobs, cluster`deleteLog
      ensures var conf := cluster.ReadConfig(ConfigKey(run.spec));
        conf.Failure? ==> err == Some(conf.error) && unchanged(run, cluster)
      ensures var conf := cluster.ReadConfig(ConfigKey(run.spec));
        conf.Success? ==>
          var key := WorkloadKey(run.Snapshot(), JobNames.JobName(JobNamePrefix, run.meta.name, run.meta.uid));
          var propagate := run.jobStatus.Some? && AutoDelete(conf.value, ComputeJobStatus(run.jobStatus.value));
          var kind := if run.spec.schedule.Some? then CronJobKind else JobKind;
          && run.ready == Some(Deleting)
          && cluster.deleteLog == old(cluster.deleteLog) + [DeleteRequest(kind, key, PropagationOf(propagate))]
          && (run.spec.schedule.Some? ==>
                && err == cluster.DeleteError(CronJobKind, key, key in old(cluster.cronJobs))
                && cluster.cronJobs == (if err.None? then old(cluster.cronJobs) - {key} else old(cluster.cronJobs))
                && cluster.jobs == old(cluster.jobs))
          && (run.spec.schedule.None? ==>
                && err == cluster.DeleteError(JobKind, key, key in old(cluster.jobs))
                && cluster.jobs == (if err.None? then old(cluster.jobs) - {key} else old(cluster.jobs))
                && cluster.cronJobs == old(cluster.cronJobs))
    {
      var confResult := cluster.ReadConfig(ConfigKey(run.spec));
      if confResult.Failure? {
        return Some(confResult.error);
      }
      run.ready := Some(Deleting);
      var jobName := JobNames.ComputeJobName(JobNamePrefix, run.meta.name, run.meta.uid);
      if run.jobStatus.Some? {
        if AutoDelete(confResult.value, ComputeJobStatus(run.jobStatus.value)) {
          err := DeleteJob(cluster, run.Snapshot(), jobName, true);
        } else {
          err := DeleteJob(cluster, run.Snapshot(), jobName, false);
        }
      } else {
        err := DeleteJob(cluster, run.Snapshot(), jobName, false);
      }
    }
  }
}

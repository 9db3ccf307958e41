/**
 * The workload helpers of the controller (internal/controller/util.go): the
 * Job and CronJob it materialises for a run, how it finds the Job to observe,
 * how it deletes the workload, the ConfigMap that carries the contract, and
 * the writes of the run itself. Every store call goes to an explicit Cluster.
 */
module Workload {
  import opened Wrappers
  import opened Api
  import opened Store

  const ContainerName := "inference"
  const ContractVolume := "contract"
  const ContractMountPath := "/tmp"
  const ContractKey := "contract.json"
  /** TTLSecondsAfterFinished of a workload whose run has an auto-delete policy other than None. */
  const TtlAfterFinished := 300

  function RunKey(run: InferenceRun): Key {
    Key(run.meta.namespace, run.meta.name)
  }

  /** Every workload object of a run lives in the run's namespace. */
  function WorkloadKey(run: InferenceRun, name: string): Key {
    Key(run.meta.namespace, name)
  }

  function EmptyJobStatus(): BatchJobStatus {
    BatchJobStatus(0, 0, 0, [])
  }

  /** The controller reference to the run (metav1.NewControllerRef). */
  function ControllerRef(owner: ObjectMeta): (o: OwnerReference)
    ensures o.kind == "InferenceRun" && o.name == owner.name && o.uid == owner.uid
    ensures o.controller && o.blockOwnerDeletion
  {
    OwnerReference("ai.krateo.io/v1", "InferenceRun", owner.name, owner.uid, true, true)
  }

  /**
   * getJobSpec (util.go:259-303): one completion, one container "inference"
   * that always pulls the configured image and mounts the volume "contract"
   * at /tmp, that volume sourced from the ConfigMap named after the job,
   * restart policy Never, and nothing yet about deadline, TTL or pull secrets.
   */
  function GetJobSpec(jobName: string, conf: InferenceConfigSpec, serviceAccount: string): (s: JobSpec)
    ensures s.completions == Some(1)
    ensures |s.template.containers| == 1
    ensures var c := s.template.containers[0];
      && c.name == ContainerName && c.image == conf.image && c.imagePullPolicy == PullAlways
      && c.volumeMounts == [VolumeMount(ContractVolume, ContractMountPath)]
      && c.env == [EnvVar("pod_uid", "metadata.uid")]
    ensures s.template.volumes == [Volume(ContractVolume, jobName)]
    ensures s.template.restartPolicy == RestartNever
    ensures s.template.serviceAccountName == serviceAccount
    ensures s.activeDeadlineSeconds.None? && s.ttlSecondsAfterFinished.None? && s.template.imagePullSecrets.None?
  {
    JobSpec(
      Some(1),
      None,
      None,
      PodSpec(
        [Container(ContainerName, conf.image, PullAlways,
                   [VolumeMount(ContractVolume, ContractMountPath)],
                   [EnvVar("pod_uid", "metadata.uid")])],
        [Volume(ContractVolume, jobName)],
        RestartNever,
        serviceAccount,
        None))
  }

  /**
   * What createJob and createCronJob promise of the job spec: it is
   * getJobSpec's, except that the active deadline is the run's timeout iff
   * that is non-zero, the pull secret is the credentials reference's name
   * iff there is one, and the TTL is 300 iff the policy is set and not None.
   */
  ghost predicate JobSpecFor(s: JobSpec, jobName: string, run: InferenceRun, conf: InferenceConfigSpec, serviceAccount: string) {
    && s.(activeDeadlineSeconds := None, ttlSecondsAfterFinished := None, template := s.template.(imagePullSecrets := None))
       == GetJobSpec(jobName, conf, serviceAccount)
    && (s.activeDeadlineSeconds.Some? <==> run.spec.timeoutSeconds != 0)
    && (s.activeDeadlineSeconds.Some? ==> s.activeDeadlineSeconds.value == run.spec.timeoutSeconds)
    && (s.template.imagePullSecrets.Some? <==> conf.credentialsRef.Some?)
    && (s.template.imagePullSecrets.Some? ==> s.template.imagePullSecrets.value == [conf.credentialsRef.value.name])
    && (s.ttlSecondsAfterFinished.Some? <==> conf.autoDeletePolicy.Some? && conf.autoDeletePolicy.value != PolicyNone)
    && (s.ttlSecondsAfterFinished.Some? ==> s.ttlSecondsAfterFinished.value == TtlAfterFinished)
  }

  /** The Job createJob materialises: named after the job, owned by the run, with no status yet. */
  ghost predicate JobFor(job: Job, jobName: string, run: InferenceRun, conf: InferenceConfigSpec, serviceAccount: string) {
    && job.name == jobName
    && job.ownerReferences == [ControllerRef(run.meta)]
    && JobSpecFor(job.spec, jobName, run, conf, serviceAccount)
    && job.status == EmptyJobStatus()
  }

  /** The CronJob createCronJob materialises: the run's schedule around a template built as for a Job. */
  ghost predicate CronJobFor(cronJob: CronJob, jobName: string, run: InferenceRun, conf: InferenceConfigSpec, serviceAccount: string) {
    && run.spec.schedule.Some?
    && cronJob.name == jobName
    && cronJob.ownerReferences == [ControllerRef(run.meta)]
    && cronJob.schedule == run.spec.schedule.value
    && JobSpecFor(cronJob.jobTemplate, jobName, run, conf, serviceAccount)
    && cronJob.active == []
  }

  /** The contract ConfigMap: one binary key, contract.json, owned by the run. */
  function ContractConfigMap(name: string, contract: seq<byte>, owner: ObjectMeta): (cm: ConfigMap)
    ensures cm.name == name && cm.ownerReferences == [ControllerRef(owner)]
    ensures cm.binaryData.Keys == {ContractKey} && cm.binaryData[ContractKey] == contract
  {
    ConfigMap(name, [ControllerRef(owner)], map[ContractKey := contract])
  }

  /** The build half of createJob (util.go:74-97): getJobSpec, then the conditional overwrites. */
  method BuildJob(jobName: string, run: InferenceRun, conf: InferenceConfigSpec, serviceAccount: string)
    returns (job: Job)
    ensures JobFor(job, jobName, run, conf, serviceAccount)
  {
    job := Job(jobName, [ControllerRef(run.meta)], GetJobSpec(jobName, conf, serviceAccount), EmptyJobStatus());
    if run.spec.timeoutSeconds != 0 {
      job := job.(spec := job.spec.(activeDeadlineSeconds := Some(run.spec.timeoutSeconds)));
    }
    if conf.credentialsRef.Some? {
      job := job.(spec := job.spec.(template := job.spec.template.(imagePullSecrets := Some([conf.credentialsRef.value.name]))));
    }
    if conf.autoDeletePolicy.Some? {
      if conf.autoDeletePolicy.value != PolicyNone {
        job := job.(spec := job.spec.(ttlSecondsAfterFinished := Some(TtlAfterFinished)));
      }
    }
  }

  /** The build half of createCronJob (util.go:115-143): the same overwrites, on the job template. */
  method BuildCronJob(jobName: string, run: InferenceRun, conf: InferenceConfigSpec, serviceAccount: string)
    returns (cronJob: CronJob)
    requires run.spec.schedule.Some?
    ensures CronJobFor(cronJob, jobName, run, conf, serviceAccount)
  {
    cronJob := CronJob(jobName, [ControllerRef(run.meta)], run.spec.schedule.value, GetJobSpec(jobName, conf, serviceAccount), []);
    if run.spec.timeoutSeconds != 0 {
      cronJob := cronJob.(jobTemplate := cronJob.jobTemplate.(activeDeadlineSeconds := Some(run.spec.timeoutSeconds)));
    }
    if conf.credentialsRef.Some? {
      cronJob := cronJob.(jobTemplate := cronJob.jobTemplate.(
        template := cronJob.jobTemplate.template.(imagePullSecrets := Some([conf.credentialsRef.value.name]))));
    }
    if conf.autoDeletePolicy.Some? {
      if conf.autoDeletePolicy.value != PolicyNone {
        cronJob := cronJob.(jobTemplate := cronJob.jobTemplate.(ttlSecondsAfterFinished := Some(TtlAfterFinished)));
      }
    }
  }

  /** The job spec promised above is unique: the builders leave nothing unspecified. */
  lemma JobSpecForIsUnique(s1: JobSpec, s2: JobSpec, jobName: string, run: InferenceRun,
                           conf: InferenceConfigSpec, serviceAccount: string)
    requires JobSpecFor(s1, jobName, run, conf, serviceAccount)
    requires JobSpecFor(s2, jobName, run, conf, serviceAccount)
    ensures s1 == s2
  {
  }

  /** createJob (util.go:64-103): create the built Job under the job name in the run's namespace. */
  method CreateJob(c: Cluster, jobName: string, run: InferenceRun, conf: InferenceConfigSpec, serviceAccount: string)
    returns (err: Option<Error>)
    modifies c`jobs
    ensures var key := WorkloadKey(run, jobName);
      && err == c.CreateError(JobKind, key, key in old(c.jobs))
      && (err.Some? ==> c.jobs == old(c.jobs))
      && (err.None? ==> key in c.jobs && c.jobs == old(c.jobs)[key := c.jobs[key]]
                        && JobFor(c.jobs[key], jobName, run, conf, serviceAccount))
  {
    var job := BuildJob(jobName, run, conf, serviceAccount);
    err := c.CreateJob(WorkloadKey(run, jobName), job);
  }

  /** createCronJob (util.go:105-149): create the built CronJob under the job name. */
  method CreateCronJob(c: Cluster, jobName: string, run: InferenceRun, conf: InferenceConfigSpec, serviceAccount: string)
    returns (err: Option<Error>)
    requires run.spec.schedule.Some?
    modifies c`cronJobs
    ensures var key := WorkloadKey(run, jobName);
      && err == c.CreateError(CronJobKind, key, key in old(c.cronJobs))
      && (err.Some? ==> c.cronJobs == old(c.cronJobs))
      && (err.None? ==> key in c.cronJobs && c.cronJobs == old(c.cronJobs)[key := c.cronJobs[key]]
                        && CronJobFor(c.cronJobs[key], jobName, run, conf, serviceAccount))
  {
    var cronJob := BuildCronJob(jobName, run, conf, serviceAccount);
    err := c.CreateCronJob(WorkloadKey(run, jobName), cronJob);
  }

  /** createJobOrCronJob (util.go:56-62): a CronJob iff the run has a schedule, otherwise a Job. */
  method CreateJobOrCronJob(c: Cluster, jobName: string, run: InferenceRun, conf: InferenceConfigSpec, serviceAccount: string)
    returns (err: Option<Error>)
    modifies c`jobs, c`cronJobs
    ensures var key := WorkloadKey(run, jobName);
      if run.spec.schedule.Some? then
        && c.jobs == old(c.jobs)
        && err == c.CreateError(CronJobKind, key, key in old(c.cronJobs))
        && (err.Some? ==> c.cronJobs == old(c.cronJobs))
        && (err.None? ==> key in c.cronJobs && c.cronJobs == old(c.cronJobs)[key := c.cronJobs[key]]
                          && CronJobFor(c.cronJobs[key], jobName, run, conf, serviceAccount))
      else
        && c.cronJobs == old(c.cronJobs)
        && err == c.CreateError(JobKind, key, key in old(c.jobs))
        && (err.Some? ==> c.jobs == old(c.jobs))
        && (err.None? ==> key in c.jobs && c.jobs == old(c.jobs)[key := c.jobs[key]]
                          && JobFor(c.jobs[key], jobName, run, conf, serviceAccount))
  {
    if run.spec.schedule.Some? {
      err := CreateCronJob(c, jobName, run, conf, serviceAccount);
    } else {
      err := CreateJob(c, jobName, run, conf, serviceAccount);
    }
  }

  /** What getJob returns: the Job, the error, and whether the CronJob has no Job yet. */
  datatype JobLookup = JobLookup(job: Option<Job>, err: Option<Error>, notMaterialised: bool)

  /**
   * getJob (util.go:22-54). For a scheduled run it reads the CronJob named
   * jobName and follows the first entry of its active list; with an empty
   * list it reports no Job and raises the not-yet-materialised flag. Every
   * other failure leaves the flag down. A Job is returned iff no error is.
   */
  function GetJob(c: Cluster, jobName: string, run: InferenceRun): (r: JobLookup)
    reads c`jobs, c`cronJobs
    ensures r.job.Some? <==> r.err.None?
    ensures var cron := c.ReadCronJob(WorkloadKey(run, jobName));
      r.notMaterialised <==> run.spec.schedule.Some? && cron.Success? && cron.value.active == []
    ensures r.job.Some? && run.spec.schedule.Some? ==>
      var key := WorkloadKey(run, jobName);
      && key in c.cronJobs && |c.cronJobs[key].active| > 0
      && c.ReadJob(WorkloadKey(run, c.cronJobs[key].active[0])) == Success(r.job.value)
    ensures r.job.Some? && run.spec.schedule.None? ==> c.ReadJob(WorkloadKey(run, jobName)) == Success(r.job.value)
    ensures var read := c.ReadJob(WorkloadKey(run, jobName));
      run.spec.schedule.None? ==>
        && (read.Success? ==> r.job == Some(read.value))
        && (read.Failure? ==> r.err == Some(read.error))
    ensures var cron := c.ReadCronJob(WorkloadKey(run, jobName));
      run.spec.schedule.Some? ==>
        && (cron.Failure? ==> r.err == Some(cron.error))
        && (cron.Success? && cron.value.active == [] ==> r.err == Some(NothingActive(WorkloadKey(run, jobName))))
        && (cron.Success? && cron.value.active != [] ==>
              var read := c.ReadJob(WorkloadKey(run, cron.value.active[0]));
              && (read.Success? ==> r.job == Some(read.value))
              && (read.Failure? ==> r.err == Some(read.error)))
  {
    var key := WorkloadKey(run, jobName);
    if run.spec.schedule.Some? then
      match c.ReadCronJob(key)
      case Failure(e) => JobLookup(None, Some(e), false)
      case Success(cronJob) =>
        if |cronJob.active| > 0 then
          match c.ReadJob(WorkloadKey(run, cronJob.active[0]))
          case Failure(e) => JobLookup(None, Some(e), false)
          case Success(job) => JobLookup(Some(job), None, false)
        else JobLookup(None, Some(NothingActive(key)), true)
    else
      match c.ReadJob(key)
      case Failure(e) => JobLookup(None, Some(e), false)
      case Success(job) => JobLookup(Some(job), None, false)
  }

  function PropagationOf(propagate: bool): Propagation {
    if propagate then Background else DefaultPropagation
  }

  /**
   * deleteJob (util.go:173-198): deletes the CronJob iff the run has a
   * schedule, else the Job; propagate asks for Background propagation,
   * otherwise the default options are sent.
   */
  method DeleteJob(c: Cluster, run: InferenceRun, jobName: string, propagate: bool) returns (err: Option<Error>)
    modifies c`jobs, c`cronJobs, c`deleteLog
    ensures var key := WorkloadKey(run, jobName);
      if run.spec.schedule.Some? then
        && c.deleteLog == old(c.deleteLog) + [DeleteRequest(CronJobKind, key, PropagationOf(propagate))]
        && err == c.DeleteError(CronJobKind, key, key in old(c.cronJobs))
        && c.cronJobs == (if err.None? then old(c.cronJobs) - {key} else old(c.cronJobs))
        && c.jobs == old(c.jobs)
      else
        && c.deleteLog == old(c.deleteLog) + [DeleteRequest(JobKind, key, PropagationOf(propagate))]
        && err == c.DeleteError(JobKind, key, key in old(c.jobs))
        && c.jobs == (if err.None? then old(c.jobs) - {key} else old(c.jobs))
        && c.cronJobs == old(c.cronJobs)
  {
    var propagation := DefaultPropagation;
    if propagate {
      propagation := Background;
    }
    if run.spec.schedule.Some? {
      err := c.DeleteCronJob(WorkloadKey(run, jobName), propagation);
    } else {
      err := c.DeleteJob(WorkloadKey(run, jobName), propagation);
    }
  }

  /**
   * createOrUpdateConfigMap (util.go:200-235): try to create the contract
   * ConfigMap and, on any create error, update it instead. It fails only if
   * both fail, reporting both errors; on success the ConfigMap holds exactly
   * the contract under contract.json.
   */
  method CreateOrUpdateConfigMap(c: Cluster, name: string, namespace: string, contract: seq<byte>, run: InferenceRun)
    returns (err: Option<Error>)
    modifies c`configMaps
    ensures var key := Key(namespace, name);
      var createErr := c.CreateError(ConfigMapKind, key, key in old(c.configMaps));
      var updateErr := c.UpdateError(ConfigMapKind, key, key in old(c.configMaps));
      && (err.None? <==> createErr.None? || updateErr.None?)
      && (err.Some? ==> err == Some(Both(createErr.value, updateErr.value)))
      && err == old(UpsertError(c, key))
      && c.configMaps == if err.None? then old(c.configMaps)[key := ContractConfigMap(name, contract, run.meta)] else old(c.configMaps)
  {
    var cm := ContractConfigMap(name, contract, run.meta);
    var key := Key(namespace, name);
    err := c.CreateConfigMap(key, cm);
    if err.Some? {
      var updateErr := c.UpdateConfigMap(key, cm);
      if updateErr.Some? {
        return Some(Both(err.value, updateErr.value));
      }
      err := None;
    }
  }

  /** The error the contract upsert at key ends with, in the store's current state. */
  function UpsertError(c: Cluster, key: Key): Option<Error>
    reads c`configMaps
  {
    var createErr := c.CreateError(ConfigMapKind, key, key in c.configMaps);
    var updateErr := c.UpdateError(ConfigMapKind, key, key in c.configMaps);
    if createErr.None? || updateErr.None? then None else Some(Both(createErr.value, updateErr.value))
  }

  /** Without a fault on the ConfigMap, the upsert succeeds whether or not the ConfigMap existed. */
  lemma UpsertSucceedsWithoutFaults(c: Cluster, key: Key, present: bool)
    requires Fault(Create, ConfigMapKind, key) !in c.faults && Fault(Update, ConfigMapKind, key) !in c.faults
    ensures c.CreateError(ConfigMapKind, key, present).None? || c.UpdateError(ConfigMapKind, key, present).None?
  {
  }

  /** The error writing the run at key ends with: the read for the resource version, then the update. */
  function StatusWriteError(c: Cluster, key: Key): Option<Error>
    reads c`runs
  {
    var getErr := c.GetError(RunKind, key, key in c.runs);
    if getErr.Some? then getErr else c.UpdateError(RunKind, key, true)
  }

  /**
   * updateStatus (util.go:151-171): read the run for its resource version,
   * then write the whole run back; either step can fail.
   */
  method UpdateStatus(c: Cluster, run: InferenceRun) returns (err: Option<Error>)
    modifies c`runs
    ensures var key := RunKey(run);
      var getErr := c.GetError(RunKind, key, key in old(c.runs));
      && err == (if getErr.Some? then getErr else c.UpdateError(RunKind, key, true))
      && err == old(StatusWriteError(c, key))
      && c.runs == if err.None? then old(c.runs)[key := run] else old(c.runs)
  {
    var current := c.ReadRun(RunKey(run));
    if current.Failure? {
      return Some(current.error);
    }
    err := c.UpdateRun(RunKey(run), run);
  }

  /** deleteRun (util.go:237-257): delete the run itself, with default options. */
  method DeleteRun(c: Cluster, run: InferenceRun) returns (err: Option<Error>)
    modifies c`runs, c`deleteLog
    ensures var key := RunKey(run);
      && c.deleteLog == old(c.deleteLog) + [DeleteRequest(RunKind, key, DefaultPropagation)]
      && err == c.DeleteError(RunKind, key, key in old(c.runs))
      && c.runs == if err.None? then old(c.runs) - {key} else old(c.runs)
  {
    err := c.DeleteRun(RunKey(run));
  }
}

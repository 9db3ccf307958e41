/**
 * The object store the controller talks to, as an in-memory cluster: one map
 * per resource kind, keyed by namespace and name. Requests the store rejects
 * for reasons the model does not see (transport, permission, validation) are
 * given up front as a set of faults; requests that are not faulted fail only
 * for their own reason (the object is missing, or already exists).
 */
module Store {
  import opened Wrappers
  import opened Api

  datatype Key = Key(namespace: string, name: string)

  datatype Kind = RunKind | ConfigKind | JobKind | CronJobKind | ConfigMapKind

  datatype Verb = Get | Create | Update | Delete

  /** A request the store rejects. */
  datatype Fault = Fault(verb: Verb, kind: Kind, key: Key)

  datatype Error =
    | NotFound(kind: Kind, key: Key)
    | AlreadyExists(kind: Kind, key: Key)
    | Rejected(fault: Fault)
    | NothingActive(cronJob: Key)
    | MarshalFailed
    | Both(first: Error, second: Error)

  /** Deletion propagation: the client default, or Background propagation to dependents. */
  datatype Propagation = DefaultPropagation | Background

  datatype DeleteRequest = DeleteRequest(kind: Kind, key: Key, propagation: Propagation)

  class Cluster {
    const faults: set<Fault>
    const configs: map<Key, InferenceConfigSpec>
    var runs: map<Key, InferenceRun>
    var jobs: map<Key, Job>
    var cronJobs: map<Key, CronJob>
    var configMaps: map<Key, ConfigMap>
    /** Every delete request the store has received, in order. */
    var deleteLog: seq<DeleteRequest>

    constructor (faults: set<Fault>, configs: map<Key, InferenceConfigSpec>, runs: map<Key, InferenceRun>,
                 jobs: map<Key, Job>, cronJobs: map<Key, CronJob>, configMaps: map<Key, ConfigMap>)
      ensures this.faults == faults && this.configs == configs && this.runs == runs
      ensures this.jobs == jobs && this.cronJobs == cronJobs && this.configMaps == configMaps
      ensures deleteLog == []
    {
      this.faults, this.configs, this.runs := faults, configs, runs;
      this.jobs, this.cronJobs, this.configMaps := jobs, cronJobs, configMaps;
      deleteLog := [];
    }

    function GetError(kind: Kind, key: Key, present: bool): Option<Error> {
      if Fault(Get, kind, key) in faults then Some(Rejected(Fault(Get, kind, key)))
      else if !present then Some(NotFound(kind, key))
      else None
    }

    function CreateError(kind: Kind, key: Key, present: bool): Option<Error> {
      if Fault(Create, kind, key) in faults then Some(Rejected(Fault(Create, kind, key)))
      else if present then Some(AlreadyExists(kind, key))
      else None
    }

    function UpdateError(kind: Kind, key: Key, present: bool): Option<Error> {
      if Fault(Update, kind, key) in faults then Some(Rejected(Fault(Update, kind, key)))
      else if !present then Some(NotFound(kind, key))
      else None
    }

    function DeleteError(kind: Kind, key: Key, present: bool): Option<Error> {
      if Fault(Delete, kind, key) in faults then Some(Rejected(Fault(Delete, kind, key)))
      else if !present then Some(NotFound(kind, key))
      else None
    }

    function ReadConfig(key: Key): Result<InferenceConfigSpec, Error> {
      var e := GetError(ConfigKind, key, key in configs);
      if e.Some? then Failure(e.value) else Success(configs[key])
    }

    function ReadRun(key: Key): Result<InferenceRun, Error>
      reads this`runs
    {
      var e := GetError(RunKind, key, key in runs);
      if e.Some? then Failure(e.value) else Success(runs[key])
    }

    function ReadJob(key: Key): Result<Job, Error>
      reads this`jobs
    {
      var e := GetError(JobKind, key, key in jobs);
      if e.Some? then Failure(e.value) else Success(jobs[key])
    }

    function ReadCronJob(key: Key): Result<CronJob, Error>
      reads this`cronJobs
    {
      var e := GetError(CronJobKind, key, key in cronJobs);
      if e.Some? then Failure(e.value) else Success(cronJobs[key])
    }

    method UpdateRun(key: Key, run: InferenceRun) returns (err: Option<Error>)
      modifies this`runs
      ensures err == UpdateError(RunKind, key, key in old(runs))
      ensures runs == if err.None? then old(runs)[key := run] else old(runs)
    {
      err := UpdateError(RunKind, key, key in runs);
      if err.None? {
        runs := runs[key := run];
      }
    }

    method DeleteRun(key: Key) returns (err: Option<Error>)
      modifies this`runs, this`deleteLog
      ensures deleteLog == old(deleteLog) + [DeleteRequest(RunKind, key, DefaultPropagation)]
      ensures err == DeleteError(RunKind, key, key in old(runs))
      ensures runs == if err.None? then old(runs) - {key} else old(runs)
    {
      deleteLog := deleteLog + [DeleteRequest(RunKind, key, DefaultPropagation)];
      err := DeleteError(RunKind, key, key in runs);
      if err.None? {
        runs := runs - {key};
      }
    }

    method CreateJob(key: Key, job: Job) returns (err: Option<Error>)
      modifies this`jobs
      ensures err == CreateError(JobKind, key, key in old(jobs))
      ensures jobs == if err.None? then old(jobs)[key := job] else old(jobs)
    {
      err := CreateError(JobKind, key, key in jobs);
      if err.None? {
        jobs := jobs[key := job];
      }
    }

    method DeleteJob(key: Key, propagation: Propagation) returns (err: Option<Error>)
      modifies this`jobs, this`deleteLog
      ensures deleteLog == old(deleteLog) + [DeleteRequest(JobKind, key, propagation)]
      ensures err == DeleteError(JobKind, key, key in old(jobs))
      ensures jobs == if err.None? then old(jobs) - {key} else old(jobs)
    {
      deleteLog := deleteLog + [DeleteRequest(JobKind, key, propagation)];
      err := DeleteError(JobKind, key, key in jobs);
      if err.None? {
        jobs := jobs - {key};
      }
    }

    method CreateCronJob(key: Key, cronJob: CronJob) returns (err: Option<Error>)
      modifies this`cronJobs
      ensures err == CreateError(CronJobKind, key, key in old(cronJobs))
      ensures cronJobs == if err.None? then old(cronJobs)[key := cronJob] else old(cronJobs)
    {
      err := CreateError(CronJobKind, key, key in cronJobs);
      if err.None? {
        cronJobs := cronJobs[key := cronJob];
      }
    }

    method DeleteCronJob(key: Key, propagation: Propagation) returns (err: Option<Error>)
      modifies this`cronJobs, this`deleteLog
      ensures deleteLog == old(deleteLog) + [DeleteRequest(CronJobKind, key, propagation)]
      ensures err == DeleteError(CronJobKind, key, key in old(cronJobs))
      ensures cronJobs == if err.None? then old(cronJobs) - {key} else old(cronJobs)
    {
      deleteLog := deleteLog + [DeleteRequest(CronJobKind, key, propagation)];
      err := DeleteError(CronJobKind, key, key in cronJobs);
      if err.None? {
        cronJobs := cronJobs - {key};
      }
    }

    method CreateConfigMap(key: Key, cm: ConfigMap) returns (err: Option<Error>)
      modifies this`configMaps
      ensures err == CreateError(ConfigMapKind, key, key in old(configMaps))
      ensures configMaps == if err.None? then old(configMaps)[key := cm] else old(configMaps)
    {
      err := CreateError(ConfigMapKind, key, key in configMaps);
      if err.None? {
        configMaps := configMaps[key := cm];
      }
    }

    method UpdateConfigMap(key: Key, cm: ConfigMap) returns (err: Option<Error>)
      modifies this`configMaps
      ensures err == UpdateError(ConfigMapKind, key, key in old(configMaps))
      ensures configMaps == if err.None? then old(configMaps)[key := cm] else old(configMaps)
    {
      err := UpdateError(ConfigMapKind, key, key in configMaps);
      if err.None? {
        configMaps := configMaps[key := cm];
      }
    }
  }
}

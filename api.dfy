/**
 * The resources the controller reads and writes: the InferenceRun and
 * InferenceConfig custom resources (api/v1), the contract handed to the
 * workload (internal/helpers/job/contract.go), and the parts of the batch
 * and core Kubernetes objects (Job, CronJob, ConfigMap) that the controller
 * sets or reads.
 */
module Api {
  import opened Wrappers

  newtype byte = b: int | 0 <= b < 256

  /** A reference to another object by name and namespace. */
  datatype ObjectRef = ObjectRef(name: string, namespace: string)

  /** The values the CRD admits, plus any other string the Go type could hold. */
  datatype AutoDeletePolicy = PolicyNone | DeleteOnCompletion | DeleteOnSuccess | Unrecognized(value: string)

  datatype KServeSpec = KServeSpec(modelName: string, modelUrl: string, modelVersion: string, modelInputName: string)

  /** Storage label to raw JSON, as kept by runtime.RawExtension. */
  type StorageMap = map<string, seq<byte>>

  datatype InferenceConfigSpec = InferenceConfigSpec(
    kserve: KServeSpec,
    autoDeletePolicy: Option<AutoDeletePolicy>,
    input: StorageMap,
    output: StorageMap,
    image: string,
    credentialsRef: Option<ObjectRef>)

  datatype InferenceRunSpec = InferenceRunSpec(
    configRef: ObjectRef,
    timeoutSeconds: int,
    parameters: Option<map<string, string>>,
    schedule: Option<string>)

  /** Status of one condition of a batch Job. */
  datatype ConditionStatus = CondTrue | CondFalse | CondUnknown

  datatype JobCondition = JobCondition(status: ConditionStatus, message: string)

  /** The batch Job status the controller mirrors and classifies. */
  datatype BatchJobStatus = BatchJobStatus(active: int, succeeded: int, failed: int, conditions: seq<JobCondition>)

  /** The reason of the run's Ready condition; setting one replaces the previous one. */
  datatype ReadyReason = Creating | Available | Deleting

  datatype InferenceRunStatus = InferenceRunStatus(
    ready: Option<ReadyReason>,
    contract: seq<byte>,
    jobStatus: Option<BatchJobStatus>)

  datatype ObjectMeta = ObjectMeta(name: string, namespace: string, uid: string)

  datatype InferenceRun = InferenceRun(meta: ObjectMeta, spec: InferenceRunSpec, status: InferenceRunStatus)

  /** The execution contract handed to the workload. */
  datatype ContractSpec = ContractSpec(
    jobId: string,
    jobName: string,
    kserve: KServeSpec,
    input: StorageMap,
    output: StorageMap,
    parameters: Option<map<string, string>>)

  /** A controller owner reference, as metav1.NewControllerRef builds it. */
  datatype OwnerReference = OwnerReference(
    apiVersion: string, kind: string, name: string, uid: string, controller: bool, blockOwnerDeletion: bool)

  datatype PullPolicy = PullAlways | PullIfNotPresent | PullNever

  datatype RestartPolicy = RestartAlways | RestartOnFailure | RestartNever

  datatype VolumeMount = VolumeMount(name: string, mountPath: string)

  /** An environment variable taken from a field of the pod. */
  datatype EnvVar = EnvVar(name: string, fieldPath: string)

  datatype Container = Container(
    name: string, image: string, imagePullPolicy: PullPolicy, volumeMounts: seq<VolumeMount>, env: seq<EnvVar>)

  /** A volume sourced from the ConfigMap of the given name. */
  datatype Volume = Volume(name: string, configMapName: string)

  datatype PodSpec = PodSpec(
    containers: seq<Container>,
    volumes: seq<Volume>,
    restartPolicy: RestartPolicy,
    serviceAccountName: string,
    imagePullSecrets: Option<seq<string>>)

  datatype JobSpec = JobSpec(
    completions: Option<int>,
    activeDeadlineSeconds: Option<int>,
    ttlSecondsAfterFinished: Option<int>,
    template: PodSpec)

  datatype Job = Job(name: string, ownerReferences: seq<OwnerReference>, spec: JobSpec, status: BatchJobStatus)

  /** A CronJob; `active` names the Jobs it currently runs. */
  datatype CronJob = CronJob(
    name: string, ownerReferences: seq<OwnerReference>, schedule: string, jobTemplate: JobSpec, active: seq<string>)

  datatype ConfigMap = ConfigMap(name: string, ownerReferences: seq<OwnerReference>, binaryData: map<string, seq<byte>>)
}

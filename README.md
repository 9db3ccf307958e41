# kserve-controller, modelled in Dafny

This project models the core of the kserve-controller: the reconciler of the
`InferenceRun` custom resource. An InferenceRun refers to an InferenceConfig
(model endpoint, storage, image, credentials, auto-delete policy). For each run
the controller does the following:

- derives a DNS-label workload name from the run's name and uid;
- builds the execution contract and serialises it into a ConfigMap;
- materialises a batch Job, or a CronJob for a scheduled run;
- mirrors the Job's status onto the run;
- deletes the run or its workload according to the auto-delete policy.

The four verbs the managed-resource runtime calls are Observe, Create, Update
and Delete. The model also covers the URL normalisation of the inference
runner.

The modules follow the repository:

- `JobNames` (`job_name.dfy`) is `ComputeJobName` of internal/helpers/util.go.
  Its loops are methods proved equal to the functional definition `JobName`.
  The lemmas state what the name looks like. `JobNameWords`
  (`job_name_words.dfy`) describes the sanitised main part independently, as
  the input's words joined by single hyphens, and proves the scan matches it.
- `Workload` (`workload.dfy`) holds the helpers of internal/controller/util.go:
  the job spec and its conditional overwrites, the Job/CronJob dispatch, the
  job lookup through a CronJob, the deletion and its propagation, the
  contract ConfigMap upsert, and the writes of the run.
- `Controller` (`controller.dfy`) is internal/controller/controller.go. It has:
  - the status classifier and the auto-delete table;
  - the contract assembly;
  - the class `External`, whose methods are the four verbs. The run they
    receive is a `RunObject`, and its condition, contract and job status are
    fields the verbs update.
- `Store` (`store.dfy`) is the object store the controller reaches through the
  Kubernetes clients. The class `Cluster` keeps one map per kind. A set of
  injected faults stands for transport, permission and validation failures.
  A log records every delete request with its propagation policy.
- `Api` (`api.dfy`) holds the resource types of api/v1 and
  internal/helpers/job/contract.go, and the parts of the batch and core
  objects that the controller sets or reads.
- `Runner` (`runner.dfy`) is `normalizeURL` of runners/krateo-iris/main.go.

Strings are modelled as `string` (`seq<char>`). Go strings are byte strings,
but the name derivation keeps only ASCII letters and digits. It collapses
every run of other bytes into one hyphen. A multi-byte character therefore
acts like one non-alphanumeric character. The contract bytes are a `byte`
newtype.

Where the code and the design description of the system disagree, the model
follows the code:

- The main part of the name is cut to 53 characters, because the code
  reserves two hyphens. The name is therefore at most 62 characters, not 63.
- A timeout becomes the active deadline whenever it is non-zero, not only
  when it is positive.
- The ConfigMap upsert falls back to update after any create error, not only
  after "already exists".
- The contract volume mount is not marked read-only.

## Model

| member | source | states |
|---|---|---|
| JobNames.UidSuffix | internal/helpers/util.go:7-19 | the uid suffix is exactly 8 characters, each a lower-case letter or digit |
| JobNames.ExtractUidSuffix | internal/helpers/util.go:7-19 | the two uid loops compute the first eight letters/digits of the uid, lowered and in order, right-padded with '0' |
| JobNames.Alnums | internal/helpers/util.go:8-16 | the letters and digits the derivation keeps are lower-case and no more than the input |
| JobNames.AlnumsAppend | internal/helpers/util.go:8-16 | keeping letters and digits distributes over concatenation |
| JobNames.Scan | internal/helpers/util.go:23-39 | the sanitising scan emits only lower-case letters, digits and hyphens, never a leading hyphen, never two hyphens in a row, and its flag is exactly "ends in a hyphen" |
| JobNames.SanitizeLoop | internal/helpers/util.go:22-39 | the sanitising loop with its lastHyphen flag computes the scan |
| JobNames.ScanKeepsAlnums | internal/helpers/util.go:25-39 | the scan keeps every letter and digit of the input, lowered and in order, and adds only hyphens |
| JobNames.ScanExtends | internal/helpers/util.go:25-39 | the scan only appends: scanning more input extends the output |
| JobNames.TrimHyphens | internal/helpers/util.go:40-42 | trimming leaves a prefix of the input that does not end in a hyphen, and everything removed was a hyphen |
| JobNames.TrimTrailingHyphens | internal/helpers/util.go:40-42 | the trailing-hyphen loop computes the trim |
| JobNames.TrimKeepsAlnums | internal/helpers/util.go:40-42 | trimming loses no letter or digit |
| JobNames.TrimKeepsPrefix | internal/helpers/util.go:40-42 | trimming keeps any prefix that does not end in a hyphen |
| JobNames.Sanitized | internal/helpers/util.go:21-42 | the sanitised main part is a hyphen-safe label fragment that neither starts nor ends with '-' |
| JobNameWords.Words | internal/helpers/util.go:25-38 | the reference for sanitising: the maximal runs of letters and digits, lowered, each non-empty, and there is a last word whenever the input ends in a letter or digit |
| JobNameWords.ScanIsJoinedWords | internal/helpers/util.go:25-39 | the scan writes the words joined by single hyphens, plus one pending hyphen exactly when other characters followed the last word, and the lastHyphen flag is that pending hyphen |
| JobNameWords.SanitizedIsJoinedWords | internal/helpers/util.go:21-42 | the sanitised `prefix-name` is exactly its words joined by single hyphens: one hyphen per run of other characters between two words, none at either end |
| JobNames.SanitizedKeepsAlnums | internal/helpers/util.go:21-42 | sanitising `prefix-name` keeps exactly its letters and digits, lowered, in order |
| JobNames.Truncated | internal/helpers/util.go:47-57 | the cut main part is a prefix of at most 53 characters and stays hyphen-safe with no hyphen at either end |
| JobNames.TruncationKeepsMain | internal/helpers/util.go:53-60 | cutting a non-empty main part loses at most one more character, so the empty-after-truncation fallback cannot fire |
| JobNames.JobName | internal/helpers/util.go:5-64 | the derived name is 8 to 62 characters of lower-case letters, digits and single hyphens, neither first nor last a hyphen |
| JobNames.JobNameFallback | internal/helpers/util.go:43-45 | the name is the uid suffix alone exactly when the sanitised main part is empty |
| JobNames.JobNameShape | internal/helpers/util.go:47-63 | the name ends with the uid suffix; otherwise it is the main part cut to at most 53 characters, then '-', then the suffix |
| JobNames.ControllerJobNamePrefix | internal/helpers/util.go:21-63 | with the controller's prefix "inf" every name starts with "inf-" |
| JobNames.SanitizedInf | internal/helpers/util.go:21-42 | sanitising "inf-" + name starts with "inf", followed by a hyphen when anything follows |
| JobNames.ComputeJobName | internal/helpers/util.go:5-64 | the imperative derivation computes JobName for every input |
| Controller.ComputeJobStatus | internal/controller/controller.go:347-358 | Pending exactly when all counters are zero, Running only with active pods, Unknown only with a negative counter |
| Controller.JobStatusTable | internal/controller/controller.go:347-358 | for non-negative counters Unknown never comes out, and active wins over succeeded, succeeded over failed, in both directions |
| Controller.AutoDelete | internal/controller/controller.go:374-400 | deletion happens iff the policy is DeleteOnCompletion and the job finished, or DeleteOnSuccess and the job succeeded |
| Controller.AutoDeleteOnlyWhenFinished | internal/controller/controller.go:374-400 | only a finished job deletes; DeleteOnSuccess deletes in fewer cases than DeleteOnCompletion; an absent policy or None never deletes |
| Controller.FalseMessagesEmpty | internal/controller/controller.go:177-184 | the accumulated failure text is empty iff no condition is False, and otherwise ends with the separator's blank |
| Controller.FailureMessage | internal/controller/controller.go:177-187 | the message is the False conditions' messages each followed by "; ", and is "unknown error" iff no condition is False |
| Controller.ContractFor | internal/controller/controller.go:125-134 | the contract carries the run's uid as job id, the derived name (a label starting "inf-" and ending with the uid suffix), the config's model and storage, and the run's parameters |
| Controller.ObserveVerdict | internal/controller/controller.go:167-229 | no job status iff no job yet; a failed job iff the status classifies as Failed; the run is auto-deleted iff the status classifies as Succeeded and the policy deletes on success |
| Controller.ObserveLeavesFailedRuns | internal/controller/controller.go:173-192 | Observe never deletes after a failure, even under DeleteOnCompletion, which would delete |
| Controller.External.Prepare | internal/controller/controller.go:116-139 | NoConfig iff the config cannot be read; Unmarshallable iff it can and the contract does not serialise; otherwise the preparation holds the resolved config, the derived name and the contract's serialisation |
| Controller.External.Record | internal/controller/controller.go:144-165 | the run records the fetched job status and the contract, the status is written before the ConfigMap, and a failed write stops the sequence |
| Controller.External.Conclude | internal/controller/controller.go:167-229 | the observation for each verdict: nothing for no status; exists but stale with its failure message for a failed job; a run deletion for an auto-deleted success; otherwise Available, existing and up to date |
| Controller.External.Observe | internal/controller/controller.go:108-230 | without a config nothing is written and the resource does not exist; the status write and the ConfigMap upsert abort on failure; each verdict's observation, condition and store changes, including Available after the run deletes itself |
| Controller.External.Create | internal/controller/controller.go:232-274 | a config error writes nothing; otherwise the run is Creating, the built Job is created, the run is written with the looked-up status; a scheduled run still gets a plain Job |
| Controller.External.CreateWithDispatch | internal/controller/controller.go:232-274 | as Create, but a scheduled run gets the built CronJob and no Job, and records no job status until the CronJob runs one; after any successful create the run is written and the write's error is returned |
| Controller.External.Update | internal/controller/controller.go:276-307 | nothing without a job status; otherwise the run is deleted if the policy says so, else the workload is deleted with Background propagation |
| Controller.External.Delete | internal/controller/controller.go:309-345 | a config error is returned; otherwise the run is Deleting and the workload is deleted with Background propagation iff the cached status and the policy say delete |
| Workload.ControllerRef | internal/controller/util.go:76-79 | the owner reference names the run and is a blocking controller reference |
| Workload.GetJobSpec | internal/controller/util.go:259-304 | one completion, one "inference" container with the config's image pulled Always, the "contract" volume from the ConfigMap named after the job mounted at /tmp, restart Never |
| Workload.BuildJob | internal/controller/util.go:74-97 | the Job is owned by the run and its deadline, pull secret and TTL are set exactly when the timeout is non-zero, credentials are given, and the policy is set and not None |
| Workload.BuildCronJob | internal/controller/util.go:115-143 | the CronJob carries the run's schedule and a job template with the same conditional fields |
| Workload.JobSpecForIsUnique | internal/controller/util.go:74-97 | the conditions on the job spec determine it completely |
| Workload.CreateJob | internal/controller/util.go:64-103 | the built Job is stored under the job name in the run's namespace, or the create error is returned and nothing changes |
| Workload.CreateCronJob | internal/controller/util.go:105-149 | the built CronJob is stored under the job name, or the create error is returned and nothing changes |
| Workload.CreateJobOrCronJob | internal/controller/util.go:56-62 | a CronJob iff the run has a schedule, otherwise a Job; the other kind is untouched |
| Workload.GetJob | internal/controller/util.go:22-54 | a job is returned iff no error is; an unscheduled run gets the stored Job whenever it reads, else that read's error; a scheduled run gets the CronJob read's error, or NothingActive with the not-materialised flag for an empty active list, or else the Job its first active entry names, or that read's error; the flag is raised in no other case |
| Workload.DeleteJob | internal/controller/util.go:173-198 | the CronJob is deleted iff the run has a schedule, else the Job; propagate selects Background, otherwise the default |
| Workload.ContractConfigMap | internal/controller/util.go:200-215 | the ConfigMap has exactly one key, contract.json, holding the contract, and is owned by the run |
| Workload.CreateOrUpdateConfigMap | internal/controller/util.go:200-235 | create, then update on any create error; it fails iff both fail, reporting both errors |
| Workload.UpsertSucceedsWithoutFaults | internal/controller/util.go:226-232 | without an injected fault the upsert succeeds whether or not the ConfigMap existed |
| Workload.UpdateStatus | internal/controller/util.go:151-171 | the run is read for its version and then written whole; either step's error is returned and then nothing changes |
| Workload.DeleteRun | internal/controller/util.go:237-257 | the run is deleted with default options |
| Runner.NormalizeURL | runners/krateo-iris/main.go:269-274 | never an error; the result has an http:// or https:// scheme; it equals the input iff the input has one; otherwise it is "http://" followed by the whole input |
| Runner.NormalizeIdempotent | runners/krateo-iris/main.go:269-274 | normalising twice equals normalising once |

## Left out

- The Kubernetes clients are replaced by the `Cluster` store: rest configuration, clientset creation, the dynamic client, and the conversion from unstructured objects. A failure anywhere in them is one injected fault on the request.
- JSON marshalling of the contract is an opaque function that may fail. JSON round-trips are not modelled.
- Logging, event recording, the runtime's condition helpers (a condition is one `ReadyReason`), Setup, Connect, Disconnect and process bootstrap are not modelled.
- The cast of the managed resource to an InferenceRun, and its failure, are not modelled: every verb receives a run.
- The garbage collector's cascade through owner references and the batch controllers that run Jobs and fill CronJob active lists are not modelled. A delete removes only the named object, and Job status changes only if the caller changes the store.
- The call to `getJob` in controller.go:144 and 258 passes a namespace and expects two results, which does not match the three-result helper at internal/controller/util.go:22. The model follows the helper and ignores its flag.
- The run's job status field is declared as an object reference, yet the code stores and classifies a batch job status. The model keeps the counters and conditions that are classified.
- The run's config reference is modelled as always present. The code would dereference a nil reference.
- Nothing is corrected where Observe goes on after the run deletes itself: the model, like the code, still marks the run Available and reports it existing and up to date.
- Nothing is corrected where Update and Delete classify the job status cached on the run: the model does the same. Observe uses a fresh lookup.
- JobNames.ComputeJobName: the `maxMain < 1` guard is left out. The uid suffix is always 8 characters, so the bound is always 53 and the guard cannot fire.
- Go integer widths are not modelled. Timeouts and counters are unbounded integers; the only conversions are of a non-negative TTL and of the timeout to a 64-bit deadline, which cannot overflow.
- The text of error messages is not modelled. An error is the failed request's kind and key, or both errors of the upsert.
- The runner's input loading, inference call and output storage are HTTP I/O with floating-point payloads, and are not modelled.
- The service account of the workload pods, read from the SA_RUNNER environment variable, is a field of `External`.

## Findings

| source | as written | input that shows it | evidently intended | confidence | as-written member | corrected member |
|---|---|---|---|---|---|---|
| internal/controller/controller.go:251 | Create calls createJob, which always builds a plain Job | a run with a schedule, whose config resolves and whose Job name is free: a Job is created and no CronJob, and the run records no job status | Create dispatches through createJobOrCronJob (internal/controller/util.go:56-62), so a scheduled run gets a CronJob, as the scheduled end-to-end case expects | not executed | Controller.External.Create | Controller.External.CreateWithDispatch |

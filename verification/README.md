# Verified model of the Jira installation operator

The operator installs Jira from a cluster-scoped `Jira` custom resource. One long method, `Reconcile`, creates the
namespace, the database, the Liquibase job, the shared filesystem and the Argo CD ApplicationSet one after the other,
waits for what others provide in between, and returns with a delay after which it is called again. It runs against an
API server whose calls fail, beside providers that change status, users that edit the resource, and a process that can
die at any call. This project models that protocol, the object builders and the ApplicationSet template, and proves
what the operator is for.

## How the model is built

* `Api`, `Builders`, `Template`, `Text`, `Passwords`: the resource, the stored objects, the builders of packages `k8s` and
  `crossplane`, the template with its variables, password generation. `Manifest` takes the rendered document line by line,
  without looking at the template.
* `Plan`: what a pass does, as a sequence of instructions that the spec determines: create, read, wait, write a status
  field, update the secret or the changelog, render, apply, finish. The mount-target loop is unrolled for any number of
  subnets. `Layout` reads the program off position by position.
* `Machine`: a small-step machine over those instructions. An event is the start of a pass, one call of the running pass
  (which may fail without effect, or take effect and lose its reply), an action of the environment, or a crash. `Run`
  folds a sequence of events. History variables record which gates were seen open, how each object that still exists came
  about, the spec of every version of the resource, and the number of secret rewrites.
* `Safety`, `Order`: fixed spec, no deletions. `Soundness`, `Coherence`, `Contents`, `Standing`, `Secrets`: in addition, the
  endpoint and the identifiers are written once. `Frame`, `Accounting`: no such assumption.
* `Ideal`, `CleanPass`, `Refinement`, `Fixpoint`, `Convergence`, `Panics`: passes in which no call fails and nothing else
  happens. `Ideal` says what such a pass does without program counter, locals or versions; `Convergence` counts them in
  runs in which anything else happens too. `Opening` says of each gate when it is open, `Schedule` when a pass comes back and
  `Results` what it leaves, all in terms of the stored objects and in seconds.
* `Witness`: for every resource, a run in which passwords in use are lost. `Arrival`: for every resource, a run that reaches
  the final return.
* `NonInterference`: several resources reconciled side by side in one cluster.
* `Client`, `Observations`, `Controller`: the imperative form. `Cluster` is the API server, the disk and kubectl as an
  object whose calls fail and are preceded by interference as two arbitrary functions of time say; its ghost log keeps what
  the pass has read, the call it made last and whether that failed. `JiraReconciler.Reconcile`
  follows the source statement by statement, with its literal delays. Each of its methods is proved to take the machine
  from one instruction to another or to the exit that the returned value describes; so every theorem about runs holds of
  the object, and an undisturbed call is the ideal pass.

## Findings

* A failed read of the custom resource returns neither an error nor a delay. It is the only exit that does not by itself
  lead to another call of `Reconcile` (`Frame.WakeUpLostOnlyByFailedRead`).
* The error of reading the database secret is dropped. When that read fails, the pass draws new passwords and overwrites
  the ones that jobs and the database may already be using (`Secrets.FailedReadRewritesSecret`). `Witness.PasswordsReplaced`
  gives such a run for every resource.
* The identifier of the filesystem and the state of a mount target are read through pointers that are nil until the
  provider writes them. The pass that creates the filesystem dereferences nil unless the provider is faster
  (`Panics.NewFileSystemPanics`); the same holds of each mount target. `Panics.PassPanicsExactly` says of a whole pass when
  it panics, `Panics.CallPanicsExactly` of a single call.
* `ingress:` is printed right behind the last line of the override text, so it is a key of its own only when that text is
  empty or ends with a line break (`Template.IngressKeyOnItsOwnLine`).
* The literal block carries no indentation indicator. A reader of YAML detects the indentation, and returns the override
  text if and only if the blank lines in front of it carry no spaces and its first other line is not indented
  (`Template.DetectionAgrees`). The text `"  \nfoo: 1\n"` cannot be
  read at all, although its first line of content is not indented: the blank line in front is too long
  (`Template.SpacesInFrontAreAnError`).
* The volume and the claim of the shared home on NFS take their storage classes from different fields; they agree only
  when those fields do (`Coherence.SharedNfsBinding`).
* The ServiceAccount and both Jobs have no owner reference; they are collected only because their namespace is
  (`Coherence.DeletionClosure`).

## Assumptions, theorem by theorem

* `Order`: the spec is not edited, nothing is deleted from outside, nobody provisions a volume under one of the two names
  that the plan uses (`Safety.Benign`).
* `Coherence`, except `DeletionClosure` and `OwnersAre`, `Contents` and `Standing`: in addition an endpoint, a volume id, a
  filesystem id, a cluster IP and a bound volume stay what they are once set, and a job's success count does not fall
  (`Soundness.Steady`).
* `Secrets.AtMostOneRewrite` and its companions: in addition the read of the secret does not fail (`Secrets.Reliable`).
* `Frame`, `Accounting`: none, except that `WriteOnce` and the lemmas on the secret's content are about objects that
  nobody deletes, and `NoLostWakeUp` about runs whose reads of the custom resource succeed.
* `Convergence.Converges`: the environment takes nothing back that a gate waits for, and between two of the undisturbed
  passes that are counted it opens at least the gate at which the first of them stopped. Other passes may come in
  between, and fail or die at any call. `Arrival.EveryResourceArrives` meets these assumptions for every resource.
* `Manifest`: every value but the override text is a single line.
* `NonInterference.RunsAlone`: names are distinct, UIDs are distinct and of one length, and a claim is bound to a volume of
  its own resource.

## Model

| member | source | states |
|---|---|---|
| Controller.JiraReconciler.Reconcile | controllers/jira_controller.go:54-497 | for every oracle of faults and interference, one call is a run of the machine from the state in which the resource was read, and returns the delay and error, or panics, as that run ends; it returns an error, or nothing at all, if and only if a call failed; undisturbed, the world afterwards is the plan applied up to the first closed gate and the delay in seconds follows from the stored objects as `Schedule.Due` reads them off; in an environment without edits and deletions the safety invariant is kept from call to call |
| Controller.JiraReconciler.Work | controllers/jira_controller.go:54-497 | the sequence of phases with every early return, proved to be such a run; an error or an empty result means that the last call failed, and conversely |
| Controller.JiraReconciler.CreateDatabase | controllers/jira_controller.go:63-97 | namespace, groups, secret and instance are created in this order from these arguments; ends if and only if a call failed, after 60 seconds, for the instance with no delay |
| Controller.JiraReconciler.CreateInstance | controllers/jira_controller.go:84-97 | the secret with new passwords, then the instance; 60 seconds or no delay, by the call that failed |
| Controller.JiraReconciler.AwaitDatabase | controllers/jira_controller.go:99-135 | ends with an error after 5 seconds if and only if a call failed, after 30 seconds if and only if the status that was read is not "available", after 10 if and only if it is and the endpoint that was read is empty; otherwise the status is recorded, with one call more exactly when it differed |
| Controller.JiraReconciler.RecordDatabase | controllers/jira_controller.go:99-117 | the status that was read is recorded, with a call exactly when it differs |
| Controller.JiraReconciler.SyncEndpoint | controllers/jira_controller.go:138-158 | the secret is replaced, with 78 random numbers, exactly when the hostname that was read differs from the endpoint, then the status exactly when it differs; an error after 5 seconds if and only if a call failed |
| Controller.JiraReconciler.SyncHostname | controllers/jira_controller.go:138-148 | the part about the secret; a failed read is no error and counts as an empty hostname |
| Controller.JiraReconciler.ResetPassword | controllers/jira_controller.go:162-189 | runs only for a database restored from a snapshot; 300 or 5 seconds with an error if a call failed, 5 without while the success count that was read is below 1 |
| Controller.JiraReconciler.CreateResetJob | controllers/jira_controller.go:162-174 | the account and the job that resets the password; an error after 300 seconds if and only if a call failed |
| Controller.JiraReconciler.AwaitReset | controllers/jira_controller.go:176-188 | goes on if and only if no call failed and the success count is at least 1, and records that unconditionally |
| Controller.JiraReconciler.CreateChangelog | controllers/jira_controller.go:191-215 | an existing config map is read, compared and updated; a new one is not; 600, 10 or 5 seconds by the call that failed |
| Controller.JiraReconciler.UpdateChangelog | controllers/jira_controller.go:199-212 | an update is sent if and only if the stored changelog differs from the file |
| Controller.JiraReconciler.AwaitLiquibase | controllers/jira_controller.go:217-238 | goes on if and only if no call failed and the success count that was read is at least 1, and records that unconditionally; otherwise 300, 30 or 5 seconds by the call that failed, or 5 without error |
| Controller.JiraReconciler.RunLiquibase | controllers/jira_controller.go:191-238 | the two steps together lead from the Liquibase segment of the plan to the storage segment, or return the seconds of the call that failed |
| Controller.JiraReconciler.AttachEbsVolume | controllers/jira_controller.go:240-256 | goes on with the volume id that was read if and only if it is not empty and no call failed; otherwise 5 seconds, or 300 with an error |
| Controller.JiraReconciler.ClaimEbsVolume | controllers/jira_controller.go:258-270 | volume and claim of the NFS server are built from that id; 300 seconds if a call failed |
| Controller.JiraReconciler.ExposeNfsServer | controllers/jira_controller.go:272-288 | goes on with the cluster IP that was read if and only if it is not empty and no call failed; otherwise 30 seconds, or 300 or 30 with an error |
| Controller.JiraReconciler.StartNfsServer | controllers/jira_controller.go:290-305 | goes on if and only if a replica was read as ready and no call failed; otherwise 10 seconds, or 300 or 60 with an error |
| Controller.JiraReconciler.ShareOverNfs | controllers/jira_controller.go:307-320 | shared volume and claim are built from the IP; 60 or 30 seconds by the call that failed |
| Controller.JiraReconciler.RecordEbsVolume | controllers/jira_controller.go:322-331 | the volume id is recorded, with a call exactly when it differs |
| Controller.JiraReconciler.RestoreFsx | controllers/jira_controller.go:332-352 | content, snapshot and claim are created in this order; 30 seconds if a call failed |
| Controller.JiraReconciler.AwaitFsxClaim | controllers/jira_controller.go:354-362 | goes on if and only if the phase that was read is "Bound"; otherwise 30 seconds, with an error if and only if the read failed |
| Controller.JiraReconciler.RecordFsxVolume | controllers/jira_controller.go:364-379 | the handle of the bound volume is recorded if it differs; panics only on a volume without CSI source; 1 or 30 seconds by the call that failed |
| Controller.JiraReconciler.CreateFileSystem | controllers/jira_controller.go:380-396 | goes on with the id that was read if it is not empty; panics if and only if it was nil, 5 seconds if it was empty, 300 or 60 by the call that failed |
| Controller.JiraReconciler.CreateMountTargets | controllers/jira_controller.go:398-413 | for any number of subnets, the loop stops at the first target that was not read as available, with every one before it read as available; it panics there if and only if the state was nil, and waits 10 seconds otherwise |
| Controller.JiraReconciler.CreateMountTarget | controllers/jira_controller.go:400-412 | one round of the loop: 10 seconds with an error if and only if a call failed, a panic if and only if the state was nil, 10 seconds if it is anything but "available" |
| Controller.JiraReconciler.ShareFileSystem | controllers/jira_controller.go:415-427 | volume and claim are built from the filesystem id; 30 seconds if a call failed |
| Controller.JiraReconciler.RecordFileSystem | controllers/jira_controller.go:429-437 | the filesystem id is recorded, with a call exactly when it differs |
| Controller.JiraReconciler.CreateSharedHome | controllers/jira_controller.go:240-438 | EBS before FSx before EFS; each branch leads to the publishing segment, or ends with an error if and only if a call failed |
| Controller.JiraReconciler.Publish | controllers/jira_controller.go:440-497 | render, apply, record the application; 60, 300 or 5 seconds by the call that failed, 300 without error if none did |
| Controller.JiraReconciler.RecordSync | controllers/jira_controller.go:454-470 | the sync status that was read is recorded, with a call exactly when it differs |
| Controller.JiraReconciler.RecordHealth | controllers/jira_controller.go:472-497 | the health that was read is recorded, with a call exactly when it differs; the pass ends after 300 seconds, or with the seconds of the call that failed |
| Controller.JiraReconciler.NewRdsSecret | k8s/secret.go:9-32 | hostname, both URLs and user of the new secret, and three new passwords of 26 characters from successive positions |
| Controller.QuietPass | controllers/jira_controller.go:54-497 | the events of an undisturbed call make up the ideal pass |
| Controller.CallKeepsInv | controllers/jira_controller.go:54-497 | a whole call, with what others do before it, keeps the safety invariant; so Reconcile promises it, and any sequence of calls keeps it |
| Controller.PassKeepsInv | controllers/jira_controller.go:63-449 | the events of one pass keep the safety invariant |
| Client.Cluster.GetJira | controllers/jira_controller.go:57-61 | the stored resource; begins the pass, or ends it with neither error nor delay when the read fails |
| Client.Cluster.Create | controllers/jira_controller.go:65-68 | the object is stored unless its key was taken or the call refused; nil, AlreadyExists or failure accordingly, and what each means for the pass |
| Client.Cluster.Get | controllers/status.go:15-18 | the stored object, unless the read fails or the object is missing or has no name; nothing is changed |
| Client.Cluster.Update | controllers/jira_controller.go:144-147 | replaces the content of an existing object without looking at its version; fails on a missing one |
| Client.Cluster.UpdateStatus | controllers/jira_controller.go:112-116 | the status is stored if and only if the version is current and the call not refused, and the version grows exactly when the status changes; then the answer, with the same spec, becomes the local copy |
| Client.Cluster.ReadChangelog | k8s/liquibase.go:38-43 | the content of the changelog file, or the failure to read it |
| Client.Cluster.WriteManifest | argocd/applicationset.go:52-72 | the file of this resource holds the rendered ApplicationSet, unless the call was refused |
| Client.Cluster.KubectlApply | controllers/jira_controller.go:446-451 | the object of the file is stored, new or over an existing one whose live part stays; fails without the file |
| Client.Cluster.KubectlGet | controllers/jira_controller.go:455-459 | the sync status or the health of the application, unless it does not exist |
| Observations.GetRdsStatus | controllers/status.go:14-21 | the status in the stored instance, or the error exactly when the read failed or there is none |
| Observations.GetRdsEndpoint | controllers/status.go:53-60 | the address in the stored instance, or the error exactly then |
| Observations.GetSecretHostname | controllers/status.go:116-123 | the hostname in the stored secret; empty on error, and the pass goes on |
| Observations.GetJobSucceededReplicas | controllers/status.go:71-78 | the success count in the stored reset or Liquibase job, or the error |
| Observations.GetConfigMapData | controllers/status.go:125-132 | the changelog in the stored config map, or the error |
| Observations.GetEbsVolumeId | controllers/status.go:23-33 | the volume id in the stored volume, the empty string while it is nil, or the error |
| Observations.GetSvcClusterIp | controllers/status.go:80-87 | the cluster IP in the stored service, or the error |
| Observations.GetStsReadyReplicas | controllers/status.go:89-96 | the ready replicas in the stored stateful set, or the error |
| Observations.GetPvcStatus | controllers/status.go:98-105 | the phase in the stored claim, or the error |
| Observations.GetFilesystemId | controllers/status.go:44-51 | a pointer to the id in the stored filesystem, nil while unset, or the error |
| Observations.GetMountTargetStatus | controllers/status.go:35-42 | a pointer to the state in the stored target, nil while unset, or the error |
| Observations.GetFsxVolumeName | controllers/status.go:134-146 | two reads: the claim, then the volume that its spec or the binder names; the stored handle, an error, or a panic exactly on a volume without CSI source |
| Order.PrefixSafety | controllers/jira_controller.go:63-449 | after any interleaving of failures, crashes and provider steps, the objects the operator has created are exactly those of a prefix of the plan, and no object of the plan exists otherwise |
| Order.LiquibaseSafety | controllers/jira_controller.go:120-221 | no Liquibase object exists before the database was seen available with an endpoint and, if restored, its reset job was seen succeeded |
| Order.StorageSafety | controllers/jira_controller.go:229-438 | no shared-filesystem object exists before the Liquibase job was seen succeeded |
| Order.PublishSafety | controllers/jira_controller.go:440-449 | the ApplicationSet exists only when every object of the plan does, the shared home among them, and every gate was seen open |
| Order.MountTargetSafety | controllers/jira_controller.go:399-420 | target i exists only if targets 0..i-1 exist and were seen available, and the volume only if all were, for any number of subnets |
| Order.BackendExclusivity | controllers/jira_controller.go:240-438 | only objects of the first configured backend exist, and all three backends end in the same claim |
| Standing.SeenMeansOpen | controllers/jira_controller.go:119-412 | a gate counts as seen open in the call that waits at it having read what it waits for, and in no other event |
| Standing.LiquibaseOnDatabase | controllers/jira_controller.go:131-221 | where a Liquibase object exists, the stored database has an endpoint and a restored one's reset job has succeeded |
| Standing.StorageOnLiquibase | controllers/jira_controller.go:229-438 | where an object of the shared filesystem exists, the stored Liquibase job has succeeded as well |
| Standing.SetOnStorage | controllers/jira_controller.go:240-449 | where the ApplicationSet exists, all of that and the provider's identifiers of the backend are in the store, and the shared home was made |
| Safety.RunKeepsInv | controllers/jira_controller.go:63-449 | the inductive invariant behind these: order, accounting of every object, fixed spec in every pass |
| Safety.CleanIsInv | controllers/jira_controller.go:54-62 | it holds before anything was created |
| Plan.KeysDistinct | k8s/volume.go:15 | two items of one plan never share a key, for any name and UID |
| Plan.TargetNamesDiffer | crossplane/efs.go:24 | name, index and UID name each mount target uniquely |
| Plan.TargetNamed | controllers/jira_controller.go:400-405 | the name of mount target i carries i in decimal between the name and the UID |
| Text.ItoaIsDecimal | controllers/jira_controller.go:400 | an index is printed in decimal: digits only, the value read back is the index, no zero in front of others |
| Text.OneDecimal | controllers/jira_controller.go:400 | a number has no other decimal form |
| Plan.ItemsFit | controllers/jira_controller.go:240-438 | no instruction of a spec's plan belongs to another backend |
| Plan.ProgDistinct | controllers/jira_controller.go:63-497 | no instruction occurs twice in a plan |
| Plan.FinishIsLast | controllers/jira_controller.go:495-496 | the final return is the last instruction and only there |
| Text.ItoaInjective | controllers/jira_controller.go:400 | decimal indices are distinct |
| Frame.OneSpecPerPass | controllers/jira_controller.go:57 | all objects of one pass are built from one version of the spec, however it is edited meanwhile and across all status updates |
| Frame.StalePassNeverWrites | controllers/jira_controller.go:112 | once the resource was edited during a pass, only edits change it until the pass is over |
| Frame.RunKeepsVersioned | controllers/jira_controller.go:57 | as long as its version is current, the local copy is the stored resource |
| Frame.WakeUpLostOnlyByFailedRead | controllers/jira_controller.go:57-61 | an event ends a pass without error and delay only if it is a failed read of the resource |
| Frame.NoLostWakeUp | controllers/jira_controller.go:63-496 | in every run whose reads of the resource succeed, a pass is running or will run |
| Frame.CallIsFrugal | controllers/jira_controller.go:144 | a call changes no stored object but the secret, the config map and the ApplicationSet, and creates only what its builder makes |
| Frame.RunKeepsIntact | controllers/jira_controller.go:63-449 | whatever happens, every other created object is what its builder made of the version of the pass that created it |
| Frame.WriteOnce | controllers/jira_controller.go:240-438 | and stays so; a switch of the backend leaves the first claim of the shared home in place |
| Soundness.SteadyRunKeeps | controllers/jira_controller.go:139-238 | inductive soundness of status, objects, locals and gates over all steady runs |
| Coherence.StatusSoundness | controllers/jira_controller.go:150-437 | a non-empty endpoint is the provider's and the secret's; Succeeded means that the job exists with a success; an id is the provider's, of the configured backend, and the shared home exists |
| Coherence.SecretCarriesEndpoint | controllers/jira_controller.go:138-158 | every object behind the database exists only with the provider's endpoint in the secret |
| Coherence.Built | controllers/jira_controller.go:63-438 | a stored object is its builder's output on the fixed spec, with the identifier that the provider has, across passes and crashes |
| Coherence.NfsServerBinding | k8s/volume.go:71-135 | volume and claim of the NFS server name each other and agree in size, mode and class; the volume has the EBS id; the server mounts that claim in its zone |
| Coherence.SharedNfsBinding | k8s/volume.go:12-39 | the same for the shared home on NFS, with equal classes if and only if the EBS and EFS classes are configured equal |
| Coherence.EfsBinding | k8s/volume.go:41-69 | the same for the shared home on EFS, with the filesystem id as handle |
| Coherence.TargetBinding | crossplane/efs.go:13-40 | target i joins the filesystem to subnet i |
| Coherence.SnapshotBinding | k8s/volume.go:137-201 | content, snapshot and claim name each other |
| Coherence.DatabaseBinding | crossplane/rds.go:15-75 | the instance names the groups and the secret that the plan creates; it is restored from the snapshot of the database if there is one and from nothing else; engine, version, class, storage, key and connection secret are the spec's |
| Coherence.ResetBinding | k8s/liquibase.go:71-113 | the reset job names the instance, the secret and its account |
| Coherence.EbsVolumeBinding | crossplane/ebs.go:13-55 | the EBS volume has the size and zone of the volume built from it in another package, comes from the snapshot of the spec, and is encrypted if and only if there is a key |
| Coherence.NetworkBinding | crossplane/efs.go:27-36 | database and mount targets share region, security groups and provider; target i is in the i-th subnet of the database's group |
| Coherence.FamilyBinding | crossplane/rds.go:99-151 | the parameter group is of the family of the instance's major version |
| Coherence.LiquibaseBinding | k8s/liquibase.go:115-197 | the job mounts the secret and the config map that exist before it |
| Text.Before | crossplane/rds.go:101 | the part in front of the first separator, all of the text when there is none |
| Coherence.DeletionClosure | k8s/helpers.go:44-57 | every created object is collected with the resource, except the ApplicationSet exactly when it is to be retained and lives elsewhere |
| Coherence.RunOwners | k8s/helpers.go:44-57 | every created object keeps the owners its builder gave it, through updates and applies |
| Coherence.OwnersAre | k8s/helpers.go:44-57 | those are the resource alone, by version, kind, name and UID; nobody owns the account and the two jobs, nor a retained ApplicationSet |
| Coherence.OrphanPolicy | crossplane/rds.go:60-62 | databases, volumes, filesystems and mount targets are orphaned if and only if the spec says so |
| Contents.NamespaceContents | k8s/namespace.go:9-19 | in every reachable state, if the operator made it: the namespace is labelled with the resource's name |
| Contents.ParameterGroupContents | crossplane/rds.go:99-157 | in every reachable state, if the operator made it: region, provider, and the family of what stands before the first dot of the engine version |
| Contents.SubnetGroupContents | crossplane/rds.go:77-97 | in every reachable state, if the operator made it: region, provider, description, and the subnets of the spec in their order |
| Contents.InstanceContents | crossplane/rds.go:15-75 | in every reachable state, if the operator made it: every field of the stored instance: those of the spec, the groups by name, the password from the secret of the plan, the snapshot of the database or none |
| Contents.AccountContents | k8s/liquibase.go:58-69 | in every reachable state, if the operator made it: the role of the spec |
| Contents.ResetJobContents | k8s/liquibase.go:71-113 | in every reachable state, if the operator made it: account, instance, region and secret of the reset job |
| Contents.LiquibaseJobContents | k8s/liquibase.go:115-198 | in every reachable state, if the operator made it: secret and config map of the Liquibase job |
| Contents.VolumeContents | crossplane/ebs.go:13-55 | in every reachable state, if the operator made it: every field of the EBS volume; encrypted if and only if there is a key |
| Contents.ServerVolumeContents | k8s/volume.go:71-114 | in every reachable state, if the operator made it: every field of the NFS server's volume; its id is the one the provider wrote into the EBS volume |
| Contents.ServerClaimContents | k8s/volume.go:116-135 | in every reachable state, if the operator made it: every field of the NFS server's claim |
| Contents.ServiceContents | k8s/nfs.go:11-34 | in every reachable state, if the operator made it: the port of the service |
| Contents.ServerContents | k8s/nfs.go:36-132 | in every reachable state, if the operator made it: claim, zone, region and service name of the NFS server |
| Contents.NfsVolumeContents | k8s/volume.go:12-39 | in every reachable state, if the operator made it: every field of the shared home on NFS; its address is the one of the stored service |
| Contents.NfsClaimContents | controllers/jira_controller.go:315-317 | in every reachable state, if the operator made it: every field of its claim; the class is the one configured for EFS |
| Contents.SnapshotContentContents | k8s/volume.go:137-159 | in every reachable state, if the operator made it: every field of the snapshot content, with the handle of the spec |
| Contents.SnapshotContents | k8s/volume.go:161-176 | in every reachable state, if the operator made it: content name and class of the snapshot |
| Contents.FsxClaimContents | k8s/volume.go:178-201 | in every reachable state, if the operator made it: every field of the claim restored from it; it names no volume |
| Contents.FileSystemContents | crossplane/efs.go:42-94 | in every reachable state, if the operator made it: every field of the filesystem |
| Contents.TargetContents | crossplane/efs.go:13-40 | in every reachable state, if the operator made it: every field of mount target i: the i-th subnet, and the id that the provider wrote into the filesystem |
| Contents.EfsVolumeContents | k8s/volume.go:41-69 | in every reachable state, if the operator made it: every field of the shared home on EFS; its handle is that id |
| Contents.EfsClaimContents | controllers/jira_controller.go:422-424 | in every reachable state, if the operator made it: every field of its claim |
| Secrets.AtMostOneRewrite | controllers/jira_controller.go:138-148 | with reliable reads the secret is rewritten at most once after its creation, in any run |
| Secrets.SyncedSecretIsFinal | controllers/jira_controller.go:138-148 | once the secret carries the endpoint it never changes again |
| Secrets.JobsSeeFinalPasswords | controllers/jira_controller.go:170-218 | a job that uses the passwords exists only when they are final |
| Secrets.FailedReadRewritesSecret | controllers/jira_controller.go:139-142 | without reliable reads this fails: a synced secret gets new passwords if and only if the read failed |
| Witness.PasswordsInUse | controllers/jira_controller.go:139-221 | for every resource, a run from an empty cluster to the read of a synced secret whose passwords a job already uses |
| Witness.PasswordsReplaced | controllers/jira_controller.go:139-142 | there the failed read replaces those passwords by whatever is drawn |
| Accounting.SecretChangesAreCounted | controllers/jira_controller.go:138-148 | an existing secret changes only in such a step, and then carries the endpoint that was read, both URLs to it, the user and the passwords that were drawn |
| Accounting.NewSecretIsConsistent | controllers/jira_controller.go:84-86 | a new secret carries "replaceme" for a hostname, and the passwords that its call drew |
| Accounting.OneRewritePerPass | controllers/jira_controller.go:138-148 | in any run at all the secret is rewritten at most once for each pass |
| Accounting.NoRewriteNoChange | controllers/jira_controller.go:84-90 | building a new secret in every pass changes nothing while no rewrite is counted |
| Accounting.SecretStaysConsistent | k8s/secret.go:13-15 | in any run both URLs in the secret lead to the hostname in it |
| Refinement.CleanPassRefines | controllers/jira_controller.go:54-497 | a pass without faults in a frozen world leaves exactly the plan up to the first closed gate, and returns that gate's delay |
| Opening.AvailableGate | controllers/jira_controller.go:119-123 | open if and only if the stored instance has the status "available"; otherwise 30 seconds |
| Opening.EndpointGate | controllers/jira_controller.go:131-136 | open if and only if the stored instance has an endpoint; otherwise 10 seconds |
| Opening.ResetGate | controllers/jira_controller.go:180-183 | open if and only if the stored reset job has a success; otherwise 5 seconds |
| Opening.LiquibaseGate | controllers/jira_controller.go:229-232 | open if and only if the stored Liquibase job has a success; otherwise 5 seconds |
| Opening.VolumeGate | controllers/jira_controller.go:253-256 | open if and only if the stored volume has a non-empty id; otherwise 5 seconds |
| Opening.ServiceGate | controllers/jira_controller.go:285-288 | open if and only if the stored service has an IP; otherwise 30 seconds |
| Opening.ServerGate | controllers/jira_controller.go:302-305 | open if and only if the stored server has a ready replica; otherwise 10 seconds |
| Opening.ClaimGate | controllers/jira_controller.go:359-362 | open if and only if the stored claim is "Bound"; otherwise 30 seconds |
| Opening.FileSystemGate | controllers/jira_controller.go:393-396 | a panic if and only if the stored filesystem is missing or has no id; 5 seconds if and only if the id is empty; open otherwise |
| Opening.TargetGate | controllers/jira_controller.go:409-412 | a panic if and only if the stored target is missing or has no state; open if and only if it is "available"; 10 seconds otherwise |
| Opening.ChangelogGate | controllers/jira_controller.go:192-196 | the pass goes on if and only if the file can be read; otherwise 600 seconds and an error |
| Opening.ApplicationGate | controllers/jira_controller.go:454-480 | the pass goes on if and only if the application exists; otherwise 300 seconds and an error |
| Opening.HandleGate | controllers/jira_controller.go:364-367 | the pass goes on if and only if the claim names an existing CSI volume; another volume is a panic, none 30 seconds and an error |
| Opening.NoGate | controllers/jira_controller.go:63-497 | no other instruction stops an undisturbed pass before its end |
| Schedule.LeavesWhenDue | controllers/jira_controller.go:54-497 | the exit of an undisturbed pass is the one that a reading of the stored objects from top to bottom gives, in seconds: database, reset, Liquibase, the backend, any number of mount targets, application |
| Results.RecordsStatus | controllers/jira_controller.go:108-117 | every undisturbed pass leaves the stored instance's status in the resource |
| Results.RecordsEndpoint | controllers/jira_controller.go:138-158 | past the database, the status and the secret carry the stored instance's endpoint |
| Results.RecordsReset | controllers/jira_controller.go:184-188 | past the reset, the status says so |
| Results.RecordsChangelog | controllers/jira_controller.go:191-215 | the config map holds what the file holds, as soon as the database is ready |
| Results.RecordsLiquibase | controllers/jira_controller.go:234-238 | past the Liquibase job, the status says so |
| Results.RecordsVolume | controllers/jira_controller.go:322-330 | past the storage on EBS, the status carries the stored volume's id |
| Results.RecordsHandle | controllers/jira_controller.go:369-378 | past the storage on FSx, the handle of the volume that the claim is bound to |
| Results.RecordsFileSystem | controllers/jira_controller.go:429-437 | past the storage on EFS, the stored filesystem's id |
| Results.RecordsApplication | controllers/jira_controller.go:440-491 | past the storage, the ApplicationSet is there with the manifest rendered now and its owners, what Argo CD wrote into it is kept, and sync and health of the application are recorded |
| Ideal.KeysAfter | controllers/jira_controller.go:63-449 | the objects afterwards are the old ones and those of the items in front of that gate |
| Ideal.Monotone | controllers/jira_controller.go:63-449 | opening more gates never yields fewer objects |
| Ideal.AfterKeeps | controllers/jira_controller.go:63-449 | existing objects keep what providers set, and their content unless they are of an updated kind |
| CleanPass.UsesBefore | controllers/jira_controller.go:99-437 | whatever an instruction uses was read before it in the same pass |
| CleanPass.ObjectBefore | controllers/jira_controller.go:63-413 | every object is created before it is read, within the same pass |
| Fixpoint.PassIsIdempotent | controllers/jira_controller.go:54-497 | a second such pass, with any passwords, changes nothing and returns the same, wherever the first one stopped |
| Convergence.GatesOfProg | controllers/jira_controller.go:119-496 | the number of gates, linear in the number of subnets |
| Convergence.CalmNeverCloses | controllers/jira_controller.go:119-413 | in any run without spec edits, deletions and steps back of the environment, with passes that fail at any call or die, no gate closes and the number of closed gates never grows |
| Convergence.PassKeepsClosed | controllers/jira_controller.go:119-413 | a pass leaves it as it is |
| Convergence.OpeningLowers | controllers/jira_controller.go:119-413 | opening the gate where the last pass stopped lowers it |
| Convergence.Converges | controllers/jira_controller.go:54-497 | in any such run, one undisturbed pass and as many more as there are gates, with failing and dying passes in between, reach the final return with every object of the plan in place |
| Convergence.RoundsAreRun | controllers/jira_controller.go:54-497 | those passes and everything between them are one run of the machine |
| Arrival.TurnOpens | controllers/jira_controller.go:119-480 | when the providers have brought up what exists, the gate at which the last pass stopped is open, whichever it is |
| Arrival.EveryResourceArrives | controllers/jira_controller.go:54-497 | for every resource of every backend with any number of subnets, a run from an empty cluster that meets the assumptions of Converges with exactly as many passes as there are gates, ends with the final return, the ApplicationSet and every object of the plan in place, and with a status that says so |
| Panics.CallPanicsExactly | controllers/jira_controller.go:393-409 | a call panics if and only if it looks behind one of the two nil pointers or at a volume without CSI source |
| Panics.PassPanicsExactly | controllers/jira_controller.go:54-497 | an undisturbed pass panics if and only if the first thing in its way is an unset filesystem id, an unset mount-target state, or a bound volume without CSI source |
| Panics.NewFileSystemPanics | controllers/jira_controller.go:382-393 | with every earlier gate open, an undisturbed pass panics at the filesystem if and only if no id was there before |
| Panics.NewTargetPanics | controllers/jira_controller.go:399-409 | and at mount target i if and only if its state was not there before |
| NonInterference.OwnItem | crossplane/rds.go:66 | every key of a resource's plan is its own by name, UID suffix or namespace |
| NonInterference.OwnedOnce | k8s/volume.go:74 | no key is owned by two resources with distinct names and distinct UIDs of one length |
| NonInterference.PathsDiffer | argocd/applicationset.go:52 | nor is an output file |
| NonInterference.LengthMatters | crossplane/efs.go:53-60 | with UIDs of different length two resources can share a database and a filesystem |
| NonInterference.StepCommutes | controllers/jira_controller.go:54-497 | a step on the whole cluster is the same step on the resource's part of it, and leaves the rest alone |
| NonInterference.RunsAlone | config/crd/bases/app.atlassian.com_jiras.yaml:16 | in any interleaving, each resource's part of the cluster is the result of a run of its own events alone |
| NonInterference.SafeInCompany | controllers/jira_controller.go:63-449 | so the order of its plan is kept in company |
| Manifest.ProcessTemplate | argocd/applicationset.go:12-72 | the manifest is the template rendered with the fifteen variables bound one by one; taken line by line it says what the resource asks for |
| Manifest.ManifestSays | argocd/applicationset.yaml.tpl:1-55 | a reader of the lines finds name, namespace, project, chart and git repositories and revisions, values files and values of the resource; owner references if and only if the set is not to be retained, and then to this name and UID; automated synchronisation if and only if it is asked for |
| Manifest.ManifestAgrees | argocd/applicationset.yaml.tpl:1-14 | namespace, name and owners of the object that the plan counts on are those in the document |
| Manifest.OwnersLineOccurs | argocd/applicationset.yaml.tpl:6-14 | the line of the owner references occurs anywhere in the document if and only if the set is not to be retained |
| Manifest.AutomatedLineOccurs | argocd/applicationset.yaml.tpl:28-30 | the line of the automated synchronisation occurs anywhere if and only if the resource asks for it |
| Manifest.AnnotationsSay | argocd/applicationset.go:13-32 | the ten annotations of the ingress, each on its line; the lists of subnets and tags are read back part by part |
| Manifest.CommasReadBack | argocd/applicationset.go:13 | a comma-separated list of texts without commas is read back as that list |
| Template.ValuesRoundTrip | argocd/applicationset.yaml.tpl:37-46 | reading the literal block back (section 8.1.2 of YAML 1.2.2) yields exactly the override text followed by the ingress text |
| Template.OverridesComeFirst | argocd/applicationset.yaml.tpl:37-41 | for all values of all variables, what is read back starts with the override text untouched and the ingress key right behind it |
| Template.IngressKeyOnItsOwnLine | argocd/applicationset.yaml.tpl:38-41 | the ingress key starts its own line if and only if the override text is empty or ends with a line break |
| Template.DetectionAgrees | argocd/applicationset.yaml.tpl:37-46 | a reader that detects the indentation (section 8.1.1.1) returns the override text followed by the ingress text if and only if the blank lines in front carry no spaces and the first other line is not indented; it fails if and only if such a blank line has more spaces than that line |
| Template.SpacesInFrontAreAnError | argocd/applicationset.yaml.tpl:37-41 | an override text that begins with a line of two spaces cannot be read |
| Template.ManifestReadsBack | argocd/applicationset.go:19-49 | for a resource with one-line hostname, name and subnets the round trip needs no condition on the override text |
| Text.JoinSplit | argocd/applicationset.go:57-59 | splitting a text at line breaks and joining the lines gives the text back |
| Passwords.GeneratePasswd | k8s/helpers.go:84-94 | the loop yields a password of the given length over the alphabet, the one that the random numbers determine |
| Passwords.Alphabet | k8s/helpers.go:86 | the alphabet is the letters, the digits and five signs |
| Passwords.AnyPassword | k8s/helpers.go:84-94 | every string over the alphabet can come out, so nothing weaker than an arbitrary password may be assumed |

## Left out

- Frame.OneSpecPerPass: the versions model optimistic concurrency of status updates; the client's handling of `kind` and
  `apiVersion` in the local copy after an update is not modelled, owner references always carry the registered ones.
- Client.Cluster.Update: the body of the object is replaced and the metadata stays; the builders give it the same metadata
  again. An update is counted as a rewrite whether or not its reply arrives.
- Client.Cluster.KubectlApply: what `kubectl apply` merges field by field is modelled as replacing content and owners.
- Client.Cluster.WriteManifest: a file is written whole or not at all; reading and parsing the template itself is part of
  the same call.
- Passwords.GeneratePasswd: seeding and quality of the random numbers; the stream is arbitrary.
- Manifest.ManifestSays: the reader is one of lines, not of YAML; quoting of values that YAML would take for something else is
  not modelled, as the template does not quote either.
- Template.ValuesRoundTrip: asks for values other than the override text to be single lines; `OverridesComeFirst` does not.
  Carriage returns are ordinary characters, and YAML outside the literal block is not parsed.
- Convergence.Converges: a cluster IP counts as unset when its service is created, although an API server assigns it in
  the same call.
- NonInterference.RunsAlone: events on objects that belong to no resource are not represented; they change nobody's part.
- Informer caches: reads are linearizable, though they may fail.
- Manager start-up, flags, health checks and watches (`main.go`, `SetupWithManager`): a pass may begin whenever none is running.
- Tags, images, probes, labels, the constant entries of the secret, the shell command of the reset job and the Liquibase
  changelog itself: constants, or programs that run elsewhere.
- `GetLiquibaseSecret`, `GetJiraUserRdsSecret`, `getPodStatus`: nobody calls them.
- AWS, Crossplane, Argo CD and the CSI drivers: environment actions that set status fields.

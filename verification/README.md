# A Dafny model of garm-provider-truenas

The provider realises one-job GitHub runners for GARM on three TrueNAS backends: custom Apps, containers and virtual
machines. Its worth lies in what it promises about the life of a runner: who owns it, when it may be deleted, what a
failed or interrupted creation leaves behind, when secrets are gone, and that what its encoders print is what its
decoders accept. This project models those parts and proves those promises for every input, every run and every
reachable state of the model.

`dafny verify dfyconfig.toml` verifies the whole project.

## How the program is modelled

**Calls and failures.** A manager operation is a step machine (`Begin`, `Wants`, `Resume`, `Step`, `Run`): at each step
it names the client call it makes next, and an oracle decides what becomes of that call. A call may be served, refused
untouched, or carried out and still reported as failed; what TrueNAS chooses (new IDs, datasets, seed references, the
order of listings) and what happens meanwhile (a machine powering up or down, an init wrapper removing its token file, a
launcher consuming its bootstrap) are the oracle's too. A process that dies is one that makes no further step, so a
statement about every prefix of every run is a statement about every crash. `ContainerCrash`, `VmSeeds` and `VmOrphans` go
further and interleave any number of such processes of any managers with outside changes.

**State.** Code that changes things in place is imperative here: `ContainerManager`, `VmManager`, `AppsManager`,
`ShellProgram`, `CloudInit.Builder`, `CloudInit.Guest` and `InitWrapper.Process` are classes whose methods make the calls,
loops and early returns of the original, each proved to follow the step machine or the function the theorems are about.

**Apps.** A Compose document is a value tree with every list, map and number form Go code can meet. `Backend` holds
either the mock's map or the documents TrueNAS keeps; the same manager runs over both. The exactness theorems about it
ask for a `Legible` appliance: every call is served and no App makes a listing fail. Any number of other Apps may be
there, with names the listing filter rules out or without the provider's label, under any gateway policy;
`AppsRefinement.UnreadableStops` says what happens on an appliance that is not legible. `Faithful` is legible, without
gateway policy, and reporting new Apps as running; the inventory the reference works on then has two parts, the Apps a
listing shows and those set aside.

**The shell program** of a runner is a machine over its commands, files, links, loop counters, child process and traps,
with one oracle answer per command for the network, for failing tools, for the death of the runner and for a signal. In
`ShellProgram` the place in the program is ghost: the methods name their commands themselves.

**In words.** `AppsRefinement`, `ComposeContents`, `ContainerAnswers`, `ContainerContents`, `VmAnswers`, `VmServed`,
`LauncherExits` and `ShellExits` state what an operation makes, answers or exits with in the fields of the request, the
literal texts of the source and the state TrueNAS is left in, with definitions of their own; the step machines and the
decoder are proved against those. The calls of a run there are served, or arbitrary where the statement says whatever
TrueNAS does.

**Surroundings.** Case mapping, SHA-256, the DNS host of a URL and the text of the embedded programs are parameters.
What is required of them is in `CaseMaps.Lawful` (lower-casing leaves the name alphabet alone; the two power states are
upper-case and differ under case folding), `IsDigest` (eight lower-case hex digits) and `Lawful` (the pinned profile is
well formed; `GeneralIsLawful` shows that the one in use is).

## Files

| files | what they hold |
|---|---|
| `Text`, `Names`, `Paths`, `Provider` | strings as Go treats them; sanitised and digested names; path cleaning and the container root; shared records and errors |
| `Documents`, `ComposeText`, `Compose`, `ComposeProofs`, `ComposeContents` | value trees and their readers; dollar escaping; printing, decoding and the gateway policy; exactness of decoding; what a document says, spelled out |
| `Apps`, `AppsRefinement`, `AppsTrimming`, `AppsSafety`, `AppsAnswers`, `AppsManager` | the Apps manager over both clients; the two agree; where they part; what is never destroyed; what a new App is; the methods |
| `Container`, `ContainerStaging`, `ContainerSafety`, `ContainerCreate`, `ContainerFailure`, `ContainerRespect`, `ContainerSweep`, `ContainerCrash`, `ContainerRepeat`, `ContainerAnswers`, `ContainerContents`, `ContainerServed`, `ContainerManager`, `InitWrapper` | the container backend |
| `LiteralBlock`, `CloudInit`, `LauncherExits`, `Vm`, `VmSafety`, `VmCreate`, `VmRespect`, `VmSeeds`, `VmDangling`, `VmOrphans`, `VmSweep`, `VmAnswers`, `VmServed`, `VmManager` | the VM backend and its seed |
| `Shell`, `ShellSafety`, `ShellGate`, `ShellRuns`, `ShellExits`, `ShellFresh`, `ShellProgram` | the bootstrap program of a runner |

## Where the code falls short of what one would say of it

Each of these is a theorem with the exact condition, or with the input that shows the failure.

- The store trims owner IDs, the managers compare them as given: a new App is handed out if and only if both IDs are free
  of outer space; otherwise the caller is told it is someone else's, and the App stays (`AppsTrimming.FreshCreateExactly`).
- A container `Create` cleans up only from staging on; before that, its container stays exactly when the `Create` call
  took effect (`ContainerFailure.WithoutCleanup`).
- Adopting a container asks for owner, pool and steady runtime, not for the token file (`ContainerFailure.AdoptionExactly`),
  so one whose creation died after the scrub is handed out as finished, its token file still there
  (`ContainerRepeat.LeftIsAdoptedExactly`, `ContainerRepeat.ScrubbedHandedOut`); adopting a VM does not ask for the seed,
  so a VM whose creation died half way is handed out as finished (`VmCreate.HalfMadeIsAdopted`,
  `VmCreate.HalfMadeHandedOut`).
- With a pool named `.` or `..` the mountpoint is another directory than the dataset's (`Paths.MountpointLiteralExactly`,
  `Paths.DottedPoolMoves`), and such datasets are accepted (`Paths.DottedPoolAccepted`). The prefix test after joining
  can never fail (`Paths.StagingStaysInside`).
- If TrueNAS acknowledges a detachment that did not happen, reconciliation and deletion go on to delete a seed that still
  hangs on its VM, and only then (`VmDangling.LyingDetachDanglesExactly`, `VmDangling.LyingDetachDangles`); with truthful
  detachments no interleaving does (`VmSeeds.SeedsStayDisciplined`).
- A seed image is found only through the VM it hangs on. One that `Create` staged and never attached, or whose detachment
  took effect and whose deletion did not, is never deleted by anybody, and the token in it stays
  (`VmOrphans.OrphansStay`, `VmOrphans.CreateLeavesOrphanExactly`, `VmOrphans.TakingLeavesOrphanExactly`).
- One App of a plausible name that reads as neither managed nor unmanaged makes `List` and `RemoveAll` of every controller
  fail, and nothing is removed (`AppsRefinement.UnreadableStops`).
- App names hold twelve characters of the controller ID, so two controllers can ask for one name
  (`Names.AppNameCollisionsAcross`).
- The shell program does not notice a credential file that could not be moved into place: it launches with a non-empty
  file behind a link if and only if that file's move did not fail or one was there before (`ShellRuns.LaunchIsGated`,
  `ShellRuns.FailedMoveStillLaunches`), and leaves its runner alive exactly when a signal falls between starting it and
  recording its process ID (`ShellRuns.ExitLeavesRunnerExactly`, `ShellRuns.SignalLeavesRunner`).
- The init wrapper's command substitution drops line feeds at the end of a token (`InitWrapper.TokenSurvivesExactly`). Its
  two marker files end in a backslash and an `n`, where the Go source reads as if a line feed was meant.

## Model

| member | source | states |
|---|---|---|
| Names.Sanitize | internal/provider/provider.go:304-321 | the builder loop computes the specification: the words of the lower-cased text, joined by single separators |
| Names.SanitizedIsNormalForm | internal/provider/provider.go:304-321 | sanitising always reaches the normal form, is idempotent, and changes nothing exactly when the text is already normal |
| Names.SanitizedEmptyExactly | internal/provider/provider.go:265 | a name sanitises to nothing exactly when its lower-cased text holds no letter and no digit |
| Names.AppNameDiscoverable | internal/provider/provider.go:283-302 | every App name is at most 40 long, keeps `garm-`, ends in a letter or digit and passes the store's listing filter, also after truncation |
| Names.AppNameCollisionsExactly | internal/provider/provider.go:291-301 | two runners of a controller share a name if and only if their sanitised names agree, both are cut to equal prefix and digest, or one spells out the other's prefix and digest |
| Names.AppNameCollisionsAcross | internal/provider/provider.go:283-302 | runners of any two controllers share a name if and only if cut controller and sanitised names spell one text, both are cut to equal prefix and digest, or one spells out the other's prefix and digest |
| Names.DigestedNameAdmissible | internal/containerbackend/manager.go:574-582 | container and VM names are 13 to 57 characters of the alphabet for every input |
| Names.DigestedNameCollisions | internal/vmbackend/manager.go:595-603 | two requests share a container or VM name if and only if prefix and digest of their raw names agree |
| Paths.MountpointLiteralExactly | internal/containerbackend/manager.go:250-263 | an accepted dataset's mountpoint is the literal concatenation of pool and name if and only if neither is `.` or `..` |
| Paths.MountpointInjective | internal/containerbackend/manager.go:250-263 | dotted names apart, equal mountpoints come only from equal pool and name |
| Paths.DottedPoolMoves | internal/containerbackend/manager.go:262 | where the files would go for a dotted pool |
| Paths.DottedPoolAccepted | internal/containerbackend/manager.go:254-262 | such datasets are accepted: for every container name the dataset `../.truenas_containers/containers/NAME` gets the root `/containers/NAME` |
| Paths.StagingStaysInside | internal/containerbackend/manager.go:225-232 | for every file path: it is refused as unsafe exactly when nothing or a leading `..` is left of it, otherwise it lands at the mountpoint followed by clean components, and the escape branch is never taken |
| ComposeText.InterpolationRestoresProgram | internal/truenasstore/bootstrap.go:256-263 | Compose interpolation of the escaped program gives back the program, whatever the variables hold |
| ComposeText.UnescapeRestoresProgram | internal/truenasstore/bootstrap.go:261-263 | replacing doubled dollars from the left inverts the escaping |
| ComposeText.EscapingNeededExactly | internal/truenasstore/bootstrap.go:256-260 | text survives interpolation unescaped, no variable being set, if and only if it holds no dollar |
| Documents.ReadStringList | internal/truenasstore/host_gateway.go:169-186 | the loop over a list of unknown values computes the specification and rejects exactly what it rejects |
| Documents.ReadStringMap | internal/truenasstore/host_gateway.go:136-167 | the same for string maps in object, typed and `KEY=VALUE` list form |
| Documents.IntegersRead | internal/truenasstore/store.go:272-304 | an integer is read from exactly its integer, whole float and numeral forms within 64 bits |
| Documents.ListsRead | internal/truenasstore/host_gateway.go:169-186 | a list of strings is read from exactly the typed list and the untyped list of those strings |
| Documents.EntriesRead | internal/truenasstore/host_gateway.go:136-167 | a list of `KEY=VALUE` texts is read if and only if every item is one, and each key then has the value of its last entry |
| ComposeProofs.FixedFieldExactly | internal/truenasstore/store.go:328-364 | a fixed field passes its validation if and only if it reads as the printed one, up to list and number forms |
| ComposeProofs.LabelsExactly | internal/truenasstore/store.go:445-456 | labels name an owner to the decoder if and only if, outer space and gateway label aside, they are the five printed for it |
| ComposeProofs.SameServiceExactly | internal/truenasstore/store.go:306-364 | a service is the printed one up to form if and only if its keys, fixed fields, labels and environment are |
| ComposeProofs.DecodeRunnerExactly | internal/truenasstore/store.go:435-487 | a lone service decodes to a spec and holds its token if and only if it realises what is printed for that spec |
| ComposeProofs.DecodeAppExactly | internal/truenasstore/store.go:422-487 | for any reported App and any spec: it decodes to the spec and holds its token if and only if its only service is, up to form, the one printed for the spec |
| ComposeProofs.AcceptedIsRealised | internal/truenasstore/store.go:422-487 | whatever decodes is a realisation of the printed service of what it decodes to |
| ComposeProofs.CreatedDocumentIs | internal/truenasstore/host_gateway.go:50-86 | the document sent is the printed one, with label and host entry added under the policy, or none is sent; when, and what it says, is the next rows' |
| ComposeContents.PolicySendsExactly | internal/truenasstore/host_gateway.go:17-30 | under the policy a document is sent if and only if both URLs name a DNS host over https, and the same one up to case; otherwise the request is unsupported |
| ComposeContents.DocumentSaysTheSpec | internal/truenasstore/store.go:200-266 | wherever a created document is reported, its one service has exactly the eleven fields, five labels and six variables of the spec, each under its own spelling, and under the policy the gateway label and the lower-cased host as the one extra host |
| ComposeContents.PolicyValidatesExactly | internal/truenasstore/host_gateway.go:88-134 | validation passes exactly for a labelled App whose own URLs name one host that is its only extra host, or, without the policy, for one with neither label nor extra hosts |
| ComposeContents.ErrorsTellApart | internal/truenasstore/store.go:422-487 | for every reported App: unmanaged exactly if its runner's labels are readable and do not call it managed, an error exactly if they are not readable, drift exactly if they do and it does not decode |
| ComposeContents.ServicesComeFrom | internal/truenasstore/store.go:489-513 | which of the three places of a document wins, and when none can be read |
| ComposeProofs.CreatedDocumentDecodes | internal/truenasstore/store.go:200-266 | decoding a created document, wherever it is reported, gives the spec back without token and outer space, or drift exactly when the spec is incomplete; gateway validation passes if and only if the policies are equal |
| AppsRefinement.GetFaithful | internal/truenasstore/store.go:115-137 | when calls are served, whatever Apps are there and under any policy, a query tells what the inventory, shown or set aside, holds under the name, or that it holds nothing |
| AppsRefinement.CreateFaithful | internal/truenasstore/store.go:93-113 | creating an absent App adds exactly the requested one to what a listing shows, running, sets nothing else aside, and returns it |
| AppsRefinement.ListIsChosen | internal/truenasstore/store.go:148-182 | if every App is shown or passed over, the listing is, as a set, the instances of the owned Apps of the pool, whatever else the appliance holds and under any policy |
| AppsRefinement.RemoveAllExact | internal/provider/provider.go:230-252 | on such an appliance `RemoveAll` leaves exactly what was held minus the listed, owned, inactive Apps, all others as they were, and reports an active one exactly when a listed owned one is busy |
| AppsRefinement.UnreadableStops | internal/truenasstore/store.go:169-178 | the other half: if some App of a plausible name reads as an error other than unmanaged, `List` and `RemoveAll` end with the error of the first such App, and nothing is removed |
| AppsRefinement.StepRefines | internal/provider/provider.go:116-252 | over a faithful client, other Apps included, each operation or state change answers and acts as on the reference inventory, whose answers, owners, states and new Apps are spelled out from the request and the profile |
| AppsRefinement.RunRefines | internal/provider/provider.go:116-252 | the same for every run |
| AppsRefinement.BackendsAgree | internal/mockstore/mockstore.go:23-97 | from an empty inventory every run of any managers gives the same answers over the mock map and over the encoding store |
| AppsTrimming.FreshCreateExactly | internal/truenasstore/store.go:448-450 | a new App over the store is handed out if and only if controller and pool ID have no outer space; it is there in either case |
| AppsTrimming.FreshCreatesAgreeExactly | internal/provider/provider.go:254-262 | asked for a new App, mock and store agree if and only if both IDs are free of outer space |
| AppsAnswers.CreateMakesTheRequest | internal/provider/provider.go:116-164 | a `Create` of a name not held, over the mock or the store under any policy: refused if the policy is on and the URLs name no one host; otherwise exactly the App of the request is added, with its two URLs, pool, controller and token, and the instance names it with its state in words |
| AppsAnswers.TakenAndMissing | internal/mockstore/mockstore.go:23-81 | making an App under a held name, and deleting one that is not held, over either client |
| AppsAnswers.WordsOfStates | internal/truenasstore/store.go:553-570 | the status handed out is TrueNAS's word for the state in lower case; unknown words are taken for deploying |
| AppsSafety.StepRespects | internal/provider/provider.go:195-252 | one event, over any inventory and any failures: only the requested App is added, only an idle App read as the controller's own is removed, all else stays as it was |
| AppsSafety.LostOnlyIdle | internal/truenasstore/store.go:553-570 | an App lost over a run was removed by one deletion of its own controller, while its raw state was STOPPED or CRASHED |
| AppsSafety.ForeignUntouched | internal/provider/provider.go:254-262 | over every run an App of another owner, or one that cannot be read, stays exactly as it was |
| AppsManager.Client.GetApp | internal/truenasstore/store.go:115-137 | the query as it runs, over either client |
| AppsManager.Client.CreateApp | internal/mockstore/mockstore.go:23-39 | the creation as it runs, over either client |
| AppsManager.Client.ListApps | internal/mockstore/mockstore.go:55-67 | the listing as it runs: the mock's growing slice in some order, or the store's loop over the names in ascending order |
| AppsManager.SortNames | internal/truenasstore/store.go:156 | the names come out in ascending order, the same ones and each once |
| AppsManager.Client.ReadAll | internal/truenasstore/store.go:157-181 | the store's loop filters, queries, decodes and validates name by name and stops at the first error |
| AppsManager.Client.DeleteApp | internal/mockstore/mockstore.go:69-81 | the deletion as it runs |
| AppsManager.Client.SetState | internal/mockstore/mockstore.go:83-97 | the mock changes the state of the App of that name and nothing else, or reports it missing |
| AppsManager.Manager.Create | internal/provider/provider.go:116-164 | the method does what the function of the refinement does |
| AppsManager.Manager.Get | internal/provider/provider.go:166-175 | the same for `Get` |
| AppsManager.Manager.List | internal/provider/provider.go:177-193 | the same for the loop of `List`, for some order of the names |
| AppsManager.Manager.Delete | internal/provider/provider.go:195-210 | the same for `Delete` |
| AppsManager.Manager.Stop | internal/provider/provider.go:216-228 | the same for `Stop` |
| AppsManager.Manager.RemoveAll | internal/provider/provider.go:230-252 | the same for the loop of `RemoveAll` with its `active` flag |
| ContainerStaging.PlanStaged | internal/containerbackend/manager.go:224-238 | every plan file is staged at the mountpoint followed by its own path; no test refuses one |
| ContainerStaging.EndsApart | internal/containerbackend/bootstrap.go:15-17 | two plan files under any two roots share a place only if file and root are the same |
| ContainerStaging.MountIsRooted | internal/containerbackend/manager.go:250-263 | a container with a provider name has a proper root, even in a dotted pool |
| ContainerSafety.CreateRunHolds | internal/containerbackend/manager.go:111-213 | the invariant of every point of every run of `Create`: the new container is the only difference, it is owned as asked, its files so far are in place, and its state is what the step presupposes |
| ContainerCreate.LeftFilesConfirmed | internal/containerbackend/manager.go:236-245 | a file that staging has left behind was read back under its own path and matched in size and mode |
| ContainerCreate.CreateDelivers | internal/containerbackend/manager.go:151-212 | an instance handed out is an existing steady container with the inventory untouched, or one made by this run: every file confirmed under its own root, all in place when it was started, then running, owned, scrubbed and without token file |
| ContainerFailure.CreateAddsAtMostOne | internal/containerbackend/manager.go:111-213 | wherever `Create` stops: no other container changed, at most one more, that one owned as asked and never with the token in its environment |
| ContainerFailure.FailureRestoresExactly | internal/containerbackend/manager.go:172-211 | a `Create` that comes to its cleanup fails with the error that sent it there, and the inventory is the old one if and only if the cleanup calls took effect |
| ContainerFailure.WithoutCleanup | internal/containerbackend/manager.go:152-170 | a `Create` that never cleans up leaves the inventory alone, or leaves its container exactly when its `Create` call took effect |
| ContainerFailure.AdoptionExactly | internal/containerbackend/manager.go:119-126 | a repeated `Create` hands out the container of its name if and only if identity, pool and steady runtime hold, whatever files are there |
| ContainerRepeat.LeftIsAdoptedExactly | internal/containerbackend/manager.go:183-212 | the container a `Create` left, wherever it was cut, is handed out to the repeated request if and only if the scrub took effect and it is running or stopped; its token file is not looked for again |
| ContainerRepeat.ScrubbedHandedOut | internal/containerbackend/manager.go:183-212 | for every manager and accepted request: a `Create` cut right after the scrub leaves the token under the container's root, and the repeated request is handed that container |
| ContainerRespect.RunRespects | internal/containerbackend/manager.go:265-405 | every operation, cut anywhere: foreign containers keep everything, owned ones lose at most their power state or, stopped, go |
| ContainerRespect.DeletesOnlyStopped | internal/containerbackend/manager.go:359-380 | whenever any operation is about to delete, the container is there, its own and stopped |
| ContainerRespect.ForeignUntouched | internal/containerbackend/manager.go:472-484 | over any sequence of operations of any managers, each cut anywhere, a container none of them owns stays exactly as it was |
| ContainerRespect.LostOnlyStopped | internal/containerbackend/manager.go:265-405 | over such a sequence a container goes only in an operation of its owner before which it was stopped |
| ContainerRespect.SameProviderID | internal/containerbackend/manager.go:603-605 | provider IDs tell containers apart |
| ContainerSweep.RemoveAllExact | internal/containerbackend/manager.go:382-405 | over a faithful client `RemoveAll` ends with the inventory minus its stopped containers, and reports an active one exactly when one is left |
| ContainerAnswers.GetExactly | internal/containerbackend/manager.go:291-307 | over a truthful listing: not found, foreign, drifted, or the container field by field |
| ContainerAnswers.ListExactly | internal/containerbackend/manager.go:309-329 | over a truthful listing: drift exactly if one that counts has drifted, otherwise each container of the manager and the pool once, field by field |
| ContainerAnswers.StopMeansStopped | internal/containerbackend/manager.go:331-353 | over every run, whatever TrueNAS does: when `Stop` succeeds, the container is there, the manager's, and stopped |
| ContainerAnswers.StopExactly | internal/containerbackend/manager.go:331-353 | over served calls: answer and inventory of `Stop` for every target, including what a container that does not come to rest is reported as |
| ContainerAnswers.DeleteMeansGone | internal/containerbackend/manager.go:359-380 | over every run, whatever TrueNAS does: when `Delete` succeeds, no container of that ID is left |
| ContainerAnswers.RemoveAllMeansGone | internal/containerbackend/manager.go:382-405 | over every run, whatever TrueNAS does: when `RemoveAll` succeeds, none of the manager's containers that were there at its start is left |
| ContainerAnswers.DeleteExactly | internal/containerbackend/manager.go:359-380 | over served calls: answer and inventory of `Delete` for every target |
| ContainerContents.StartsAsPlanned | internal/containerbackend/bootstrap.go:60-77 | whenever a run of `Create` is about to start its container: it is the one asked for, starts with the wrapper and the request's URLs in its environment, and wrapper, program and token lie under its root, each at its own path with its own mode |
| ContainerContents.StagingTakesExactly | internal/containerbackend/manager.go:224-235 | a file is staged exactly if it lands under the root and, as a secret, is the token file with mode 0600 |
| ContainerContents.FirstCheckExactly | internal/containerbackend/manager.go:444-459 | the check right after creation, field by field: foreign, drift, or passed |
| ContainerContents.ForcedOnlyInCleanup | internal/containerbackend/manager.go:265-353 | a stop is forced in the cleanup of a failed `Create` and nowhere else |
| ContainerServed.RefusesExactly | internal/containerbackend/manager.go:514-528 | a request is refused, before any call, exactly if it is not a supported one |
| ContainerServed.MadeOnlyAfterChecks | internal/containerbackend/manager.go:111-151 | a run that changes the inventory was asked by a supported request, under the configured version, for a free name |
| ContainerServed.AsksInOrder | internal/containerbackend/manager.go:111-157 | the first four calls, in order and in full, the last with the image just resolved |
| ContainerServed.GivesUpExactly | internal/containerbackend/manager.go:111-213 | drift on what `Create` must not accept, and the error of the call on every other error |
| ContainerServed.RepeatExactly | internal/containerbackend/manager.go:119-126 | the answer to a request for a taken name: foreign, drift, or the container field by field |
| ContainerServed.CreateSucceeds | internal/containerbackend/manager.go:111-213 | if its calls are served, a supported request for a free name is answered after fourteen calls with the one container added, up, scrubbed and without token file, field by field |
| ContainerServed.HonestServes | internal/containerbackend/manager.go:111-213 | on an empty appliance every supported request is served so |
| ContainerServed.CleansUpAfter | internal/containerbackend/manager.go:157-213 | once its container was made as asked for and stopped, a run of `Create` that fails has come to its cleanup before |
| ContainerCrash.UnscrubbedUntilScrub | internal/containerbackend/manager.go:152-189 | from the `Create` call to the scrub every point of a run leaves an unscrubbed new container |
| ContainerCrash.CutIsQuarantined | internal/containerbackend/manager.go:152-189 | a `Create` that stops at such a point leaves its container quarantined |
| ContainerCrash.StaysQuarantined | internal/containerbackend/manager.go:433-512 | quarantine survives every interleaving of processes of any managers, dying anywhere, with outside changes that leave that container and its name alone |
| ContainerCrash.CutNeverServed | internal/containerbackend/manager.go:119-189 | after such a cut, whatever follows: no `Create` of that name returns an instance, `Get`, `Stop`, `Delete`, and its manager's `List` and `RemoveAll` are refused, and the container is unchanged but for its power state |
| ContainerCrash.FoundElsewhere | internal/containerbackend/manager.go:418-431 | looking a quarantined container up is drift to its owner, foreign to others, never not-found |
| ContainerManager.Manager.Create | internal/containerbackend/manager.go:111-213 | the method's calls and answer are those of the step machine |
| ContainerManager.Manager.StageBootstrapFiles | internal/containerbackend/manager.go:215-248 | the staging loop follows the machine to the start of the container, or to cleanup with the loop's error |
| ContainerManager.Manager.CleanupFailedCreate | internal/containerbackend/manager.go:265-289 | the cleanup follows the machine to the failed end with the error it was called for |
| ContainerManager.Manager.Get | internal/containerbackend/manager.go:291-307 | `Get` follows its machine |
| ContainerManager.Manager.List | internal/containerbackend/manager.go:309-329 | `List` follows its machine |
| ContainerManager.Manager.Stop | internal/containerbackend/manager.go:331-353 | `Stop` follows its machine |
| ContainerManager.Manager.Delete | internal/containerbackend/manager.go:359-380 | `Delete` follows its machine |
| ContainerManager.Manager.RemoveAll | internal/containerbackend/manager.go:382-405 | the loop follows its machine |
| ContainerManager.FindItem | internal/containerbackend/manager.go:418-431 | the search loop finds the first item of that provider ID |
| ContainerManager.Filter | internal/containerbackend/manager.go:314-328 | the growing slice holds the claimed items, or the loop ends at the first one that is not steady |
| InitWrapper.Process.Wrap | internal/containerbackend/bootstrap.go:38-58 | the bootstrap child gets the token and the file is gone by then; whoever becomes init has exactly what the wrapper was given but for the provider's variables, and both marks are there |
| InitWrapper.TokenSurvivesExactly | internal/containerbackend/bootstrap.go:43 | the token handed over is the staged one if and only if that one does not end in a line feed |
| LiteralBlock.BlockReadsBackExactly | internal/vmbackend/manager.go:569-576 | in any document that goes on at the parent's level, a printed block reads back as its content if and only if the content is empty, or is line-feed-ended lines, the last not empty, the first with text starting with it and only empty ones before it |
| CloudInit.AppendCloudConfigFile | internal/vmbackend/manager.go:565-577 | the builder gains exactly the entry's text |
| CloudInit.BuildUserData | internal/vmbackend/manager.go:539-553 | the builder ends up with header, three entries and footer |
| CloudInit.UserDataReads | internal/vmbackend/manager.go:539-577 | user data made of plain entries reads back file by file |
| CloudInit.ParsesExactly | internal/vmbackend/manager.go:44-60 | the launcher's loop accepts lines if and only if each names a setting and no setting is given a second value |
| CloudInit.LauncherStartsExactly | internal/vmbackend/manager.go:30-84 | it starts the runner with given settings if and only if the marker is safe, every line names a setting, and each setting has that one non-empty value |
| CloudInit.LauncherRecovers | internal/vmbackend/manager.go:524-537 | from the printed bootstrap file it recovers the two URLs, the token and the three pinned values, whatever `=` or spaces they hold |
| LauncherExits.ExitsAtFirstOffence | internal/vmbackend/manager.go:30-60 | the launcher exits with 40 without a file, 44 on an unsafe marker, and else exactly on the first line out of order: 41 without an equals sign, 43 for an unknown key, 42 for a second value; nothing is consumed then |
| CloudInit.PinnedToolIsPlain | internal/provider/provider.go:25-27 | the pinned tool meets what these theorems ask of a tool |
| CloudInit.Guest.Launch | internal/vmbackend/manager.go:26-85 | the launcher as it runs, loop and exits, computes its specification |
| CloudInit.SeedBoots | internal/vmbackend/manager.go:521-555 | the seed of every accepted request reads back as its files and makes the launcher start the runner with exactly the request's values |
| VmCreate.StagedSeedBoots | internal/vmbackend/manager.go:232 | the same for the seed `Create` stages under the name it gives the VM |
| VmServed.SeedSaysTheRequest | internal/vmbackend/manager.go:521-577 | the staged seed's metadata, opening lines, three files and boot command, spelled out, and the settings the runner is started with, from the request's fields |
| VmCreate.CreateDelivers | internal/vmbackend/manager.go:175-260 | an instance handed out is an existing sound VM with the inventory untouched, or one made by this run, running, owned, with its own seed |
| VmCreate.AdoptionExactly | internal/vmbackend/manager.go:183-190 | a repeated `Create` hands out the VM of its name if and only if identity, pool and runtime hold |
| VmCreate.HalfMadeIsAdopted | internal/vmbackend/manager.go:215-259 | a VM whose `Create` died anywhere after the clone is handed out to the repeated request if and only if it is running or stopped |
| VmCreate.HalfMadeHandedOut | internal/vmbackend/manager.go:215-232 | for every manager and accepted request: a `Create` cut right after the clone leaves a VM without seed, and the repeated request is handed that VM |
| VmSafety.CreateRunHolds | internal/vmbackend/manager.go:175-260 | the invariant of every point of every run of `Create` |
| VmRespect.RunRespects | internal/vmbackend/manager.go:265-417 | every operation, cut anywhere, changes only what is its own: power state, or the seed and existence of a stopped VM |
| VmRespect.CreateAddsAtMostOne | internal/vmbackend/manager.go:175-260 | wherever `Create` stops: no other VM and no seed that was there changed, and at most one more VM, its own |
| VmRespect.TakesOnlyFromIdle | internal/vmbackend/manager.go:265-302 | a VM is deleted, a seed detached or deleted, only where the VM is owned and stopped; reconciliation does so only after consumption |
| VmRespect.ForeignUntouched | internal/vmbackend/manager.go:456-471 | over any sequence of operations a VM none of the managers owns stays exactly as it was |
| VmRespect.LostOnlyStopped | internal/vmbackend/manager.go:362-417 | a VM goes only in an operation of its owner before which it was stopped |
| VmRespect.DeleteLeavesNothing | internal/vmbackend/manager.go:362-392 | a `Delete` that succeeds on a VM that was there leaves neither the VM nor its seed, whatever was only acknowledged |
| VmSeeds.SeedsStayDisciplined | internal/vmbackend/manager.go:232-302 | in every state any interleaving reaches, every attached seed exists and hangs on one VM, if references are fresh and acknowledged detachments happened |
| VmDangling.LyingDetachDanglesExactly | internal/vmbackend/manager.go:287-293 | at every point of a `ReconcileBootstrap` or `Delete` begun with sound seeds: the VM has a seed that no longer exists if and only if the detachment was only acknowledged, the image was then deleted, and the VM is still there |
| VmDangling.LyingDetachDangles | internal/vmbackend/manager.go:287-293 | for every manager and request there is such a `ReconcileBootstrap` of an owned, stopped, consumed VM, and it ends up with a seed that no longer exists |
| VmOrphans.OrphansStay | internal/vmbackend/manager.go:287-293 | over every interleaving of processes, under the laws of `SeedsStayDisciplined`: a seed that hangs on no VM and that no process is about to hang or delete stays for good, with what it says |
| VmOrphans.TakingLeavesOrphanExactly | internal/vmbackend/manager.go:373-382 | at every point of a `ReconcileBootstrap` or `Delete` begun with sound seeds: the VM's seed is still there and hangs on nothing if and only if a detachment took effect and no deletion of the image did |
| VmOrphans.CreateLeavesOrphanExactly | internal/vmbackend/manager.go:232-241 | at every point of a `Create` begun with sound seeds: a new seed hangs on no VM if and only if the staging took effect and no attachment did |
| VmSweep.RemoveAllExact | internal/vmbackend/manager.go:394-417 | over a faithful client `RemoveAll` ends with the inventory minus its stopped VMs and their seeds, and reports an active one exactly when one is left |
| VmAnswers.GetExactly | internal/vmbackend/manager.go:304-310 | over a truthful listing: not found, foreign, drifted, or the VM field by field |
| VmAnswers.ListExactly | internal/vmbackend/manager.go:312-332 | over a truthful listing: drift exactly if one that counts has drifted, otherwise each VM of the manager and the pool once, field by field |
| VmAnswers.StopMeansStopped | internal/vmbackend/manager.go:334-356 | over every run, whatever TrueNAS does: when `Stop` succeeds, the VM is there, the manager's, and stopped |
| VmAnswers.StopExactly | internal/vmbackend/manager.go:334-356 | over served calls: answer and inventory of `Stop` for every target |
| VmAnswers.ReconcileMeansCleared | internal/vmbackend/manager.go:265-302 | over every run, whatever TrueNAS does: when `ReconcileBootstrap` succeeds, the VM is there without a seed and the seed it had is gone |
| VmAnswers.ReconcileExactly | internal/vmbackend/manager.go:265-302 | over served calls: answer and inventory of `ReconcileBootstrap` for every target, consumed or not, with or without the image |
| VmAnswers.DeleteExactly | internal/vmbackend/manager.go:362-392 | over served calls: answer and inventory of `Delete` for every target, seeded or not |
| VmAnswers.RemoveAllMeansGone | internal/vmbackend/manager.go:394-417 | over every run, whatever TrueNAS does: when `RemoveAll` succeeds, none of the manager's VMs that were there at its start is left |
| VmServed.RefusesExactly | internal/vmbackend/manager.go:500-519 | a request is refused, before any call, exactly if it is not a supported one or breaks a line of the bootstrap file |
| VmServed.MadeOnlyAfterChecks | internal/vmbackend/manager.go:175-215 | a run that changes the inventory was asked by such a request, under the configured version, for a free name |
| VmServed.AsksInOrder | internal/vmbackend/manager.go:175-223 | the first four calls, in order and in full, the last a clone of the template just resolved |
| VmServed.NeverForced | internal/vmbackend/manager.go:334-356 | no VM is stopped by force |
| VmServed.GivesUpExactly | internal/vmbackend/manager.go:175-260 | drift on what `Create` must not accept, and the error of the call on every other error |
| VmServed.RepeatExactly | internal/vmbackend/manager.go:183-190 | the answer to a request for a taken name: foreign, drift, or the VM field by field |
| VmServed.StartsAsPlanned | internal/vmbackend/manager.go:215-245 | whenever a run of `Create` is about to start its VM: it is the one asked for, stopped, with the request's own seed on it |
| VmServed.CreateSucceeds | internal/vmbackend/manager.go:175-260 | if its calls are served, such a request for a free name is answered after eight calls with the one VM added, up, with its own seed, field by field |
| VmServed.HonestServes | internal/vmbackend/manager.go:175-260 | on an empty appliance every such request is served so |
| VmManager.Manager.Create | internal/vmbackend/manager.go:175-260 | the method's calls and answer are those of the step machine |
| VmManager.Manager.ReconcileBootstrap | internal/vmbackend/manager.go:265-302 | `ReconcileBootstrap` follows its machine |
| VmManager.Manager.Stop | internal/vmbackend/manager.go:334-356 | `Stop` follows its machine |
| VmManager.Manager.Delete | internal/vmbackend/manager.go:362-392 | `Delete` follows its machine |
| VmManager.Manager.RemoveAll | internal/vmbackend/manager.go:394-417 | the loop follows its machine |
| ShellSafety.ExecuteIsEffect | internal/truenasstore/bootstrap.go:65-253 | every command is a change of the state followed by a move of control that may leave only through the EXIT trap |
| ShellSafety.PositionMoves | internal/truenasstore/bootstrap.go:65-253 | control never goes back in the text, loops apart |
| ShellSafety.CredentialsAreGone | internal/truenasstore/bootstrap.go:42-66 | however the program leaves, at any exit or signal, whichever home it ended up with: every credential file, link, temporary file and archive it made is gone, and nothing outside the swept paths was touched |
| ShellGate.RunKnown | internal/truenasstore/bootstrap.go:163-245 | what is known at every command boundary of every run: order of events, how the tree was come by, what is fetched and linked, where the runner stands |
| ShellRuns.LaunchIsGated | internal/truenasstore/bootstrap.go:144-212 | `run.sh` starts only from a resident tree of exactly the expected version, or after this run's download passed its checksum, with a complete tree and three linked credentials; behind each link lies a non-empty file if and only if its move did not fail or one lay there from the start |
| ShellRuns.ResidentUsedExactly | internal/truenasstore/bootstrap.go:144-166 | the resident tree is used exactly if it is complete, writable, free of credentials and of the expected version |
| ShellRuns.LaunchedFromThere | internal/truenasstore/bootstrap.go:212 | every launch on record was made at that command, from that tree |
| ShellRuns.FailedMoveStillLaunches | internal/truenasstore/bootstrap.go:113-115 | for each credential a whole run from an empty directory, in which nothing but its move fails, that comes to the launch with nothing behind its link |
| ShellRuns.IdleComesLast | internal/truenasstore/bootstrap.go:215-245 | `idle` is sent only after a launch and an accepted system-information post, and no failure is reported after it |
| ShellRuns.AttemptsAreLimited | internal/truenasstore/bootstrap.go:76-142 | in every loop the attempts made are numbered from 1 upwards to at most `MAX_ATTEMPTS` |
| ShellRuns.ProgramEnds | internal/truenasstore/bootstrap.go:76-253 | the program ends within a number of commands fixed by the limit, whatever the network does |
| ShellRuns.ExitLeavesRunnerExactly | internal/truenasstore/bootstrap.go:57-63 | leaving keeps the runner alive if and only if a signal fell between its start and the recording of its process ID |
| ShellRuns.SignalLeavesRunner | internal/truenasstore/bootstrap.go:212-213 | a whole run in which one signal falls there: it exits with 143 and the runner alive |
| ShellExits.FailureGivesCode | internal/truenasstore/bootstrap.go:163-253 | over whole runs, from failure to code: once a command has decided by the table of the module how the program ends and no signal comes any more, it leaves with that code, whatever becomes of its reports |
| ShellExits.CodeTellsFailure | internal/truenasstore/bootstrap.go:163-253 | from code to failure: the program leaves with 143 on a signal, or with the code that one command with no signal since decided by failing: 20, 25, 30, 31 for a report, 21 for the download, 22 for extraction, 23 and 24 for the tree, 26 to 28 for a credential, 29 for an early end of the runner, 1 for a watched command, or the runner's own; and a loop that failed made and lost every attempt |
| ShellExits.RunnersCodeIsReturned | internal/truenasstore/bootstrap.go:247-253 | awaited without a signal, the runner's code is the program's |
| ShellExits.OnlyGoodMovesOn | internal/truenasstore/bootstrap.go:101-142 | over whole runs a credential is moved into place only right after curl brought a non-empty file, and the archive only right after the checksum of what curl brought matched |
| ShellFresh.NothingStaleIsUsed | internal/truenasstore/bootstrap.go:125-212 | over whole runs, whatever an earlier one left behind: the archive that is unpacked was moved into place by this run, and every link the runner starts with is this run's own |
| ShellProgram.Session.PostJson | internal/truenasstore/bootstrap.go:76-92 | the loop as it is written: its own commands, named in their order, are at each point the one the machine is at, and it returns where the machine does, with curl's verdict |
| ShellProgram.Session.FetchMetadata | internal/truenasstore/bootstrap.go:101-123 | the same for clearing, fetching, moving and dropping a credential |
| ShellProgram.Session.DownloadRunner | internal/truenasstore/bootstrap.go:125-142 | the same for the download, its checksum and its move |
| ShellProgram.Session.ProvideTree | internal/truenasstore/bootstrap.go:163-181 | the two ways to a tree, with their reports and exits |
| ShellProgram.Session.LaunchRunner | internal/truenasstore/bootstrap.go:207-219 | the three links, the launch, the note of the process ID, the pause and the probe, in this order |
| ShellProgram.Session.ReportAndWait | internal/truenasstore/bootstrap.go:236-253 | the two reports with their kills and exits, and the wait for the runner |
| ShellProgram.Session.Bootstrap | internal/truenasstore/bootstrap.go:163-253 | the whole program as it is written goes through a run of the machine command by command and leaves |

## Left out

- Connecting, the WebSocket client, job calls, file I/O of the mock's store, context cancellation and the mutex.
- The `cmd` package and the runtime backend matrix, with the constructors' look-up in it.
- Error texts: only the class of an error is kept.
- JSON text: a document or description is represented by what it decodes to, so printing and parsing of text, and Go's aliasing of maps inside `applyCallbackHostGateway`, are not captured.
- The client interface as a dynamic type: `AppsManager.Client` holds either client's state and branches on which it is.
- The order of a listing in the refinement: every order of the names is covered, and listings are compared as sets. How `sort.Slice` sorts is not modelled either; `AppsManager.SortNames` inserts name by name.
- Floats outside the range of 64-bit integers, whose conversion Go leaves to the machine.
- Unicode case mapping, SHA-256, URL parsing and IP detection: parameters with the laws named above.
- App states other than the five the provider names, and Compose interpolation inside a default value of `${…}`.
- The text of the runner program, the launcher and the init wrapper: parameters. Their behaviour is modelled by hand in `Shell`, `CloudInit` and `InitWrapper`; the replacement of one status message in the VM's copy of the program is not modelled.
- CloudInit.SeedBoots: asks that the two staged programs be blockable, which is a property of their text and exact by `LiteralBlock.BlockReadsBackExactly`.
- VmCreate.StagedSeedBoots: asks the same of the two programs.
- Integers beyond 2^53 in a document: `Documents.Reread` keeps every integer exactly, and `Lawful` keeps the printed ones in the range in which a float64 does.
- `planContainsToken` and `tokenPresent`, which no operation calls.
- What runs inside a container beyond the removal of the token file and a change of power state, and the fate of a container's files once it is deleted.
- TrueNAS is taken to report truthfully in the replies of `Create` and of listings, and to give no two containers one name or one root.
- Signals that arrive while the EXIT trap runs, SIGKILL, and failures of `sleep`, the text tools, `chmod` and the `rm` of loops and traps.
- InitWrapper.Process.Wrap: models the order of reads, deletions and unsets, not the races of the child with its parent, which share nothing by then.
- YAML beyond literal blocks and the fixed lines around them: `CloudInit.ReadUserData` reads exactly the shape `seedFor` prints, and line breaks are those of YAML 1.2.2.
- What cloud-init does with the users section and what `install` and `runuser` do.

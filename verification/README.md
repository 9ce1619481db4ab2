# ScopeNest native host: verified metadata protocols

The ScopeNest native host lets several processes share one JSON metadata file, a set of browser
profile directories, a certificate directory tree and the operating system's root store. This
project models those shared protocols and proves what they keep under interleaving, crashes and
stale actors. `dafny verify dfyconfig.toml` checks everything.

Each protocol appears in two forms that share one set of specification functions, whose own meaning is
stated field by field in `LaunchRules`, `CertificateRules` and `ReferenceRules`:

* a transition system whose atomic steps are the metadata transactions and the single effects
  between them (a process starting or exiting, a directory rename, a change of the root store, a
  crash), with theorems over every run;
* the handlers themselves as classes and loops over the stored records, proved against the same
  functions. `Transactions` gives each handler's transaction as a function of the loaded database; the
  handlers write exactly what it says, and `CommandSafety` and `StoreSafety` reason about that.

| files | what they hold |
|---|---|
| `Records`, `MetadataFile` | the stored records and the file as one transaction sees it |
| `LaunchSpec`, `LaunchRules` | container lifecycle: the transactions, and what each promises about the record's fields and its errors |
| `LaunchProtocol`, `LaunchSafety`, `LaunchTheorems` | interleavings, invariant, guarantees |
| `LaunchHandlers` | reserve, commit, release, reconcile, watch, launch, close, delete, clean up as the host runs them |
| `Environment`, `LaunchGate` | resolution of the effective environment, readiness, browser arguments |
| `References`, `ReferenceSpec`, `ReferenceRules`, `ReferenceSafety`, `ReferenceHandlers` | the reference graph and the proxy and template commands |
| `Transactions`, `Commands`, `CommandSafety` | every command's transaction as a function of the loaded database, and what all of them keep |
| `CertificateSpec`, `CertificateRules`, `TrustProtocol`, `TrustSafety` | trust operations against the root store |
| `DeletionProtocol`, `DeletionSteps`, `DeletionSafety`, `DeletionOverlap`, `DeletionPatience` | import, deletion and deletion recovery over the directories, and which overlaps do harm |
| `CertificateProtocol`, `CertificateOverlap`, `CertificatePatience` | trust and directories together: theorems over whole runs, and the exact conditions they need |
| `TrustHandlers`, `LibraryHandlers` | the certificate commands and both recovery passes as loops |
| `Normalization`, `LockedStore`, `StoreSafety`, `StoreCalls` | what a load makes of the file, concurrent updates, the commands under them, one process's calls |
| `PageReferences` | page references of the automation runtimes |
| `Framing`, `MessageLoop` | native message framing and the message loop |
| `JobQuery` | the growing-buffer query for process IDs |

## Assumptions

The code relies on these and the model states them in its steps:

* IDs from `security.NewID` are fresh (`ReserveNext`, `CreateNext`, `NewToken`, `Place`, `IdSource`,
  `Executes`).
* A profile marker is present whenever a process using that profile is alive (`ProbeMarkersNext`);
  markers may also be present without one.
* PIDs of processes whose watcher has not finished are distinct (`StartProcessNext`). What this buys
  is `LateWatcherNeedsDistinctPids`.
* All hosts read one clock that does not run backwards (`Tick`, `now <= clock`).
* Manual acknowledgment exists only where the trust store is unsupported (`Sane`);
  `IntentSurvivesLoadExactly` says what happens otherwise.
* Where a theorem says so, the root store answers recovery truthfully or reports that it cannot say
  (`Truthful`). To a command it always answers truthfully or not at all: whether the entry is there when
  the intent is written, what Install reports about it, and what the confirmation finds
  (`PrepareInstallNext`, `ChangeStoreNext`, `ConfirmNext`). `ForeignNeverClaimed` needs this of the
  first two, and nothing of the answers recovery gets.
* A rename with the sync of its parent is one step that happens or does not.
* Other programs leave a root store entry alone while ScopeNest has an operation under way on it, and
  add none that a record already claims (`ExternalAddNext`, `ExternalRemoveNext`). Reading the store
  and writing the intent are one step, and so is a pass of trust recovery with the answers it gets.
* The operating system drops a file lock when its holder dies.

## Where the plain claim is false

* A trust recovery that ends the operation of an installation which has yet to call the store can leave
  the entry added afterwards tracked by nothing. It does harm exactly when the answer is that the entry
  is absent, or that it is there and the record owns it (`Discreet`, `TrackingNeedsDiscretion`); every
  other overlap is harmless. That entries of others are never claimed or removed needs no condition.
* A deletion recovery can lose a record's bytes. This happens exactly through a careless look: having
  seen the certificate's own directory, it looks for the staged one while the deletion has still to
  stage it, and then forgets the tombstone, or has staged it, and then wipes the directory another
  recovery brought back (`CarelessLook`, `KeepingNeedsCare`).
* A deletion can end with a directory and no record. What decides it is again the second look: one
  that finds the staged directory when its record is gone, or when the deletion has yet to drop it, binds
  the recovery to bring the directory home (`HastyLook`). Runs without careless and hasty looks end
  clean, and each such look can be continued until something is lost or left (`PatientRunIsOrderly`,
  `CleanEndsNeedPatience`). The harm itself is then exactly a directory brought home for a record that is
  gone, or a record dropped while its directory is back home (`LateReturn`, `LateDrop`,
  `CleanEndsNeedOrder`). A recovery that begins only when its deletion is not under way does none of
  these (`ApartRunIsOrderly`).
* A crash between removing the staged directory and removing the tombstone leaves the tombstone for
  good (`StuckHappens`, `CrashAfterPurgeSticks`, `StuckForever`); record and directories agree all the same.
* Markers are looked at before a profile directory is removed. A launch that has lost its reservation
  can start its browser in between, so a removal can meet a live process (`RemovalCanMeetLostProcess`),
  though never one that is committed or can still commit (`RemovalHitsNoCommittedProcess`). After such a
  look a process is live exactly when it was started since and has not exited (`LiveExactlyIfStartedSince`).
* Readiness and launch differ exactly for an unreachable listener whose stored behaviour is none of the
  three known ones (`ReadinessDisagreesExactly`, `ReadinessCanDisagree`); no handler stores such a profile.
* On 32-bit words, counts with the top bit set are read as negative. A list of two equal such counts reads
  as empty exactly when the size computed from them, which wraps round, is not more than the buffer
  (`NegativeListsExactly`, `NegativeListsGoBothWays`).
* Migration does not always keep the version 1 content. A call that is stopped while it writes the backup
  leaves part of one, and the next call takes that for the backup and rewrites the file; a call that
  cannot find out whether there is a backup rewrites the file without one (`CarelessCallCanLoseContent`).
  A rewriting keeps the content exactly when the backup holds it already or the call makes one, and over
  any number of calls that fail in other ways the content is kept exactly when no other backup was there
  at the start (`RewritingKeepsContentExactly`, `CarefulCallsKeepContentExactly`). What loads answer is
  the same in any case (`MigrationIsInvisible`).
* A message whose header is complete and whose payload is missing altogether ends the loop silently,
  like a closed stream, instead of with an error answer (`EndsSilentlyExactly`).

## Model

| member | source | states |
|---|---|---|
| LaunchTheorems.CommittedProcessIsRecorded | native-host/internal/host/host.go:746-786 | in every interleaving with crashes, a live process whose launch was committed has its record Running with its PID, and every record has its shape (Launching iff token and time are set, running flag iff Running, PID only when Running) |
| LaunchTheorems.OneCommittedProcessPerContainer | native-host/internal/host/host.go:809-877 | at most one committed process is live per container in every run, takeover of expired reservations included |
| LaunchTheorems.LateWatcherNeedsDistinctPids | native-host/internal/host/host.go:930-943 | a watcher still on its way stops the record of another live committed process exactly when the two have the same PID |
| LaunchTheorems.ReservationMovedByIssuerOrExpiry | native-host/internal/host/host.go:831-840 | a Launching record moves only by its own launch's commit or release, or after the reservation time has run out |
| LaunchTheorems.StaleHolderChangesNothing | native-host/internal/host/host.go:750-757 | commit and release of a launch whose reservation was taken over leave every record as it is, and the commit fails |
| LaunchTheorems.RetiredTokenNeverReturns | native-host/internal/host/host.go:863-869 | a reservation token that left the records never comes back in the run |
| LaunchTheorems.TokenRetiredOnce | native-host/internal/host/host.go:890-901 | over a run each reservation is used up at most once, by one commit, one release or one expiry |
| LaunchTheorems.FailedLaunchLeavesNothing | native-host/internal/host/host.go:765-781 | a launch that reported an error has no live process and, unless one of its own writes failed, no record holds its token |
| LaunchTheorems.DeletedContainerNeverCommits | native-host/internal/host/host.go:983-1024 | a launch that outlives the deletion of its container never commits in the rest of the run |
| LaunchTheorems.RemovalHitsNoCommittedProcess | native-host/internal/host/host.go:993-1014 | when a profile directory is removed its record is not Launching, and a process live on it is neither committed nor holding a reservation |
| LaunchTheorems.RemovalCanMeetLostProcess | native-host/internal/host/host.go:1038-1047 | for every stopped container there is a run from an initial state in which a launch reserves it, loses the reservation to another host and starts its browser between that host's look at the markers and its removal of the directory |
| LaunchTheorems.LiveExactlyIfStartedSince | native-host/internal/host/host.go:1000-1015 | after a look that found a profile free, a process is live on it at any later point if and only if a launch started it since and it has not exited |
| LaunchTheorems.StoppedContainerCanLaunch | native-host/internal/host/host.go:649-787 | a stopped container with a free profile can be reserved, started, registered and committed, ending Running with that PID |
| LaunchTheorems.OrphanIsReconciled | native-host/internal/host/host.go:481-491 | from any state in which a running record's only live process belongs to another host: that host crashes, its browser ends, another host looks at all markers and reconciles, and exactly this record comes to rest |
| LaunchRules.ReservesExactly | native-host/internal/host/host.go:812-872 | a reservation succeeds if and only if the record is there, name, browser type and automation consent permit it, no launch holds it, the environment is fine and the profile is free; it makes one record Launching under the token and keeps its settings |
| LaunchRules.PolicyRefusals | native-host/internal/host/host.go:815-830 | name mismatch, custom browser, missing automation consent and automation on a custom browser each have their own code if and only if it is the first of them in this order |
| LaunchRules.StateRefusals | native-host/internal/host/host.go:831-875 | a held reservation, each environment error, a failed look and a profile in use each have their code exactly when everything before is passed |
| LaunchRules.CommitsExactly | native-host/internal/host/host.go:748-764 | a commit succeeds if and only if the record is Launching under this token, and writes state, PID and launch time and clears the reservation, settings kept |
| LaunchRules.StopsExactly | native-host/internal/host/host.go:890-949 | release and watcher bring the record to rest exactly for their own token or PID, with every other field and record kept |
| LaunchRules.ReconcilesExactly | native-host/internal/host/host.go:461-505 | reconciliation brings to rest exactly the launches whose time is over and the running records whose PID this host does not own, where the profile is free, changes nothing else, and fails if and only if the look at one of those failed |
| LaunchRules.DeletesExactly | native-host/internal/host/host.go:983-1020 | a container is deleted if and only if nobody launches it, this host does not own its process, its profile is free and its directory went |
| LaunchRules.DeletionRefusals | native-host/internal/host/host.go:983-1020 | each refusal of a deletion has its code exactly when it is the first that applies |
| LaunchRules.DeletesTemporaryExactly | native-host/internal/host/host.go:1026-1067 | a temporary container at rest goes when its profile is free and its directory went, is otherwise marked and kept as it was, and is left alone when it is not at rest |
| LaunchRules.CreatesExactly | native-host/internal/host/host.go:526-604 | a new container is at rest with the settings asked for, an empty mode meaning direct, and is refused exactly for automation on a custom browser or an environment that does not resolve |
| LaunchRules.UpdatesExactly | native-host/internal/host/host.go:526-643 | an update writes all settings of one record and no lifecycle field; each refusal has its code, automation consent included |
| LaunchRules.LifecycleKeepsSettings | native-host/internal/host/host.go:794-949 | no lifecycle transaction changes a setting of any container |
| LaunchHandlers.Host.ReserveLaunch | native-host/internal/host/host.go:794-877 | the reservation transaction: every refusal in order leaves the file alone; success means the caller was permitted to launch, nobody holds the record, every required certificate is ready and the network is the one the mode asks for, writes exactly one record, and gives the session the automation asked for |
| LaunchHandlers.Host.CommitLaunch | native-host/internal/host/host.go:748-764 | commit succeeds exactly for the record that is Launching under this token and whose write happens, and changes that record only |
| LaunchHandlers.Host.ReleaseReservation | native-host/internal/host/host.go:890-901 | only a record Launching under this token is stopped; any other file content stays |
| LaunchHandlers.Host.Launch | native-host/internal/host/host.go:649-787 | with other hosts writing between its transactions, launch succeeds exactly when every step does and the reservation is still held, for callers who are permitted; every error exit has its code and leaves its own process dead and unregistered and no reservation under its token unless the write failed; the arguments are those of the resolved proxy, or the direct fallback or the warning is reported exactly when the listener is missing and the profile says so |
| LaunchHandlers.Host.ReconcileAll | native-host/internal/host/host.go:461-496 | the loop stops exactly the reservations whose time is over and the running records this host does not own, where the profile is free, all at once or, on a failed look at one of them, none, and keeps every other record |
| LaunchHandlers.Host.Watch | native-host/internal/host/host.go:912-949 | only the current owner of the slot acts, it stops only the record with its PID, and asks for cleanup exactly when a stopped temporary record is left or would be, had the write not failed |
| LaunchHandlers.Host.Close | native-host/internal/host/host.go:951-981 | close tells only a process this host started to end, after finding its record, and leaves the records to the watcher |
| LaunchHandlers.Host.DeleteContainer | native-host/internal/host/host.go:983-1024 | delete removes exactly one record after all its checks and the directory removal, or leaves the file alone with the matching error, also when the write fails with the directory gone |
| LaunchHandlers.Host.DeleteTemporaryContainer | native-host/internal/host/host.go:1026-1067 | a stopped temporary record goes with its directory, or is marked for later cleanup when the profile is in use or the removal fails; a failing write is an error and leaves the file alone |
| LaunchHandlers.Host.Cleanup | native-host/internal/host/host.go:1069-1090 | after reconciling, whichever directories can be removed and whichever writes succeed, every stopped temporary container is either gone with a free profile and listed as cleaned, or listed as pending and at most marked, and nothing else changes |
| LaunchHandlers.Host.CreateContainer | native-host/internal/host/host.go:526-604 | create appends the record exactly when its input is acceptable and its environment resolves |
| LaunchHandlers.Host.UpdateContainer | native-host/internal/host/host.go:526-643 | update replaces the configuration of one record after checking the input, resolving it and checking name and consent, and keeps its lifecycle fields |
| LaunchHandlers.EnvironmentErrors | native-host/internal/host/environment.go:38-185 | a reservation's environment is fine if and only if it resolves and every required certificate is ready, and otherwise the error is one of nine |
| Environment.ResolveEffectiveEnvironment | native-host/internal/host/environment.go:38-121 | the lookups and list building give the resolution function's result on every database, error cases included; a result without error goes where the container's mode says and requires the certificates that go with it |
| Environment.ResolvedByMode | native-host/internal/host/environment.go:69-121 | without error, template mode goes through the proxy of the first template of that ID, or direct if it has none, proxy mode through the container's proxy, direct and empty mode through none; the proxy is stored and enabled, and its and the template's certificates are required and stored |
| Environment.ResolutionErrors | native-host/internal/host/environment.go:55-113 | a missing template, references that do not go with the mode, an unknown mode, a missing and a disabled proxy each have their code exactly when they are the first to apply |
| Environment.MissingCertificateReported | native-host/internal/host/environment.go:114-121 | a missing certificate is reported if and only if a required one is not stored and nothing else is wrong |
| Environment.AppendUnique | native-host/internal/host/environment.go:123-139 | appending without duplicates is the duplicate-free list of the concatenation |
| Environment.Unique | native-host/internal/host/environment.go:123-139 | the list holds exactly the nonempty values, each once |
| Environment.UniqueKeepsOrder | native-host/internal/host/environment.go:123-139 | values keep the order of their first occurrence |
| Environment.UniqueAbsorbs | native-host/internal/host/environment.go:66-110 | regrouping successive appends never changes the result |
| Environment.RequiredCertificates | native-host/internal/host/environment.go:60-117 | the required list is the duplicate-free union of the template's and then the chosen proxy's lists |
| References.BrokenReferences | native-host/internal/store/store.go:308-348 | the report lists exactly the references to missing resources, so it is empty if and only if the reference graph is whole |
| ReferenceSafety.MutationKeepsInv | native-host/internal/host/proxy_handlers.go:135-255 | every create, update, delete and import keeps the reference graph whole, IDs and fingerprints distinct and every container well configured |
| ReferenceSafety.ReachableDbInv | native-host/internal/host/template_handlers.go:53-202 | every database reachable by the mutators has no broken reference and pairwise distinct fingerprints |
| ReferenceSafety.StoredContainerResolves | native-host/internal/host/environment.go:38-121 | in a reachable database a stored container resolves, or fails with PROXY_PROFILE_DISABLED exactly when its selected proxy is disabled |
| ReferenceHandlers.CreateProxyProfile | native-host/internal/host/proxy_handlers.go:135-165 | the cleaned profile is stored under its new ID exactly when it is valid and its certificates exist, the error says which check failed, and the references stay whole |
| ReferenceHandlers.UpdateProxyProfile | native-host/internal/host/proxy_handlers.go:167-196 | one existing profile is replaced in place under the same checks, or nothing changes |
| ReferenceHandlers.DeleteProxyProfile | native-host/internal/host/proxy_handlers.go:218-255 | a profile goes exactly when no container and no template uses it |
| ReferenceHandlers.CreateEnvironmentTemplate | native-host/internal/host/template_handlers.go:53-110 | a template is stored exactly when its list is allowed and its proxy and certificates exist, with the error of the first failing check |
| ReferenceHandlers.UpdateEnvironmentTemplate | native-host/internal/host/template_handlers.go:112-168 | an existing template is replaced exactly when its list is allowed and its references exist, with the error of the first failing check |
| ReferenceHandlers.DeleteEnvironmentTemplate | native-host/internal/host/template_handlers.go:170-202 | a template goes exactly when no container uses it |
| ReferenceHandlers.CleanRules | native-host/internal/host/proxy_handlers.go:61-86 | bypass rules are accepted exactly if there are at most 100 of at most 256 characters each and 8192 together and no two nonempty ones are equal, and empty ones are dropped in order |
| ReferenceRules.ProxyCreatedExactly | native-host/internal/host/proxy_handlers.go:42-165 | a profile is stored, with every field as sent in but its empty rules dropped, if and only if protocol, port, behaviour, rules and certificate list are good and the certificates stored; each refusal has its code |
| ReferenceRules.ProxyUpdatedExactly | native-host/internal/host/proxy_handlers.go:167-196 | the same for the replacement of one profile, the others staying as they were |
| ReferenceRules.ProxyDeletedExactly | native-host/internal/host/proxy_handlers.go:218-255 | a profile goes if and only if it is there and no container and no template names it |
| ReferenceRules.NonEmptyInOrder | native-host/internal/host/proxy_handlers.go:66-86 | dropping empty rules keeps the others in their order |
| ReferenceRules.TemplateCreatedExactly | native-host/internal/host/template_handlers.go:53-110 | a template is stored as sent in if and only if its list is good and its proxy and certificates are stored; each refusal has its code |
| ReferenceRules.TemplateUpdatedExactly | native-host/internal/host/template_handlers.go:112-168 | the same for the replacement of one template |
| ReferenceRules.TemplateDeletedExactly | native-host/internal/host/template_handlers.go:170-202 | a template goes if and only if it is there and no container names it |
| LaunchGate.CertificateReadiness | native-host/internal/host/environment.go:147-185 | the first unmet requirement is the one reported, and none is if and only if every required certificate is stored and ready |
| LaunchGate.CertificateErrors | native-host/internal/host/environment.go:160-183 | a certificate is ready if and only if its bytes are readable and, with a trust store, the store has the entry and the record is trusted, or else on Linux it is acknowledged for these bytes; each other case has its code |
| LaunchGate.Readiness | native-host/internal/host/environment.go:187-223 | ready is reported exactly when the environment resolves, all certificates are ready and no missing listener blocks |
| LaunchGate.ReadyExactly | native-host/internal/host/environment.go:187-223 | ready means exactly that the environment resolves, all required certificates are ready, and no listener that is checked and missing blocks |
| LaunchGate.ReadinessAgreesWithLaunch | native-host/internal/host/environment.go:187-223 | in a reachable database readiness says ready exactly when launch passes its environment checks on the same answers |
| LaunchGate.ReadinessDisagreesExactly | native-host/internal/host/host.go:686-704 | on arbitrary files they differ exactly for an unreachable listener with an unknown stored behaviour |
| LaunchGate.ReadinessCanDisagree | native-host/internal/host/environment.go:210-222 | such a file exists: a whole reference graph in which readiness says ready and launch refuses |
| LaunchGate.PrepareBrowser | native-host/internal/host/host.go:680-733 | the arguments are those of the resolved proxy unless the direct fallback fired; fallback and warning are reported, and the launch refused with its code, exactly when a checked listener is missing and the profile's behaviour says so |
| LaunchGate.ProceedsExactly | native-host/internal/host/host.go:680-705 | a launch gets past the listener without a proxy, without a check, with a listener, or where warning or direct fallback is chosen, and in no other case |
| LaunchGate.RouteLeadsToListener | native-host/internal/browser/browser.go:90-107 | the proxy argument names the profile's host and port, keeps a SOCKS protocol, and uses https exactly for https |
| LaunchGate.CommandLineMembers | native-host/internal/browser/browser.go:69-127 | each proxy, QUIC, bypass, debugging and URL argument is present exactly when asked for, with that value |
| LaunchGate.CommandLineOrder | native-host/internal/browser/browser.go:76-127 | the profile directory comes first and the page last, and no argument is there twice |
| TrustProtocol.TrustNextKeepsLoose | native-host/internal/host/certificate_handlers.go:85-263 | every trust step, with recovery at any moment and any answers, keeps entries of others unclaimed and untargeted and the record shape |
| TrustSafety.TrustNextKeepsInv | native-host/internal/host/certificate_handlers.go:85-263 | with true answers and discreet recoveries every step keeps each added entry tracked by a record, whatever operations a recovery overlaps |
| TrustProtocol.RemovalBeginsUnused | native-host/internal/host/certificate_handlers.go:199-208 | in the protocol a removal begins only for an entry the record owns, with nothing pending, that no profile and no template lists |
| CertificateRules.InstallIntentsExactly | native-host/internal/host/certificate_handlers.go:105-132 | an installation begins if and only if nothing is pending, the bytes are readable and the store answers; what it writes, and each refusal's code |
| CertificateRules.RemovalIntentsExactly | native-host/internal/host/certificate_handlers.go:194-226 | a removal begins if and only if nothing is pending, the entry is ScopeNest's, nothing lists the certificate and the bytes are readable; what it writes, and each refusal's code |
| CertificateRules.ResultsExactly | native-host/internal/host/certificate_handlers.go:151-169 | after an installation the record is trusted and owned unless the entry was another's, after a removal neither, and the operation is cleared |
| CertificateRules.FailureIsRecorded | native-host/internal/host/certificate_handlers.go:271-283 | a failure is recorded over the operation, which stays, and trust and ownership are kept |
| CertificateRules.AcknowledgedExactly | native-host/internal/host/certificate_handlers.go:303-339 | an acknowledgment names the certificate, its bytes and Linux, and gives up trust and ownership |
| CertificateRules.ImportedExactly | native-host/internal/certstore/certstore.go:217-268 | an imported record is untrusted, unowned and has no operation |
| CertificateRules.UnansweredRecovery | native-host/internal/host/certificate_handlers.go:489-507 | without an answer recovery keeps the operation and ownership and records why; a record with no operation is left as it is |
| CertificateRules.AnsweredRecovery | native-host/internal/host/certificate_handlers.go:508-551 | with an answer recovery ends the operation, trusted meaning present, and owned meaning owned before or added since; an error without an operation only learns the answer |
| CertificateRules.DeletableExactly | native-host/internal/host/certificate_handlers.go:436-474 | a record can go if and only if it claims no entry, nothing is pending, no other deletion has it and nothing lists it; each refusal has its code |
| CertificateRules.RepairsExactly | native-host/internal/host/certificate_handlers.go:605-646 | which of the six repairs belongs to which state of record and directories |
| CertificateSpec.RecoveryIsIdempotent | native-host/internal/host/certificate_handlers.go:476-555 | a second recovery with the same answers changes nothing but the time stamp, for every record whatsoever |
| CertificateSpec.RecoveryPassIsIdempotent | native-host/internal/host/certificate_handlers.go:476-555 | a second pass over the whole library with the same answers changes nothing but time stamps |
| CertificateProtocol.ForeignNeverClaimed | native-host/internal/host/certificate_handlers.go:109-131 | over every run an entry found in the root store is never marked as installed by ScopeNest |
| CertificateProtocol.ForeignNeverRemoved | native-host/internal/host/certificate_handlers.go:177-263 | and it stays in the store until another program removes it |
| CertificateProtocol.AddedIsTracked | native-host/internal/host/certificate_handlers.go:134-175 | at every point of a run with true answers and discreet recoveries every entry ScopeNest added has a record that owns it or has an operation pending |
| CertificateProtocol.DeletionOrphansNothing | native-host/internal/host/certificate_handlers.go:436-474 | in such a run, when a record is deleted, no entry ScopeNest added is left for its fingerprint |
| CertificateProtocol.RecordsAreShaped | native-host/internal/host/certificate_handlers.go:265-283 | fingerprints are pairwise distinct, and pending or error states are exactly those with an operation ID |
| CertificateProtocol.RecoveryRestoresTruth | native-host/internal/host/certificate_handlers.go:476-555 | in such a run, recovery that reads the bytes and gets an answer ends the operation; trusted then means presence in the store, and ownership means present and not another's |
| CertificateProtocol.BytesAreKept | native-host/internal/host/certificate_handlers.go:341-421 | at every point of a run without careless looks, crashes and overlaps included, each record's bytes are in its own directory or in the staged directory of a tombstone naming it |
| CertificateProtocol.RecoveryEndsConsistently | native-host/internal/host/certificate_handlers.go:581-646 | whichever step of an orderly run removes a tombstone, the record is there with its bytes at home and nothing staged, or record and directories are both gone |
| CertificateProtocol.NothingIsLeftBehind | native-host/internal/host/certificate_handlers.go:557-646 | at no point of an orderly run is there a staged directory without a tombstone or a directory of a deleted certificate |
| CertificateProtocol.ApartRunIsOrderly | native-host/internal/host/certificate_handlers.go:557-579 | a run in which every recovery of a tombstone begins while its deletion is not under way is orderly throughout |
| CertificateOverlap.TrackingNeedsDiscretion | native-host/internal/host/certificate_handlers.go:476-555 | a recovery is discreet if and only if no continuation with true answers and discreet recoveries leaves an entry ScopeNest added untracked |
| CertificateOverlap.KeepingNeedsCare | native-host/internal/host/certificate_handlers.go:602-640 | a look is careful if and only if no continuation without careless looks loses a record's bytes |
| CertificateOverlap.CleanEndsNeedOrder | native-host/internal/host/certificate_handlers.go:386-419 | a step is orderly if and only if no orderly continuation loses bytes or leaves a directory without a record or a staged one without a tombstone |
| CertificatePatience.PatientRunIsOrderly | native-host/internal/host/certificate_handlers.go:581-646 | a run in which no recovery looks carelessly or hastily is orderly throughout: no bytes are lost and nothing is left behind |
| CertificatePatience.CleanEndsNeedPatience | native-host/internal/host/certificate_handlers.go:602-640 | a recovery's look is patient if and only if no continuation with patient looks and true answers loses bytes or leaves a directory without a record |
| CertificatePatience.HastyLookHappens | native-host/internal/host/certificate_handlers.go:602-611 | a run from an empty library, orderly throughout, that ends in a hasty look, so that it can be continued to an unclean end |
| CertificateOverlap.RecoveryBeforeInstallHappens | native-host/internal/host/certificate_handlers.go:516-521 | a run from an empty library that ends in an indiscreet recovery: no entry found for an installation about to call the store |
| CertificateOverlap.RecoveryOfOwnedHappens | native-host/internal/host/certificate_handlers.go:509-515 | and one in which the entry is there and ScopeNest owns it |
| CertificateOverlap.CarelessLookHappens | native-host/internal/host/certificate_handlers.go:602-604 | a run from an empty library that ends in a careless look at a deletion that has yet to stage its directory |
| CertificateOverlap.LateDropHappens | native-host/internal/host/certificate_handlers.go:386-396 | a run from an empty library in which recovery brings the directory home and the deletion then drops the record |
| CertificateOverlap.LateReturnHappens | native-host/internal/host/certificate_handlers.go:605-611 | a run from an empty library in which the record is dropped and recovery then brings the directory home |
| CertificateOverlap.TombstonesAreCleared | native-host/internal/host/certificate_handlers.go:581-646 | in a run without careless looks an undisturbed recovery clears every tombstone whose deletion is over, unless it is stuck |
| CertificateOverlap.StuckHappens | native-host/internal/host/certificate_handlers.go:409-419 | a run from an empty library, orderly throughout, that ends with such a stuck tombstone: the host dies between purge and tombstone removal |
| CertificateProtocol.StuckForever | native-host/internal/host/certificate_handlers.go:641-642 | in every run a tombstone left by a crash after the purge stays |
| DeletionSafety.DiskNextKeepsInv | native-host/internal/host/certificate_handlers.go:341-421 | every effect of import, deletion and several recoveries with stale looks, overlapping in any way without a careless look, keeps every record's bytes |
| DeletionSafety.ActSound | native-host/internal/host/certificate_handlers.go:605-646 | a repair chosen from stale looks and comparisons is still right when carried out |
| DeletionSafety.TombstoneLeavesNothingOpen | native-host/internal/host/certificate_handlers.go:676-686 | removing a tombstone leaves nothing staged for it |
| DeletionSafety.CrashAfterPurgeSticks | native-host/internal/host/certificate_handlers.go:409-419 | a crash between purge and tombstone removal leaves a tombstone nobody is about to remove |
| TrustHandlers.TrustCommands.InstallCertificateTrust | native-host/internal/host/certificate_handlers.go:85-175 | the whole command for every combination of failures, with other hosts writing between its transactions: what is written is the intent, then the result or the error over what the others left if the record still waits; it succeeds exactly when the call and the verification do, the entry is there, the record still waits and the write happens, and is then owned unless the entry was there before; only the entry of a record that was not busy can be added, and none is removed |
| TrustHandlers.TrustCommands.RemoveCertificateTrust | native-host/internal/host/certificate_handlers.go:177-263 | only an entry the record owns is removed, under the same account of failures and of other hosts; while a proxy profile or a template lists the certificate, store and file are left alone, with CERTIFICATE_REFERENCE_IN_USE when it could be removed otherwise |
| TrustHandlers.FailuresExactly | native-host/internal/host/certificate_handlers.go:134-150 | between its transactions a command fails if and only if the call fails, the verification fails or the store disagrees, each with its code, and no other entry of the store changes |
| TrustHandlers.TrustCommands.MarkTrustError | native-host/internal/host/certificate_handlers.go:271-283 | only the record that still waits for this operation gets the error |
| TrustHandlers.TrustCommands.ReconcileTrust | native-host/internal/host/certificate_handlers.go:476-555 | where trust is supported the loop applies the recovery function to every record, and nothing is written elsewhere |
| TrustHandlers.ReconcileRecord | native-host/internal/host/certificate_handlers.go:489-551 | the nested branches on state and answer compute the recovery function of one record |
| TrustHandlers.IntentsRepresent | native-host/internal/host/certificate_handlers.go:102-131 | the intent transactions on the file are the intent steps of the trust protocol on its records, refusals included |
| TrustHandlers.ResultsRepresent | native-host/internal/host/certificate_handlers.go:151-169 | the result and error transactions on the file are those of the protocol, and do nothing when the record no longer waits |
| TrustHandlers.RecoveryRepresents | native-host/internal/host/certificate_handlers.go:476-555 | the recovery pass on the file is the recovery step of the protocol |
| TrustHandlers.TrustCommands.AcknowledgeManualTrust | native-host/internal/host/certificate_handlers.go:303-339 | acknowledgment succeeds exactly on Linux for the record's own fingerprint and gives up any claim on the store |
| TrustHandlers.CertificateReferenced | native-host/internal/host/certificate_handlers.go:285-301 | true exactly when some proxy profile or template lists the certificate |
| LibraryHandlers.ValidateDeletion | native-host/internal/host/certificate_handlers.go:436-474 | the first reason against a deletion, in the source's order, a tombstone of one's own excepted; none exactly when the record claims no entry, nothing is pending, and no other tombstone, profile or template names it |
| LibraryHandlers.Library.CommitImport | native-host/internal/certstore/certstore.go:217-268 | an import is stored with its directory exactly when the fingerprint is new and placing and writing succeed; otherwise file and directory are as before unless the rollback fails |
| LibraryHandlers.Library.DeleteCertificate | native-host/internal/host/certificate_handlers.go:341-421 | for every combination of failures the record is gone with no directory left unnamed, or still stored with its bytes at home or staged under its tombstone; the error is that of the first step that failed; no other certificate is touched |
| LibraryHandlers.Library.ReconcileDeletion | native-host/internal/host/certificate_handlers.go:581-646 | from any state of the two directories, recovery never loses bytes matching the record; success puts them at home with nothing staged, and a tombstone that is not cleared is marked as failed unless the call itself reports an error |
| LibraryHandlers.Library.ReconcileDeletions | native-host/internal/host/certificate_handlers.go:557-579 | every loaded tombstone is tried whatever happened to the earlier ones, exactly those whose load or last write failed are reported, every tombstone left is marked as failed unless it is reported and could not be marked, and no bytes are lost |
| Normalization.LoadUnlocked | native-host/internal/store/store.go:70-178 | the in-place loops compute the normalisation, every record of the file is in the result with its fields, and an unknown version or lifecycle state is an error |
| Normalization.LoadsExactly | native-host/internal/store/store.go:70-177 | a load fails if and only if the version or a lifecycle state is unknown; otherwise a record without state is Running exactly if it was marked running, a known state is kept, an empty mode becomes direct in version 1 only, acknowledgments count only for their certificate, bytes and Linux, and every other field is kept |
| Normalization.LoadYieldsNormal | native-host/internal/store/store.go:113-173 | a load yields a normal database, and changes a current file exactly when it was not normal |
| Normalization.NormalizationIsIdempotent | native-host/internal/store/store.go:113-173 | loading what a load produced changes nothing more |
| Normalization.TrustWritesAreNormal | native-host/internal/store/store.go:147-168 | each trust write over an unacknowledged record survives the next load as written; used for whole databases in CommandSafety |
| Normalization.IntentSurvivesLoadExactly | native-host/internal/store/store.go:156-168 | an installation intent survives the next load exactly when the record is not acknowledged |
| CommandSafety.PerformKeepsLinked | native-host/internal/host/proxy_handlers.go:135-255 | every command's transaction (launch, container, proxy, template, trust, import, deletion) keeps the reference graph whole and all identities distinct when what it brings in is new |
| CommandSafety.PerformKeepsNormal | native-host/internal/store/store.go:113-173 | every command turns a database that a load leaves alone into one that a load leaves alone, acknowledgments being made on Linux only |
| CommandSafety.PerformKeepsGood | native-host/internal/host/host.go:863-869 | every command keeps references, identities, the shape of every container record and the normal form together |
| LockedStore.UpdatesAreAtomic | native-host/internal/store/store.go:246-304 | with every call split into its file operations and crashes between any two, the file is always the committed transactions run whole in commit order |
| LockedStore.NoUpdateIsLost | native-host/internal/store/store.go:246-262 | a call that reported success is in the commit order exactly once, after all that had committed when it began |
| LockedStore.FailedUpdateLeavesNothing | native-host/internal/store/store.go:264-304 | a call that reported failure is not in the commit order |
| LockedStore.LoadsSeeWholeTransactions | native-host/internal/store/store.go:59-68 | a load answers the normalised result of a prefix of the commit order that includes everything committed before the call |
| LockedStore.OneAtATime | native-host/internal/store/filelock.go:16-42 | two processes are never between lock and unlock at once |
| LockedStore.InvariantsCarryOver | native-host/internal/store/store.go:246-262 | a property that every transaction carries from its place in the commit order to the next holds of the file at every point, and a file once written is what a load makes of it |
| StoreSafety.FileStaysWhole | native-host/internal/store/store.go:246-262 | in every concurrent run of commands with new identifiers, the file at every point has no broken reference, distinct identities and shaped records, and every stored container resolves or has a disabled proxy |
| StoreSafety.FileIsAsLoaded | native-host/internal/store/store.go:113-177 | at every point of such a run a file that was written at all is exactly what the next load makes of it |
| StoreSafety.LoadsAreWhole | native-host/internal/store/store.go:59-68 | and so has every database a load answers in such a run |
| StoreCalls.AcquireFileLock | native-host/internal/store/filelock.go:16-42 | the lock is taken at the first free attempt, times out only after a busy attempt at the deadline, and a broken attempt is an error |
| StoreCalls.DurableStore.Update | native-host/internal/store/store.go:246-262 | a call commits as one atomic step or reports an error and leaves the file alone, and always releases the lock and removes its temporary file |
| StoreCalls.DurableStore.Migrate | native-host/internal/store/store.go:180-244 | for every combination of failures, at creating, writing and syncing the backup and at rewriting the file, the call leaves file and backup and reports the error as the migration function says, and always releases the lock and removes its temporary file |
| StoreCalls.MigratesExactly | native-host/internal/store/store.go:197-244 | a version 1 file is rewritten, as what loads made of it, if and only if the backup was there or could be made, the file loads and the write succeeds; every error has its cause, other files are left alone, and an existing backup is never touched |
| StoreCalls.MigrationIsInvisible | native-host/internal/store/store.go:233-240 | however a migration ends, loads answer after it what they answered before, and success leaves a file of the current version |
| StoreCalls.RewritingKeepsContentExactly | native-host/internal/store/store.go:207-240 | a version 1 file that is rewritten leaves its content in the backup if and only if the backup held it already, or looking for a backup said there was none |
| StoreCalls.CarefulCallsKeepContentExactly | native-host/internal/store/store.go:207-240 | over any number of calls that are not stopped within writing the backup and can tell whether there is one, the version 1 content is in file or backup to the end if and only if there was no backup at the start, or one with this content |
| StoreCalls.CarelessCallCanLoseContent | native-host/internal/store/store.go:209-232 | one call that is stopped while it writes the backup, or rewrites without knowing of one, and one that meets no fault leave the version 1 content nowhere; any other first call keeps it |
| PageReferences.AutomationRuntime.ListPages | native-host/internal/host/automation.go:370-407 | after a listing the table holds exactly the live pages, live pages keep their references, contexts stay within it, and a missing ID leaves what was added |
| PageReferences.AutomationRuntime.PageRef | native-host/internal/host/automation.go:409-421 | a target keeps the reference it has, and otherwise gets one never issued before |
| PageReferences.AutomationRuntime.TargetForPage | native-host/internal/host/automation.go:423-434 | a caller gets the page this runtime issued the reference for, which no other reference here names; a reference of another runtime is refused |
| PageReferences.AutomationRuntime.PageContext | native-host/internal/host/automation.go:436-464 | a page's context is made and connected once and found again; one that failed to connect stays and fails again |
| PageReferences.AutomationRuntime.OpenPage | native-host/internal/host/automation.go:466-493 | an opened page gets a reference and all others keep theirs; a refused URL, a failed page and a missing ID each have their error and change nothing |
| PageReferences.PagesInOrder | native-host/internal/host/automation.go:370-407 | a listing names exactly the pages among the targets, in their order |
| PageReferences.TablesStayValid | native-host/internal/host/automation.go:370-493 | in every run of any number of runtimes all tables are one-to-one, hold only references issued for their runtime, and contexts only for their pages |
| PageReferences.GoneReferencesStayGone | native-host/internal/host/automation.go:370-421 | in every run of any number of runtimes, an issued reference that resolves nowhere never resolves again |
| PageReferences.ReferencesBelongToOneRuntime | native-host/internal/mcpserver/adapter.go:194-209 | over every run of runtimes sharing one source of IDs, no reference ever resolves in two runtimes, and it always means the same page |
| Framing.Reader.ReadMessage | native-host/internal/protocol/protocol.go:50-63 | reading takes exactly one frame off the stream or reports how the stream ends |
| Framing.Writer.WriteMessage | native-host/internal/protocol/protocol.go:65-79 | success appends exactly the frame, failure at most a proper prefix of it |
| Framing.FramesReadBack | native-host/internal/protocol/protocol.go:50-79 | the bytes of any sequence of allowed messages read back as exactly that sequence |
| Framing.ReadAllAccountsForAll | native-host/internal/protocol/protocol.go:50-63 | every stream is the frames of what is read from it and the bytes left over |
| Framing.FramesArePrefixFree | native-host/internal/protocol/protocol.go:65-79 | no framing is a prefix of a different one |
| Framing.EndsSilentlyExactly | native-host/internal/protocol/protocol.go:50-63 | reading ends silently exactly on an empty stream or a lone header announcing bytes |
| Framing.EndingsExactly | native-host/internal/protocol/protocol.go:50-63 | a stream reads as ended, too large or truncated exactly by its length and the size in its header |
| Bytes.LeastFirst | native-host/internal/protocol/protocol.go:50-79 | header words have their least significant byte first, in reading and in writing |
| MessageLoop.RunMessageLoop | native-host/cmd/scopenest-host/main.go:37-68 | the loop's answers, the handled requests, the time of the one cleanup and the bytes sent, whole frames or as much of one as the output takes, are those of the session function |
| MessageLoop.EveryFrameIsAnswered | native-host/cmd/scopenest-host/main.go:37-68 | when no write fails each complete frame is answered exactly once in order, and a bad end once more |
| MessageLoop.AnswersFollowFrames | native-host/cmd/scopenest-host/main.go:54-62 | in any case answers follow the frames, and only a lost answer to a valid request ends them early |
| JobQuery.QueryJobProcessIds | native-host/internal/browser/visual_identity_windows.go:171-206 | at most seven calls, each with the room the last reply leads to, strictly growing within the limit; a success is the exact set of a complete list or the empty set of a negative one, and each error is what the last reply calls for |
| JobQuery.HonestSystemIsHeard | native-host/internal/browser/visual_identity_windows.go:171-206 | if the system reports its list and its count truthfully, any job of up to 4096 processes is found exactly, with at most two calls |
| JobQuery.ParseJobProcessIds | native-host/internal/browser/visual_identity_windows.go:208-238 | parsing accepts exactly the lists whose required size, computed in the machine's word, fits the buffer and whose IDs are valid, and returns their set |
| JobQuery.NegativeListsExactly | native-host/internal/browser/visual_identity_windows.go:183-193 | the claim about complete lists fails exactly for equal counts with the top bit set on 32-bit words whose wrapped size fits the buffer |
| JobQuery.WrappedSizeFits | native-host/internal/browser/visual_identity_windows.go:217-219 | which negative counts those are, in terms of the count itself |
| JobQuery.NegativeListsGoBothWays | native-host/internal/browser/visual_identity_windows.go:210-219 | of two such lists in the first buffer one reads as empty and one is refused |

## Left out

- The browser extension and its forms, the MCP tool registration and output encoding, and everything behind the CDP connection: no shared state of their own.
- Process groups, job objects and window styling: start, exit, and terminate-then-wait stand for them.
- X.509, PEM, SHA-256, base64, JSON and URL parsing: certificates are given by their fingerprint, which is taken to determine the bytes.
- The checks of names, colours, icons, hosts, URLs and of the characters in bypass rules, and trimming: local to one value. Lengths count characters.
- Path resolution, symbolic links, file permissions, and a sync that fails after a successful rename.
- Field values that no modelled check reads (descriptions, creation times, visual identity, health check timeouts).
- The automation runtime that is kept beside a launched process and closed with it: only the decision to wait for it is modelled.
- LaunchHandlers.Host.Cleanup: other hosts do not write between its transactions here; each transaction is the protocol's own step.
- A write that fails in a create, update or delete of proxies, templates and containers' configuration: `StoreCalls.DurableStore.Update` says for every transaction that the file then stays as it was.
- LaunchHandlers.Host.Launch: invalid profile paths and visual identities, which `browser.Arguments` also refuses, are not modelled, since the host never passes them.
- LaunchHandlers.Host.Watch: the deletion that follows for a temporary container is the separate `DeleteTemporaryContainer`; the contract says when it follows.
- LibraryHandlers.Library.DeleteCertificate: other hosts do not act during the command here; interleavings are the subject of the protocol modules.
- MessageLoop.RunMessageLoop: the error code an unreadable frame is answered with is part of the answer's encoding, not of the model.
- Staging of an import before its commit, the hourly removal of stale staging directories and the resource audit.
- Listing and status commands, which only read.

# Verification of the per-team container plugin

The plugin gives every team or user of a CTFd event its own challenge containers. It keeps three
shared stores in step: the database tables (`container_info`, `container_flag`, the cheat log), the
Docker daemon's running containers, and MySQL's named locks. This project models how the plugin
changes them and proves what it relies on.

| file | what it holds |
|---|---|
| `Tables.dfy` | the tables as one value, and every transaction on them: launch, teardown with the foreign key's cascade, renewal, the four-stage flag lookup |
| `Ledger.dfy` | the invariant of the tables, and what a submission means after any history of transactions |
| `Protocol.dfy` | the container lifecycle as a state machine: any number of sessions, each with a program counter and an optional REPEATABLE READ snapshot, interleaving create, view, renew, stop, solve and the sweep |
| `ProtocolInvariant.dfy` | one inductive invariant of that machine, by rely and guarantee |
| `ProtocolSafety.dfy` | the guarantees that follow in every reachable state; every run is a history of the ledger |
| `ProtocolSubmissions.dfy` | submissions that read in one state and commit in a later one: their verdicts, when the commit fails, and exactly when the cheat log gets an entry twice |
| `ProtocolLeases.dfy` | where each lease in the table was read from the clock, and exactly when overlapping renewals shorten one |
| `ProtocolOrigins.dfy` | what sessions act on in every interleaving: which leases a sweep takes, and which containers a create counts |
| `ProtocolRequests.dfy` | requests that nobody disturbs do what they are for, from any state of any run |
| `ProtocolNecessity.dfy` | runs that reach the limit, runs that break the guarantees when a precaution is missing, and exactly which deployments keep the limit |
| `Plugin.dfy` | the request handlers and jobs as a class whose methods update tables and daemon, one at a time, and whose invariant is that the tables result from a ledger history |
| `Health.dfy` | the wait for a started container's health check |
| `RateLimiter.dfy` | both rate limiters as a class, and their bounds over all request traces |
| `Identity.dfy`, `Environment.dfy`, `Networks.dfy`, `Isolation.dfy` | process identity, labels, network prefixes, images, rate-limit keys, the check of the challenge network, and several processes on one daemon |
| `Settings.dfy`, `Capabilities.dfy` | the settings form, the hardening profile, default seeding, and the two capability checks |
| `Options.dfy`, `Sets.dfy`, `Text.dfy` | small shared helpers |

## How to read it

- The flag question has one answer at three levels. `Plugin.Manager.GetContainerFlag` follows the
  source stage by stage and is proved against `Tables.LooksUp`; `Ledger` proves that on any history
  this comes to "was this flag issued to this account", or to plain equality for static flags; and
  `ProtocolSafety.FlagsUnderConcurrency` carries that over to every interleaving.
- A query's first match is any matching row, never a particular one.
- The protocol splits requests where another session can intervene: at every table read, every
  Docker call and every commit. A submission is two steps: `Solve` reads the session's snapshot and
  decides, `CommitSolve` writes to the tables as they are by then. `launched`, `recorded` and `leaked` in its state are histories, used
  only to state results. `leaked` collects containers whose own cleanup kill raised, an error the
  source swallows; the daemon results are stated about all other containers.
- `Params.rollback` is always true in the source. It is a parameter so that `RollbackIsNeeded` can
  state what happens without it.
- `faults` parameters are the container ids for which Docker answers with an API error.

## Assumptions

- `GET_LOCK` is atomic and belongs to the connection that acquired it; `RELEASE_LOCK` by another
  connection changes nothing; the lock's connection is not lost while a create is inside.
- Challenge configuration, `max_containers`, the lease length and the user/team mode are fixed
  during a run. Flag modes are `static` or `random`, as the challenge form enforces.
- Container ids are never reused, and a stopped container (they run with `auto_remove`) never runs
  again. A container is running or gone. The clock is monotone.
- A transaction's writes take effect together at its commit. An UPDATE or DELETE of a row that is
  already gone changes no table; for the row that a submission marks as used it is an error, as is
  a flag row that refers to an instance that is gone.
- SHA-256 is injective, string comparison is exact, and letters, digits and spaces are ASCII.
- A rate-limit counter counts as expired from its expiry instant on, in Redis as in the cache.
- `int`, `float`, `json.loads` and the IP address parser are parameters; the results hold for all.

## Findings

- `helpers.py` checks the container limit before it looks for an instance of the same challenge, so
  an account at its limit gets the limit error even for a challenge that it already runs. The model
  keeps that order (`Plugin.Manager.CheckAccount`).
- Renewals take no lock. Read as one step a renewal never shortens a lease; two overlapping ones can
  (`ProtocolNecessity.OverlappingRenewalsShorten`), exactly if the other one read a later second of
  the clock and committed first (`ProtocolLeases.RenewalShortensExactly`). The lease bounds hold in
  either case.
- `normalize_settings_payload` accepts a CPU limit of NaN or infinity (`Settings.FormAcceptsNaN`); the
  settings endpoint's second validation builds the profile before anything is stored and refuses it.
  The two agree on the limits of every other form (`Settings.EndpointRefusesNaN`), and what passes
  both always builds (`Settings.StoredSettingsBuild`).
- A non-blank capability field that names no capability is launched, but cannot be saved while the
  allowlist is empty (`Capabilities.NamelessListLaunchesOnly`); otherwise the two checks agree
  (`Capabilities.SavedCapabilitiesLaunch`).
- Without named locks, on databases other than MySQL and MariaDB, an account can exceed
  `max_containers` exactly if there are more challenges than the limit
  (`ProtocolNecessity.LimitHoldsExactly`).
- The name guard on the challenge network does not tell two events apart if the runs of one event id
  begin with the other's, as with "ctf" and "ctf-finals" (`Environment.SharedNetworkExactly`). The
  event label, checked before every launch, does: no network serves two events
  (`Networks.LaunchNetworkShared`, `Environment.NameGuardIsNotEnough`).
- The check for an earlier cheat-log entry reads a snapshot and no constraint backs it, so two
  overlapping submissions can file one entry twice
  (`ProtocolNecessity.OverlappingSubmissionsReportTwice`); nothing else can
  (`ProtocolSubmissions.DuplicatesExactly`).
- A correct static flag, unless used before, ends in an error if its instance is torn down between the
  lookup and the commit, because its row goes with the instance (`ProtocolSubmissions.CommitFailsExactly`). Random
  flags are not affected.
- The Redis window admits up to one request fewer than `k + 1` times the limit within `k` intervals,
  and that bound is reached for every positive limit, interval and `k` (`RateLimiter.RedisBound`, `RateLimiter.RedisBoundIsTight`).

## Model

| member | source | states |
|---|---|---|
| Tables.TeardownCompose | helpers.py:116-136 | Cleaning up instances one after the other is the same as cleaning them up together, flags included |
| Ledger.TransactionSound | models.py:35-91 | Every launch, teardown, renewal and submission keeps the tables sound: one instance per challenge and owner, every instance's launch flag still present, no dangling foreign key, static rows all carrying the configured flag, a genuine cheat log |
| Ledger.IssuedFlagsConserved | helpers.py:120-133 | Over any history, rows of random challenges are never removed; owner, challenge and text stay, `used` only becomes true, the container reference is only ever cleared |
| Ledger.UsedExactly | __init__.py:239 | After any history a random flag's row is marked used if and only if some submission has been accepted by it |
| Ledger.RandomFlagAccepted | helpers.py:424-490 | After any history the lookup accepts a random flag from an account if and only if some earlier or present instance of that account for that challenge carried it |
| Ledger.StaticFlagAccepted | helpers.py:418-465 | After any history the lookup accepts a static flag if and only if it is the challenge's prefix, then its content, then its suffix |
| Tables.ExpectedSpelled | helpers.py:418-421 | That text is the one that submissions are compared with: it starts with the prefix, carries the content (if any) after it, ends with the suffix and holds nothing else |
| Ledger.CitedIsForeign | helpers.py:467-485 | A row found after the owned lookup failed belongs to another account, so the source's comparison with the submitter always succeeds |
| Ledger.RejectionReported | helpers.py:467-537 | A rejected random flag leaves an entry against its submitter if and only if it had been issued to somebody, and it was never issued to the submitter |
| Ledger.ReportsGenuine | helpers.py:499-533 | After any history every entry names an owner that had been issued the flag, and never its own submitter |
| Ledger.ReportsUnique | helpers.py:514-533 | As long as submissions are single transactions, no two entries agree on fingerprint, challenge, owner and submitter |
| Ledger.ReportsUniqueExactly | helpers.py:514-533 | In general the log is free of duplicates if and only if no transaction filed an entry that was there already |
| Ledger.ReportsOnlyByRejection | helpers.py:514-537 | The cheat log grows by one entry at a time, and only by the report of a rejected submission; a submission in one transaction reports the flag it submitted, and never what is there already |
| Ledger.CommitDoes | __init__.py:239-240 | A decision made on older tables commits as one transaction that keeps the tables sound, however they have moved on since |
| ProtocolInvariant.KnowsStable | helpers.py:250-316 | What a session in the middle of its request has established stays true whatever the other sessions do meanwhile |
| ProtocolInvariant.StepTransacts | helpers.py:116-136 | Every step of every session is one ledger transaction or leaves the tables alone |
| ProtocolInvariant.StepInv | helpers.py:161-187 | Every step of every session keeps the protocol's invariant |
| ProtocolInvariant.RunInv | helpers.py:250-328 | Hence it holds in every state of every run |
| ProtocolSafety.CapacityHolds | helpers.py:250-316 | Under every interleaving no account has more committed instances than max_containers |
| ProtocolSafety.CreateReadsFresh | helpers.py:255-260 | Once a create holds its account lock and has rolled back, the rows its session reads include every committed row of the account |
| ProtocolSafety.NoOrphanContainers | container_manager.py:656-736 | Every running container is recorded in a row, held by an in-flight create, or one whose own cleanup kill raised |
| ProtocolSafety.DaemonBound | container_manager.py:656-736 | The containers running for an account, in-flight creates included, never exceed max_containers |
| ProtocolSafety.OneInstancePerChallenge | models.py:37-38 | With or without the named locks there is at most one row per challenge and account |
| ProtocolSafety.LockedInsertSucceeds | helpers.py:281-311 | Under the lock the insert cannot violate a unique constraint |
| ProtocolSafety.LoserKillsOnlyItsOwn | container_manager.py:709-736 | A create that fails kills a container that it started itself, that no row records and that no other create holds |
| ProtocolSafety.RowsRecordLaunches | container_manager.py:681-698 | Every row records the account, the challenge and the flag that its container was started with |
| ProtocolSafety.RowsOutliveContainers | helpers.py:148-153 | A row is deleted only when its container has stopped, and that container never runs again |
| ProtocolSafety.OneSweepAtATime | container_manager.py:476-496 | At most one sweep body runs at a time, although sessions that failed to get the lock release it too |
| ProtocolOrigins.ScanTakesOverdue | container_manager.py:533-536 | Right after it has read the tables, a sweep has to deal with exactly the instances whose lease is over |
| ProtocolOrigins.SweepTargetsOverdue | container_manager.py:533-540 | Whatever a sweep targets, at any point of any run, had a lease that was over when that sweep read the tables |
| ProtocolOrigins.LetThroughExactly | helpers.py:281-300 | In every interleaving a create is let through if and only if, of the rows it listed, fewer than max_containers had a running container when it looked, none of them of this challenge |
| ProtocolOrigins.PruneForgetsStopped | helpers.py:139-158 | In every interleaving the prune forgets exactly the listed rows whose container did not run when the request looked |
| ProtocolRequests.CreateAlone | helpers.py:250-328 | From any state of any run, an undisturbed create forgets the account's stopped instances and launches if and only if the running ones leave room and none is of this challenge; the new row holds the account, the challenge and a full lease from now |
| ProtocolRequests.ViewAlone | helpers.py:331-361 | An undisturbed view changes nothing, or forgets the instance if it has stopped |
| ProtocolRequests.RenewAlone | helpers.py:207-247 | An undisturbed renewal ends a running instance's lease a full length from now, and forgets a stopped one |
| ProtocolRequests.StopAlone | helpers.py:190-204 | An undisturbed stop stops the container and forgets its row |
| ProtocolRequests.SolveAlone | __init__.py:218-244 | An undisturbed submission is one submission of the ledger, and then the account's instance is stopped if it was correct |
| ProtocolRequests.SweepAlone | container_manager.py:529-546 | An undisturbed sweep stops and forgets exactly the instances whose lease is over |
| ProtocolSafety.LeaseClock | container_manager.py:678-690 | In every reachable state each lease ends at least its full length after launch and at most that after now |
| ProtocolLeases.LeaseWasStamped | helpers.py:229-233 | Every lease in the table ends a full length after a clock reading that some launch or renewal of that container took earlier in the run |
| ProtocolLeases.RenewalShortensExactly | helpers.py:229-233 | A renewal shortens the lease if and only if the lease it overwrites was read from a later second of the clock, after its own reading |
| ProtocolSafety.RunIsHistory | helpers.py:116-136 | The tables along any run of the protocol form a history of the ledger |
| ProtocolSafety.FlagsUnderConcurrency | helpers.py:424-490 | In every interleaving the lookup's verdict on the tables of any state: a random flag is accepted exactly if it had been issued to the account by that state, and a static flag exactly if it is the configured one; a random flag's row is still there in every later state |
| ProtocolSubmissions.VerdictIsRight | helpers.py:424-490 | Whenever a submission commits, it has read the tables of some earlier state, and its verdict is right for that state |
| ProtocolSubmissions.StaticRowStays | helpers.py:123-126 | A static flag's row seen in one state is there in a later one if and only if it was unattached or its instance is still there |
| ProtocolSubmissions.CommitFailsExactly | __init__.py:239-240 | The commit of an accepted submission fails if and only if it is to mark a static flag's row whose instance has been torn down since it was read |
| ProtocolSubmissions.UndisturbedIsAtomic | __init__.py:229-240 | A submission that commits to the tables it has read is one whole submission of the ledger |
| ProtocolSubmissions.RejectionLogged | helpers.py:467-537 | In every interleaving the rejection of a random flag that had been issued to somebody leaves an entry against the submitter |
| ProtocolSubmissions.CommitRepeatsExactly | helpers.py:514-533 | A commit files an entry that is there already if and only if it was filed after the state that the submission has read |
| ProtocolSubmissions.DuplicatesExactly | helpers.py:514-533 | In every reachable state the cheat log holds an entry twice if and only if two submissions that file it have overlapped |
| ProtocolNecessity.LimitIsReached | helpers.py:281-300 | Any number of instances up to max_containers is granted to any account, as long as there are challenges for them |
| ProtocolNecessity.RollbackIsNeeded | helpers.py:256-260 | Without the rollback inside the lock some run gets any given account past its limit, for every limit and configuration with more challenges than the limit |
| ProtocolNecessity.LockIsNeeded | helpers.py:164-172 | The same without the account lock, that is on every database other than MySQL and MariaDB |
| ProtocolNecessity.RowsWithinChallenges | models.py:37-38 | With or without lock and rollback, an account never has more instances than there are challenges |
| ProtocolNecessity.LimitHoldsExactly | helpers.py:161-187 | All runs respect max_containers if and only if lock and rollback are in place, or there are no more challenges than the limit, or the limit admits no launch at all |
| ProtocolNecessity.OverlappingRenewalsShorten | helpers.py:229-233 | Two overlapping renewals can shorten a lease |
| ProtocolNecessity.OverlappingSubmissionsReportTwice | helpers.py:514-533 | A run in which two overlapping submissions of one foreign flag leave the same entry twice |
| Plugin.Manager.CleanupContainerRecords | helpers.py:116-136 | Static flags go with their instance, random flags are detached first, so deleting the row cascades to none of them |
| Plugin.CleanupIsTeardown | models.py:78-82 | Once attached flags are removed or detached, the foreign key's cascade has nothing left to take |
| Plugin.Manager.KillContainer | container_manager.py:771-785 | Succeeds exactly if the lookup does not raise and the labels are the process's own; then the container is stopped and its records are cleaned up, else nothing changes |
| Plugin.Manager.KillExpiredContainers | container_manager.py:529-546 | The table afterwards is the old one minus exactly the expired rows whose kill succeeded |
| Plugin.Manager.RoutePurgeContainers | admin_routes.py:231-253 | Removes exactly the selected rows that can be killed, and reports how many |
| Plugin.Manager.IsContainerRunning | container_manager.py:548-553 | Raises for an API error or foreign labels, and otherwise says whether the container runs |
| Plugin.Manager.PruneStaleAccountContainers | helpers.py:139-158 | Returns the account's running containers and forgets exactly its stopped ones, or changes nothing if a lookup raises |
| Plugin.Manager.ViewContainerInfo | helpers.py:331-361 | Reports the running instance, or forgets the account's stopped instance of the challenge and nothing else |
| Plugin.Manager.RouteStopContainer | user_routes.py:145-164 | Stops and forgets the account's instance of the challenge, or changes nothing |
| Plugin.Manager.KillRecorded | helpers.py:190-204 | A kill by id needs a row, and leaves everything as it was if Docker refuses |
| Plugin.Manager.RenewContainer | helpers.py:207-247 | Moves the found instance's lease to a full length from now, forgets it if it stopped, fails exactly if Docker's lookup does, and otherwise changes nothing |
| Plugin.Manager.RouteRenewContainer | user_routes.py:132-143 | Read as one step a renewal is a transaction of the history, keeps all leases within their bounds and shortens none |
| Plugin.Manager.GenerateUniqueRandomFlag | container_manager.py:465-474 | Returns one of ten draws that the challenge's flag table does not contain, and fails exactly if there is none |
| Plugin.Manager.LaunchFlag | container_manager.py:586-594 | A static launch carries prefix, content and suffix in that order, the string that submissions are compared with |
| Plugin.Manager.CommitLaunch | container_manager.py:681-717 | Inserts instance and flag together, exactly if no key or unique constraint is violated |
| Plugin.Manager.LaunchContainer | container_manager.py:569-736 | Starts a container exactly if the network, the image, the capabilities and the other checks pass and a flag is found; records it exactly if it became healthy in time, published a port and met no conflict; every failure leaves the tables as they were, and the daemon too unless the kill in the failure branch raises |
| Plugin.Manager.ContainerFor | container_manager.py:580-671 | What a launch starts runs on the process's own network, from an image under its prefix, with sorted capabilities from the allowlist, and with the flag in its environment |
| Plugin.Manager.ContainerIsAsked | container_manager.py:580-671 | That image is the challenge's own, and the capabilities are exactly those the challenge asks for |
| Plugin.Manager.LabelsSay | container_manager.py:648-654 | The labels of a launch name the challenge, the account's kind and the account |
| Plugin.Manager.LabelsFor | container_manager.py:648-654 | The labels of a launch pass the process's own ownership check and its listing filter |
| Plugin.Manager.CheckAccount | helpers.py:274-311 | Forgets stopped containers, then refuses at the limit, then reuses an instance of the same challenge, in that order; if a lookup raises, nothing changes |
| Plugin.Manager.CreateContainer | helpers.py:250-328 | Which of the eight answers is given, in the source's order of checks, and the tables and the daemon afterwards; a created instance is the pruned table plus one row of a healthy container |
| Plugin.Manager.RouteRequestContainer | user_routes.py:119-130 | A create is a prune and a launch of the history; the created flag counts as issued, the account is within max_containers, the new lease runs a full length from the launch and the answer says so; each refusal has its reason in the account's rows, the daemon or the launch, and never in a conflict; other accounts' rows and the account's running ones stay; every running container that the process has launched is still a permitted one that carries its recorded flag |
| Plugin.Manager.LogReusedFlagSubmission | helpers.py:493-537 | Files a report unless one with the same fingerprint, challenge, owner and submitter exists |
| Plugin.Manager.GetContainerFlag | helpers.py:424-490 | The four stages in order, with any row as each query's first match |
| Plugin.Manager.AttemptFlag | __init__.py:218-244 | Accepts exactly a random flag that was issued to the account at some time, or the configured static one; rejections change only the cheat log, an accepted random flag is on record as used, and a correct answer leaves the account no instance of the challenge |
| Plugin.SubmissionMeans | helpers.py:424-490 | After any history the staged lookup's verdict has a one-line meaning, and marking the row and stopping the instance leave the issued flag on record |
| Health.WaitUntilHealthy | container_manager.py:439-463 | Ends within four polls per second of timeout; succeeds if and only if some poll begun before the deadline saw a healthy unstopped container and no earlier poll was decisive, where an error from Docker is decisive too |
| RateLimiter.Limiter.Increment | user_routes.py:33-55 | One step of the store in use, on the requested key only |
| RateLimiter.Limiter.Check | user_routes.py:58-92 | Requests by other methods pass uncounted, invalid accounts are refused uncounted, and the rest are admitted while the updated counter is within the limit |
| RateLimiter.RedisBound | user_routes.py:20-47 | Any half-open span of k intervals admits at most (k + 1) * limit - 1 requests, for every trace |
| RateLimiter.RedisBoundIsTight | user_routes.py:20-26 | For every positive limit, interval and number of intervals some trace reaches that bound |
| RateLimiter.KeysAreIndependent | user_routes.py:33-55 | In any mixed trace the counter of a key is that of its own requests alone, in either store |
| RateLimiter.Limiter.Serve | user_routes.py:58-92 | A fresh limiter that serves any mixture of calls judges each by its own key's updated counter |
| RateLimiter.MixedRedisBound | user_routes.py:20-47 | In any mixed trace Redis admits fewer than (k + 1) * limit requests of one key in k intervals |
| RateLimiter.ServedWithinBound | user_routes.py:58-92 | Both bounds for the decisions of a fresh limiter that serves any mixture of calls |
| RateLimiter.CacheBound | user_routes.py:49-55 | The fallback admits at most limit requests in any half-open span of one interval |
| RateLimiter.CacheAdmitsExactly | user_routes.py:49-55 | The fallback admits a request if and only if there was a pause of a whole interval within the last limit requests |
| RateLimiter.CacheDominates | user_routes.py:33-55 | On the same trace the fallback's counter is never below the Redis counter |
| RateLimiter.CacheAdmitsSubset | user_routes.py:33-55 | So the fallback admits a subset of what Redis admits |
| Identity.OwnershipIsEventAndTarget | runtime_policy.py:174-190 | One process owns and lists another's launches if and only if event and target agree |
| Identity.OwnsExactly | runtime_policy.py:183-190 | Labels count as the process's own if and only if they name its event and its target; unlabelled containers never do |
| Identity.PrefixJoinsRuns | runtime_policy.py:77-78 | The network prefix is the event id's maximal alphanumeric runs joined by underscores |
| Identity.PrefixDeterminesRuns | runtime_policy.py:77-78 | Two event ids have one prefix if and only if their runs agree |
| Identity.PrefixIdempotent | runtime_policy.py:77-78 | Normalising a prefix again changes nothing |
| Identity.ImageAccepted | runtime_policy.py:314-330 | A reference is accepted if and only if it trims to one under the event prefix, without whitespace or stray quotes and pinned in production; the result is accepted unchanged |
| Identity.AcceptedLooksLike | runtime_policy.py:314-330 | A reference is accepted if and only if, without outer whitespace, it starts with the event's prefix, holds no whitespace and no stray quotes, and in production ends in a sha256 digest of 64 hexadecimal digits |
| Identity.KeyRoundTrip | runtime_policy.py:247-269 | A rate-limit key can be read back into account kind, id and trimmed endpoint |
| Identity.KeyInjective | runtime_policy.py:247-269 | Two requests share a counter if and only if those three agree |
| Environment.AcceptedExactly | runtime_policy.py:93-172 | An identity can be read from some environment if and only if it satisfies all the documented constraints and some address text resolves to its address |
| Environment.UnsetRefused | runtime_policy.py:107-110 | An environment is refused for a missing value if and only if one of the seven variables is unset or blank |
| Environment.FieldsAreVariables | runtime_policy.py:107-163 | Each field of an accepted identity is its own variable without outer whitespace, and the address is the parsed one |
| Environment.SharedNetworkExactly | runtime_policy.py:122-125 | Some network name passes the name guard for two events if and only if the runs of one event id begin with those of the other; only then does the name not tell them apart |
| Networks.LaunchNetworkShared | runtime_policy.py:272-311 | Two processes can launch on one network if and only if they agree on event, network name and egress policy |
| Networks.PassesExactly | runtime_policy.py:272-311 | A network passes if and only if it is the process's own non-internal bridge, with inter-container traffic off and the labels of the event, the challenge role and the egress policy |
| Environment.NameGuardIsNotEnough | runtime_policy.py:298-303 | "ctf" and "ctf-finals" pass the name guard with one name, but no network passes the attribute check for both |
| Isolation.ProcessesAreIsolated | container_manager.py:389-400 | Over any run a process can kill, and lists, exactly the plugin containers launched under its own event and target, and a kill takes down that container only |
| Isolation.KillsStayAtHome | container_manager.py:555-567 | No kill by a process takes down a container launched under another event or target |
| Settings.NormalizeSettingsPayload | admin_routes.py:20-109 | Accepts exactly the acceptable payloads; each field is the submitted value, else the current one, without outer whitespace; an error names a field that really fails the reported check |
| Settings.AcceptableHolds | admin_routes.py:50-107 | In an acceptable payload the required fields are filled, the eight integers positive, the CPU limit no number below or equal to zero, the log size a number and a unit, and the volume switch one of its two values |
| Settings.CpuRefused | admin_routes.py:93-99 | A CPU limit is refused if and only if it is no number, zero, negative or minus infinity |
| Text.TrimCutsSpace | admin_routes.py:43-48 | `strip` removes nothing but whitespace, and only at the ends |
| Settings.SizeIsNumberAndUnit | runtime_policy.py:21 | A log size passes if and only if it is a positive decimal number without leading zeros and one of the units |
| Settings.MergedPrecedence | helpers.py:48-55 | Three settings follow the environment where it says anything; otherwise the stored row counts before the default |
| Settings.ProfileEnforcesLimits | runtime_policy.py:388-437 | Every profile that builds has positive memory, PID, tmpfs and log limits and a bounded log size |
| Settings.ProfileFollowsSettings | runtime_policy.py:388-437 | Each limit of a profile is what its own setting parses to, or the documented default where the setting is missing |
| Settings.AcceptedPayloadBuilds | runtime_policy.py:366-445 | A payload the form accepts makes the profile build if and only if its CPU limit is finite; the quota is then the limit times 100000 rounded down, and every other limit is what its own field parses to |
| Settings.FormAcceptsNaN | admin_routes.py:93-99 | A form with the CPU limit "nan" that the form's check accepts and the launcher refuses |
| Settings.Store.RouteUpdateSettings | admin_routes.py:183-210 | Stores the normalised form exactly if the form's check, the profile and the remaining checks pass, and nothing otherwise |
| Settings.StoredSettingsBuild | container_manager.py:98-109 | What passes both validations builds the same profile once it is loaded again, under any environment |
| Settings.EndpointRefusesNaN | container_manager.py:98-109 | Of the acceptable forms the second validation refuses, for their limits, exactly those without a finite CPU limit |
| Settings.Store.SeedDefaultSettings | helpers.py:58-82 | Missing defaults are added, unsafe sentinels of safety controls replaced, all else kept; the result is overlaid by non-blank environment values |
| Settings.SeedingIsStable | helpers.py:58-82 | Seeding adds exactly the missing defaults, replaces nothing but a safety control's sentinel, and changes nothing the second time |
| Settings.SeededControlsAreSafe | settings.json:21-37 | With the shipped defaults, seeding leaves no safety control at a sentinel, whatever was stored |
| Capabilities.SplitJoins | helpers.py:567-568 | The pieces of a list joined by commas give the list back |
| Capabilities.ParsedNames | helpers.py:557-570 | A capability field names exactly its non-blank pieces, trimmed and in upper case |
| Capabilities.LessIsLexicographic | container_manager.py:644-646 | Strings are ordered by their first difference, and a proper prefix comes first |
| Capabilities.SortedSetSorts | container_manager.py:644-646 | `sorted(set(...))` is strictly increasing with the same members |
| Capabilities.LaunchAllowedExactly | container_manager.py:623-643 | A launch is refused for its capabilities if and only if a field cannot be read or something requested is not in the allowlist |
| Capabilities.LaunchedCapabilitiesAllowed | container_manager.py:623-646 | Every launch adds exactly the requested capabilities, sorted and pairwise different, all of them in the allowlist |
| Capabilities.SavedCapabilitiesLaunch | __init__.py:124-144 | A challenge can be saved if and only if it can be launched, except for a non-blank list under an empty allowlist |
| Capabilities.NamelessListLaunchesOnly | __init__.py:134-135 | A lone comma under an empty allowlist is such a list: it is launched, but cannot be saved |

## Left out

- Docker SDK, SSH, SQLAlchemy, Flask and scheduler internals, reconnection in `run_command`, and exceptions outside the caught classes: orphan freedom is not claimed across a lost Docker connection.
- Isolation levels of databases other than MySQL: without named locks a session still reads from the snapshot it opened.
- Global uniqueness of random flags: the lock is per account and no constraint covers challenge and flag, so only absence at the time of the check is stated.
- "A renewed container is never swept" and "a solved challenge has no container" under concurrency: the sweep and a solve take no account lock, and both have real races.
- Changes of flag mode, limits, lease length or user mode during a run.
- The purge endpoint's refusal of an empty selection, and the HTTP status codes and messages of all endpoints.
- `validate_daemon_capabilities`, `validate_docker_endpoint` and the image's USER, HEALTHCHECK and EXPOSE checks: each is a fixed list of equality tests on what Docker reports, it changes no state, and a launch that fails one of them stops before any container exists; the model only knows whether they pass.
- Volume mappings, the connection payload, templates, migrations, scoring and the admin pages.
- Non-ASCII whitespace and letter case, and float rounding of the CPU quota.

# Verified model of vault-issuer

A Dafny model of the parts of the Vault issuer controller and of its build tooling that carry state, with proofs
about every input, every run and every reachable state. `dafny verify dfyconfig.toml` checks all of it.

## What is modelled

**Building a Vault client** (`ClientSpec`, `ClientObjects`, `GoSlices`, `VaultSpec`). `vault.New` is a function of the
issuer, of the Secrets it reads and of the outside world; it returns the two clients or the error, and a log of every
Secret read, minted token, login and AWS call in program order. Each of the four places that read a Secret may see a
different moment of the API server. The same program is written a second time over objects (transports,
configurations, clients, and slices with length and capacity), and every method is proved to compute the function and
to write no more than its `modifies` clause says. The facts about the function are in `ClientFacts` (what is read),
`IndexFacts` (tightness, regions, audiences, tokens), `CallFacts` (what is sent and which settings are used),
`CheckFacts` (errors and verdicts) and `AmbientFacts` (who may use the controller's own AWS credentials).

**The Secret index and the latch** (`SecretWatch`, `IssuerCheck`, `Latch`). `issuersForSecret` maps a Secret event to
the issuers to check again. The controller is a transition system: Secrets change, events wait and are delivered to
each of the two issuer controllers, specs are edited, checks start, read their Secrets one at a time while everything
else goes on, and finish. The main theorem says that an issuer nobody is going to look at again carries exactly the
verdict that `Check` would give now.

**Signing and error classification** (`GoErrors`, `Signing`). Go errors are trees; `errors.As` is proved to be the
first match of the flattened tree. Success, verdict and cause of failure of `Sign` are characterised end to end.

**The download lock** (`DownloadLock`, `Checkhash`). `lock.sh` with flock, for any number of processes, as a state
machine over its commands, including failing downloads, failing flocks and killed process groups. Locks belong to
inodes, the lock path to nobody.

**The tool links** (`ToolLinks`). Stamp files, binaries and links with modification times, under version edits and
reverts, interrupted runs, clean-ups and interleaved builds of several tools; the recipes themselves are the methods
of class `Workspace`.

## What turned out to be conditional

- The latch can stay wrong when listing the issuers for a Secret event fails: the event is then gone
  (`internal/controller/secretwatch.go:73-76`, `91-94`). The invariant breaks exactly when that event was the last word
  for some issuer (`Latch.LosesLastWord`, `LosingTheLastWordIsTheHazard`). `Latch.LatchAgrees` holds for each issuer for
  which no last word was lost since it was last queued. `LostWordLeavesWrongVerdict` says where a lost one leads,
  `AnyLostEventBreaksAgreement` that it can hit every issuer at rest, and `LostEventBreaksAgreement` is a whole such run.
- Downloads can overlap after a failure: the failing holder unlinks the lock path while a second process waits on its
  inode. `DownloadLock.StrandingIsTheHazard` says that exactly these steps break the invariant.
  `StrandingBreaksExclusion` continues every one of them to two simultaneous downloads, `StrandingRuinsFinalFile` to a
  final file with arbitrary content that then disappears, and `StrandingIsReachable` shows that they come up.
  `ConcurrencyIsBounded` holds in all runs.
- A link can go stale when a binary to which it dangles comes back while the stamps name another one and are not newer.
  `ToolLinks.LinkGoesStaleIff` says of every run that a link is left wrong exactly when such a fetch was not repaired
  before and the wanted binary is no newer than the linked one, and `StaleFetchGoesStale` continues every such fetch to
  a wrong link. Links never go stale if nobody removes a linked binary (`LinksNeverGoStale`), nor when a make starts
  with an honest link and gets to it without the versions being edited under it, in whatever order it works
  (`FinishedMakesAreCurrent`).
- The comment at `internal/vault/vault.go:137-142` says that the namespaced client authenticates. A certificate login
  from a Secret does not: the model follows the code, and `IndexFacts.LoginsAreAddressed` says so.

## Assumptions about code that is not here

- issuer-lib behaves as the comments at `internal/controller/check.go:56-57`, `69-70` and
  `internal/controller/signer.go:109-112` say: a permanent error is not looked at again until the spec changes, a plain
  error is queued again, a pass rests until a request comes. The work queue holds an issuer at most once and does not
  run two checks of it at a time. issuer-lib itself is not part of this model.
- `signer.PermanentError` and `signer.IssuerError` unwrap to their `Err`, so that `errors.As` looks into them.
- The AWS SDK uses a region that it is given explicitly (`IndexFacts.HonoursRegion`), where a theorem asks for it.
- `CloneConfig` copies the `Config` and its `HttpClient` but not the transport, and cloning a transport copies the
  certificate slice but not the array behind it, as the comment at `internal/vault/vault.go:563-566` has it;
  `WithNamespace` is a shallow copy. The Vault SDK is not part of this model.
- Vault, Kubernetes, AWS, TLS parsing and `path.Join` answer as fixed but arbitrary functions (`ClientSpec.Env`).
  Where a theorem needs them not to return an error of a certain type, it says so (`CheckFacts.OutsideFreeOf`,
  `Signing.OnlySendMayRefuse`).
- cert-manager's default token key and login mounts are not part of this model; they are fields of `Env`.
- cert-manager's `IsInvalidData` is not part of this model; it is taken to look through wrapping. `setToken` returns
  its invalid-data error unwrapped, so a direct type test would answer alike.

## Model

| member | source | states |
|---|---|---|
| GoErrors.AsIsFirst | internal/controller/sign.go:96-98 | errors.As returns the first error of the wanted type in the depth-first, left-to-right listing of the reachable errors |
| GoErrors.AsAmong | internal/controller/sign.go:96-98 | in a join, the leftmost operand holding a match decides |
| GoErrors.QuietLayersAreInvisible | internal/vault/vault.go:188-204 | any stack of wrapping layers without a match of its own leaves the result of errors.As unchanged |
| GoErrors.WrappingKeepsChain | internal/controller/sign.go:103-108 | no stack of wrapping layers hides an error that was reachable before |
| VaultSpec.OrderIrrelevantIff | internal/vault/vault.go:226-288 | the order of the five auth branches is irrelevant exactly when at most one method is set |
| SecretWatch.IssuersForSecret | internal/controller/secretwatch.go:62-107 | both loops and all early returns compute RequestsFor, for either scope and a failing List |
| SecretWatch.WokenIsExactFilter | internal/controller/secretwatch.go:78-103 | the requests are an order-preserving selection of exactly the listed issuers that use the Secret |
| SecretWatch.WokenMembers | internal/controller/secretwatch.go:78-103 | a request comes out exactly for a listed issuer that uses the Secret, and never for one that IgnoreIssuer drops |
| SecretWatch.WokenHasNoDuplicates | internal/controller/secretwatch.go:78-103 | with distinct names nothing is requested twice |
| SecretWatch.IndexIsWatches | internal/controller/secretwatch.go:62-107 | over a whole cluster, an issuer is requested for a Secret exactly when the Secret lies in its resource namespace and its spec names it |
| ClientFacts.ReadsDetermine | internal/vault/vault.go:118-159 | readers that agree at the reads New really makes give the same clients, error and calls |
| ClientFacts.ReadsAreIndexed | internal/controller/secretwatch.go:109-148 | New reads only Secrets in the resource namespace that a live reference of the spec names |
| ClientFacts.IndexIsComplete | internal/controller/secretwatch.go:59-61 | New depends on no Secret outside the index, whatever each read position sees |
| IssuerCheck.ValidateVaultSpec | internal/controller/check.go:92-167 | the counting implementation gives the first complaint, with authCount above one exactly when two methods are set |
| IssuerCheck.AcceptedIffUsable | internal/controller/check.go:92-167 | validation accepts exactly the specs with server, path, one auth method and all fields of that method |
| IssuerCheck.ComplaintIsFirstBroken | internal/controller/check.go:92-167 | the message is that of the first rule, in the order of the checks, which the spec breaks; without a message all rules hold |
| CheckFacts.NewErrorIsPlain | internal/vault/vault.go:118-159 | an error of New holds no permanent error and no Vault response, and invalid data only if no auth method is set |
| CheckFacts.PermanentIffDecidedByObject | internal/controller/check.go:48-90 | Check is permanent exactly when type, validation or Unwrap decides, that is, when nothing outside was consulted |
| CheckFacts.PermanentVerdictsNeverExpire | internal/controller/check.go:56-60 | a permanent verdict stays the verdict under any later options, Secrets, Vault and environment |
| CheckFacts.CheckIsIndexed | internal/controller/check.go:71-87 | Check depends only on Secrets that the index maps to the issuer |
| CheckFacts.UnrequestedSecretsDoNotMatter | internal/controller/secretwatch.go:59-107 | Secret stores differing only where issuersForSecret does not request the issuer give the same verdict, clients, error and calls |
| CheckFacts.BranchOrderIsIrrelevant | internal/controller/check.go:131-133 | for an accepted spec every permutation of the auth branches gives the same outcome of New |
| CheckFacts.NoInvalidDataForAcceptedSpec | internal/vault/vault.go:287 | an accepted spec never reaches the invalid-data fallthrough |
| CheckFacts.ProgrammerMistakeIff | internal/vault/vault.go:616-684 | New fails with the default branch of the Kubernetes login exactly when the login is reached and neither JWT source is named, never for an accepted spec |
| IndexFacts.ReadableIffLive | internal/vault/vault.go:331-482 | for an accepted spec some store makes New read a Secret exactly when a live reference names it |
| IndexFacts.IndexIsTight | internal/controller/secretwatch.go:112-148 | without dead references a named Secret is watched exactly when some store makes New read it |
| IndexFacts.AmbientCredentialsAreGated | internal/vault/vault.go:734-740 | without permission New never asks for ambient credentials and its outcome does not depend on them |
| IndexFacts.AmbientLoginRefused | internal/vault/vault.go:736-740 | AWS auth without service account and permission fails after Secret reads only, independently of everything AWS |
| AmbientFacts.IssuerCannotBorrow | internal/controller/options.go:93-102 | for a namespaced Issuer without its flag, Check and Sign depend neither on the ambient credentials nor on the flag for ClusterIssuers, and AWS auth without a service account never succeeds |
| AmbientFacts.ClusterIssuerCannotBorrow | internal/controller/options.go:93-102 | the same for a ClusterIssuer without its flag, whatever Issuers are allowed |
| AmbientFacts.OtherFlagIsIrrelevant | internal/controller/options.go:93-102 | with or without permission, the flag for the other kind changes neither Check nor Sign |
| AmbientFacts.FlagsMatterOnlyForAmbient | internal/vault/vault.go:734-740 | an issuer with any other way to log in, such as a service account, needs no permission |
| AmbientFacts.BorrowingIsAllowed | internal/controller/options.go:93-102 | with its flag, an accepted issuer with AWS auth and no service account retrieves the ambient credentials in some environment, passes Check and gets a certificate |
| IndexFacts.SigningRegionIsConsistent | internal/vault/vault.go:764-799 | a signed request has a non-empty region, that of the configuration that gave the credentials unless that has none |
| IndexFacts.IssuerRegionIsIgnored | internal/vault/vault.go:752-763 | with ambient credentials and an environment region the issuer's region field has no effect on the login at all |
| IndexFacts.SignedRegionIs | internal/vault/vault.go:752-790 | the region of a signed request is the issuer's, unless it names none or it is to be ignored, then the one the SDK finds by itself or, without one in the environment, us-east-1 |
| IndexFacts.IssuerRegionIsSigned | internal/vault/vault.go:752-799 | in all other cases a region that the issuer names is the one in which AWS is asked and for which the login is signed |
| IndexFacts.DefaultAudienceIsInjective | internal/vault/vault.go:644-648 | no two Issuers or ClusterIssuers with slash-free names share a default audience |
| IndexFacts.LoginsAreAddressed | internal/vault/vault.go:563-576 | every login goes to the issuer's server with its trust and Vault namespace, except the certificate login from a Secret |
| CallFacts.CallsAreAsAsked | internal/vault/vault.go:226-288 | every call of New is a read for the TLS settings or belongs to the login that comes first, with the path, body, client, audiences, role, header and credentials that the spec and the Secrets ask for |
| CallFacts.LoginIsMadeIff | internal/vault/vault.go:226-288 | New gets as far as a login exactly if its settings load, its client can be made, and the login that comes first has its Secret, token or credentials |
| CallFacts.AppRoleCalls | internal/vault/vault.go:457-507 | role_id is the trimmed role and secret_id the trimmed value of the Secret, in this assignment, sent to the AppRole mount |
| CallFacts.CertificateCalls | internal/vault/vault.go:534-589 | the login carries the name alone and, with a Secret, goes out over a client that presents that Secret's certificate |
| CallFacts.KubernetesCalls | internal/vault/vault.go:616-705 | role and JWT in this assignment, the JWT being the Secret's value as it is or a token for the user's audiences, the default one and the server, in this order |
| CallFacts.AwsCalls | internal/vault/vault.go:725-872 | the credentials are those that AWS gave for the role and the service account's token or the ambient ones, the request is signed with the given header, and the login carries what was signed and the role |
| CallFacts.SettingsAreAsAsked | internal/vault/vault.go:290-428 | newConfig succeeds exactly with the address, server name, trusted bundle and client certificate that the spec and its Secrets ask for, under their default keys |
| CallFacts.NewSucceedsIff | internal/vault/vault.go:118-159 | New succeeds exactly with such settings and a token; the signing client then has both and the issuer's Vault namespace, the sys client both and none |
| IndexFacts.TokenIsTheAnswer | internal/vault/vault.go:226-288 | New succeeds exactly when its last call is a login that Vault answered with a token (not empty for an AppRole), and that is the clients' token; there is no other login |
| IndexFacts.TokenIsTheSecret | internal/vault/vault.go:430-455 | with a token Secret the clients carry its value under the given or default key without outer space, and nothing but Secrets is touched |
| IndexFacts.TrimSpaceCutsSpace | internal/vault/vault.go:451-452 | what is cut off at either end is space, and no space is left there |
| IndexFacts.CheckPassesIff | internal/controller/check.go:48-90 | Check passes exactly for an accepted spec whose TLS settings load, for which Vault or the token Secret gave a token, and whose Vault is healthy for that token |
| IndexFacts.CheckKeepsCause | internal/controller/check.go:69-87 | when the object itself is not at fault, the verdict holds the error of New or tells of a Vault that is not initialized, sealed or failing |
| Signing.ClassificationIsExact | internal/controller/sign.go:96-109 | the classified error keeps the original and is permanent exactly when the first Vault response refuses |
| Signing.LayersKeepVerdict | internal/vault/vault.go:188-204 | adding wrapping layers never changes whether a signing failure is permanent |
| Signing.UnreadableReplyIsRetried | internal/vault/vault.go:936-945 | a reply that cannot be turned into a bundle is asked for again, even if the error shown in the text is a refusal |
| Signing.VaultSignRefusedIff | internal/vault/vault.go:162-224 | of all steps of a signing exchange only the sign request itself can make the failure a refusal |
| Signing.VaultSignSucceedsIff | internal/vault/vault.go:162-224 | an exchange succeeds exactly if its request is granted, the reply holds a chain with a leaf and the leaf has the public key of the request; what comes back is that chain |
| Signing.OnlySignBodyAsksFor | internal/vault/vault.go:168-179 | the body is exactly the one that asks for this request, its lifetime and its names |
| Signing.JoinIsInjective | internal/vault/vault.go:170-172 | the joined names determine the list, in its order |
| Signing.SignVerdict | internal/controller/sign.go:34-79 | for every issuer that is not ignored: the issuer is blamed exactly without a client, for good exactly when no auth method was found (never for an accepted spec); otherwise permanent exactly for unreadable details or a refusal |
| Signing.SignSucceedsIff | internal/controller/sign.go:34-79 | Sign gives a bundle exactly if there is a client with the issuer's settings, token and Vault namespace, its request is granted, and all further steps succeed including the comparison of public keys; the bundle is the CA and chain of that reply |
| Signing.SignOfOtherObjects | internal/controller/sign.go:35-43 | a foreign object fails for good, one that does not unwrap is retried, and neither is blamed on the issuer |
| Signing.SignKeepsCause | internal/controller/sign.go:46-71 | the error that ended the signing can be found in the answer, except where it is formatted as text |
| Latch.DeliveryWakes | internal/controller/secretwatch.go:62-107 | delivering an event on a watched Secret queues the issuer, in whatever order the issuers are listed |
| Latch.FreshFlightTellsTheTruth | internal/controller/check.go:71-87 | a check whose reads, made at different times, are all still true has the verdict of an instantaneous check |
| Latch.StepKeepsSound | internal/controller/check.go:56-60 | no step, not even one that loses an event, makes a permanent verdict wrong |
| Latch.StepIsSafeIff | internal/controller/signer.go:109-113 | issuer by issuer, a step keeps it safe exactly if it does not lose the last word for it |
| Latch.LosingTheLastWordIsTheHazard | internal/controller/secretwatch.go:73-76 | a step breaks the invariant exactly when it loses the last word for some issuer |
| Latch.LatchAgrees | internal/controller/signer.go:109-113 | in every run, an issuer at rest for which no last word was lost since it was last queued has a recorded verdict on its current spec equal to what Check answers now, and not a retryable one |
| Latch.LostWordLeavesWrongVerdict | internal/controller/secretwatch.go:91-94 | a lost last word leaves the issuer at rest and unsettled, at once or when its running check ends, unless that check is retried or right by chance |
| Latch.AnyLostEventBreaksAgreement | internal/controller/secretwatch.go:91-94 | in every setup and for every issuer at rest, a change of one of its Secrets that matters and a failed listing leave it at rest with a wrong verdict |
| Latch.LostEventBreaksAgreement | internal/controller/secretwatch.go:91-94 | a run from the start in which one failed listing leaves an issuer at rest and Ready although Check would fail |
| DownloadLock.StepKeepsLockInv | make/_shared/tools/util/lock.sh:37-46 | every command keeps locks and holders matched and the number of lock files within the removals plus the one in place |
| DownloadLock.StepKeepsExclusion | make/_shared/tools/util/lock.sh:37-70 | every command that strands nobody keeps the invariant and leaves a final file as it is |
| DownloadLock.DownloadsAreExclusive | make/_shared/tools/util/lock.sh:21-27 | while no failing holder strands a waiter, at most one process is between the check and the unlinking |
| DownloadLock.FinalFileIsCompleteForever | make/_shared/tools/util/lock.sh:49-69 | the final file is the complete, accepted output of one recipe body and never changes or disappears |
| DownloadLock.LeavingCleansUp | make/_shared/tools/util/lock.sh:59-69 | a process that lives to leave its critical part leaves no lock file and no temporary file, and a final file exactly if its download succeeded |
| DownloadLock.OnlyCriticalTouchesFiles | make/_shared/tools/util/lock.sh:37-52 | all other processes change no file but create a missing lock file, and none goes to work while there is a final file |
| DownloadLock.LoneDownload | make/_shared/tools/util/lock.sh:37-70 | a process alone leaves what its body wrote as the final file or, failing, none, and neither lock, lock file nor temporary file |
| DownloadLock.ConcurrencyIsBounded | make/_shared/tools/util/lock.sh:38-69 | in every run there are at most as many downloaders as removals of the lock path plus the one in place |
| DownloadLock.StrandingIsTheHazard | make/_shared/tools/util/lock.sh:65-68 | a command breaks the invariant exactly when a failing holder unlinks the path of an inode another process has open |
| DownloadLock.StrandingBreaksExclusion | make/_shared/tools/util/lock.sh:65-68 | every such command can be followed by two simultaneous downloads |
| DownloadLock.StrandingRuinsFinalFile | make/_shared/tools/util/lock.sh:62-66 | every such command can be followed by a final file of any content, put there by a process that succeeded, which then disappears |
| DownloadLock.StrandingIsReachable | make/_shared/tools/util/lock.sh:65-68 | a run that arrives at such a command |
| Checkhash.Run | make/_shared/tools/util/checkhash.sh:32-58 | exit status and learned line, for missing arguments, match, mismatch and learning |
| Checkhash.PassesIff | make/_shared/tools/util/checkhash.sh:32-58 | a file with the expected hash passes, one with another hash only to be learned, nothing else does |
| Checkhash.LearnedHashPasses | make/_shared/tools/util/checkhash.sh:48-53 | the learned hash is the one and only hash with which the same file passes without learning |
| Checkhash.GoTarballHasExpectedHash | make/_shared/tools/00_mod.mk:535-539 | without LEARN_FILE the Go tarball has the expected hash whenever it exists |
| ToolLinks.HonestAfterIff | make/_shared/tools/00_mod.mk:249-250 | a live link that disagrees with its stamps is older than one of them; a step ends that exactly if it is a stale fetch, and restores it exactly if it is a repair |
| ToolLinks.StaleFetchIsTheHazard | make/_shared/tools/00_mod.mk:517 | a step breaks the invariant exactly when it is a stale fetch |
| ToolLinks.LinkIsCurrentIff | make/_shared/tools/00_mod.mk:516-523 | making the link leaves it on the binary of the current versions and up to date exactly when it was honest or the wanted binary is newer, and stuck otherwise |
| ToolLinks.HonestIffRepaired | make/_shared/tools/00_mod.mk:504-523 | in every run a link is honest exactly when every stale fetch for its tool has been repaired |
| ToolLinks.LinkGoesStaleIff | make/_shared/tools/00_mod.mk:504-523 | in every run of edits, reverts, interruptions, clean-ups and other builds, a link that is made is left wrong exactly after an unrepaired stale fetch that the time of the wanted binary does not give away |
| ToolLinks.LinksNeverGoStale | make/_shared/tools/00_mod.mk:504-523 | links never go stale in runs in which no linked binary is removed |
| ToolLinks.FinishedMakesAreCurrent | make/_shared/tools/00_mod.mk:516-523 | a make, parallel or not, that starts with an honest link and reaches it without an edit of the versions leaves it right, whatever else happens meanwhile |
| ToolLinks.BuildIsCurrent | make/_shared/tools/00_mod.mk:516-523 | a sequential make of one tool with an honest link ends with the current link and makes no other link dishonest |
| ToolLinks.BuildLeavesOtherLinks | make/_shared/tools/00_mod.mk:516-523 | and leaves the links of all other tools alone |
| ToolLinks.SecondBuildDoesNothing | make/_shared/tools/00_mod.mk:510-511 | a second make changes no file and no modification time |
| ToolLinks.OtherBuildsDoNotDisturb | make/_shared/tools/00_mod.mk:512-515 | building another tool, also one sharing the Go stamp, keeps an up-to-date link up to date |
| ToolLinks.StaleFetchGoesStale | make/_shared/tools/00_mod.mk:517 | every stale fetch can be followed by a link that is wrong and that make no longer remakes |
| ToolLinks.HazardIsReachable | make/_shared/tools/00_mod.mk:517 | a run that arrives at a stale fetch |
| ToolLinks.Workspace.StampToolRule | make/_shared/tools/00_mod.mk:249-250 | the stamp recipe for a tool, in place, keeps all links honest |
| ToolLinks.Workspace.StampGoRule | make/_shared/tools/00_mod.mk:249-250 | the stamp recipe for the Go version, in place, keeps all links honest |
| ToolLinks.Workspace.FetchRule | make/_shared/tools/00_mod.mk:490-500 | the binary is made once and never again; honest links stay honest exactly if this is no stale fetch |
| ToolLinks.Workspace.LinkRule | make/_shared/tools/00_mod.mk:517-522 | make's decision by modification times, then ln and touch; from honest links it leaves the current one |
| ToolLinks.Workspace.Make | make/_shared/tools/00_mod.mk:517-522 | the whole chain leaves the link on the current binary |
| GoSlices.Append | internal/vault/vault.go:569 | append writes in place exactly when there is room and into a fresh array otherwise |
| GoSlices.Copy | internal/vault/vault.go:650 | append to a nil slice makes a copy that shares nothing |
| ClientObjects.Vault.SetTrust | internal/vault/vault.go:294-307 | the CA bundle lands in the transport exactly when it is loaded and parses |
| ClientObjects.Vault.SetIdentity | internal/vault/vault.go:309-320 | certificate slice without spare room, and server name |
| ClientObjects.Vault.NewConfig | internal/vault/vault.go:290-323 | a fresh configuration with the dial settings of the specification, or its error |
| ClientObjects.NewClient | internal/vault/vault.go:132-135 | a client over the given configuration, or the library's error |
| ClientObjects.CloneWithCertificate | internal/vault/vault.go:567-570 | the short-lived configuration is fresh and has one certificate more; the original and its array are not written |
| ClientObjects.NewIntermediary | internal/vault/vault.go:567-575 | the short-lived client shares nothing with the original |
| ClientObjects.Vault.RequestTokenWithClientCertificate | internal/vault/vault.go:534-614 | computes the specified token and calls; only the log is written |
| ClientObjects.Vault.BuildAudiences | internal/vault/vault.go:644-651 | the user's audiences in order, then default and server, without writing to the issuer's array even if it has room |
| ClientObjects.Vault.RequestTokenWithKubernetesAuth | internal/vault/vault.go:616-723 | computes the specified token and calls from either JWT source |
| ClientObjects.Vault.ChooseRegion | internal/vault/vault.go:742-767 | the successive assignments to region give the requested region |
| ClientObjects.Vault.RequestTokenWithAwsAuth | internal/vault/vault.go:725-823 | computes the specified token and calls; only the log is written |
| ClientObjects.Vault.SetToken | internal/vault/vault.go:226-288 | the client's token changes exactly when the selected login succeeds, and nothing else of it changes |
| ClientObjects.Vault.LogIn | internal/vault/vault.go:137-146 | the namespaced client with its token, over the same configuration |
| ClientObjects.Vault.Connect | internal/vault/vault.go:132-158 | both clients share configuration and token, the sys client has no namespace |
| ClientObjects.New | internal/vault/vault.go:118-159 | clients, error and calls of the specification; fresh objects on success, no clients on failure |

## Left out

- HTTP, JSON, TLS, x509, STS and SigV4: arbitrary functions in `Env` and `Signing.Exchange`; JSON encoding of a login body is taken to succeed.
- What the reply to a sign request holds, as a function of the request: each step after sending has one fixed outcome per exchange.
- Error texts: messages are abbreviated where they contain names and namespaces; only their wrapping matters.
- Certificate chain building in `extractCertificatesFromVaultCertificateSecret`: cert-manager's pki package and certutil are not part of this model; the outcome of each call is a field of `Signing.Exchange`.
- Staleness of the informer cache behind List: a listing is taken to show the stored issuers.
- Deletion and re-creation of an issuer under the same name while it is being checked: revisions are unique, so a verdict on the old object is never taken for one on the new.
- Environment variables that change the SDK's default TLS configuration; a fresh client's namespace and token are arbitrary.
- `preSetupWithManager` and `SetupWithManager`: which controllers get the watch is a single switch.
- `lock.sh` without flock and its SIGINT path; death of the shell alone, with a child that still holds the lock file open.
- Several checkouts sharing one download directory, and changes to the list of tools that are built from source.
- The commands inside a recipe body other than creating, appending to and checking `$outfile`.
- Flag validation, Helm templates, end-to-end tests, fakes, logging and metrics.

# Local TLS: the machine lifecycle, verified

This project models the production path of the `local-tls` module and proves what its runs keep. The
machine is a disk with two certificate files, a persisted key store, the `LocalMachine\Root` store, a table
of native handles and a clock. `ProvisionMachine`, `ReloadMachine`, `LoadServingMaterial`,
`Material.Close`, `CleanupMachine` and `CleanupMachineBySHA256` are programs that make system calls on it.

## How the model works

- `State` is the machine. `Env` says, for every call by its number, whether the call works, fails with an
  arbitrary error tree, or never returns because the process dies there; it also supplies clock readings,
  serial numbers and new keys. Every theorem is over all environments, so over every failure pattern, every
  crash point and every clock, backward jumps included.
- A dead process makes no more effects. The state a call leaves when its process died in the middle is
  therefore exactly the state at the point of death, and "every reachable state" includes those.
- Each entry point is modelled twice: as a function from a state to an outcome (`Provision`, `TrustStore`,
  `Cleanup`), and in the form the source has, as a method that makes the calls in sequence and closes
  handles on each path (`LocalTls`, `WindowsTrustStore`, `LocalTlsCleanup`). Each method is proved to do what
  the function says; the theorems are about the functions and about runs of them.
- SHA-256, subject matching, the display name and the store's idea of "the same certificate" are arbitrary
  functions of the environment. Certificates are abstract: names, serial, window, SANs, key, and the key that
  signed them.
- Signer, store and certificate-context handles are entries of one table that counts releases. "Released
  exactly once" is a statement about that count.

Files: `Validity` (instants and windows), `Certificates`, `Fingerprints`, `Errors`, `State`; `TrustStore`,
`Provision`, `Cleanup` (the functions); `Machine`, `WindowsTrustStore`, `LocalTls`, `LocalTlsCleanup` (the
methods); `TrustStoreProofs`, `TrustStoreModel`, `ProvisionProofs`, `CleanupProofs` (one call each); `Acceptance`
(what is accepted and issued, field by field), `FaultFree` and `Failures` (when nothing fails, and when something
does); `Runs`, `Lifecycle`, `Serials`, `Recovery`, `Renewals`, `Anchors`, `Refinement` (runs); `Interleaving`,
`SoloRuns` (concurrent processes); `Limits` (where the guarantees stop).

## Assumptions, and what happens without them

- `TruthfulStat`: a file is reported absent only when it is. `fileExists` (provision.go:495-498) reads any
  stat failure as absence, so one CA identity is not kept without it: `Limits.IdentityDependsOnStat` gives
  the exact condition, for every machine with a CA file.
- `HonestFailures`: a failing call does not claim that something is missing. `isEnumEnd`
  (truststore_windows.go:282-291) takes any errno whose low 16 bits are 0x2004 for the end of the store, so a
  search can miss an anchor: `TrustStoreProofs.SearchMisses` and `Limits.RemovalMisses` give the exact
  condition, `Limits.NilCleanupCanLeaveTheAnchor` a nil cleanup that leaves the anchor.
- `ReplacesOnlyItself`: replace-existing (truststore_windows.go:107-109) takes no other certificate for the
  one being added. Only statements about the whole store need it.
- A failing call has had no effect, except that a write may leave arbitrary bytes in the temporary file and a
  directory removal may have removed any part of the directory. Rename is atomic.
- Processes that provision or clean up run alone. Reloads and loads for serving may run concurrently.
- `time.Now` never returns Go's zero time, and open or loaded keys are P-256.

Where the documentation and the code differ, the model follows the code: the comment at truststore.go:20-22 has
`TrustHealthy` mean present exactly once, but the adapter stops at the first match (`Limits.HealthyMeansOnce`
gives the exact condition, `Limits.HealthyThoughTwice` a store that shows it); and cleanup is documented never to
swallow a trust-anchor failure, which fails in the case above, and `Limits.TwoAnchorsAfterNilCleanup` is a run
that ends with two anchors because of it.

## Model

| member | source | states |
|---|---|---|
| Validity.RenewalDueExact | provision.go:226-230 | With saturating `time.Sub` the renewal test is exactly NotAfter − now ≤ 30 days for all instants, and its first disjunct is redundant |
| Validity.FirstIssueShapes | certificate.go:60-79 | First install: leaf window nested in the CA's, both backdated alike, 90 days and five years long after flooring to seconds, both unexpired |
| Validity.DueRenewalIsNotEarly | certificate.go:177-179 | For the leaves runs keep, a due renewal is at least 60 days into the CA's window, so of the lifetime check only the expiry branch can refuse it |
| Validity.RenewalShapes | certificate.go:162-171 | A due renewal under a currently valid CA keeps nesting on both ends and either reaches the CA's NotAfter or extends by at least 60 days |
| Validity.NotBeforeNesting | certificate.go:120-136 | For an arbitrary CA, NotBefore nesting holds exactly when the clock is at least five minutes past the CA's NotBefore |
| Validity.SecondRenewal | composition_windows.go:169-193 | At the same clock a second renewal is due exactly when the CA has at most 30 days left, and then ends at the same instant |
| Validity.ExtendingRenewalSpends | certificate.go:24-28 | Every strictly extending renewal uses up one of the 60-day steps left to the CA's NotAfter |
| Validity.TwentyNineRenewals | certificate.go:24-28 | In window arithmetic: each of the first 29 leaves renewed at the first instant the threshold allows is due, under a valid CA, and strictly extended |
| Certificates.ValidateSAN | provision.go:509-530 | The flag loop accepts exactly localhost plus the two loopback addresses, in either order and IPv4 form |
| Certificates.NewLeafPassesChecks | certificate.go:120-147 | What the issuing code builds passes the key match, the issuer check and the SAN check, and chains to its CA by name |
| Acceptance.CaIsIssued | certificate.go:58-79 | Whatever fails, an issued CA has the drawn serial, the product's names, five minutes back and 1825 days ahead in nanoseconds, and is signed by its own key |
| Acceptance.LeafIsIssued | certificate.go:120-147 | Whatever fails, an issued leaf has the drawn serial, its literal names and addresses, five minutes back and 90 days ahead or the CA's end, and is signed by the CA signer |
| Acceptance.OtherKeysAreRefused | certificate.go:109-118 | Nothing is issued for a key that is not ECDSA P-256 |
| Acceptance.ValidSanMeans | provision.go:509-530 | The SAN check accepts exactly the four literal address lists with localhost |
| Fingerprints.ParsePrinted | truststore.go:110-124 | Parsing undoes printing for all 32-byte values, any surrounding white space and any letter case |
| Fingerprints.ParseAccepts | truststore.go:112-124 | Accepted are exactly the strings that trim to 64 hex digits; two accepted strings agree exactly when equal up to case and trimming |
| Fingerprints.ParseMeans | truststore.go:112-124 | A string names a fingerprint exactly when it is literal Unicode white space, 64 hexadecimal digits spelling it high digit first, and white space; every other string is refused |
| Fingerprints.PrintedSpells | truststore.go:110-124 | Printing spells the bytes in lower-case digits, and parsing undoes it inside any Unicode white space |
| TrustStoreProofs.FindSettles | truststore_windows.go:250-279 | For any store length and an error anywhere, the search releases every context it is handed but the one it returns, which is the first match |
| TrustStoreProofs.SearchMisses | truststore_windows.go:257-291 | A search misses a present certificate exactly when the enumeration up to it is cut short by an end-like error |
| TrustStoreProofs.SearchIsExact | truststore_windows.go:257-279 | With honest failures a search that finds nothing means that nothing is there |
| TrustStoreProofs.VerifySettles | truststore_windows.go:177-224 | VerifyTrust changes nothing, releases all it opens, and is healthy only for a member |
| TrustStoreProofs.InstallSettles | truststore_windows.go:74-114 | InstallTrust changes Root at most by adding exactly the given certificate, releases all it opens, and on success the fingerprint is present |
| TrustStoreProofs.RemoveSettles | truststore_windows.go:150-175 | Removal deletes at most one entry, one with the fingerprint, keeps the others in order, and releases all it opens |
| TrustStoreProofs.IsTrustedSettles | truststore_windows.go:226-243 | IsTrustedSHA256 changes nothing, releases all it opens, and says yes only for a member |
| TrustStoreModel.InstallRefines | truststore.go:56-60 | On a duplicate-free store a successful install is set insertion, and no entry is added when the fingerprint is there |
| TrustStoreModel.RemoveRefines | truststore.go:62-76 | A successful removal is set deletion; "not found" is reported only when true |
| TrustStoreModel.IsTrustedRefines | truststore.go:87-89 | IsTrustedSHA256 is set membership |
| TrustStoreModel.VerifyRefines | truststore.go:19-34 | Healthy exactly for members, present at least once; conflict exactly for non-members with a subject match |
| TrustStoreModel.AdapterRefinesSet | truststore_windows.go:75-243 | Over any operation sequence, with any calls failing, Root is the set the successful calls describe and stays duplicate-free |
| FaultFree.QuietRemove | truststore_windows.go:156-175 | Fault-free, a removal deletes the first entry with the fingerprint, and reports not-found exactly when there is none |
| FaultFree.QuietIsTrusted | truststore_windows.go:227-243 | Fault-free, a query answers, and the answer is membership |
| FaultFree.QuietInstallExactly | truststore_windows.go:86-113 | Fault-free, an install succeeds and leaves Root as it is, or puts the certificate at its end in place of the first entry that counts as the same |
| FaultFree.JunkIsRefused | truststore_windows.go:75-113 | Bytes that are no certificate have no trust state and are never added |
| FaultFree.EmptyIsRefused | truststore_windows.go:75-79 | Empty bytes are refused before any call, by install, removal and verification |
| ProvisionProofs.WriteIsAtomic | provision.go:532-564 | Whatever fails and wherever the process dies, the target file holds all of the new bytes or what it held before; success means the new bytes |
| ProvisionProofs.WriteLeavesNoTemp | provision.go:532-564 | A write leaves every other temporary file alone and its own behind only if the process died or the last call, which removes it, failed |
| ProvisionProofs.OneFailureLeavesNoTemp | provision.go:538-562 | Whichever single call of a write fails, no temporary file is left |
| ProvisionProofs.RenewalEffect | provision.go:226-245 | The leaf is replaced in full by one issued at the clock reading under a currently valid CA, or untouched; an error leaves it |
| ProvisionProofs.EnsureTrustEffect | provision.go:197-224 | Without repair Root is untouched; with repair it gains at most this CA, never under a conflict; success means trusted |
| ProvisionProofs.ReloadWithKeyStoreEffect | provision.go:168-249 | Frame, checks and ownership of a reload: keys and CA file stay, an error leaves the leaf, success has passed every check |
| ProvisionProofs.ReloadMachineEffect | composition_windows.go:81-201 | The same for ReloadMachine, which also never touches Root |
| ProvisionProofs.LoadServingEffect | composition_windows.go:225-307 | LoadServingMaterial changes nothing, opens no CA key, and returns only material that passed every check |
| ProvisionProofs.FirstProvisionEffect | provision.go:114-166 | A first install stops in one of three stages in this order: no file, CA file, both files; only in the last may Root have gained the CA |
| ProvisionProofs.GuardEffect | composition_windows.go:326-367 | The guard only looks; what it lets through is free of certificates and keys, or complete |
| ProvisionProofs.ProvisionMachineEffect | composition_windows.go:31-65 | By what is on disk, ProvisionMachine reloads, installs, or is refused without any effect; every handle is accounted for |
| ProvisionProofs.FailClosed | composition_windows.go:67-80 | Erroring reloads change nothing; an erroring provision on existing material at most adds the on-disk CA to Root, and nothing under a conflict; serving changes nothing |
| Acceptance.ServesExactly | composition_windows.go:225-307 | Whatever fails, LoadServingMaterial returns only what is on disk, signed by the CA's own key, for the server key and loopback; fault-free it succeeds exactly when that and the anchor are there |
| Acceptance.ReloadChecks | provision.go:168-249 | Whatever fails, a successful reload found a leaf signed by the CA's own key for the server key and loopback, and returns it with more than 30 days left, or one in its place that is too |
| Acceptance.ReloadMachineAccepts | composition_windows.go:81-201 | Fault-free on any disk, ReloadMachine succeeds exactly when files and keys belong together, the CA is in Root and the windows allow it at the clock reading |
| Acceptance.ProvisionAccepts | provision.go:168-249 | The same for ProvisionMachine where both files are there, with a missing anchor allowed unless another entry has its subject |
| Acceptance.ProvisionChecks | composition_windows.go:31-65 | Whatever fails, a successful provision leaves and returns two files that belong together and to the two keys, with the CA in Root |
| Failures.SuccessMeansNothingFailed | composition_windows.go:67-80 | An entry point that succeeds has met no failing call, except one that says something is missing |
| Failures.FailedNumberStops | composition_windows.go:67-80 | In particular a call that fails with an error number other than 2, 3 or one ending in 0x2004 makes its entry point fail |
| FaultFree.KeyErrors | keystore_windows.go:92-97 | A failing key call says ErrKeyNotFound exactly when the key library's sentinel is in its error, and otherwise what the library said |
| FaultFree.MissingKeyIsSaid | composition_windows.go:99-102 | Fault-free with readable certificates, a missing server key makes loading for serving, and a missing CA key makes a reload, fail with ErrKeyNotFound |
| CleanupProofs.AggregateIsFaithful | cleanup.go:24-59 | For arbitrary error trees: nil exactly when each trust or key error is nil or contains a sentinel and the directory is gone; every other failure is found by errors.Is |
| Failures.IsMeansReachable | cleanup.go:55-57 | errors.Is finds exactly what unwrapping wraps and joins can reach |
| Failures.PlainNumber | truststore_windows.go:282-291 | Of the error numbers, exactly 2, 3 and those ending in 0x2004 can be read as not there |
| Failures.PlainMessage | truststore_windows.go:340-349 | Of the messages, exactly those that contain one of two texts can be |
| Failures.PlainTree | cleanup.go:55-57 | A wrapped or joined error is taken for already absent exactly when unwrapping reaches a sentinel |
| Failures.CleanupReturns | cleanup.go:24-47 | What cleanup returns: nil exactly when each trust or key step returned nil or a sentinel and the directory step nil; every other step error is in the result, and nothing else is |
| Failures.EveryFailureIsReported | cleanup.go:14-19 | No failure is swallowed: any call of a cleanup that fails plainly, in whichever step, is found in what it returns |
| Failures.FailedNumberIsReported | cleanup_windows.go:30-89 | In particular both cleanups return every failing error number other than 2, 3 or one ending in 0x2004 |
| CleanupProofs.CleanupEffect | cleanup.go:24-47 | Cleanup only removes, and begins each of its steps once and in order whatever became of the others |
| CleanupProofs.NilCleanup | cleanup_windows.go:30-61 | Nil means that the first matching anchor, both keys and the directory are gone; CleanupMachine returns nil only if the CA file was there |
| FaultFree.QuietCleanup | cleanup.go:24-47 | Fault-free, cleanup removes the first entry it was asked about, both keys and the directory, whatever is there of them, and returns nil exactly when its anchor step had something to look for |
| FaultFree.QuietCleanupMachine | cleanup_windows.go:30-62 | Fault-free, CleanupMachine returns nil exactly when the CA file is there and not empty; either way the machine is empty after it |
| FaultFree.QuietCleanupBySHA256 | cleanup_windows.go:68-89 | Fault-free, the fingerprint form returns nil on any machine, leaves it empty and Root without the first match |
| Runs.OwnershipOverRuns | provision.go:33-65 | Over every run and failure pattern the open handles are exactly the signers of Materials not yet closed; every other handle was released exactly once |
| Lifecycle.WindowsStayNested | certificate.go:131-132 | In every state of every run, cleanups and crashes included, the leaf's window lies inside the CA's on both ends |
| Lifecycle.IdentityOverRuns | composition_windows.go:27-30 | Over every run without cleanup the CA file keeps its bytes, and every anchor the run adds to Root is that file |
| Serials.IssueDraws | certificate.go:120-126 | An issued leaf or CA carries a serial drawn in the call that issued it |
| Serials.RenewalDraws | provision.go:231-244 | A renewal puts only a leaf with a serial drawn in it on disk, and returns that leaf |
| Serials.FirstDraws | provision.go:114-166 | However far a first install gets, the files it writes carry serials drawn in it, the CA's and the leaf's in two draws |
| Serials.SerialsNeverRepeat | certificate.go:149-160 | Over every run, with draws that do not repeat, CA and leaf on disk never share a serial, and every replaced file gets one that neither file had |
| Lifecycle.StepAdvances | provision.go:226-244 | Each call keeps the leaf's NotAfter, or extends it by at least 60 days or to the CA's NotAfter |
| Lifecycle.ExtensionsAreBounded | provision.go:231-244 | Under any clock NotAfter never decreases over a run, and one CA sees at most 29 strictly extending renewals |
| Renewals.TwentyNineExtensions | certificate.go:24-28 | The bound is met by a run: from a freshly installed machine there is a clock under which 29 reloads extend the leaf 29 times |
| Lifecycle.RenewalNeedsValidCa | certificate.go:173-185 | On any disk, a reload or a provision of existing material replaces the leaf only when it succeeds and only at a clock reading inside the CA's window |
| Lifecycle.SuccessMeansUnexpired | certificate.go:173-185 | From reachable states a successful reload or provision returns a leaf and a CA both unexpired at its clock reading |
| Lifecycle.SecondReload | composition_windows.go:169-200 | A second reload at the same clock rewrites server-cert.der exactly when the CA has at most 30 days left, with the same NotAfter |
| Recovery.ThreeStates | provision.go:67-88 | What the guard calls inconsistent is exactly what is neither empty nor complete |
| Recovery.InterruptedInstall | provision.go:114-166 | An install that fails or dies anywhere leaves genuine certificates only, keys before certificates, the CA before the leaf, and an anchor only on a complete machine |
| Recovery.PartialIsRefused | composition_windows.go:47-62 | On an inconsistent machine every provision is refused without effect, and every reload fails; honest failures are only needed where there are keys and no certificate |
| Recovery.PartialForever | composition_windows.go:47-62 | No run without cleanup changes a file, a key or Root on an inconsistent machine |
| Recovery.EmptyInstalls | composition_windows.go:31-65 | On an empty machine the next fault-free provision installs |
| Acceptance.EmptyInstallsInRange | certificate.go:60-79 | In particular wherever the clock stays between 1970 and year 9994 |
| Recovery.CompleteRecovers | provision.go:201-219 | On a complete machine the next fault-free provision succeeds exactly when the CA is in Root or no other entry has its subject, and the clock reading is before the CA's NotAfter; then with the same CA and its anchor in Root |
| Recovery.CompleteReloads | composition_windows.go:152-200 | On a complete machine a fault-free reload succeeds exactly when the CA is in Root and the clock reading is before the CA's NotAfter |
| Recovery.SuccessCanBeServed | composition_windows.go:203-307 | After a successful provision or reload a fault-free load for serving succeeds with the same CA, fingerprint, leaf and key |
| Refinement.ReloadRefinesKeyStoreReload | composition_windows.go:81-201 | With both keys present ReloadMachine and reloadWithKeyStore without repair have the same outcome, for the same clock, draws, failures and crash point |
| Anchors.NilCleanupResets | cleanup_windows.go:30-88 | A nil cleanup leaves exactly the first-install state the guard accepts, and no anchor added by the module |
| Anchors.SingleAnchorOverRuns | cleanup_windows.go:11-88 | Over any run in which every cleanup returned nil, Root holds at most one anchor added by the module, the CA on disk |
| Limits.IdentityDependsOnStat | provision.go:108-111 | On any machine with a CA file, with nothing but stat failing, the identity is kept exactly when the guard refuses what its calls see, or both files are there and both routing stat calls work |
| Limits.LoneCaIsReplaced | composition_windows.go:326-349 | A CA file with no leaf and no keys beside it is replaced exactly when the guard's first stat call fails |
| Limits.RemovalMisses | truststore_windows.go:281-291 | A removal takes a present anchor for "already absent" exactly when the enumeration before it is cut short by an end-like error |
| Limits.NilCleanupCanLeaveTheAnchor | cleanup_windows.go:46-61 | With errno 0x12004 from the first enumeration call, CleanupMachine returns nil and the anchor stays |
| Limits.InstallBesideStaleAnchor | provision.go:153-165 | First install does not look for stale anchors: it leaves Root with a single anchor of the module's exactly when none was there before |
| Limits.TwoAnchorsAfterNilCleanup | cleanup_windows.go:46-61 | A run that ends with two anchors: on a complete machine a cleanup meets one end-like error and returns nil, and the next provision installs beside the old anchor |
| Limits.HealthyMeansOnce | truststore.go:19-34 | Healthy means "present exactly once" exactly when no two entries have the fingerprint |
| Limits.HealthyThoughTwice | truststore_windows.go:203-210 | A store that holds the same certificate twice is healthy |
| Interleaving.SchedulesKeepGoodFiles | provision.go:532-564 | Any number of interleaved, failing and dying reload and serving processes keep server-cert.der a whole certificate signed by the on-disk CA for the persisted key, with valid SANs and a window inside the CA's, and return only such leaves |
| Interleaving.SchedulesCheckLeaves | composition_windows.go:81-307 | Under every schedule, from any files whatsoever, a process returns only a leaf signed by its CA's key for the persisted server key and loopback |
| SoloRuns.SoloReload | composition_windows.go:81-201 | The interleaved process run alone can do whatever ReloadMachine does, with the same files and the same result |
| SoloRuns.SoloServe | composition_windows.go:225-307 | The interleaved serving process run alone can do whatever LoadServingMaterial does, with the same files and the same result |
| SoloRuns.ReachableIsSound | composition_windows.go:81-201 | Every reachable complete machine is a start state of the interleaving theorem |
| WindowsTrustStore.FindCertBySHA256 | truststore_windows.go:257-279 | The enumeration loop computes the search function |
| WindowsTrustStore.InstallTrust | truststore_windows.go:75-95 | Checks and closes of InstallTrust |
| WindowsTrustStore.InstallInStore | truststore_windows.go:86-113 | InstallTrust on the open store |
| WindowsTrustStore.RemoveTrust | truststore_windows.go:124-148 | RemoveTrust by the DER's fingerprint |
| WindowsTrustStore.RemoveTrustBySHA256 | truststore_windows.go:156-175 | RemoveTrustBySHA256; the deleted context is not freed again |
| WindowsTrustStore.VerifyTrust | truststore_windows.go:179-224 | VerifyTrust with its deferred closes |
| WindowsTrustStore.IsTrustedSHA256 | truststore_windows.go:227-243 | IsTrustedSHA256 |
| LocalTls.GenerateCA | certificate.go:49-88 | Issuing the CA certificate |
| LocalTls.GenerateLeaf | certificate.go:109-147 | Issuing a leaf for a signer |
| LocalTls.AtomicWrite | provision.go:532-564 | Create, write, sync, close, chmod, rename, with the temporary file removed on each error path |
| LocalTls.FirstProvision | provision.go:114-166 | First install, with the CA signer closed on every path and the server signer on errors |
| LocalTls.LoadPair | provision.go:251-293 | loadCASigner and loadServerSigner |
| LocalTls.EnsureTrust | provision.go:197-224 | The trust switch |
| LocalTls.RenewIfDue | provision.go:226-245 | The renewal block with its reassigned flag and certificate |
| LocalTls.ReloadWithKeyStore | provision.go:168-249 | reloadWithKeyStore with its deferred closes |
| LocalTls.ProbeKey | composition_windows.go:357-367 | probeKey |
| LocalTls.CheckInconsistentMachineState | composition_windows.go:326-349 | The pre-check |
| LocalTls.ProvisionMachine | composition_windows.go:31-65 | ProvisionMachine |
| LocalTls.ReloadMachine | composition_windows.go:81-134 | ReloadMachine up to the two open keys, with its explicit closes |
| LocalTls.FinishReload | composition_windows.go:136-201 | ReloadMachine from the issuer check on |
| LocalTls.LoadServingMaterial | composition_windows.go:225-268 | LoadServingMaterial |
| LocalTls.ServeOpened | composition_windows.go:275-307 | loadServingMaterial |
| LocalTlsCleanup.RemoveAnchor | cleanup_windows.go:46-59 | The two removeTrust closures |
| LocalTlsCleanup.RemoveStateDir | cleanup.go:65-76 | removeStateDir |
| LocalTlsCleanup.CleanupLocalTLS | cleanup.go:24-47 | The four steps and the growing error list |

## Left out

- ECDSA, DER encoding, SHA-256, CNG and CryptoAPI internals: library code, present as abstract calls.
- Path-length constraint, extended key usage and the key-usage bits beyond "may sign certificates": fixed template fields that no modelled check reads.
- The legacy Protector path (`Provision`, `firstProvision`, `reload`): used by tests only; its renewal writes certificate and key as two files, so the crash results do not hold for it.
- Smoke helpers, cmd/verify, examples, non-Windows stubs and path helpers: wrappers around the same calls.
- LocalTls.GenerateCA: does not model the branch for a zero clock reading (certificate.go:50-52), because `time.Now` never returns Go's zero time.
- LocalTls.GenerateLeaf: does not model the same branch at certificate.go:110-112, for the same reason.
- `randomSerial`: a positive draw; its retry on zero ends only with probability one.
- Error message texts and the wrapping of errors outside cleanup: no property depends on them.
- LocalTls.AtomicWrite: does not model the temporary file's own descriptor, which the source closes on each error path; only the file's contents and name are modelled.
- WindowsTrustStore.FindCertBySHA256: does not model a nil certificate without an error from the enumeration call (truststore_windows.go:268-270), because the system wrapper reports the end as an error.
- TrustStoreModel.VerifyRefines: states "present at least once" and not "exactly once", because the adapter stops at the first match; Limits.HealthyMeansOnce says when the two agree.
- Concurrent provision or cleanup: there is no locking, so single-anchor and identity claims do not hold there.
- NotAfter monotonicity for concurrent reloads: a slow process may put back an older leaf.
- File permissions, ACLs and elevation: enforced outside this code.

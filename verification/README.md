# Verified model of multicluster-controlplane

This project models four parts of the multicluster control plane in Dafny and proves what they are for.

**The certificate-chain engine** (`pkg/certificate`). A tree of CA signers, each with sub-CAs and client, serving and
peer certificates, is kept in memory, in a directory tree and in CA bundle files. Builders are completed into the
tree, reusing what is on disk; certificates are found and walked by path, judged for expiry, and renewed by turning a
live subtree back into a builder, deleting its directory and signing it again. The engine exists twice in the model:
as functions over values (`Pki`, `Tree`, `Chains`, `ChainSetup`), about which the properties are proved, and as
mutable objects over a mutable disk (`Signer.CertificateSigner`, `ChainsObject.CertificateChains`), whose methods are
proved to compute those functions for whatever order Go's maps and sets are visited in. `ConfiguredDisk.InitCerts`
puts it together: from any consistent disk, start-up succeeds with every configured signer, request and bundle in the
trees, every certificate chained to its parent's current CA and equal to its file, every configured bundle holding its
signer's certificate, nothing due for renewal, and a disk from which the next start can begin again; `ConfiguredDisk`
spells out file by file what is then on disk. `StartUp` says, request by request, what start-up makes of the disk: a
pair made for the request's user or host names with nothing due at or above it is kept, a missing or due one is
issued, as is one whose user or host names have changed, and exactly the peer certificates whose signer, or a signer
above it, was due are lost. `SecondStart` follows the configured tree over several starts.

**The ClusterRole aggregation controller** (`pkg/controllers/kubecontroller/clusterroleaggregation.go`). `Aggregation`
holds the sync handler; `AggregationController` is a state machine of API store, informer cache, undelivered changes,
event handler, work queue and workers that interleave between any two reads. Once the outside world falls silent, on
an acyclic selector graph, `AggregationConvergence` and `AggregationRest` prove that the store changes only finitely
often and what it rests on, from every reachable state, whatever changes are undelivered and whatever syncs are in
progress; `AggregationStrays` says when a sync left over from before can spoil that, and `AggregationRevival` shows
one that does; `AggregationCycles` that the graph must be acyclic; `AggregationLiveness` that the controller comes to
rest, whichever steps it takes; `AggregationObject` ties the controller's methods to the machine.

**Watch-cache sizes** (`WatchCache`): from the flags through parsing, merging, printing and parsing again to the
decision whether a resource is cached. **The boot health check** (`BootHealth`): from the listed API paths through every
trace of APIService events to the answer of the check.

## How the engine is represented

A certificate carries a fresh number that also stands for its key pair, the number of the key that signed it, its
subject, its issuer's name, its host names and its validity in seconds. A path is a sequence of fragments; `RemoveAll`
drops every file whose path starts with the given one. Reading a pair back requires both files and a matching key; a
CA also needs its serial file, and a pair found for a request must carry the request's user or exactly its host names.
A shape (`Tree.Shape`) is what a tree asks for with certificates and iteration orders forgotten; `Rebuilds` says that
a builder asks for exactly what a live signer has. The layout the engine relies on is `Layout.LaidOut` (names within a
signer distinct, no signer's files inside an unrelated signer's directory, bundles outside signer directories) and
`Layout.Nested` (a sub-CA of a sub-CA lives under its parent's directory); `Nesting` shows that the last condition is
exactly what renewal needs, and `CertSetup` that the configured tree has all of them.

Things the code does that the model shows:

- The root is created with an empty name and the library's default lifetime, because its CAInfo carries neither, and is
  renewed under its signer name and configured lifetime (`pkg/certificate/certificate.go:54-60`,
  `pkg/certificate/certchains/signers.go:117-123`, `ConfiguredDisk.FirstDates`). The root's bundles, and those of the
  sub-CAs right below it, then keep the entries under the empty name (`OldNames.OldEntryStaysIff`).
- `AddToBundles` compares serial numbers by pointer, so an entry that is found is always rewritten and the path always
  recorded (`pkg/certificate/certchains/signers.go:192`).
- A peer certificate already on disk is not recorded at start-up. If its signer, or a signer above it, is renewed in the
  same run, the certificate is deleted and nothing issues it again before the next start
  (`Leftovers.LeftoverFate`, `StartUp.OnDiskAfter`). With etcd embedded this happens at any second start more than 155
  days after the first, and at any third the certificate comes back (`SecondStart.PeerLostIff`, `SecondStart.PeerBack`).
- A sync in progress when its role is deleted can bring the role back, without labels and without its aggregation rule,
  because applying rules creates what is missing (`pkg/controllers/kubecontroller/clusterroleaggregation.go:137-150`);
  other roles then rest on rules nobody asked for (`AggregationRevival.DeletedRoleReturns`).
  `AggregationStrays.OverstepIff` says when this can happen.
- `append(rootPath, name)` in `WalkChains` (`pkg/certificate/certchains/certchains.go:89`) lets paths of four and more
  fragments share a backing array, so a walk function that keeps its paths, as `certsToRegenerate` does, finds some of
  them overwritten unless every signer three levels down, or at any other depth that is no power of two, has a single
  entry (`Slices.KeptAllIff`). The configured tree has three levels and is not affected (`CertSetup.SetupPathsLast`).
- The order of a subject's organizations is the one DER asks for only when groups of one length have one string type:
  Go encodes a group with a character outside PrintableString, such as an underscore, under a smaller tag
  (`DerOrder.SubjectIsDerIff`, `DerOrder.MixedTypesDescend`).
- A bundle registered for a signer that does not exist ends in a nil dereference, because the error is built from the
  signer that was not found (`pkg/certificate/certchains/chainsbuilder.go:78-81`, `ChainSetup.RegistrationFails`).
- A role can rest with rules no ordinary role has exactly when its selectors lead to a cycle
  (`AggregationCycles.ExactIff`).
- A listed path `/apis//v1` announces the core group just as `/api/v1` does (`BootHealth.CoreIff`).

## Model

| member | source | states |
|---|---|---|
| Signer.CertificateSigner.constructor | pkg/certificate/certchains/signerbuilder.go:117-127 | a new signer has the given name, CA, directory and validity, and nothing else |
| Signer.Disk.EnsureCA | pkg/certificate/certchains/cainfo.go:45-54 | the CA at the CAInfo's files, or a fresh self-signed one written there |
| Signer.Disk.EnsureLeaf | pkg/certificate/certchains/signers.go:312-393 | the pair on disk when it is for the request's user or has exactly its host names; else a fresh one for both, signed by the given CA and written there, nothing else changed |
| Signer.Disk.EnsureSubCA | pkg/certificate/certchains/signers.go:437-480 | the sub-CA in its directory, or a fresh one signed by its parent, and its single-certificate file |
| Signer.CertificateSigner.SignCertificate | pkg/certificate/certchains/signers.go:258-269 | new signer and disk are those of the value-level operation, including the early return for a peer certificate already on disk; a certificate it records carries the request's user name as common name, its uid as serial number and its groups as organizations, and exactly its host names |
| Signer.CertificateSigner.Replace | pkg/certificate/certchains/signers.go:186-206 | the scan of a bundle replaces the first entry with the same subject and issuer, else appends |
| Signer.CertificateSigner.AddToBundles | pkg/certificate/certchains/signers.go:169-231 | the loop over bundle paths updates each file and records each path, and stops at the first unreadable one |
| Signer.CertificateSigner.SignSubCA | pkg/certificate/certchains/signers.go:271-310 | the sub-CA is ensured, its builder completed and the result recorded under its name; siblings are untouched |
| Signer.CertificateSigner.Complete | pkg/certificate/certchains/signerbuilder.go:105-148 | the CA, from the CAInfo unless it has been set, then sub-CAs, certificates and bundles, with the first error returned |
| Signer.CertificateSigner.ToBuilder | pkg/certificate/certchains/signers.go:233-256 | whatever order the maps and sets are visited in, the builder has the live signer's paths, requests, directories, validities and bundles |
| Signer.CertificateSigner.RegenerateSelf | pkg/certificate/certchains/signers.go:112-132 | a new self-signed CA in an emptied directory, put into every registered bundle in any order |
| Signer.CertificateSigner.RegenerateSubCA | pkg/certificate/certchains/signers.go:134-149 | the sub-CA's directory is removed and a rebuilt builder signed; not found exactly when there is no such sub-CA |
| Signer.CertificateSigner.RegenerateCertificate | pkg/certificate/certchains/signers.go:151-167 | the certificate's directory is removed and its request signed again |
| Signer.CertificateSigner.RegenerateAll | pkg/certificate/certchains/signers.go:76-95 | the signer itself when it is a root, then sub-CAs, then certificates in name order, up to the first error |
| Signer.CertificateSigner.Regenerate | pkg/certificate/certchains/signers.go:74-110 | the object computes the value-level Regenerate for the choices its map iterations made, errors included |
| Rebuilding.BuilderExists | pkg/certificate/certchains/signers.go:233-256 | every signer keyed by name has a builder that asks for exactly what it has |
| Rebuilding.RenewSubCAKeeps | pkg/certificate/certchains/signers.go:134-149 | renewing a sub-CA replaces its entry and no other |
| Rebuilding.NotFoundIff | pkg/certificate/certchains/signers.go:97-102 | the not-found answer that makes Regenerate try a certificate comes up exactly when there is no such sub-CA |
| Rebuilding.CompleteFailsOnBundles | pkg/certificate/certchains/signerbuilder.go:105-148 | only an unreadable bundle file stops a completion |
| Completion.CompleteSound | pkg/certificate/certchains/signerbuilder.go:105-148 | on a consistent disk a completion succeeds, chains and agrees with the disk, records everything but peers already there, and touches only its region |
| Completion.SignSubCASound | pkg/certificate/certchains/signers.go:271-310 | signing a sub-CA keeps everything recorded so far sound |
| Renewal.RenewSubCASound | pkg/certificate/certchains/signers.go:134-149 | renewing a sub-CA keeps the tree sound and its shape, and issues everything below anew |
| Renewal.RenewSelfSound | pkg/certificate/certchains/signers.go:112-132 | the renewed root is self-signed, on disk and in its own name |
| Renewal.RenewAllSound | pkg/certificate/certchains/signers.go:76-95 | renewing a whole root leaves it sound, with every certificate issued now for the validity its shape asks for |
| Regeneration.RegenerateSound | pkg/certificate/certchains/signers.go:97-110 | a call with a path renews the subtree it names and nothing else |
| Regeneration.RegenerateFails | pkg/certificate/certchains/signers.go:97-110 | a path that leads to no certificate is an error |
| Chains.RegenerateExact | pkg/certificate/certchains/certchains.go:59-65 | on an intact state a call succeeds exactly when its path leads to a certificate; it renews everything at or below the path, leaves every other certificate and every file outside the target as it was, keeps all shapes, and leaves the state intact |
| Chains.RunKeepsIntact | pkg/certificate/certchains/signers.go:74-167 | chain integrity over whole runs: after any successful renewals, in any order, at any times, every certificate chains to its parent's current CA and equals what the disk holds |
| Nesting.RenewalKeepsChainIff | pkg/certificate/certchains/signers.go:134-149 | renewing a sub-CA leaves its subtree chained if and only if all directories below lie under the removed one |
| Nesting.ChainCanBreak | pkg/certificate/certchains/signers.go:134-149 | the failing side occurs: with a sub-CA in one directory and a nested one in another, freshly completed and sound, renewing the outer leaves the inner signed by a key that is gone |
| BundleFiles.UpsertRefinesMap | pkg/certificate/certchains/signers.go:186-206 | on a file with one certificate per subject and issuer, adding is one map update, keeps keys unique, and repeating it changes nothing |
| BundleFiles.AddToBundlesFiles | pkg/certificate/certchains/signers.go:169-231 | the call fails exactly when some listed file is no certificate file; otherwise every listed file is updated once, however often it is listed, every path is recorded and no other file is touched |
| BundleFiles.AddToBundlesRefines | pkg/certificate/certchains/signers.go:169-231 | a whole call is one map update for each listed file with unique keys, keys stay unique, and calling it again is the identity |
| BundleFiles.UpsertPositions | pkg/certificate/certchains/signers.go:186-206 | every other entry keeps its position, and an entry is appended exactly when its key was absent |
| BundleFiles.UpsertReplaces | pkg/certificate/certchains/signers.go:186-206 | the first entry with the certificate's subject and issuer name is overwritten; without one the certificate is appended; nothing else changes |
| BundleFiles.HoldsMember | pkg/certificate/certchains/signers.go:186-206 | a bundle that holds a certificate contains it |
| BundleFreshness.CompleteBundles | pkg/certificate/certchains/signerbuilder.go:143-145 | after a completion every bundle registered in the tree holds its signer's certificate, and no one else's entries changed |
| BundleFreshness.RegenerateBundles | pkg/certificate/certchains/signers.go:74-110 | after a renewal every bundle of the tree holds its signer's current certificate |
| ChainBundles.RegenerateKeepsFresh | pkg/certificate/certchains/certchains.go:59-65 | bundle freshness through one call, for several trees that may share bundle files |
| ChainBundles.RunKeepsFresh | pkg/certificate/certchains/certchains.go:59-65 | bundle freshness over whole runs |
| OldNames.OldEntryStaysIff | pkg/certificate/certchains/signers.go:112-132 | when a root is renewed every bundle in its tree gets its signer's new certificate, and the old one stays beside it if and only if the root had gone by another name and the signer is the root or right below it |
| ChainSetup.CompleteRootSound | pkg/certificate/certchains/signerbuilder.go:105-148 | completing a root builder on a consistent disk gives a healthy root |
| ChainSetup.RegistrationFails | pkg/certificate/certchains/chainsbuilder.go:76-87 | a registration panics exactly when its path leads to no signer, and otherwise fails exactly on a file that is no certificate file |
| ChainSetup.CompleteChainsSound | pkg/certificate/certchains/chainsbuilder.go:41-90 | completing a chains builder on a consistent disk succeeds, leaves trees and disk intact, and each tree has exactly the signers asked for, every request except peers already on disk, and the bundles asked for and registered, whatever order registrations are visited in |
| Provenance.CompleteKept | pkg/certificate/certchains/signerbuilder.go:105-148 | completing a builder keeps every certificate the disk holds for it, peers included, and issues every other one now for the validity asked for |
| Provenance.CompleteChainsKept | pkg/certificate/certchains/chainsbuilder.go:41-90 | the same for a chains builder with one root and its registrations, the root CA included |
| SetupBundles.RegisterAllFresh | pkg/certificate/certchains/chainsbuilder.go:76-87 | registering bundles keeps every earlier registration fresh |
| SetupBundles.CompleteChainsFresh | pkg/certificate/certchains/chainsbuilder.go:41-90 | after Complete every bundle in the trees, and for each registration the named bundle file, holds its signer's certificate, when no two signers maintain the same entry |
| BundleHomes.SingleTreeNoClashes | pkg/certificate/certchains/chainsbuilder.go:76-87 | when each bundle is registered for one signer, no two signers can maintain the same entry |
| SetupBundles.SharedEntryNotFresh | pkg/certificate/certchains/signers.go:186-206 | two signers that maintain the same entry of a bundle with different certificates cannot both be fresh, whatever the disk holds |
| Restart.CompleteAgain | pkg/certificate/certchains/signerbuilder.go:105-148 | completing a builder on the disk a live tree left changes nothing and yields the same signers and the same client and serving entries |
| Restart.RestartStable | pkg/certificate/certchains/signers.go:354-364 | completing twice issues nothing the second time; only peer requests already on disk are left unrecorded |
| Restart.ChainsRestartStable | pkg/certificate/certchains/chainsbuilder.go:41-90 | completing a chains builder of any number of roots twice, with registrations visited in any two orders, issues and writes nothing the second time and yields the same signers and client and serving entries |
| Writes.RegenerateWrites | pkg/certificate/certchains/signers.go:74-167 | a file no signer of the tree writes is never created by a call, and is gone if it lay in a directory the call renews |
| Requests.TargetNames | pkg/certificate/certchains/signers.go:74-110 | whatever files a call may change, those of a request are among them only when its path leads to the request or above it |
| Leftovers.LeftoverKeptIff | pkg/certificate/certchains/signers.go:354-364 | one call deletes the certificate of an unrecorded request if its path leads to or above the request, and otherwise leaves it as it is |
| Leftovers.LeftoverFate | pkg/certificate/certchains/signers.go:354-364 | over a whole run the certificate of an unrecorded request is gone exactly when some renewed path leads to or above it, and otherwise unchanged |
| Leftovers.RunKeepsHeld | pkg/certificate/certchains/signers.go:74-167 | over a whole run, a request that no renewed path leads to or above keeps the pair it has on disk, recorded or not |
| Leftovers.RunTracked | pkg/certificate/certchains/signers.go:354-393 | through any run, whatever the disk holds for unrecorded requests was issued by their signer's current CA |
| Reusable.CompleteConsistent | pkg/certificate/certchains/signerbuilder.go:105-148 | completing a builder leaves a disk that is consistent again, unrecorded peers included |
| Walk.WalkIsTraversal | pkg/certificate/certchains/certchains.go:71-111 | the path-resolving recursion is the pre-order traversal with sub-CAs before certificates and names sorted; from a path, of exactly that subtree; an error elsewhere |
| Walk.VisitsAll | pkg/certificate/certchains/certchains.go:71-111 | the walk visits exactly the paths that lead to a certificate, with that certificate |
| WalkOrder.VisitOrder | pkg/certificate/certchains/certchains.go:71-111 | a signer is visited before all below it; of two other paths the one is visited first whose name, where they part, comes first: roots by name, below a signer sub-CAs before certificates and each of the two by name |
| WalkOrder.NameOrder | pkg/certificate/certchains/signers.go:416-435 | one name comes before another if and only if it is a proper prefix of it or has the smaller character where they first differ |
| Walk.AllVisitedOnceIff | pkg/certificate/certchains/certchains.go:71-111 | the walk of all trees visits every path once if and only if no signer has a sub-CA and a certificate of the same name |
| Walk.EntryVisitedIff | pkg/certificate/certchains/certchains.go:42-111 | at a path that leads to no signer, the walk makes a visit exactly when GetCertKey finds an entry there, and with that entry's certificate |
| Walk.EntriesVisitedIff | pkg/certificate/certchains/certchains.go:42-111 | the walk visits every entry GetCertKey can find, as a certificate, if and only if no signer of any tree has a sub-CA and a certificate of the same name |
| Walk.MadeMeans | pkg/certificate/certchains/certchains.go:80-108 | the calls a walk makes when its function may fail are the first ones of the full walk, all succeeding but the last, whose error is returned |
| Slices.KeptIff | pkg/certificate/certchains/certchains.go:71-111 | path by path, a slice handed out during a walk still reads as that path at the end if and only if, as long as the path stays in one backing array, each fragment is the last written in its place |
| Slices.KeptAllIff | pkg/certificate/certchains/certchains.go:85-92 | all paths kept during a walk are right at its end if and only if every signer whose path length is no power of two has at most one sub-CA or certificate |
| ChainsObject.CertificateChains.GetSigner | pkg/certificate/certchains/certchains.go:25-40 | the cursor loop finds the signer at the path, or none |
| ChainsObject.CertificateChains.GetCertKey | pkg/certificate/certchains/certchains.go:42-57 | the recorded pair of the certificate at the path, or none |
| ChainsObject.CertificateChains.WalkChains | pkg/certificate/certchains/certchains.go:71-111 | for any walk function, the recursion over live objects makes the calls the value-level walk lists up to the first failure, and returns that failure; a path that leads nowhere is an error without calls |
| ChainsObject.CertificateChains.Regenerate | pkg/certificate/certchains/certchains.go:59-65 | forwards to the root signer named first, or reports that there is none |
| ChainsObject.CertificateChains.Complete | pkg/certificate/certchains/chainsbuilder.go:41-90 | name clashes refused, signers completed in order, then every registration in the order the map is visited |
| ChainsObject.CertificateChains.CertsToRegenerate | pkg/certificate/certificate.go:313-342 | the paths of the walk, each once for every reason it is due |
| ChainsObject.CertificateChains.WhenToRotateAtEarliest | pkg/certificate/certchains/certchains.go:113-143 | the first path in walk order with the least rotation date, at least 90 days ahead while nothing is due |
| ChainsObject.CertificateChains.RenewDue | pkg/certificate/certificate.go:29-38 | the loop never fails on an intact state, makes one renewal per listed path in order, keeps everything intact, and leaves nothing due when 210 days are asked for everywhere |
| Rotation.ListedIffDue | pkg/certificate/certificate.go:313-342 | a path is listed exactly when the certificate it leads to is due |
| Rotation.ListedByAge | pkg/certificate/certificate.go:313-342 | a certificate issued for d days is listed t seconds later if and only if t < -1, t is past the d days, or fewer than 210 of them are left (540 when d is at least 1825) |
| WalkOrder.ListedTimes | pkg/certificate/certificate.go:313-342 | and it is listed once for being outside its validity and once more for having too little time left |
| WalkOrder.ListOrder | pkg/certificate/certificate.go:313-342 | paths are listed in the order of the walk, so signers before what lies below them |
| Rotation.FreshDueIff | pkg/certificate/certificate.go:320-336 | a certificate issued now is due at once exactly when less than 210 days were asked for |
| Rotation.RunExact | pkg/certificate/certificate.go:34-38 | after renewals at one moment, what lies at or below a listed path was issued then for its requested validity, and all else is unchanged |
| Rotation.InitCertsExact | pkg/certificate/certificate.go:29-38 | after the loop a certificate is due if and only if it lay at or below a listed path and asks for less than 210 days |
| Rotation.InitCertsConverges | pkg/certificate/certificate.go:29-38 | with the clock fixed and 210 days asked for everywhere, a second listing is empty, though the first may repeat paths or list ancestors with descendants |
| Rotation.InitCertsNeverFails | pkg/certificate/certificate.go:34-38 | every path collected before the loop still resolves when its turn comes |
| Rotation.WhenToRotateAtEarliest | pkg/certificate/certchains/certchains.go:113-143 | the loop over the visits returns the first least rotation date |
| Rotation.RotationSlack | pkg/certificate/certchains/certchains.go:122-125 | while nothing is due, every rotation date is at least 90 days ahead |
| Rotation.RotateByAge | pkg/certificate/certchains/certchains.go:122-125 | a certificate issued for d days is to be rotated 120 days before its end, or 360 days when d is at least 1825 |
| Validity.CompletedValidityOk | pkg/certificate/certchains/signerbuilder.go:117-141 | trees completed from builders that ask for 210 days everywhere are renewed for at least that |
| CertSetup.RootIsFlat | pkg/certificate/certificate.go:43-190 | the configured tree, with and without etcd, has the layout, names and validities the engine needs |
| CertSetup.SetupNoClashes | pkg/certificate/certificate.go:192-211 | the configured bundles cannot clash |
| CertSetup.EmptyDiskIsReady | pkg/certificate/certificate.go:43-60 | an empty disk is a consistent one |
| CertSetup.ReadyAgain | pkg/certificate/certificate.go:20-41 | the disk left by completion and renewals is consistent again |
| StartUp.ListedIffDueOnDisk | pkg/certificate/certificate.go:313-342 | after certSetup a path is listed exactly when the disk held a due certificate for it before the start, peers never |
| StartUp.StartUpOutcome | pkg/certificate/certificate.go:20-41 | for every requested path: nothing due at or above it, the pair on disk is kept and a missing one issued; otherwise it is issued anew, but a peer that was on disk is gone |
| StartUp.OnDiskAfter | pkg/certificate/certificate.go:20-41 | after a start a requested certificate is missing from disk if and only if it is a peer that was there before and a signer at or above its own was due |
| StartUp.StartUpExists | pkg/certificate/certificate.go:20-41 | from every prepared disk there is such a start: choices exist and no step fails |
| CertSetup.StartSound | pkg/certificate/certificate.go:20-211 | what every start from a ready disk leads to, whatever orders maps and sets are visited in |
| CertSetup.StartExists | pkg/certificate/certificate.go:20-211 | every ready disk can be started from |
| CertSetup.SetupPathsLast | pkg/certificate/certificate.go:313-342 | in the configured tree the paths certsToRegenerate keeps are at its end what they were |
| ConfiguredDisk.ConfiguredOnDisk | pkg/certificate/certificate.go:43-211 | after every start from a consistent disk, file by file and with every path, name, user, host, group and bundle written out: root and sub-CAs with key and serial file, sub-CAs named after their directory and signed by the root; each client and serving pair at its path, for its user or hosts, issued by the CA in its directory; each of the five bundle files containing its own CA |
| ConfiguredDisk.PeerOnDisk | pkg/certificate/certificate.go:163-190 | with etcd embedded, the peer pair for localhost is at its path after a start unless it was there before and the root CA or the etcd CA on disk was due; where it is, the etcd CA on disk issued it, and when it was not there before it is for the configured user |
| ConfiguredDisk.FirstDates | pkg/certificate/certificate.go:43-190 | a start on an empty disk makes a root CA for 1825 days whose subject is the empty name, and everything else for 365 days |
| ConfiguredDisk.InitCerts | pkg/certificate/certificate.go:20-41 | from any consistent disk InitCerts succeeds and leaves the configured files, written out as above, the etcd peer pair included save in the case named there; the tree has every configured signer, request and bundle; every certificate chains and is on disk; each request meets its outcome, so that what was on disk with nothing due at or above it is kept; nothing is due; the disk is ready for the next start |
| SecondStart.PeerLostIff | pkg/certificate/certificate.go:163-190 | with etcd embedded, started on an empty disk and again t seconds later, the peer certificate is gone after the second start if and only if more than 155 days passed or the clock was set back by more than a second |
| SecondStart.PeerBack | pkg/certificate/certchains/signers.go:354-393 | the next start, whenever it comes, issues it again |
| SecondStart.PeerLost | pkg/certificate/certificate.go:20-41 | three such starts exist: the certificate there, gone, and there again |
| SecondStart.RootReplacedIff | pkg/certificate/certificate.go:20-60 | started on an empty disk and again t seconds later, the file root-ca/ca.crt is replaced if and only if more than 1285 days passed or the clock was set back by more than a second |
| SecondStart.QuietRestart | pkg/certificate/certificate.go:26-28 | a start on the disk an earlier one left, with nothing due and nothing asked for missing, changes nothing on disk and yields the same signers and client and serving entries |
| DerOrder.SortForDerSorts | pkg/certificate/certchains/signers.go:482-497 | the organizations are a permutation of the groups in sortedForDER's order |
| DerOrder.SortedUnique | pkg/certificate/certchains/signers.go:482-497 | any sorting algorithm arrives at the same list |
| DerOrder.SortGroups | pkg/certificate/certchains/signers.go:513-516 | the copied and sorted groups are that list |
| DerOrder.AscendsIff | pkg/certificate/certchains/signers.go:490-497 | of two groups in sortedForDER's order, with whatever string tags, the first has the smaller encoding if and only if it is shorter or its tag is no larger |
| DerOrder.SubjectIsDerIff | pkg/certificate/certchains/signers.go:499-523 | with the string type the encoder chooses for each group, the encoded attributes ascend as section 11.6 of X.690 requires if and only if no group of printable characters sorts before one of its length with others |
| DerOrder.OneTypeIsDer | pkg/certificate/certchains/signers.go:499-523 | they do whenever all groups have one string type |
| DerOrder.MixedTypesDescend | pkg/certificate/certchains/signers.go:499-523 | they need not: for the groups abc and x_z they descend |
| DerOrder.EncodedExamples | pkg/certificate/certchains/signers.go:499-523 | the attributes for the groups abc and x_z octet by octet, a PrintableString and a UTF8String |
| DerOrder.BigEndianMeans | pkg/certificate/certchains/signers.go:509-512 | the length octets of section 10.1 of X.690 denote the length and have no leading zero |
| Pki.UserToSubject | pkg/certificate/certchains/signers.go:499-523 | the subject carries the user's name, uid and sorted groups |
| Pki.IssuedSays | pkg/certificate/certchains/signers.go:312-393 | what is issued for a request has the user's name, uid and groups (client, peer) and exactly the hosts asked for (serving, peer), and is valid from a second ago for the days asked for, or 730 days when a client or serving request asks for none |
| Pki.TakenIff | pkg/certificate/certchains/signers.go:312-364 | a pair that can be read is taken for a client request if and only if its subject has the user's name, uid and groups, and for a serving or peer request if and only if its hosts are exactly those asked for; at the user of a peer certificate nobody looks |
| Aggregation.AggregateMeans | pkg/controllers/kubecontroller/clusterroleaggregation.go:110-135 | the computed rules contain no rule twice and are exactly the rules of the other roles some selector matches |
| Aggregation.AggregatePicks | pkg/controllers/kubecontroller/clusterroleaggregation.go:110-135 | a rule is among them if and only if another role holds it that, for some selector, has every label asked for with its value and satisfies every expression, each operator spelled out |
| Aggregation.LabelsAggregate | pkg/controllers/kubecontroller/clusterroleaggregation.go:110-135 | with one selector by labels alone: if and only if another role holds it whose labels include all of the selector's, values and all |
| Aggregation.OperatorLaws | pkg/controllers/kubecontroller/clusterroleaggregation.go:113-120 | In one value selects what that label does, In several what In one of them does, NotIn is the complement of In, Exists is In some value, DoesNotExist its complement |
| Aggregation.SecondSyncIdle | pkg/controllers/kubecontroller/clusterroleaggregation.go:137-139 | a sync right after a write finds nothing to do |
| Aggregation.RuleExists | pkg/controllers/kubecontroller/clusterroleaggregation.go:189-196 | found exactly when the rule is in the list |
| Aggregation.SortByName | pkg/controllers/kubecontroller/clusterroleaggregation.go:264-268 | the sorted names do not depend on the lister's order |
| Aggregation.SyncClusterRole | pkg/controllers/kubecontroller/clusterroleaggregation.go:94-141 | writes the aggregation exactly when it differs from the role's rules, and nothing for a missing or ordinary role, whatever order the lister returns |
| AggregationController.StepKeepsInv | pkg/controllers/kubecontroller/clusterroleaggregation.go:94-262 | every step of store, watch, event handler, queue and workers keeps the controller's invariant |
| AggregationController.PendingOrUpToDate | pkg/controllers/kubecontroller/clusterroleaggregation.go:78-90 | in every reachable state an aggregated role in the cache is queued, delayed or in progress, or a change is undelivered, or its rules are the aggregation of the cached roles |
| AggregationController.IdleIsAggregated | pkg/controllers/kubecontroller/clusterroleaggregation.go:222-262 | an idle controller has aggregated every role in the store |
| AggregationConvergence.WritesPaid | pkg/controllers/kubecontroller/clusterroleaggregation.go:110-150 | without outside writes every effective write uses up potential, whatever changes are undelivered, whatever syncs had begun before and however far the cache lags |
| AggregationGraph.OrderExists | pkg/controllers/kubecontroller/clusterroleaggregation.go:110-135 | an acyclic selector graph can be put in dependency order |
| AggregationGraph.RestMeansReachable | pkg/controllers/kubecontroller/clusterroleaggregation.go:110-135 | at rest on an acyclic graph, a role's rules are exactly those of the ordinary roles reachable through its selectors |
| AggregationRest.FinitelyManyWrites | pkg/controllers/kubecontroller/clusterroleaggregation.go:110-150 | from every reachable state with an acyclic selector graph, any interleaving without outside writes changes the store at most (w + 1)(4^n - 1) times, for w undelivered changes and n known roles |
| AggregationRest.RestIsExact | pkg/controllers/kubecontroller/clusterroleaggregation.go:110-150 | whenever it then rests, the same roles are aggregated by the same selectors, each with exactly the rules of the ordinary roles its selectors lead to |
| AggregationRest.RestIsDetermined | pkg/controllers/kubecontroller/clusterroleaggregation.go:110-150 | where no write goes to a role that is not aggregated any more, that is what its selectors led to at the start, and all else is as it was |
| AggregationStrays.CaughtUpWrites | pkg/controllers/kubecontroller/clusterroleaggregation.go:110-150 | with nothing undelivered and no sync in progress for a role that is not aggregated any more: at most 4^n - 1 changes for n aggregated roles, and only of their rules |
| AggregationStrays.GraphKeptIff | pkg/controllers/kubecontroller/clusterroleaggregation.go:137-150 | once the cache has caught up, a run leaves all roles but the rules of aggregated ones as they were if and only if none of its effective writes goes to a role that is not aggregated any more |
| AggregationStrays.OverstepIff | pkg/controllers/kubecontroller/clusterroleaggregation.go:101-150 | a sync whose role is gone or ordinary and whose outcome differs from the rules it fetched and from those there are makes some run do that; with the cache caught up and no aggregated role left for such syncs to read, only then |
| AggregationRevival.DeletedRoleReturns | pkg/controllers/kubecontroller/clusterroleaggregation.go:137-150 | a reachable state with cache and store equal from which, without outside writes, a deleted role returns and another rests on a rule its selectors led to nowhere |
| AggregationLiveness.StepProgresses | pkg/controllers/kubecontroller/clusterroleaggregation.go:222-262 | without outside writes, resyncs and API failures every step, whichever is taken, lowers a well-founded measure |
| AggregationLiveness.NotStuck | pkg/controllers/kubecontroller/clusterroleaggregation.go:217-262 | until the controller is idle, a step other than those can be taken |
| AggregationLiveness.NoEndlessRun | pkg/controllers/kubecontroller/clusterroleaggregation.go:110-262 | from every reachable state with an acyclic graph no sequence of such steps goes on for ever, whichever are taken |
| AggregationLiveness.StoppedMeansSettled | pkg/controllers/kubecontroller/clusterroleaggregation.go:110-262 | when none is left to take, the controller is idle, its cache is the store, and the roles that were aggregated have exactly the rules their selectors lead to, or led to at the start where no write overstepped |
| AggregationLiveness.Settles | pkg/controllers/kubecontroller/clusterroleaggregation.go:110-262 | from every reachable state with an acyclic graph some run gets there |
| AggregationCycles.AcyclicIff | pkg/controllers/kubecontroller/clusterroleaggregation.go:110-135 | a selector graph is acyclic if and only if, whatever the rules, at rest every aggregated role has exactly the ordinary rules its selectors lead to |
| AggregationCycles.ExactIff | pkg/controllers/kubecontroller/clusterroleaggregation.go:110-135 | role by role: a role always rests on exactly the rules its selectors lead to if and only if they lead to no cycle |
| AggregationCycles.TwinsKeepRule | pkg/controllers/kubecontroller/clusterroleaggregation.go:123-126 | an instance: two roles that select each other rest on a rule no ordinary role has |
| AggregationObject.Controller.ProcessNextWorkItem | pkg/controllers/kubecontroller/clusterroleaggregation.go:222-239 | handling one key is a run of the machine: the write its aggregation calls for, or back-off when the server refuses it |
| AggregationObject.Controller.EnqueueAll | pkg/controllers/kubecontroller/clusterroleaggregation.go:241-262 | the event handler is a run of the machine that queues exactly the aggregated roles of the cache |
| WatchCache.ParseWatchCacheSizes | pkg/servers/options/options.go:546-564 | the loop succeeds exactly on lists whose every element is well formed, as spelled out below, later entries winning |
| WatchCache.ParseEntryIff | pkg/servers/options/options.go:549-561 | an element parses to a resource and a size if and only if it is a name and a number with one hash sign between them and none in either, the name stands for the resource, and the number is an optional sign and digits that write the size, from 0 to 9223372036854775807 |
| WatchCache.NameIff | pkg/servers/options/options.go:549-561 | a name stands for the resource before its first dot and the group after it, or for a resource without a group |
| WatchCache.ParseIff | pkg/servers/options/options.go:546-564 | a list parses if and only if each of its elements has that form |
| WatchCache.WriteWatchCacheSizes | pkg/servers/options/options.go:566-577 | prints every entry once in any order, and fails exactly on a negative size |
| WatchCache.EntryRoundTrip | pkg/servers/options/options.go:549-561 | an entry survives printing and parsing if and only if its resource has no dot, neither part a hash sign, and its size fits an int |
| WatchCache.PrintParse | pkg/servers/options/options.go:546-577 | parsing a printed map, in whatever order, gives the map back |
| WatchCache.ParsePrintParse | pkg/servers/options/options.go:546-577 | parse, print, parse is parse, for every accepted input |
| WatchCache.AcceptedIsWellFormed | pkg/servers/options/options.go:546-564 | everything the parser accepts can be printed and read back |
| WatchCache.LastEntryWins | pkg/servers/options/options.go:561-561 | a resource's parsed size is that of the user's last entry for it |
| WatchCache.CompleteSizes | pkg/servers/options/options.go:396-410 | fails exactly when the flags do not parse, and its result parses to the flags over the defaults |
| WatchCache.GetRESTOptions | pkg/servers/simplerestoptionsfactroy.go:41-57 | fails exactly on an unparsable list; undecorated exactly when the cache is off or the size is not positive |
| WatchCache.DecideCaching | pkg/servers/simplerestoptionsfactroy.go:26-81 | after a successful Complete a resource goes uncached exactly when the user's last entry for it, or else the default, is 0 |
| BootHealth.AnnouncedIff | pkg/servers/aggregator.go:264-281 | the group version read off a listed path is the one it announces, and no other path announces one |
| BootHealth.CoreIff | pkg/servers/aggregator.go:264-281 | exactly the paths /api/v1 and /apis//v1 announce the core group |
| BootHealth.APIServicesToRegister | pkg/servers/aggregator.go:261-290 | exactly the services of listed group versions that have a priority, each named version, dot, group; every listed path of a group version with a priority, the table written out as literals, has one |
| BootHealth.PrioritizedIff | pkg/servers/aggregator.go:238-256 | the group versions with a priority, group by group |
| BootHealth.PriorityOrder | pkg/servers/aggregator.go:224-256 | the core group comes first; versions of one group share its priority, stable ones before betas before alphas |
| BootHealth.HealthCheck.constructor | pkg/servers/aggregator.go:186-192 | all registered names are pending at first |
| BootHealth.HealthCheck.HandleAPIServiceChange | pkg/servers/aggregator.go:195-204 | after each event the pending names are the registered ones never seen available |
| BootHealth.HealthCheck.Check | pkg/servers/aggregator.go:215-222 | healthy exactly when every registered name has been seen available |
| BootHealth.StaysHealthy | pkg/servers/aggregator.go:186-223 | once healthy, healthy after any further events |
| BootHealth.Boot | pkg/servers/aggregator.go:186-290 | for every list of paths and every trace, the check passes if and only if for each listed path /apis/ group / version, or /api/v1, whose group version has a priority, an event for the name version.group with first Available condition True was seen |
| BootHealth.ExampleBoot | pkg/servers/aggregator.go:186-290 | for /api/v1, /apis/events.k8s.io/v1, /apis/discovery.k8s.io/v1beta1 and a custom path: if and only if v1., v1.events.k8s.io and v1beta1.discovery.k8s.io were seen available |

## Left out

- Cryptography, PEM and ASN.1 parsing and serial counters; the code of library-go and of the Go library is not part of
  this model, only what it is called for. Host names and addresses are compared as strings.
- I/O failures in the middle of a renewal or completion, and the state they leave; the only failure of a completion in
  the model is a bundle path whose file is not a certificate file.
- A root CA provided by the user, whose files lie outside the signer's directory.
- Builders are values: the in-place `With*` updates, and two references to one builder, are not modelled.
- ChainsObject.CertificateChains.Complete: the panic on an unknown signer is an error value; and the model adds to a
  bundle in the same descent that finds the signer.
- ChainsObject.CertificateChains.WalkChains: the walk function is a function of the visit, without state of its own;
  its calls are also returned as a list.
- ConfiguredDisk.InitCerts: the service account key is not modelled, and the clock stands still during the call.
- ChainsObject.CertificateChains.CertsToRegenerate: the paths it keeps are values; `Slices` says exactly when the
  slices of the source read the same, for paths of up to 256 fragments, beyond which Go grows arrays by less than
  doubling.
- Time is in whole seconds; durations do not overflow.
- Which host name becomes the common name of a serving certificate.
- Aggregation: invalid label selectors appear only as the failure step a worker may take at any time, and key parsing
  cannot fail.
- AggregationController.StepKeepsInv: the server-side apply and its update fallback are one write that sets the rules;
  field ownership and resource versions are not modelled.
- AggregationLiveness.StepProgresses: that enabled steps are eventually taken, and that API failures eventually stop,
  is not modelled.
- WatchCache.CompleteSizes: the library's table of default sizes is a parameter that must itself be printable.
- BootHealth: locking, and the registration controller that creates the API services.
- Kubeconfig files, embedded etcd start-up, CRD installation, admission plugins, authentication and authorization
  options, controller-manager wiring, Helm charts and scripts.

# Proofs about proxmox-license-proxy

proxmox-license-proxy answers the subscription check of Proxmox hosts in a lab. It keeps
licenses, hosts and accounts in one JSON file that several processes share, issues
subscription keys to hosts over an ACME-like API of signed requests and replay nonces, and
edits `/etc/hosts` so that hosts reach it. This project models these parts in Dafny and
proves what they keep. `dafny verify dfyconfig.toml` checks it.

How the modules follow the program:

- `Records`, `KeyedLists`, `Registries`, `Stores`: the registry records, the loops of the
  store over its lists (including the in-place compaction of the removals), each store
  transaction as a function of the whole registry, the three keyed maps these functions
  refine, and the store object whose methods run the loops.
- `CommitProtocol`, `SharedRegistry`: any number of processes that lock, load, apply, back
  up, write a temporary file and rename it, beside readers that take no lock. Files are
  inodes that are written and read piece by piece; every step may be interleaved, fail, or
  be the last one of its process.
- `Provenance`: the status of a host, and of an account, under any interleaving of
  transactions.
- `Keys`, `Responses`, `Text`: the key grammar, the XML answer with a reader for it, and
  the string functions of the Go library that the program uses.
- `Services`, `Lifecycle`, `Verdicts`: the application service as an object over the
  store, its serial runs (tiers, issuance), and what the subscription check decides.
- `ConcurrentOrders`, `Revocations`: orders as the up to four store accesses they are, any
  number of them interleaved with each other and with every other transaction; and what a
  revocation keeps under any interleaving.
- `Nonces`, `Jws`, `Api`: the nonce store and its garbage collection, flattened JSON Web
  Signatures (section 7.2.2 of RFC 7515) with key thumbprints (section 3 of RFC 7638), and
  the server's handlers.
- `ApiRuns`, `RequestSteps`, `OrderSheets`: every run of the server (sections 6.2, 6.4 and
  6.5 of RFC 8555), which handles requests concurrently: a request is a series of steps
  (checks, nonce, each store access of its handler, answer), interleaved with those of
  other requests; and the proof that a request alone is its handler.
- `Deliveries`: which url and endpoint an accepted request came to, and what a client is told
  whose request is refused.
- `NonceChain`, `ChainedRequests`: many clients with one nonce slot each, the server, and a
  network that loses messages or delivers them late; and the proof that this server is the
  one of the API.
- `HostsFile`: the editor of the managed block.
- `EndToEnd`, `Counterexamples`: from an order to the document a host reads; and small
  registries on which the program does less than its comments say.

Methods are proved equal to specification functions (`Apply`, `Issuing`, `Verifying`,
`Ordered`, `Handled`, `Enabled`, ...); the properties are lemmas about those functions and
about runs. Disk failures, clock readings, random bytes and message loss are inputs.
Freshness of random keys and nonces is a precondition where it is needed.

Where the code and its documentation differ, the model follows the code:

- `README.md:259-260` of the program promises a `.bak` of the previous state on every
  write. A call that fails at the temporary file after its backup leaves a backup equal to
  the main file (`CommitProtocol.FailedAttemptOverwritesBackup`), and one whose backup
  cannot be made leaves an older one. What the backup holds in every case is
  `CommitProtocol.BackupIsAccountedFor`; the exact condition for the previous state is
  `CommitProtocol.BackupIsPreviousState`.
- `internal/app/service.go:330-332` promises that a revoked key is always inactive. The
  error of the license look-up (line 328) is dropped, so an unreadable registry makes a
  revoked key unknown, and an approved host is then answered "active"
  (`Revocations.RevocationLasts` has the exact condition).
- `internal/app/service.go:144` promises that a known account keeps its status. The error
  of the account look-up (line 161) is dropped, too, and the look-up and the upsert are two
  transactions, so a decision made between them is overwritten
  (`Verdicts.ReRegistrationKeepsDecision` has the exact condition).
- An upgrade revokes the old key before it knows whether a new one can be made, so a
  failed upgrade leaves the account without an active key (`Lifecycle.FailedIssueChanges`,
  `Lifecycle.UpgradeFails`).
- Issuing takes several transactions. The one-key guarantee holds in every state of an
  interleaving exactly when each key is added while all that its pair holds is inactive and
  covers fewer sockets (`ConcurrentOrders.InvThroughoutIff`), and so whenever no other order
  of the same pair adds a key between an order's reading of the list and its own adding
  (`ConcurrentOrders.CalmRunKeepsInv`), whatever else is interleaved. Two overlapping orders
  of one pair leave it two active keys (`ConcurrentOrders.OverlappingAddsBreakTheGuarantee`).
- `internal/app/service.go:180-183` promises that a revoked subscription is refused rather
  than minted again. An order that has read the list before the revocation mints after it
  (`Counterexamples.RevocationIsEscaped`); the pair stays refused exactly when no such order
  adds its key (`ConcurrentOrders.RevokedPairIsRefusedIff`).
- `docs/api-v1.md:40-42` asks for an account id on orders, lists and revocations. The code
  serves an embedded key there alike (`ApiRuns.EmbeddedKeyIsServed`).

## Model

| member | source | states |
|---|---|---|
| Text.SplitConcat | internal/hosts/hosts.go:102 | splitting two texts joined by a newline gives the lines of both |
| Text.SplitJoin | internal/hosts/hosts.go:102-115 | splitting undoes joining for lines without newlines |
| Text.JoinSplit | internal/hosts/hosts.go:102-115 | joining undoes splitting for every text |
| Text.FieldsOfPair | internal/hosts/hosts.go:80-83 | a word, a space and more text: the first field is the word, and the others are those of the rest |
| Text.TrimSpaceStrips | internal/hosts/hosts.go:104-107 | white space on both sides of a text goes, and nothing else |
| Text.AtoiOfDigits | internal/app/service.go:246-250 | digits, with either sign or without one, are read as their value exactly when it fits into 64 bits |
| Keys.ParsePrint | internal/subscription/key.go:11-19 | every well-formed (product, sockets, level, hex) tuple prints to a valid key and is read back from it |
| Keys.PrintParse | internal/subscription/key.go:11-19 | every valid key is the print of the tuple read from it |
| Keys.GrammarIsUnambiguous | internal/subscription/key.go:11-19 | a text is a valid key exactly when some tuple prints it, and no two tuples print the same key |
| Keys.DescribeReadsKey | internal/subscription/key.go:90-134 | Describe and KeySockets recover product, level and sockets from a valid key and name them in words; sockets are positive exactly for PVE; a valid key is a lab key exactly when its hex part starts with the signature |
| Keys.FirstDashDecides | internal/subscription/key.go:110-134 | any text, valid or not, is a lab key exactly when the signature follows its first dash, and has no product when that dash comes before its fifth character |
| Keys.GenerateKeyPrints | internal/subscription/key.go:54-88 | exactly when generation succeeds, and when the product or the level is at fault; a generated key is valid, a lab key, and says the product, level and sockets asked for (community level and one socket by default) |
| Keys.KeysCollide | internal/subscription/key.go:70-74 | two generated keys of one kind are equal exactly when their random bytes agree on the first 28 bits |
| Keys.PVESocketTierIsLeast | internal/client/detect.go:105-119 | the chosen tier covers the host if any tier does, is the least one that does, and otherwise the greatest of all |
| KeyedLists.FindEntry | internal/registry/store.go:115-126 | the look-up loop finds the first record with the key, and finds one exactly when there is one |
| KeyedLists.UpsertEntry | internal/registry/store.go:129-140 | the insert-or-replace loop replaces the first record with the key in its place, else appends |
| KeyedLists.UpdateEntries | internal/registry/store.go:161-173 | the update loop changes every record with the key and reports exactly whether there was one |
| KeyedLists.CompactInPlace | internal/registry/store.go:143-158 | the in-place compaction leaves exactly the records with other keys in front, in order, and reports whether one was dropped |
| KeyedLists.FindIsLookup | internal/registry/store.go:115-126 | looking up a list is looking up its keyed map |
| KeyedLists.UpsertIsMapUpdate | internal/registry/store.go:129-140 | inserting or replacing is a map update |
| KeyedLists.UpdateIsMapUpdate | internal/registry/store.go:177-189 | changing records is changing the map at the key |
| KeyedLists.WithoutIsMapRemoval | internal/registry/store.go:143-158 | removal is map removal |
| KeyedLists.WithoutOrder | internal/registry/store.go:146-154 | any two survivors of a removal come from two records in the same order, with other keys |
| KeyedLists.UniqueListIsOrderAndMap | internal/registry/store.go:128-140 | every record of a list with unique keys is the map's record of its key |
| Registries.MutationRefinesMaps | internal/registry/store.go:128-358 | each of the ten store transactions does to three keyed maps what its operation says, field by field of the one entry it is about, for every registry |
| Registries.MutationKeepsUniqueKeys | internal/registry/store.go:128-358 | every transaction keeps license keys, host ids and thumbprints unique |
| Registries.UniqueKeysAlways | internal/registry/store.go:128-358 | keys stay unique along every sequence of transactions, whoever interleaves them |
| Registries.MutationKeepsOrder | internal/registry/store.go:128-358 | each transaction keeps the order of the keys that stay, drops removed ones, and adds new ones at the end, in all three lists |
| Stores.Store.GetLicense | internal/registry/store.go:115-126 | the first license with the key, or the failure of the load |
| Stores.Store.GetAccount | internal/registry/store.go:220-231 | the first account with the thumbprint, or the failure of the load |
| Stores.Store.ListLicenses | internal/registry/store.go:106-112 | all licenses, or the failure of the load |
| Stores.Store.AddLicense | internal/registry/store.go:129-140 | performs the insert-or-replace transaction, or nothing on a disk failure |
| Stores.Store.RemoveLicense | internal/registry/store.go:143-158 | performs the removal; reports whether the key existed, also when only the save failed |
| Stores.Store.SetDue | internal/registry/store.go:161-173 | performs the change of the due date; reports whether the key existed |
| Stores.Store.SetLicenseStatus | internal/registry/store.go:177-189 | performs the status change; reports whether the key existed |
| Stores.Store.UpsertAccount | internal/registry/store.go:206-217 | performs the insert-or-replace transaction on accounts |
| Stores.Store.SetAccountStatus | internal/registry/store.go:243-255 | performs the account status change; reports whether it existed |
| Stores.Store.Contact | internal/registry/store.go:272-299 | the contact loop refreshes the host's entry in its place or appends a first one, and the entry returned is the one now stored |
| Stores.Store.UpsertServer | internal/registry/store.go:265-301 | performs the contact transaction and returns the host's entry as it now is |
| Stores.Store.SetServerStatus | internal/registry/store.go:313-325 | performs the host status change; reports whether it existed |
| Stores.Store.SetServerNote | internal/registry/store.go:328-340 | performs the note change; reports whether the host existed |
| Stores.Store.RemoveServer | internal/registry/store.go:343-358 | performs the removal of the host; reports whether it existed |
| CommitProtocol.StepKeepsInv | internal/registry/store.go:49-103 | every step of every process, failing ones and deaths included, keeps the protocol invariant: mutual exclusion, the main file complete and equal to the committed closures, readers on files nobody writes, the backup what its history says |
| CommitProtocol.RunKeepsInv | internal/registry/store.go:49-103 | so does every run |
| CommitProtocol.MainFileIsAlwaysComplete | internal/registry/store.go:47-48 | at every moment of every run the main file decodes to the committed closures applied in commit order; it is missing only before the first commit |
| CommitProtocol.NoUpdateIsLost | internal/registry/store.go:49-76 | a call that returned success was committed exactly once, and one that returned an error was not |
| CommitProtocol.LoadsReturnCommittedStates | internal/registry/store.go:31-45 | a load without the lock returns the one complete registry that was current when it opened the file |
| CommitProtocol.LoadsSeeReturnedUpdates | internal/registry/store.go:31-76 | a load that starts after a call returned success sees its mutation |
| CommitProtocol.NoProcessIsBlockedByTheDisk | internal/registry/store.go:49-103 | in every reachable state a process can take its next step: no load meets a torn file |
| CommitProtocol.AnythingMayGoWrong | internal/registry/store.go:49-103 | in every reachable state a process may die, and each step that touches the lock or the disk may fail |
| CommitProtocol.BackupIsAccountedFor | internal/registry/store.go:83-90 | at every moment of every run, failures and deaths included, the backup is the untouched old one, one cut short that decodes to nothing, or the complete registry after the commits it was made at |
| CommitProtocol.BackupIsPreviousState | internal/registry/store.go:83-90 | after any run with a commit, the backup is the registry before the last commit exactly when it was completed, in the run or before it, with that registry |
| CommitProtocol.UntroubledBackupIsPreviousState | internal/registry/store.go:83-102 | when every backup was finished and no call ended between its backup and its rename, the backup is the registry before the last commit whenever the lock is free |
| CommitProtocol.FailedWriteLeavesCurrentBackup | internal/registry/store.go:83-95 | a failed write of the temporary file after a complete backup leaves the backup equal to the main file |
| CommitProtocol.FailedAttemptOverwritesBackup | internal/registry/store.go:83-102 | from every reachable state with a file and a free lock there is a call without any death in which only the temporary file fails, after which the backup is a copy of the main file |
| SharedRegistry.CommitsAreTransactions | internal/registry/store.go:49-76 | the commits of the protocol amount to the store transactions one after the other |
| SharedRegistry.EveryLoadIsWellFormed | internal/registry/store.go:31-103 | whatever the interleaving and the crashes, every load gives the result of exactly the transactions committed when the file was opened, in commit order, with unique keys |
| Provenance.StatusIsDecided | internal/registry/store.go:257-301 | the status of a host after any interleaving is that of its own small machine, independent of other hosts and lists |
| Provenance.DecisionSurvivesContacts | internal/registry/store.go:261-264 | any status but PENDING survives every sequence of contacts until an operator acts on that host |
| Provenance.ApprovalHasProvenance | internal/registry/store.go:257-325 | a host is approved after any interleaving exactly when some transaction approved it (an operator, or an auto-approved contact while new or pending) and no operator acted on it since |
| Provenance.AccountAfter | internal/registry/store.go:205-255 | an operator's decision changes the status of a known account and nothing else, a registration stores the account it comes with, and no other transaction touches an account |
| Provenance.AccountStatusIsDecided | internal/registry/store.go:205-255 | the status of an account after any interleaving is that of its own small machine |
| Responses.WriteTag | internal/subscription/proxmox.go:52-56 | appends the tag with both replacements made |
| Responses.RenderXML | internal/subscription/proxmox.go:37-50 | renders the header and the fields of the response in order, the message only when there is one |
| Responses.EscapeIsOnePass | internal/subscription/proxmox.go:53-54 | the two replacements in sequence equal one pass over the characters, and leave no angle bracket |
| Responses.UnescapeEscape | internal/subscription/proxmox.go:53-54 | escaping can be undone |
| Responses.ReadOneTag | internal/subscription/proxmox.go:52-56 | a flat tag reader takes one rendered tag off the front of any text |
| Responses.ReadRenderedTags | internal/subscription/proxmox.go:37-56 | the reader recovers every list of rendered fields |
| Responses.RenderedResponseIsDecodable | internal/subscription/proxmox.go:37-50 | the reader recovers every field of a rendered response and the hash of the challenge |
| Responses.RenderingIsInjective | internal/subscription/proxmox.go:37-50 | two responses render alike only when they agree on every field and on the hash of the challenge |
| Services.Service.AddLicense | internal/app/service.go:59-112 | performs Adding on the store |
| Services.Service.GenerateLicense | internal/app/service.go:118-138 | performs Generating on the store |
| Services.Service.RegisterAccount | internal/app/service.go:145-169 | performs Registering on the store |
| Services.Service.LicenseForAccountProduct | internal/app/service.go:257-277 | the loop answers the first active license the account holds for the product, else the last one, else none |
| Services.Service.IssueSubscription | internal/app/service.go:186-237 | performs Issuing on the store |
| Services.Service.RevokeSubscription | internal/app/service.go:281-283 | revokes the key in the store and reports whether it existed |
| Services.Service.Verify | internal/app/service.go:315-387 | performs Verifying on the store |
| Lifecycle.AssignedMeans | internal/app/service.go:253-277 | the look-up answers nothing exactly when the pair holds nothing, and an inactive license only when all the pair holds is inactive |
| Lifecycle.ActiveIsAssigned | internal/app/service.go:253-277 | in tier order, an active license of a pair is what the look-up answers |
| Lifecycle.IssueKeepsInv | internal/app/service.go:186-237 | an order keeps the lifecycle invariant in every branch, failed upgrades included |
| Lifecycle.StepKeepsInv | internal/app/service.go:59-387 | every service operation and every operator transaction keeps the lifecycle invariant: unique keys, tiers that grow with only the last one active, owned keys generated for their product and shown under their marked name, every key a lab key |
| Lifecycle.InvAlways | internal/app/service.go:59-387 | the invariant holds in every state a serial run reaches |
| Lifecycle.HeldKeys | internal/app/service.go:199-217 | the keys one account holds for one product have strictly growing sockets and only the last may be active; at most four for PVE, at most one for PBS and for PMG |
| Lifecycle.MintServes | internal/app/service.go:218-237 | a minted license is approved, owned by the account for the product, a lab key under its marked name that covers the sockets asked for, bound to the ordering host, and dated from today for a year |
| Lifecycle.MintIsMadeFor | internal/app/service.go:218-232 | a minted license belongs to the account and the host, is approved, and its key says exactly the level and the sockets asked for, community and one when none are named, under the name marked as a lab key |
| Lifecycle.IssuedKey | internal/app/service.go:180-237 | the key of a successful order is active, owned by the account for the product, a generated lab key under its marked name, covers any numeric socket request, and is what the registry now assigns to the pair |
| Lifecycle.IssuedIsKeptOrMade | internal/app/service.go:199-237 | a successful order returns a license that was there before, or one made for it |
| Lifecycle.IssueIsIdempotent | internal/app/service.go:180-183 | repeating a successful order gives the same license and leaves the registry unchanged, whatever the random bytes and the clock |
| Lifecycle.FavourableOrderSucceeds | internal/app/service.go:186-237 | a well-formed order of an approved account succeeds exactly when the pair has no key or an active one |
| Lifecycle.IssueIsRefused | internal/app/service.go:186-205 | an order is refused as unknown, as not approved or as revoked exactly when its product is unknown, its account is not approved, or the account holds keys for the product of which none is active |
| Lifecycle.HostIsCovered | internal/client/detect.go:105-119 | a host of n sockets that orders its tier gets a key that covers it exactly when n is at most 8 |
| Lifecycle.FailedIssueChanges | internal/app/service.go:206-221 | a failed order changes the registry exactly when it was an upgrade past its revocation, and then only by that revocation |
| Lifecycle.UpgradeFails | internal/app/service.go:213-235 | an upgrade fails exactly when the level or the sockets are no valid ones, the random source fails, or the new key cannot be stored |
| Lifecycle.IssuedKeyIsHonoured | internal/app/service.go:345-349 | a key just issued is honoured for every named host, whatever an operator decided about the host |
| Revocations.DeadForGood | internal/app/service.go:279-283 | a revoked key stays inactive through every sequence of transactions, whoever interleaves them, that neither adds, removes nor reactivates it |
| Revocations.RevocationLasts | internal/app/service.go:328-343 | after a known key is revoked, and through every interleaving of transactions that neither adds, removes nor reactivates it, a check with it is active exactly when the license look-up fails and the host is approved |
| ConcurrentOrders.AloneIsIssuing | internal/app/service.go:186-237 | the accesses of an order that meets no interference are exactly the issuing operation |
| ConcurrentOrders.OtherOperationsAreOneTransaction | internal/app/service.go:59-387 | every service operation but an order stores at most one transaction of the kind that orders may be interleaved with |
| ConcurrentOrders.AddKeepsInvIff | internal/app/service.go:218-236 | adding a fresh key keeps the lifecycle invariant exactly when everything its pair holds is inactive and covers fewer sockets |
| ConcurrentOrders.StepKeepsInvIff | internal/app/service.go:186-237 | any step of any order or other operation keeps the lifecycle invariant exactly when a key it adds does |
| ConcurrentOrders.NextKeepsInv | internal/app/service.go:186-237 | an order keeps the room it found in the list through every step of other operations and of orders of other pairs |
| ConcurrentOrders.CalmRunKeepsInv | internal/app/service.go:180-237 | the lifecycle invariant holds in every interleaving of orders and other transactions in which no other order of the same pair adds a key between an order's reading of the list and its own adding |
| ConcurrentOrders.InvThroughoutIff | internal/app/service.go:180-237 | for every interleaving, the lifecycle invariant holds in every state exactly when every key was added while all its pair held was inactive and covered fewer sockets |
| ConcurrentOrders.TurnsAreCalm | internal/app/service.go:186-237 | orders that take turns never disturb each other, whatever else is interleaved |
| ConcurrentOrders.OverlappingAddsBreakTheGuarantee | internal/app/service.go:199-236 | two orders of one pair that both stand before their adding, and add one after the other, leave both keys in the list, active, and the tier order broken, whatever the pair held |
| ConcurrentOrders.RefusedThroughoutIff | internal/app/service.go:199-205 | a pair whose last key is revoked is refused in every state of an interleaving that does not revive the key exactly when no order of the pair adds a key in it |
| ConcurrentOrders.OnlyOpenOrdersAdd | internal/app/service.go:199-236 | the only orders that could add one are those that had read the list while the pair was not yet barred |
| ConcurrentOrders.RevokedPairIsRefusedIff | internal/app/service.go:180-205 | once the active key of a pair is revoked, orders of the pair stay refused through an interleaving that does not revive the key exactly when none of them adds a key; and so they do whenever those that were open at the revocation make no attempt to |
| ConcurrentOrders.RevokedPairIsRefused | internal/app/service.go:186-205 | and in such an interleaving every later order of the pair is refused whole and changes nothing |
| ConcurrentOrders.OpenOrderEscapesRevocation | internal/app/service.go:199-236 | an order that read the list before such a revocation and adds its key after it gives the pair an active key again |
| ConcurrentOrders.LabKeysAlways | internal/app/service.go:66-77 | every stored key is a lab key, and every owned one shows it, in every state of every interleaving, without any condition on overlap or freshness |
| Verdicts.VerdictMeans | internal/app/service.go:306-349 | a check is active exactly for a named host, a key not known to be revoked, blocked, rejected or failed, and either an account-owned key or a host approved once its contact is recorded |
| Verdicts.ContactIsReported | internal/app/service.go:318-360 | the host status reported is the one the contact left, and a failed contact is reported exactly with a denial for another reason than the key |
| Verdicts.CheckTouchesOwnHostOnly | internal/app/service.go:315-328 | a check leaves licenses, accounts and every other host as they were |
| Verdicts.CheckRecordsHost | internal/app/service.go:318-326 | a recorded check notes the presented key, its product and the time in the entry of its host, and keeps the rest |
| Verdicts.VerdictHasReason | internal/app/service.go:306-349 | after any interleaving of transactions from an empty registry, a check is active exactly when its key is owned and active, or some transaction approved the host and no operator acted on it since |
| Verdicts.RemovalEndsRevocation | internal/app/service.go:328-349 | after a key is removed only the host's own status decides, revoked before or not |
| Verdicts.AddingStores | internal/app/service.go:56-112 | exactly when a license is added by hand; then it is what a look-up finds, field by field: without host and owner, approved and dated from today for a year where the request says nothing else, and named after its key; otherwise nothing changed |
| Verdicts.AddingIsRefused | internal/app/service.go:59-97 | for which reason an adding is refused: the first unsound part of the request |
| Verdicts.GeneratingStores | internal/app/service.go:114-138 | exactly when generation succeeds; the license is an approved lab license at the level and sockets asked for, without host and owner, under its marked name and dated from today for a year, and is stored exactly when asked to |
| Verdicts.ReAddingEndsRevocation | internal/app/service.go:82-108 | adding a key again without a status leaves it active without an owner, so only the host's status decides |
| Verdicts.RegisteringStores | internal/app/service.go:140-169 | the account is stored as described, a new one is approved exactly for a trusted network, else pending, and dated now; every other account is unchanged |
| Verdicts.ReRegistrationKeepsDecision | internal/app/service.go:140-169 | a registration is a look-up and a later upsert; the status and creation time standing at the upsert survive exactly when the look-up saw the same, or saw nothing and the fresh values are the same |
| Verdicts.UndisturbedReRegistration | internal/app/service.go:140-169 | when no transaction between the two acts on the account, they survive exactly when the look-up worked or the fresh values are the same |
| Nonces.NonceStore.Issue | internal/acme/nonce.go:25-37 | collects, then records the nonce until its time to live is over |
| Nonces.NonceStore.Use | internal/acme/nonce.go:41-50 | answers whether the nonce is outstanding and unexpired, and forgets it in any case |
| Nonces.NonceStore.Collect | internal/acme/nonce.go:52-61 | the sweep drops exactly the expired nonces, in whatever order it visits them |
| Nonces.CollectionIsUnobservable | internal/acme/nonce.go:34-61 | with a clock that never goes back, every use in every run is answered as by a store that never collects |
| Nonces.NonceLifetime | internal/acme/nonce.go:34-50 | a nonce that is not used before is accepted until its time to live is over and not from then on, whatever is issued, used and collected in between |
| Nonces.TableIsBounded | internal/acme/nonce.go:52-61 | right after an issuance the table holds at most as many nonces as were issued within the last time to live |
| Jws.KeyRoundTrip | internal/acme/jws.go:27-45 | a public key survives the passage through its JWK |
| Jws.DifferentKeysDifferentIds | internal/acme/jws.go:47-59 | two public keys have the same thumbprint only when they are the same, if the hash does not collide |
| Jws.SignVerifyRoundTrip | internal/acme/jws.go:75-155 | verifying a signed envelope under the signer's key returns the header with the algorithm, the payload (missing read as empty) and the account id |
| Jws.BothOrNeitherKeyIsRefused | internal/acme/jws.go:123-139 | a signed envelope with both or neither of account id and key is refused |
| Jws.AcceptedExactly | internal/acme/jws.go:106-155 | a body is accepted exactly when it is an envelope of the one algorithm under exactly one key, of the right kind, which signed its header and payload; and what is handed on is what it carries |
| Jws.AcceptedWasSigned | internal/acme/jws.go:106-155 | an accepted body whose signature is no forgery carries a header and a payload that the key holder signed together |
| Api.Server.FreshNonce | internal/transport/httpapi/apiv1.go:71-75 | records a fresh nonce when the random source works and puts it into the answer |
| Api.Server.VerifyJWS | internal/transport/httpapi/apiv1.go:93-128 | performs Admitted: signature, url, nonce in this order |
| Api.Server.HandleNewAccount | internal/transport/httpapi/apiv1.go:135-159 | performs Handled for the account endpoint |
| Api.Server.HandleNewOrder | internal/transport/httpapi/apiv1.go:176-227 | performs Handled for the order endpoint, product by product |
| Api.Server.HandleSubscriptions | internal/transport/httpapi/apiv1.go:229-250 | performs Handled for the list endpoint |
| Api.Server.HandleRevoke | internal/transport/httpapi/apiv1.go:256-282 | performs Handled for the revocation endpoint |
| Api.Server.Handle | internal/transport/httpapi/apiv1.go:83-282 | one request admits, handles and always answers with a fresh nonce |
| Api.OrderIsTally | internal/transport/httpapi/apiv1.go:191-213 | an order issues its products one after the other, each for the account and for the host, level and sockets of the request, and returns the tally of their outcomes |
| Api.TallyReports | internal/transport/httpapi/apiv1.go:191-213 | a tally reports the issued licenses field by field and in order, the products that wait for an approval in order, and for every other failed product the error of its last failure |
| Api.OrderIsValidWhenAllIssued | internal/transport/httpapi/apiv1.go:191-218 | the requested products, repetitions included, are divided among issued, pending and failed ones; the failed ones are those with a problem; the order is valid exactly when all were issued |
| Api.NewOrderIsAnswered | internal/transport/httpapi/apiv1.go:176-227 | an ill-formed order is refused and changes nothing; any other is answered for its host with what it came to, as valid exactly when every product was issued |
| Api.UnapprovedOrderWaits | internal/transport/httpapi/apiv1.go:202-218 | an order of an account that is not approved changes nothing and lists exactly the known products as pending, in order |
| Api.GateFollowsDecisions | internal/app/service.go:191-197 | after any interleaving of transactions, no product of an order waits for an approval when the account's own machine ends in APPROVED; otherwise the order changes nothing and exactly its known products wait |
| Api.OperatorOpensGate | internal/registry/store.go:243-255 | so an operator's decision about a known account decides about its orders for as long as nothing else acts on the account |
| Api.OrderKeepsInv | internal/transport/httpapi/apiv1.go:194-213 | an order keeps the lifecycle invariant |
| Api.IssueFramesOtherProducts | internal/app/service.go:199-216 | issuing for one product leaves what the account holds for another one alone |
| Api.OrderedKeysStayActive | internal/transport/httpapi/apiv1.go:191-213 | every subscription an order returns tells, field by field, of a license that is still the active one of its account and product when the order ends, with a valid lab key for that product that covers the sockets asked for; also with repeated products and failed ones |
| Api.OrderKeepsOrMakes | internal/transport/httpapi/apiv1.go:194-201 | an order leaves no active license but those that were there before and those it made for its account and for the host, level and sockets of the request |
| Api.ApprovedOrderIsValid | internal/transport/httpapi/apiv1.go:191-218 | an approved account that orders known products, none of them revoked, at a valid level and socket count gets a valid order with a key for each |
| Api.HostIsCoveredByOrder | internal/client/detect.go:105-119 | a host of n sockets that orders its tier over the API is issued a PVE key, and one that covers it exactly when n is at most 8 |
| Api.NewAccountIsAnswered | internal/transport/httpapi/apiv1.go:135-159 | a request for an account succeeds exactly when it embeds a key that is not empty and the disk works; then the key is on file under its id, for the host and contact of the request, and the reply tells its status; otherwise nothing changed |
| Api.ListedAreOwn | internal/transport/httpapi/apiv1.go:239-247 | the list tells, field by field, of exactly the licenses the account owns, each once and in the order of the registry |
| Api.ListIsAnswered | internal/transport/httpapi/apiv1.go:229-250 | a list request changes nothing and is answered with that list, or 500 when the registry cannot be read |
| Api.RevokeTouchesOwnLicenseOnly | internal/transport/httpapi/apiv1.go:271-276 | a revocation request leaves every license of other accounts as it was |
| Api.RevokeTakesEffect | internal/transport/httpapi/apiv1.go:256-282 | a revocation request succeeds exactly for a key the account owns while the disk works; then exactly the status of the key is REVOKED; otherwise nothing changed, and the code says whether the request, the ownership or the disk was at fault |
| ApiRuns.OnlyTheNonceCheckConsumes | internal/transport/httpapi/apiv1.go:99-127 | a request with a bad signature or url consumes no nonce; one that reaches the nonce check consumes exactly its own and is accepted exactly when it is valid |
| Deliveries.AdmittedForItsUrl | internal/transport/httpapi/apiv1.go:119-122 | a request that is admitted or consumes a nonce carries a header that names the url it came to |
| Deliveries.MisdirectedOrStaleIsRefused | internal/transport/httpapi/apiv1.go:119-127 | a well-signed request for another url is answered 400 and consumes nothing; one whose nonce is not outstanding is answered 400 and changes no registry |
| Deliveries.UnknownAccountIsRefused | internal/transport/httpapi/apiv1.go:93-118 | a request by an account id that is not registered or cannot be looked up is answered 401, an unreadable one 400, and neither changes anything |
| Deliveries.AcceptedWhereItArrived | internal/transport/httpapi/apiv1.go:90-128 | along every run of the concurrent server, each accepted body arrived before at an endpoint under the url it is signed for, and a checked request is handled by the endpoint it arrived at |
| ApiRuns.AccountedAlways | internal/acme/nonce.go:25-50 | along every run, however requests overlap, each acceptance of a nonce is paid by an issuance of it, and an outstanding nonce has one to spare |
| ApiRuns.NoReplay | internal/transport/httpapi/apiv1.go:90-128 | along every run of the concurrent server, restarts included, one body is accepted at most once per issuance of its nonce, and accepted requests never outnumber issued nonces |
| ApiRuns.AdmittedIdIsSignersThumbprint | internal/acme/jws.go:123-155 | where accounts are filed under the thumbprint of their key, an admitted request was signed by a key whose thumbprint is the account id, embedded or looked up |
| ApiRuns.ServerInvAlways | internal/transport/httpapi/apiv1.go:93-282 | every run of the concurrent server keeps the lifecycle invariant if no order adds a key between the list read and the adding of another order of the same account and product |
| ApiRuns.OrdersInTurnsAreCalm | internal/transport/httpapi/apiv1.go:176-227 | runs in which orders take turns, whatever other requests do in between, meet that condition |
| ApiRuns.OneAtATimeTakesTurns | internal/transport/httpapi/apiv1.go:176-227 | orders take turns in every run in which a request arrives only when all others are answered |
| ApiRuns.SerialServerInv | internal/transport/httpapi/apiv1.go:93-282 | so a server that handles one request at a time keeps the lifecycle invariant |
| ApiRuns.StepKeepsLinks | internal/transport/httpapi/apiv1.go:176-218 | every step keeps each ordering request at an unfinished order of its current product |
| ApiRuns.NoRequestIsStuck | internal/transport/httpapi/apiv1.go:93-282 | in such a state every unanswered request can make its next step, whatever the others do |
| RequestSteps.RequestAlone | internal/transport/httpapi/apiv1.go:93-282 | a request whose steps meet no interference leaves the registry, the nonces and the reply of its handler |
| ApiRuns.ReachedIdsAreSignersThumbprints | internal/transport/httpapi/apiv1.go:99-110 | in every state the concurrent server reaches, each request past its checks acts under the thumbprint of the key that signed it, and each account is filed under the thumbprint of its key |
| ApiRuns.HonestRequestIsAdmitted | internal/client/acmeclient.go:125-148 | what the client sends with a live nonce and the right url is admitted under its own account id with its own payload |
| ApiRuns.EmbeddedKeyIsServed | internal/acme/jws.go:123-139 | orders, lists and revocations of a registered account that embed the account key are admitted, and have the effect and the reply of those that name the account id |
| NonceChain.AcmeClient.RefreshNonce | internal/client/acmeclient.go:95-107 | the slot takes the header of the answer, and the call succeeds exactly when there is one |
| NonceChain.AcmeClient.Post | internal/client/acmeclient.go:119-160 | the slot after a call and the nonce it presents, for every failure of the two exchanges |
| NonceChain.NextKeepsInv | internal/client/acmeclient.go:119-160 | every step of clients, server and network keeps the ownership of nonces |
| NonceChain.HeldNoncesAreDistinct | internal/acme/nonce.go:25-37 | nonces held by different clients are different |
| NonceChain.StepPays | internal/transport/httpapi/apiv1.go:83-88 | one step refuses a client, or leaves it with a dead nonce, only at the price of a dead nonce before or a fault |
| NonceChain.RejectionsArePaid | internal/transport/httpapi/apiv1.go:83-128 | over every stretch of every run a client is refused for its nonce at most as often as it meets faults, plus once if its nonce was dead at the start |
| NonceChain.NoFaultNoRejection | internal/client/acmeclient.go:119-160 | without lost messages, restarts or expiry every held nonce is live and none is refused |
| NonceChain.AnswerRepairs | internal/transport/httpapi/apiv1.go:83-88 | after any answer the client's next nonce is live, whatever happened between its nonce check and its answer, so a second refusal needs another fault |
| NonceChain.LostAnswerIsRefused | internal/client/acmeclient.go:150-153 | the bound is met: a client whose answer was lost presents the consumed nonce and is refused |
| NonceChain.EveryFaultCosts | internal/client/acmeclient.go:119-160 | so does every other fault cost a refusal when it meets the client's nonce: a restart, its expiry, and a late request of an abandoned call |
| NonceChain.CallFollowsPost | internal/client/acmeclient.go:119-160 | an undisturbed call of the composed system leaves the slot that the client's code computes |
| ChainedRequests.ServePostIsAdmission | internal/transport/httpapi/apiv1.go:93-128 | the nonce check of a post of the composed system leaves the nonce table of admission, and is a rejection exactly when admission refuses its nonce |
| ChainedRequests.ServeStrayIsAdmission | internal/transport/httpapi/apiv1.go:93-128 | so does a well-signed request that arrives after its client gave up |
| ChainedRequests.AnswersAreFreshNonces | internal/transport/httpapi/apiv1.go:71-88 | every answer of the composed system, to a fetch, to a post or to a client that gave up, leaves the nonce table of a fresh nonce |
| ChainedRequests.ChainStepsAreServerSteps | internal/transport/httpapi/apiv1.go:83-128 | the nonce check, the answer and the restart of the composed system do to the nonce table what those steps of the concurrent server do |
| HostsFile.KeepLines | internal/hosts/hosts.go:99-116 | the loop keeps exactly the lines outside the block |
| HostsFile.TakeLines | internal/hosts/hosts.go:118-135 | the loop takes exactly the block up to the first end marker |
| HostsFile.ManagedBlockLoop | internal/hosts/hosts.go:89-97 | the loop writes the begin marker, one line per name, and the end marker |
| HostsFile.File.Enable | internal/hosts/hosts.go:22-45 | the new file, the returned text and every error of an enabling edit |
| HostsFile.File.Disable | internal/hosts/hosts.go:49-59 | the new file, the returned text and every error of a disabling edit |
| HostsFile.File.Status | internal/hosts/hosts.go:62-69 | whether a block is present, and which |
| HostsFile.File.Redirect | internal/hosts/hosts.go:74-87 | the first address of the block, or nothing |
| HostsFile.EnableAfterEnable | internal/hosts/hosts.go:20-36 | enabling twice is enabling once with the last address and names, for every file |
| HostsFile.DisableAfterEnable | internal/hosts/hosts.go:47-54 | disabling after enabling is disabling the original, for every file |
| HostsFile.EditAfterDisable | internal/hosts/hosts.go:35-54 | disabling first changes nothing for a later edit, and disabling is idempotent |
| HostsFile.EnabledMapsNames | internal/hosts/hosts.go:35-97 | the enabled file is what is kept of the old one, then the markers with one line for each name, whose fields are the address and the names given |
| HostsFile.UnmanagedFileComesBack | internal/hosts/hosts.go:1-4 | a file without marker lines comes back up to trailing newlines |
| HostsFile.PresentMeansMarker | internal/hosts/hosts.go:118-140 | a block is reported exactly when some line is a marker, unterminated and stray ones included |
| HostsFile.IndentedMarkersCount | internal/hosts/hosts.go:104-128 | markers are recognised with white space around them |
| HostsFile.DisabledIsAbsent | internal/hosts/hosts.go:49-69 | after disabling no block is reported and no address read, whatever the file held |
| HostsFile.RedirectAfterEnable | internal/hosts/hosts.go:71-87 | after enabling, the address read back is the one given exactly when some name is not blank |
| EndToEnd.VerdictIsAnswered | internal/app/service.go:333-386 | every answer names the host that asked, echoes its challenge and says the verdict; it has a message exactly when denied |
| EndToEnd.DenialIsExplained | internal/app/service.go:334-360 | a denial says under which status the key is denied, or that there is no valid subscription, and gives neither name nor dates |
| EndToEnd.ActiveAnswerShows | internal/app/service.go:362-386 | every active answer shows the name and dates on record for the key, whoever added it (undated ones from today for a year), and a key without a record under the name it says itself, from today for a year |
| EndToEnd.IssuedKeyReadsActive | internal/app/service.go:180-185 | every host that presents a key just issued reads an active subscription for itself, under the marked name and the dates of the license, with the hash of its own challenge |
| EndToEnd.AddedKeyReadsActive | internal/app/service.go:74-111 | a host answered active on a key added by hand reads the name and dates that the adding was given, and otherwise the name of the key and the year from the day of the adding |
| Counterexamples.UnreadRevocationIsHonoured | internal/app/service.go:328-333 | a revoked key of an approved host is answered active exactly when its look-up fails |
| Counterexamples.UnreadBlockIsUndone | internal/app/service.go:161-164 | a blocked account is approved again exactly when its look-up fails |
| Counterexamples.BlockBetweenIsUndone | internal/app/service.go:161-165 | an account that is blocked between look-up and upsert of a registration is approved again |
| Counterexamples.BlockedHostIsServed | internal/app/service.go:345-349 | a blocked host with an account's key is answered active |
| Counterexamples.SimultaneousOrdersGiveTwoKeys | internal/app/service.go:191-233 | two orders of an account without a key that have both read the list leave two active keys for one product in the registry |
| Counterexamples.OrdersRead | internal/app/service.go:191-200 | such two orders come to that point from their calls |
| Counterexamples.RevokedUnderway | internal/app/service.go:213-216 | from its call, an order of an upgrade comes to stand before its revocation, an operator revokes the same key, and the pair is refused |
| Counterexamples.RevocationIsEscaped | internal/app/service.go:213-236 | the order goes on, stores its new key, and the pair has an active key again after the operator's revocation |
| Counterexamples.FailedUpgradeRevokes | internal/app/service.go:213-221 | an upgrade at an unknown level fails and leaves the account's only key revoked |

## Left out

- CommitProtocol.StepKeepsInv: the lock is released when its process dies, a rename is one step, and a file that was written is not lost by a power failure; file modes, the creation of the directory and of the lock file are not modelled.
- Jws.SignVerifyRoundTrip: Ed25519, SHA-256, base64url and JSON are functions with stated laws, not implementations.
- Jws.AcceptedWasSigned: that the accepted signature is no forgery is a precondition.
- Lifecycle.InvAlways: about service operations that run to their end before the next starts; interleaved ones are the subject of `ConcurrentOrders`.
- ApiRuns.ServerInvAlways: new keys repeat no stored key, and accounts are stored by the API only, as in the program.
- NonceChain.CallFollowsPost: about calls whose two exchanges are answered; lost messages are steps of the composed system.
- Services.Service.AddLicense: the parsing of status and date texts is an input (absent, given or malformed).
- Strings are sequences of code points; texts that are not valid UTF-8, and byte offsets inside keys with multi-byte characters, are not modelled.
- HTTP, routing, TLS, the admin token, request logging, the command line and its prompts.
- Configuration and address matching: whether a network is trusted is a boolean input.
- Certificates, discovery, release notes, installation on hosts, detection of sockets and products, and the migration of old registries.
- The directory document of the API, and the client's handling of status codes and response bodies.
- `GetLicenseFor`, `ListAccounts` and `ListServers` of the store, which no modelled operation uses.

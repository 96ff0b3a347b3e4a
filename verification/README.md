# The peer coordinator, modelled in Dafny

The coordinator lets the devices of one account find each other. It keeps
accounts, networks, devices, memberships, single-use secrets and pairs in a
database; it holds connection attempts, presence and signal queues in memory; it
limits STUN requests by rate; it recognises strict JSON and prints the bytes that
are signed; and it hands out relay ports. This project models those parts and
proves what they promise.

| file | what it models |
|---|---|
| `Wrappers.dfy`, `Clock.dfy` | Option and Result, the size of subsets, properties kept step by step; instants and Unix seconds |
| `Tables.dfy`, `Transactions.dfy` | the rows, the queries, and every mutating operation as one transaction |
| `StoreInvariants.dfy`, `StoreSteps.dfy` | the invariant of the store, and that each transaction keeps it |
| `StoreRuns.dfy` | runs: transactions interleaved with the separate steps of ActOnPair, CreateNetwork and AdoptNetwork under one clock |
| `PairTheorems.dfy`, `PairRace.dfy` | the pair state machine over runs, and the race that leaves two active pairs |
| `NetworkQuota.dfy` | the limit of two networks an account, and the race that passes it |
| `MembershipTheorems.dfy`, `Withdrawals.dfy` | membership queries, capacity, single-use secrets, identity, and what withdrawal takes away for good |
| `Adoption.dfy`, `StoreCalls.dfy` | AdoptNetwork, and the calls that read before their transaction |
| `StoreContracts.dfy`, `StoreRefusals.dfy` | when each operation of the store succeeds, what it leaves and why it is refused, read off the rows |
| `StoreService.dfy` | the store as a class whose methods run the statements in order |
| `SessionRules.dfy`, `AttemptGrammar.dfy` | attempts, leases and signal admission, and the grammar of an attempt's log |
| `SessionContracts.dfy`, `SessionRefusals.dfy` | the same of the calls on the sessions |
| `Coordinator.dfy`, `CoordinatorRuns.dfy` | store, sessions and signal hub as one machine, and its invariant |
| `SignalTheorems.dfy`, `LeaseMembership.dfy` | what holds of logs, queues and leases over every run |
| `HubDelivery.dfy`, `PresenceTheorems.dfy` | the order in which queues are emptied, and where presence comes from |
| `SignalRun.dfy` | a run in which an offer and its answer are accepted and reach their recipients' queues |
| `SessionService.dfy` | the session table and the hub as classes over mutable maps |
| `Limiter.dfy` | the STUN rate limiter and the reference limiter that forgets nothing |
| `StrictJson.dfy` | the strict JSON recogniser over token streams |
| `CanonicalJson.dfy`, `Messages.dfy` | the canonical encodings that are signed |
| `RelayPorts.dfy` | the wrap-around walk over the relay's port range |

Two kinds of statement recur. A rule on values (`Transactions`, `SessionRules`,
`Decide`) says what one call does, and theorems say what follows for every run
of such calls. A class with fields carries out the same call by statements and
loops, and each of its methods is proved to end in the state, and with the
answer, of its rule, and states besides what its caller can rely on. What a rule
does is stated a second time without its queries and branches, over the rows, the
leases and the numbers themselves (`StoreContracts`, `SessionContracts`), and the
two are proved to agree.

Time is an integer: seconds in the store, nanoseconds for sessions and the
limiter. Fresh identifiers, signatures, hashes, certificate checks and payload
decoding are parameters, and the theorems hold for all of them, except where a
law is asked for: a signature made over a statement verifies, and a SHA-256
digest is not the empty string.

## Where the code and its own words differ

- `docs/protocol.md:64` says that an attempt needs an active pair and is
  exclusive per pair. The code keys an attempt by the target device and asks only
  that the two devices share a network. The model follows the code.
- The comment at `internal/coordinator/sessions.go:284` says that an unbound
  device loses its lease immediately, in either direction. The code compares the
  sender of a request with the target only, and does not ask that it is an end of
  the lease. A lease whose ends share no network is therefore renewed, and a
  signal on it admitted, exactly when the device that asks shares a network with
  the target: never for the initiator, for the target while it is bound
  anywhere, and for any third device bound with it.
  `LeaseMembership.WhoMayRenew` and `LeaseMembership.WhoMayAdmit` state this for
  every sender, and `LeaseMembership.UnboundInitiatorLeavesALease` is an instance
  with all three.
- The pairing queries are written so that two devices have at most one live pair
  in a network. ActOnPair compares the deadline with a clock reading taken before
  its update, so a confirmation can commit after its row has expired.
  `PairTheorems.LivePairsAreUnique` shows that uniqueness holds throughout a run
  exactly when no such late confirmation occurs in it; `PairRace` reaches two
  active pairs from the empty store.
- CreateNetwork allows two networks an account, but counts and inserts in two
  statements. `NetworkQuota.QuotaHolds` shows that the limit holds throughout a
  run exactly when no insert comes after its account has reached the limit;
  `NetworkQuota.ThreeNetworksAreReachable` passes it.
- Sessions take the clock reading before they wait for the lock, so a lease that
  has expired can still be renewed, and a signal on it admitted, by a call that
  read the clock in time. `LeaseMembership.RenewSucceedsExactly` and
  `AdmitSucceedsExactly` say when a call succeeds, with its own reading in the
  place of the clock; `RenewalOutlivesDeadline` and `AdmissionOutlivesDeadline`
  show it succeed after the deadline from every state in which a lease stands;
  and `SignalTheorems.ExpiredForever` shows that only such a reading can do it. An
  attempt that was ended is never accepted again in any case.
- `docs/protocol.md:72` lists three types of signal; the code has a fourth, the
  end of candidates. The code keeps its counters and description rules per sender,
  so the grammar is stated for the initiator and for every other sender.

## Model

| member | source | states |
|---|---|---|
| StoreSteps.ApplyKeeps | internal/coordinator/store.go:37-49 | Every transaction keeps the schema's references and unique columns and the two cross-table facts (an active binding has a live network and an account link; an open pair has its whole authority), and moves tables only forward. |
| StoreSteps.UnbindDeviceKeepsAuthority | internal/coordinator/networks.go:247-272 | Unbinding leaves no open pair without both bindings. |
| StoreSteps.DeleteNetworkKeepsAuthority | internal/coordinator/networks.go:157-181 | Deleting a network leaves no open pair and no active binding in it, so both cross-table facts survive. |
| StoreSteps.RevokeDeviceKeepsAuthority | internal/coordinator/certificates.go:155-176 | Revoking a device leaves no open pair that names it. |
| StoreSteps.DisableUserKeepsAuthority | internal/coordinator/users.go:101-124 | Disabling an account leaves no open pair in its networks. |
| StoreSteps.EnrollKeeps | internal/coordinator/enrollment.go:146-216 | Enrolling a new or known machine keeps the invariant, unique keys and request ids included, and moves tables only forward. |
| StoreRuns.ExecKeeps | internal/coordinator/pairing.go:234-290 | One event, a transaction or one of the separate steps of ActOnPair, keeps the invariant of the store and of every pending call. |
| StoreRuns.LaterEvolves | internal/coordinator/networks.go:157-272 | Between any two points of a run no row is removed, nothing revoked, disabled, deleted or used comes back, revisions only rise, and a closed pair stays closed. |
| PairTheorems.SwapIsAtomic | internal/coordinator/pairing.go:234-290 | Whenever the compare-and-swap commits, whatever ran in between: the row is exactly the one read, both ends act for one owner at that moment, the state moves along the graph, the revision rises by one, and nothing else changes. |
| PairTheorems.SwapIsJustified | internal/coordinator/pairing.go:242-268 | A swap that commits an approval leaves approved, a rejection rejected, a confirmation active and a revocation revoked. Only the target approves or rejects, only the initiator activates and only with the target's key fingerprint, all before the deadline at the reading taken; only active pairs are revoked, and by one of their ends. |
| PairTheorems.AnswerIsTheWrittenRowOrNewer | internal/coordinator/pairing.go:269-278 | The row ActOnPair reads last and answers with is the one its swap wrote or a newer one, and the one it wrote exactly when nothing moved the row in between. |
| PairTheorems.OpenPairsAreAuthorized | internal/coordinator/networks.go:157-272 | In every reachable state an invited, approved or active pair has an undeleted network with an enabled owner and two unrevoked devices, bound to it and linked to that owner. |
| PairTheorems.ClosedPairsStayClosed | internal/coordinator/certificates.go:155-176 | A rejected or revoked pair never opens again in any later state, and its ends, network and deadline never change. |
| PairTheorems.RowsMoveAlongEdges | internal/coordinator/pairing.go:242-278 | Over any event each pair row stays or moves along one edge of the state graph with its revision one higher; new rows start invited or active at revision one. |
| PairTheorems.UniqueExactlyWithoutLateConfirmation | internal/coordinator/pairing.go:60-108 | One event keeps "at most one live pair per network and unordered pair of devices" if and only if it is not a confirmation that swaps after its deadline while another pair of the two is live. |
| PairTheorems.LivePairsAreUnique | internal/coordinator/pairing.go:166-199 | Live pairs are unique at every point of a run if and only if no event of the run is a late confirmation, across invitations, adoptions, approvals, revocations and the passing of time. |
| PairTheorems.ConfirmationInOneReadingIsNotLate | internal/coordinator/pairing.go:266-278 | A confirmation whose clock reading is still current at its swap never breaks uniqueness. |
| PairTheorems.ExpiryRace | internal/coordinator/pairing.go:266-269 | From every state where a confirmation is about to swap, letting the row expire and the devices adopt each other leaves two active pairs. |
| PairRace.TwoActivePairsAreReachable | internal/coordinator/pairing.go:234-278 | A concrete run from the empty store ends with two active pairs between the same two devices of one network. |
| NetworkQuota.QuotaExactlyWithoutLateCreation | internal/coordinator/networks.go:45-65 | One event keeps every account within two networks if and only if it is not an insert whose account has reached the limit since it counted. |
| NetworkQuota.QuotaHolds | internal/coordinator/networks.go:45-65 | No account has more than two networks at any point of a run if and only if no event of the run is such a late insert. |
| NetworkQuota.ThreeNetworksAreReachable | internal/coordinator/networks.go:49-57 | A concrete run from the empty store gives one account three networks. |
| MembershipTheorems.SameNetworkIsGuarded | internal/coordinator/pairing.go:292-298 | In every reachable state the query over bindings alone agrees with the one that also requires an undeleted network and links to its owner. |
| MembershipTheorems.BindingOwnerClausesAreImplied | internal/coordinator/networks.go:205-212 | In every reachable state the query's deleted and device_users clauses never decide its answer. |
| MembershipTheorems.CountGrowsOnlyBelowLimit | internal/coordinator/networks.go:143-155 | Over any event a network's active devices grow only when they were below the current limit, and then by one. |
| MembershipTheorems.CountWithinSomePastLimit | internal/coordinator/networks.go:107-134 | In every state the active devices number at most some limit the network has had so far, even after the limit is lowered. |
| MembershipTheorems.CountNeverExceedsThirty | internal/coordinator/networks.go:107-155 | No network ever has more than thirty active devices. |
| MembershipTheorems.NonceInvitesOnce | internal/coordinator/pairing.go:92-99 | In every run a share nonce accounts for at most one invitation. |
| MembershipTheorems.TokenRedeemsOnce | internal/coordinator/enrollment.go:292-305 | In every run a token accounts for at most one success among enrolments and certificate recoveries together. |
| MembershipTheorems.DevicesAreKeyDerived | internal/coordinator/enrollment.go:155-160 | In every reachable state each device's id is the id of its key, and keys and request ids are unique. |
| MembershipTheorems.EnrollmentKeepsIdentity | internal/coordinator/enrollment.go:183-202 | Enrolling any key in any reachable state answers with that key's id, keeps a known machine's account and certificate, and never revives a revoked one. |
| MembershipTheorems.JoiningKeepsIdentity | internal/coordinator/enrollment.go:258-276 | The same of joining a network by its id. |
| MembershipTheorems.EnrollmentSucceedsExactly | internal/coordinator/enrollment.go:161-208 | In every reachable state, enrolling a key succeeds if and only if the token is usable, its network has room, the key's id is not another key's and the request id no other device's, whether or not the machine is on record. A machine on record gets its own id and certificate back and its row the new name and request id; a new one is entered as it came. |
| MembershipTheorems.JoiningSucceedsExactly | internal/coordinator/enrollment.go:240-285 | The same of joining, for a live network in the place of the token. |
| Withdrawals.SharesDieWithMembership | internal/coordinator/networks.go:247-272 | A share made before its device left the network, or before the network was deleted, never invites again, even after the device is bound anew. |
| Withdrawals.PairsDieWithMembership | internal/coordinator/networks.go:259-264 | The pairs a device has in a network it leaves are closed from then on, in every later state. |
| Withdrawals.DeletedNetworkStaysEmpty | internal/coordinator/networks.go:157-181 | A deleted network never again has a member, an open pair or a usable token. |
| Withdrawals.RevokedDeviceStaysOut | internal/coordinator/certificates.go:155-176 | A revoked device is never again admitted, never an end of an open pair, and acts for no owner. |
| Withdrawals.DisabledUserStaysOut | internal/coordinator/users.go:101-124 | A disabled account never again has an open pair in its networks, a usable token or an admitted device of its own. |
| Adoption.EveryPeerIsPaired | internal/coordinator/pairing.go:153-163 | From every consistent state, after the loop every peer of the query has a live pair with the caller: a peer is skipped only because it already had one. |
| Adoption.RepeatInsertsNothing | internal/coordinator/pairing.go:182-187 | Adopting peers that all have live pairs inserts nothing. |
| Adoption.AdoptNetworkSettles | internal/coordinator/pairing.go:110-164 | From every consistent state, with nothing in between: afterwards every peer has a live pair with the caller, and exactly one if and only if it had at most one before; the result lists exactly the inserted pairs, no older row changed, and a repeat in the same second inserts nothing. |
| Adoption.NetworkIsAdopted | internal/coordinator/pairing.go:124-199 | Read off the tables: afterwards every other unrevoked device of the caller's primary account that is bound, with the caller, to a live network of that account has a live pair with the caller there; every pair inserted joins the caller with such a device that had none; all of them are listed, and nothing else changed. |
| Adoption.AdoptionStarts | internal/coordinator/pairing.go:124-128 | An adoption gets under way exactly for an unrevoked device of an enabled account. |
| Adoption.QueryFindsTheTogether | internal/coordinator/pairing.go:129-150 | Its query finds exactly the other unrevoked devices of the caller's primary account that are bound, with the caller, to a live network of that account at that moment. |
| Adoption.TurnSettlesOrIsUnauthorized | internal/coordinator/pairing.go:154-162 | One adoption as an event of any run: the two devices have a live pair after it if and only if they had one before it or still acted for one owner at that moment. |
| Adoption.EveryPeerIsResolved | internal/coordinator/pairing.go:124-164 | When the call returns, whatever ran between its read of the caller, its query and its turns: every other unrevoked device of the caller's account that was bound with it to a live network of the account when it asked has had a turn, and has a pair that was live right after that turn and only moved forward since, if and only if at the turn the two had a live pair or both still acted in the network. |
| Adoption.AnswerListsInsertions | internal/coordinator/pairing.go:153-163 | The answer of an interleaved call lists exactly the pairs its turns inserted, each active, begun by the caller with a device of its account that was bound with it to a live network of the account at the query, and new since then. |
| Adoption.InsertionsAreDistinct | internal/coordinator/pairing.go:191-192 | No two turns of a call insert under one id. |
| Adoption.TurnsAreAdoptAll | internal/coordinator/pairing.go:153-163 | With nothing between them the turns leave the store, and give the answer, of adopting the peers one by one. |
| StoreCalls.ShareRedeemsForFiveMinutes | internal/coordinator/pairing.go:29-108 | A share taken to an unpaired device of the same owner is redeemed if and only if the time is within five minutes of making it, and it becomes the invitation expected. |
| StoreCalls.RenewalRepeats | internal/coordinator/certificates.go:51-72 | Repeating a renewal request returns the certificate already issued and changes nothing; a recovery under the same request id is refused. |
| StoreCalls.ActOnPairIsItsSteps | internal/coordinator/pairing.go:234-278 | The reads, the swap and the reads after it, with nothing in between, leave exactly the database of the whole call and give exactly its answer. |
| StoreContracts.RoomIsCounted | internal/coordinator/networks.go:137-155 | A network's members, which the limit counts, are as many as its active binding rows. |
| StoreContracts.MachineIsRegistered | internal/coordinator/enrollment.go:186-208 | Succeeds if and only if the request id is free for the machine of the key, on record or new; a machine on record keeps its id, account, certificate and revocation and takes the new name and request id, and either way it is linked and bound. |
| StoreContracts.DeviceIsInvited | internal/coordinator/pairing.go:60-108 | An invitation succeeds if and only if both devices are callers, the share is of the other device, of this service, over that device's own key, signed, unused and within its five minutes, both act in its network, no live pair joins the two and the id is free; it inserts the pair and spends the share, and changes nothing else. |
| StoreContracts.PairIsActedOn | internal/coordinator/pairing.go:234-278 | An action succeeds if and only if the caller may call, both ends act in the pair's network, and: the target approves or rejects an invitation before its deadline, the initiator confirms an approval before its deadline with the fingerprint of the target's own key, or an end revokes an active pair. It leaves approved, rejected, active or revoked accordingly, one revision on, and changes nothing else. |
| StoreRefusals.RegistrationIsRefused | internal/coordinator/enrollment.go:183-208 | For each error the exact condition: a taken request id of a machine on record is an internal error, a taken id or request id of a new one says it is already enrolled. |
| StoreRefusals.RecoveryIsRefused | internal/coordinator/certificates.go:74-139 | A recovery is refused with each of its six errors exactly in the situation of its own, told by the caller, its key, the certificate, the token, its account and network, and earlier answers. |
| StoreRefusals.InvitationIsRefused | internal/coordinator/pairing.go:60-108 | The same of an invitation and its five errors. |
| StoreRefusals.ActionIsRefused | internal/coordinator/pairing.go:234-290 | The same of ActOnPair and its seven errors. |
| StoreService.Store.CreateNetwork | internal/coordinator/networks.go:45-65 | A network the account owns is added, with room for ten, exactly for an enabled account with fewer than two networks and a free id; a refusal names its reason and leaves every table unchanged. |
| StoreService.Store.UpdateNetworkLimit | internal/coordinator/networks.go:107-134 | Succeeds exactly for the owner of a live network and a limit of ten, twenty or thirty, and changes that limit alone. |
| StoreService.Store.DeleteNetwork | internal/coordinator/networks.go:157-181 | For the owner of a live network only: exactly its bindings end, its tokens and shares are used and its unfinished pairs revoked, and every other row stays; any refusal leaves every table unchanged. |
| StoreService.Store.RevokeDevice | internal/coordinator/certificates.go:155-176 | The device is admitted nowhere, acts for no owner, and exactly the pairs that name it are revoked. |
| StoreService.Store.DisableUser | internal/coordinator/users.go:101-124 | An enabled account is disabled, and exactly the unfinished pairs in its networks are revoked. |
| StoreService.Store.BindDevice | internal/coordinator/networks.go:214-245 | Succeeds exactly for the owner of a live network and an unrevoked device of its own account that is bound already, room or not, or fits; the device is bound and nothing else changes. |
| StoreService.Store.UnbindDevice | internal/coordinator/networks.go:247-272 | The device acts for no owner in the network, exactly its unfinished pairs there are revoked and its shares there used, and nothing else changes. |
| StoreService.Store.DeletePair | internal/coordinator/networks.go:315-336 | The owner of the network revokes one unfinished pair of it, and nothing else changes. |
| StoreService.Store.IssueEnrollmentToken | internal/coordinator/enrollment.go:123-144 | The token yields its account and network until five minutes later and at no later time. |
| StoreService.Store.RegisterDevice | internal/coordinator/enrollment.go:186-208 | The machine of the key is on record under the id and certificate answered, linked to the account and bound to the network, or the schema's unique columns refuse it; `StoreContracts.MachineIsRegistered` says when. |
| StoreService.Store.FindDevice | internal/coordinator/enrollment.go:186-188 | A scan finds the one device with a key, or shows there is none. |
| StoreService.Store.Enroll | internal/coordinator/enrollment.go:146-216 | Succeeds if and only if the token is usable, its network has room and the request id is free for the machine of the key, on record or new. The machine is then on record, linked and bound, a known one under its own id, account and certificate with the new name and request id, and the token is spent; each refusal has its exact error and leaves every table unchanged. |
| StoreService.Store.JoinNetwork | internal/coordinator/enrollment.go:223-290 | The same for a live network in the place of the token. |
| StoreService.Store.ReplaceCertificate | internal/coordinator/certificates.go:90-139 | The answer is the certificate on record for the request; a recovery spends a usable token for ever and needs a new request id; any failure leaves every table unchanged. |
| StoreService.Store.RenewCertificate | internal/coordinator/certificates.go:51-72 | Succeeds exactly for a caller with its own key whose request was answered before or whose certificate is due, with the earlier answer or the new certificate. |
| StoreService.Store.RecoverCertificate | internal/coordinator/certificates.go:74-139 | Succeeds exactly for a caller with its own key and an expired certificate, a usable token of an account it is linked to and acts for, and a new request id; the token is spent and the certificate stored. |
| StoreService.Store.ShareDevice | internal/coordinator/pairing.go:29-58 | A caller that acts in the network gets a share of itself, signed and valid for five minutes, whose row is stored unused. |
| StoreService.Store.InviteDevice | internal/coordinator/pairing.go:60-108 | Under exactly the condition of `StoreContracts.DeviceIsInvited`, one pair is added, an invitation from the sender to the share's device, and the share is spent; otherwise every table is unchanged and the error is that of `StoreRefusals.InvitationIsRefused`. |
| StoreService.Store.AdoptNetwork | internal/coordinator/pairing.go:124-164 | The loop over the query's rows ends in the state and list of adopting them one by one: exactly for a caller, every other unrevoked device of its account bound with it to a live network of the account has a live pair with it there, each pair inserted is one that was missing between such devices, and all are listed. |
| StoreService.Store.ActOnPair | internal/coordinator/pairing.go:234-278 | Under exactly the condition of `StoreContracts.PairIsActedOn`, an uninterrupted call takes its one row to the state the action names, with the revision one higher, and answers with it; otherwise nothing changes and the error is that of `StoreRefusals.ActionIsRefused`. |
| AttemptGrammar.AcceptanceFollowsGrammar | internal/coordinator/sessions.go:218-277 | Accepting a signal extends the attempt's log by an entry the grammar allows, which the target addresses to the initiator and any other sender to the target, and the attempt's counters, hashes and message ids remember the longer log. |
| AttemptGrammar.FirstIsTheOnlyOffer | internal/coordinator/sessions.go:254-260 | The first entry of a log is an offer by the initiator, and no other entry is an offer. |
| AttemptGrammar.OthersStartWithTheirOnlyAnswer | internal/coordinator/sessions.go:254-260 | Any other sender's first entry is an answer, and its only one. |
| AttemptGrammar.CandidatesNameTheOnlySdp | internal/coordinator/sessions.go:269-276 | Every candidate and end of candidates carries the hash of one earlier description by the same sender. |
| AttemptGrammar.OneSdpPerSender | internal/coordinator/sessions.go:254-257 | No sender has two descriptions in one log. |
| AttemptGrammar.SequencesHaveNoGaps | internal/coordinator/sessions.go:233-243 | A sender's accepted sequence numbers are exactly one up to their number. |
| AttemptGrammar.MessageIdsDistinct | internal/coordinator/sessions.go:237-244 | No message id occurs twice in a log. |
| AttemptGrammar.TotalIsTheSum | internal/coordinator/sessions.go:243-245 | An attempt that remembers its log has a total equal to the sum of its own counters over its senders. |
| SessionContracts.AttemptBegins | internal/coordinator/sessions.go:139-193 | Begin succeeds if and only if the target is another device the sender shares a network with, the generation is in range, both ends are admitted and were heard of for their primary account in the last half minute, no running attempt is on the target or joins the two, and the later queries still find the sender and the network. It answers that an end is offline if and only if such an end is admitted and was not heard of. The lease has every field as asked, ends a minute later and is signed, and only expired attempts are dropped. |
| SessionContracts.LeaseIsRenewed | internal/coordinator/sessions.go:195-205 | A renewal succeeds if and only if the attempt of that id is running, the sender shares a network with the target and both ends are admitted; only that lease's deadline and signature change. |
| SessionContracts.AcceptsExactly | internal/coordinator/sessions.go:218-277 | A signal is accepted if and only if it is well formed and within its minute, belongs to the attempt, goes from the sender to the initiator if the sender is the target and to the target otherwise, carries the sender's next number and a new message id below the limit of 512, is the initiator's offer, another's answer to it or a candidate of its sender's description, has a payload of its kind, and is signed by the sender; the attempt then has exactly that signal more. |
| SessionContracts.SignalIsAdmitted | internal/coordinator/sessions.go:218-247 | Admission adds to that the authorization of the attempt and the sender's own admission; no other attempt changes. |
| SessionContracts.LeaseVerifiesExactly | internal/protocol/lease.go:32-50 | A lease passes the verification of an end if and only if every field is as pinned, all ids are well formed, the ends differ, it ends within the next minute and its signature verifies. |
| SessionRefusals.BeginIsRefused | internal/coordinator/sessions.go:139-193 | For each of Begin's six errors the exact situation in which it is the answer, whatever changes between its queries. |
| SessionRefusals.RenewalIsRefused | internal/coordinator/sessions.go:279-295 | The same of a renewal and its three errors. |
| SessionRefusals.AdmissionIsRefused | internal/coordinator/sessions.go:218-295 | The same of an admission and its eleven errors. |
| CoordinatorRuns.ExecKeeps | internal/coordinator/signaling.go:66-148 | Every event keeps the invariant of store, sessions and hub: calls that hold the lock while the database changes between their queries, admission and enqueueing as separate steps, devices coming and going. |
| Coordinator.LockedSessionsAreFrozen | internal/coordinator/sessions.go:139-247 | While a call holds the lock nothing but its own end changes the sessions. |
| Coordinator.UninterruptedLooks | internal/coordinator/sessions.go:139-247 | A call with nothing between its queries sees one state of the database at all of them. |
| SignalTheorems.EveryLogObeysTheGrammar | internal/coordinator/sessions.go:218-277 | In every run the log of every attempt ever begun obeys the grammar, the addressing of every entry included, and has at most 512 entries. |
| SignalTheorems.AttemptsTellTheirLogs | internal/coordinator/sessions.go:18-24 | In every reachable state an attempt's counters, message ids and hashes are exactly those of the signals it accepted, its total is the sum of its counters and the number of its message ids, and at most 512. |
| SignalTheorems.EnqueuedOnceAndInOrder | internal/coordinator/signaling.go:26-43 | In every run each sender's signals for one attempt enter queues at most once and in strictly increasing sequence, each was accepted before, and no queue exceeds 32. |
| SignalTheorems.EnqueuedSignalsAreAddressed | internal/coordinator/sessions.go:224-230 | In every run each signal enqueued is of an attempt that was begun; the initiator's are for the target, the target's for the initiator, and any other device's for the target. |
| SignalTheorems.HeldSignalIsDelivered | internal/coordinator/signaling.go:26-43 | A held signal that fits goes to the end of the queue of the device it is for if that device is connected with fewer than 32 waiting, and into no other queue; otherwise it goes nowhere and its sender has to leave. |
| HubDelivery.TakenInOrder | internal/coordinator/signaling.go:88-130 | In every run, what a connected device has taken from its queue since it connected and what still waits are together exactly what was put there, in that order. |
| HubDelivery.SignalsAreTakenInSequence | internal/coordinator/signaling.go:88-130 | So a device takes the signals of each sender for each attempt in strictly increasing sequence. |
| PresenceTheorems.PresenceIsReported | internal/coordinator/sessions.go:61-110 | In every run, whatever presence is recorded comes from a heartbeat whose first query found the device admitted, whose second found it linked to the account, and which was recorded after both; the device has not left the hub since. |
| PresenceTheorems.BegunEndsHadReported | internal/coordinator/sessions.go:153-163 | In every run, a Begin about to succeed finds that each of its ends reported so for its primary account less than half a minute before the call's reading of the clock. |
| SignalTheorems.AttemptsAreKeyedAndExclusive | internal/coordinator/sessions.go:164-192 | In every reachable state an attempt is keyed by its target and pair id, its ends differ, its lease ends within a minute, and no two attempts join the same devices in either direction or share an id. |
| SignalTheorems.LeasesChangeOnlyByBeginAndRenew | internal/coordinator/sessions.go:139-216 | A lease held after an event was held before it, or was just begun or renewed by a call that succeeded. |
| SignalTheorems.WithdrawnEndIsShutOut | internal/coordinator/sessions.go:279-295 | Once an end is revoked or its primary account disabled, no Begin, Renew or Admit naming it that takes the lock from then on succeeds, whatever changes between its queries. |
| SignalTheorems.WithdrawnLeasesRunOut | internal/coordinator/sessions.go:139-205 | And every lease it is an end of runs out within a minute of that moment, even one a call in progress then still begins or renews. |
| SignalTheorems.UnboundTargetIsShutOut | internal/coordinator/sessions.go:284-288 | As long as a target has no active binding anywhere, every call on it that takes the lock meanwhile fails. |
| SignalTheorems.UnboundLeaseRunsOut | internal/coordinator/sessions.go:284-288 | And the lease it had runs out within a minute. |
| SignalTheorems.EndedForever | internal/coordinator/sessions.go:207-216 | An attempt id that has ended is never accepted again by Renew or Admit, whenever their clock was read. |
| SignalTheorems.ExpiredForever | internal/coordinator/sessions.go:279-283 | An attempt id that has expired is refused by every Renew and Admit for as long as none of them read the clock before the deadline. |
| SignalTheorems.AcceptedBeforeDeadline | internal/coordinator/sessions.go:279-283 | A Renew or Admit that succeeds found a stored attempt of its id whose deadline is after its own reading of the clock. |
| SignalTheorems.IssuedLeaseVerifiesForAMinute | internal/protocol/lease.go:32-50 | A lease from Begin passes its receiver's verification if and only if the clock is between its issue and a minute later. |
| LeaseMembership.WhoMayRenew | internal/coordinator/sessions.go:195-205 | In every reachable state any device can renew a standing lease if and only if it shares a network with the target; some device can if and only if the target is bound anywhere; and while the ends share no network it is never the initiator. |
| LeaseMembership.WhoMayAdmit | internal/coordinator/sessions.go:218-236 | A signal for the other end that passes every check of its own is admitted on a standing lease if and only if its sender shares a network with the target. |
| LeaseMembership.UnboundInitiatorLeavesALease | internal/coordinator/sessions.go:284-288 | A concrete case: the initiator is unbound and refused, while the target and a third device that is no end of the lease both renew it. |
| LeaseMembership.BeginSucceedsExactly | internal/coordinator/sessions.go:139-193 | Whatever changes between its five queries, Begin succeeds if and only if the first finds a common network of the sender and another, well-formed target, the next two find both ends admitted and heard of within half a minute of the call's own reading, no running attempt is on the target or joins the two, and the last two find the sender admitted and both in the network the lease names. |
| LeaseMembership.RenewSucceedsExactly | internal/coordinator/sessions.go:279-295 | Whatever changes between its queries, a renewal succeeds if and only if the attempt is stored under the id asked for, its deadline is after the call's own reading of the clock, the first query found a network the sender shares with the target, and the next two found the ends admitted. |
| LeaseMembership.AdmitSucceedsExactly | internal/coordinator/sessions.go:218-247 | The same of admission from anyone but the target, the initiator above all: the sender is found admitted by a fourth query, and the signal is well formed, goes to the target as its sender's next under the lease, is the initiator's offer, another's answer or a candidate of the sender's description, and is signed with the key found there. |
| LeaseMembership.TargetAdmitSucceedsExactly | internal/coordinator/sessions.go:218-247 | The same of admission from the target: its signal goes to the initiator and is an answer or a candidate. |
| LeaseMembership.RenewalOutlivesDeadline | internal/coordinator/sessions.go:195-205 | From every state in which a lease stands, a renewal that reads the clock now and is held up beyond the deadline still succeeds. |
| LeaseMembership.AdmissionOutlivesDeadline | internal/coordinator/sessions.go:218-247 | And so does the admission of a signal. |
| SignalRun.StoreRunsLift | internal/coordinator/sessions.go:38-44 | Whatever the store reaches in a run of its own it reaches in a run of the coordinator. |
| SignalRun.AnOfferIsAnswered | internal/coordinator/signaling.go:132-148 | From the start a run reaches a state in which one device has dialled another, its offer is logged, enqueued and waits in the other's queue, and the other's answer in its own. |
| SessionService.SessionTable.Purge | internal/coordinator/sessions.go:164-168 | Deleting while ranging removes exactly the expired attempts. |
| SessionService.SessionTable.FindLink | internal/coordinator/sessions.go:174-179 | The scan answers whether an attempt joins the two devices in either direction. |
| SessionService.SessionTable.SharedNetwork | internal/coordinator/pairing.go:300-308 | Answers with a network both devices are bound to, exactly when there is one. |
| SessionService.SessionTable.FindAbsent | internal/coordinator/sessions.go:153-163 | Scanning the ends in order finds the first that is not admitted or not online, and says which; none exactly when all are. |
| SessionService.SessionTable.Begin | internal/coordinator/sessions.go:132-193 | Succeeds, and answers that an end is offline, under exactly the conditions of `SessionContracts.AttemptBegins`: both ends are admitted and were heard of for their primary account within half a minute. Exactly the unexpired attempts stay, and one for the target is added, for a minute and a network both ends are bound to. |
| SessionService.SessionTable.Renew | internal/coordinator/sessions.go:195-205 | Succeeds exactly when authorized; only the attempt of the pair id changes, in its lease's deadline, a minute from now, and signature; a refusal changes nothing. |
| SessionService.SessionTable.End | internal/coordinator/sessions.go:207-216 | Succeeds exactly for an end of the attempt naming its id, and removes that attempt alone. |
| SessionService.SessionTable.Admit | internal/coordinator/sessions.go:218-247 | Succeeds under exactly the condition of `SessionContracts.SignalIsAdmitted`. The signal goes from its sender to the other end, carries its next number and a new message id, and raises that sender's counter and the total by one; no other attempt or sender changes, and a refusal changes nothing. |
| SessionService.SessionTable.Heartbeat | internal/coordinator/sessions.go:50-91 | Accepted exactly for an admitted device and a linked account; the account then sees it online for half a minute and stale afterwards, no other presence changes, and it asks to be saved exactly when none was saved in the last minute. |
| SessionService.SessionTable.Offline | internal/coordinator/sessions.go:93-110 | The deletion loop forgets one account's presence, or every account's, and the throttle. |
| SessionService.SessionTable.ReadPresence | internal/coordinator/sessions.go:112-124 | Online for half a minute after the last report, stale afterwards, unreported without one. |
| SessionService.SignalHub.Register | internal/coordinator/signaling.go:74-90 | A device without a socket gets one with an empty queue; a second socket is refused. |
| SessionService.SignalHub.Send | internal/coordinator/signaling.go:26-43 | Succeeds exactly for a fitting message to a connected peer with fewer than 32 waiting, and appends it to that queue alone; otherwise nothing changes. |
| SessionService.SignalHub.Remove | internal/coordinator/signaling.go:92-98 | The device's socket goes, with its queue, and no other. |
| Limiter.ForgettingIsInvisible | internal/coordinator/stun.go:26-54 | On every call of every run the evicting limiter answers as one that forgets no source and counts only sources active in the last minute against the table limit. |
| Limiter.RateIsBounded | internal/coordinator/stun.go:26-54 | Any half-open interval of L whole seconds lets through at most 20(L+1) calls of one source and 1000(L+1) overall. |
| Limiter.RefusedOnlyWhenSpent | internal/coordinator/stun.go:26-54 | No call is refused without a reason: in the second up to it a thousand calls were let through, or twenty of its source, or 1024 other sources in the last minute. A spent budget is therefore open again a second later. |
| Limiter.TableIsBounded | internal/coordinator/stun.go:40-43 | The source table never exceeds 1024 entries. |
| Limiter.RateLimiter.Allow | internal/coordinator/stun.go:26-54 | The method with its eviction loop ends in the state and answer of the decision the theorems are about. |
| StrictJson.ScanExact | internal/protocol/json.go:47-81 | On the tokens of any value followed by any rest, the recogniser succeeds exactly when the value has no null, no repeated key and no level too deep, and leaves exactly the rest. |
| StrictJson.ScanSound | internal/protocol/json.go:47-81 | Whatever token stream is accepted, it begins with the tokens of a strict value. |
| StrictJson.MessageAccepted | internal/protocol/json.go:17-27 | A whole message is accepted if and only if it is the tokens of one strict value and nothing more. |
| StrictJson.ValueUnique | internal/protocol/json.go:15-16 | No token stream begins with the tokens of two different values, strict or not: an accepted message is one value. |
| StrictJson.Decoder.UniqueValue | internal/protocol/json.go:47-81 | The recursive method on the shared reader, with its key map and loop, always terminates, and accepts and consumes exactly what the specification does. |
| StrictJson.Recognise | internal/protocol/json.go:17-27 | A message is recognised exactly when it is one strict value with nothing after it. |
| CanonicalJson.MarshalReadsBack | internal/protocol/signal.go:85-91 | A reader of the grammar of RFC 8259 finds in the bytes exactly the items they were made from. |
| CanonicalJson.EscapedIsSafe | internal/protocol/signal.go:85-91 | No printed string has a control character, an HTML character or a line separator of its own. |
| CanonicalJson.PlainIsItself | internal/protocol/signal.go:85-91 | A string without special characters is printed as it is. |
| CanonicalJson.MarshalInjective | internal/protocol/signal.go:85-91 | Two JSON arrays of strings and integers with the same bytes have the same items. |
| Messages.Base64ReadsBack | internal/coordinator/certificates.go:23-25 | Decoding the unpadded base64url text by section 5 of RFC 4648 gives the bytes back. |
| Messages.Base64Injective | internal/coordinator/certificates.go:23-25 | The unpadded base64url text of section 5 of RFC 4648 determines the bytes. |
| Messages.SigningBytesAreDocumented | internal/protocol/lease.go:27-30 | A JSON reader finds in the signing bytes of a share, lease or signal exactly the documented array: its tag and every field but the signature, in order. |
| Messages.SigningBytesInjective | internal/coordinator/pairing.go:24-27 | Over all accepted shares, leases, signals and enrolment queries, equal signing bytes mean the same kind of record and equal fields. |
| RelayPorts.WalkVisitsEachPortOnce | internal/coordinator/turn.go:144-151 | For every valid range and start, offsets and ports of the range are in one-to-one correspondence. |
| RelayPorts.WalkGoesUp | internal/coordinator/turn.go:144-151 | A walk begins at its start port and goes up one by one, from the last port of the range to the first. |
| RelayPorts.PortRange.Allocate | internal/coordinator/turn.go:136-153 | Takes the requested port when it is free and in range, otherwise the first free port of the walk, and fails if and only if every port of the range is taken. |
| RelayPorts.LiveAllocationsAreDistinct | internal/coordinator/turn.go:120-153 | In any possible history of allocations and releases, live allocations hold distinct ports of the range. |
| RelayPorts.Serve | internal/coordinator/turn.go:136-153 | Driving one allocator through any list of allocations and releases answers each, yields a possible history that accounts for exactly the ports it holds, and never gives two live allocations one port. |

## Left out

- HTTP routing, TLS, WebSocket and UDP input and output, status codes, timeouts and closing handshakes. The machine keeps what they decide: connecting, disconnecting, receiving, enqueueing and draining.
- SQLite: a transaction is one step, as the store runs all of them on one connection; table constraints are part of the invariant or explicit conflicts. Failures of the database itself are not modelled.
- Cryptography, X.509 and signing requests: keys, signatures, digests and certificates are abstract values. Signing acts on records; `Messages.SigningBytesInjective` is what makes that the same as acting on bytes.
- Text is a sequence of Unicode characters, so encodings that replace invalid UTF-8 are not modelled, and lengths are counted in characters instead of bytes.
- The shape checks of names, tokens, request ids and signing requests that precede Enroll, JoinNetwork, Renew and RecoverCertificate: they only refuse, before any state is read.
- Logins, user sessions, telemetry, last-seen columns, the audit table, RenameNetwork, listing queries, ReadEnrollment and the pair identity view: they change or read nothing the properties speak of.
- Email uniqueness of accounts and the service's own identity record.
- The uint64 revision and sequence counters are unbounded; the latter stay below 513.
- Struct decoding, unknown and missing fields, and the size limit of a JSON message: only the token-level recogniser is modelled.
- TURN credentials, the TURN protocol and the configuration checks.
- StoreService.Store.CreateNetwork: the method runs its count and its insert together; `StoreRuns` has them as two events, and `NetworkQuota` says what that costs.
- StoreService.Store.ActOnPair: the method runs its reads, its update and the reads after it together; `StoreRuns` has them as separate events, and `PairTheorems.AnswerIsTheWrittenRowOrNewer` says what the last read can find.
- StoreService.Store.AdoptNetwork: the method runs its query and its turns together; `StoreRuns` has them as separate events, of which `Adoption.EveryPeerIsResolved` and the lemmas beside it speak.
- Adoption.AdoptNetworkSettles: speaks of the call with nothing in between, which `Adoption.TurnsAreAdoptAll` ties to the events of `StoreRuns`.
- SessionService.SessionTable.Begin: the methods of the class see one database at all their queries, as a call with nothing in between does; the machine of `Coordinator` has their queries as separate events.
- SessionService.SessionTable.Renew: the same as for Begin; `LeaseMembership.RenewSucceedsExactly` covers changes between its queries.
- SessionService.SessionTable.Admit: the same as for Begin; `LeaseMembership.AdmitSucceedsExactly` covers changes between its queries.
- The telemetry of a heartbeat, and its save after the lock is released.
- SessionRules.VerifySignal: the several errors of a malformed payload are one error here.
- StrictJson.Decoder.UniqueValue: the tokenizer beneath the reader is the stream of its tokens with a marker for a syntax error; the three errors of a refusal are one answer.
- Limiter.RefusedOnlyWhenSpent: for clocks that read no earlier than the zero time of the language, the year 1, from which an unused window is dated.
- Messages.SigningBytesInjective: an unknown signal type is not an accepted shape, because such a signal is refused before its signature is checked.
- RelayPorts.PortRange.Allocate: binding succeeds exactly on a port nobody holds; the host's other sockets are a set that stays fixed during one call.

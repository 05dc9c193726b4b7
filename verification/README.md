# MuiltDesk coordination server: a verified model

The server mediates remote-desktop sessions. Operators ask for a session from one of their devices to
a target device; the target's owner, proving presence with a signed one-time challenge from that
device, approves, narrows, revokes or hands over control; expiry, logout, token reuse and device
revocation end sessions. All of it is one set of linked maps behind one mutex.

The project has three layers.

- **What a section does.** `Model` gives, for every handler, the outcome of its critical section on a
  value `State`: which session effect it has, what it records, what it answers. `Platform.Service` is
  the class whose methods run the source's loops and update its fields and session objects in place;
  every method is proved to leave exactly the state, and give exactly the answer, of its plan.
- **What every run keeps.** `Runs` is the transition system of all interleavings of those sections,
  under a clock that does not go back. `Frames` says what each section leaves alone; `Plans`,
  `Invariants`, `History`, `Credentials`, `Families` and `Worlds` prove the invariant of every reachable
  state; `Flow`, `Promises`, `Crashes`, `Authority`, `Access`, `Refresh`, `Presence`, `Lifetime`, `Rates`
  and `Purging` prove what holds across whole runs. `Rulings`, `Terminations`, `Enrolment`, `Logins`,
  `Proofs` and `Listings` say exactly what each request is answered and what it leaves, on the fields of
  the records and on the events of the run, without the functions of `Model`. `Served` narrows the runs to those in which every
  handler has its own prologue and access check. `Requests` and `Clients` build such runs request by
  request, and `Reachable` has the ones that matter (two devices enrolled, a session requested, approved,
  handed control), so the promises are about something.
- **Stand-alone parts.** `Bits`, `Base64`, `Base64Loops`, `TrimSpace` and `PublicKeys` treat the
  hand-written base64 code of the PostgreSQL store against RFC 4648; `Keys` the key texts that devices
  register; `Token` the signed tokens and device proofs; `AuditLog` and `MemoryStore` the bounded log;
  `Permissions` the permission lists.

## Findings

- `invalidate` reads the owner of every connected peer's device without a check, and `signalling`
  connects a peer under any name. A logout, or a used refresh token presented again, therefore panics
  exactly when some connected peer is not a registered device (`CompletesIffPeersKnown`). The sessions
  have ended and the tokens are out of date by then; the event `account.logout` or
  `auth.refresh_reuse` is never recorded (`CrashLosesOnlyItsEvent`, and the run of `CrashIsReachable`).
- `decideSession` does not look at the deadline of the request it approves, so a session's life is
  bounded by its creation plus 2 minutes plus 8 hours exactly if it was approved in its first 2 minutes
  (`DeadlineIffTimelyApproval`). The prologue of the deciding request has ended what was overdue then,
  but the handler may come later, and the proof it carries is good for less than a minute after that
  prologue. In every served run the deadline is therefore at most 8 hours and 3 minutes minus 2 ns after
  creation (`ServedDeadline`), and some served run reaches this (`BoundIsReached`). In the same
  way a section may act on a session past its deadline, by less than a minute (`ServedAction`), as the
  approval in that run does.
- `registerDevice` compares the texts of keys, while `VerifyDevice` decodes them, and the standard
  decoder skips line breaks and ignores pad bits. A revoked key can be registered again under another
  text: `BreakKeepsKey` gives the text and `RevokedKeyReturns` the run. A registration is refused for its
  key exactly if its text is stored for a revoked device or for another owner's
  (`BarredIffTextWasStored`).
- The fixed-window limiter lets at most 2·limit − 1 requests through in any half-open minute, one
  fewer than two full windows, and that many in some run (`MinuteBound`, `MinuteBoundIsReached`).
- The base64 decoder accepts texts that section 3.5 of RFC 4648 calls non-canonical: it stops at the
  first `=`, ignores what follows and ignores pad bits. Re-encoding what it decoded returns the text
  itself exactly if the text is canonical (`ReencodeIffCanonical`).
- The user name of a relay credential carries whole seconds, so the moment the relay reads can lie in
  the past although the credential's own deadline does not. `RelaySecondsAfterNow` says exactly when,
  and `PastCredentialIsReachable` is a run in which the service answers such a credential.
- No device's last-seen time is ever written by the source outside its tests. In every run a device is
  live only within 45 seconds of the environment step `Touch` (`LiveIffTouched`), and a run without
  that step never has a session (`NoTouchNoSession`).

## Assumptions

- Random identifiers are non-empty and never drawn twice; the token digest is injective; a password
  hash matches exactly its password; a MAC or signature is made only with its key and is good only for
  its text.
- Each critical section reads the clock once, and those readings do not go back. `verifyAccess` reads
  it before it takes the mutex; its reading is an input of its own, no later than its section. The
  prologue of a request and its handler are separate sections, so others may come in between.
- A panic in a handler runs its deferred unlock, and the HTTP server goes on with other requests.
- The check of an access token is a section of its own, before the handler's. A run may therefore let
  any account act at any time, which includes an account whose token has lapsed since the check.
- A served run is one in which every handler comes after a prologue of its own that let it through and,
  if it needs one, an access check of its own that named its user. What the request carries of the names
  the server draws was drawn before that prologue: nobody guesses one. How long a handler comes after its
  prologue is not bounded. The read timeout that `cmd/server` sets bounds the wait for a body and not
  the wait for the mutex, and is not part of this model.
- The order in which a loop ranges over the session map, where it matters (the order of the end
  events), is a parameter of the section; all other loops over maps are proved to be independent of it.
- `register` and `login` are one section each. The source's `login` looks the account up in one section
  and issues in a second; `LookupLasts` shows that whatever comes between, the lookup still holds.
- Versions, epochs and counters do not wrap at 2^64. The rules that make a mail address acceptable are
  one boolean input of `register`, and addresses are given as normalised.

## Model

| member | source | states |
|---|---|---|
| Worlds.RunSound | server/internal/platform/service.go:311-834 | the invariant of all reachable states: every run of any length keeps grants, exclusive control, quotas, device links, registry, token families and the audit trail sound together |
| Promises.NeverStuck | server/internal/platform/service.go:470-687 | after any run, whatever request comes next, the accounts, refresh-token owners, and session targets that the handlers dereference without a nil check are there, so the run goes on with it; the lookups among the peers are the subject of the next three rows |
| Crashes.CompletesIffPeersKnown | server/internal/platform/service.go:470-487 | after any run, any request that may come next gets to its end exactly if it is not a logout or a token reuse, or every connected peer is a registered device |
| Crashes.CrashLosesOnlyItsEvent | server/internal/platform/service.go:452-487 | when it does not, in any run, the invalidated user's sessions are all closed, and nothing is recorded but their closing |
| Reachable.CrashIsReachable | server/internal/platform/service.go:461-487 | a served run of a registration, a connection under an unknown name and a logout that is not recorded |
| Reachable.ActiveIsReachable | server/internal/platform/service.go:630-735 | a served run from the empty service through registration, enrolment, request and approval to an active session: its owner asks for the challenge at any time in the request's 2 minutes and approves at any time in the challenge's minute |
| Reachable.HandoverIsReachable | server/internal/platform/service.go:773-808 | any of those runs goes on, served, to an accepted handover, after which the session is in control |
| Promises.AuditDeterminesSession | server/internal/platform/service.go:242-249 | in every run a session's own events form a prefix of requested, then an end, or approved, changes, and an end that is not a rejection; the last one fixes its state; its epoch is their number plus the handovers past it while it was active |
| Promises.TrailIsAboutSessions | server/internal/platform/service.go:195-202 | no session event is about anything but a stored session |
| History.DeterminedKept | server/internal/platform/service.go:242-249 | replaying the history gives state and epoch of every session after any section, if it did before |
| History.FoldIsLanguage | server/internal/platform/service.go:675-820 | stepping through events without an illegal one is the same as the event sequence being of the language above |
| Promises.EpochIsCount | server/internal/platform/service.go:784-806 | the replayed epoch counts the session's own events and the handovers that passed it while active |
| Flow.EpochNamesSnapshot | server/internal/platform/service.go:668-806 | between any two moments of any run a session's epoch never falls; equal epochs mean the same record entirely and conversely; parties, keys, request and creation never change; an ended session is frozen |
| Promises.ControlIsExclusive | server/internal/platform/service.go:688-767 | in every run at most one active session per target holds mouse or keyboard |
| Promises.HandoverIsExact | server/internal/platform/service.go:773-808 | after an accepted handover the session handed to is in control of its target and no other session of that target is |
| Invariants.ComesIntoControl | server/internal/platform/service.go:719-806 | a session comes into control only by a grant while nobody else controls its target, or by a handover |
| Rulings.HandoverChangesExactly | server/internal/platform/service.go:773-808 | in any run a handover is accepted exactly if the target's owner proves presence, the session is active and requested mouse or keyboard; then every other active session of the target loses exactly those two, this one gains what it requested of them, and every other record is the same |
| Rulings.ChangeIsExact | server/internal/platform/service.go:736-772 | in any run a change is answered with the session exactly if the target's owner proves presence, the session is active, and the list is empty, or proper, within the request and no second hand on the controls; the session is then revoked, or stays active with that very list, and all else of it but the epoch is as before |
| Rulings.DecideIsExact | server/internal/platform/service.go:696-735 | in any run a decision is answered with the session exactly if the target's owner proves presence, the session is pending, and it is a refusal or such a list; the session is then rejected, or active for 8 hours with that very list |
| Rulings.StopIsExact | server/internal/platform/service.go:809-821 | in any run a stop is answered with the session exactly if its operator or its target's owner asks; an open one is then closed with an empty grant, an ended one unchanged; otherwise 404 and nothing changes |
| Rulings.RequestIsExact | server/internal/platform/service.go:630-674 | in any run a session comes about exactly if its operator proves presence through a live device of its own, the target is another live device, the list is proper, and the operator has fewer than 10 open sessions, none to this target; it is then pending for 2 minutes with that list requested, nothing granted, and the devices' keys |
| Terminations.EndsIffCaused | server/internal/platform/service.go:217-250 | in any run an open session ends exactly if the event is a prologue at or after its deadline, a stop or invalidation of its operator or its target's owner, a refusal or an empty list from the proved owner of its target, or a revocation of one of its devices by that device's owner; and then in the state due to it, with an empty grant |
| Terminations.ArriveIsExact | server/internal/platform/service.go:219-240 | in any run a prologue ends exactly the overdue sessions, as the system, each recorded once, and leaves accounts, devices and peers alone |
| Terminations.LogoutIsExact | server/internal/platform/service.go:461-487 | in any run a logout uses up exactly the user's tokens, moves the account's version on by one, ends exactly the open sessions the user is party to, each recorded once, and is recorded and answered if every peer is a registered device |
| Terminations.ReuseIsExact | server/internal/platform/service.go:447-456 | in any run a used token presented in time does the same to its user, and uses up its family |
| Promises.QuotasHold | server/internal/platform/service.go:654-670 | in every run each operator has at most 10 open sessions, no two to one target |
| Promises.GrantIsWithinRequest | server/internal/platform/service.go:174-194 | in every run a grant has no duplicates, is within the request, holds view exactly while the session is active and is empty otherwise |
| Promises.DevicesBehindSessions | server/internal/platform/service.go:595-670 | in every run each session's target is registered, and an open session joins two distinct unrevoked devices, the source its operator's, with the keys it recorded |
| Promises.RegistryIsSound | server/internal/platform/service.go:539-567 | in every run no two devices share a key text and each owner has at most 100 unrevoked devices |
| Promises.RevokedKeyStaysOut | server/internal/platform/service.go:539-551 | in any run a key text that was ever revoked, or is held by another owner, is refused by every later registration and changes no device |
| Promises.BarredIffTextWasStored | server/internal/platform/service.go:515-568 | in any run a well-formed registration whose proof passes is refused for its key exactly if this very text was stored, then or before, for a device revoked or another owner's |
| Reachable.RevokedKeyReturns | server/internal/platform/service.go:535-567 | a served run in which an account revokes a device and enrols another with the same 32-byte key under another text |
| Keys.BreakKeepsKey | server/internal/security/token.go:63-67 | a line break put anywhere into a key text gives another text for the same key |
| Keys.EncodedKey | server/internal/security/token.go:63-67 | the standard encoding of 32 bytes is a text for them |
| Flow.RegistryOnlyGrows | server/internal/platform/service.go:515-614 | between any two moments of a run a device stays, with its owner and key text, and stays revoked |
| Enrolment.EnrolmentIsExact | server/internal/platform/service.go:515-568 | in any run each answer of a registration is given exactly when it should be; a text held by an unrevoked device of the user updates its name, system and kind and nothing else; a free text stores a device as the request says if the user has fewer than 100 |
| Enrolment.OnlyOwnerRevokes | server/internal/platform/service.go:595-614 | in any run a device comes to be revoked exactly by a revocation that its owner asks for |
| Terminations.RevokeIsExact | server/internal/platform/service.go:595-614 | in any run a revocation is answered exactly if the device is registered and the user owns it, else 404 and nothing changes; the device is then revoked and nothing else of any device changed, and no open session is on it |
| Authority.OnlyOwnerEnlarges | server/internal/platform/service.go:675-808 | in any run, when a session gains a permission, it was requested, the owner of the session's target acted through that live device with a valid proof and named it (mouse or keyboard in a handover), and the challenge is gone |
| Authority.NonceIsGoodOnce | server/internal/platform/service.go:503-514 | over a whole run a nonce whose proof once passed passes no later check |
| Authority.PassingWasAskedFor | server/internal/platform/service.go:494-514 | a proof that passes answers a challenge that the same user was given less than a minute before |
| Proofs.ProofIsExact | server/internal/platform/service.go:494-514 | in any run a proof that is checked passes exactly if its user asked for the challenge less than a minute before, no proof under that nonce was checked since, good or bad, and the signature is the one made with the very key over method, path and nonce |
| Proofs.ChallengeIsExact | server/internal/platform/service.go:494-500 | in any run whoever asks gets the nonce drawn for it, stored for that user for a minute, and nothing else changes |
| Authority.CheckingSpends | server/internal/platform/service.go:503-506 | a proof that is checked, good or bad, uses its challenge up |
| Authority.FailingIsRefused | server/internal/platform/service.go:503-514 | a failed check is answered 403 and does nothing else than use the challenge up |
| Refresh.FamilyDiesByReuse | server/internal/platform/service.go:433-487 | in any run, once a used unexpired refresh token is presented, every token that was stored with its family at any earlier moment is answered 401 from then on, or not at all where the section panics |
| Refresh.RefreshIsGoodOnce | server/internal/platform/service.go:442-459 | over a whole run a refresh token that was accepted is never accepted again |
| Refresh.RefreshIsExact | server/internal/platform/service.go:433-460 | in any run a refresh token that was handed out is accepted later, and answered with tokens for the same user, exactly if less than 7 days have passed, it was not accepted before, and its user was not invalidated in between |
| Refresh.ReuseInvalidates | server/internal/platform/service.go:448-456 | a reuse in a token's family invalidates that token's user |
| Refresh.FamiliesAreSound | server/internal/platform/auth.go:79-86 | in every run each family has one user and at most one unused token, which expires last |
| Logins.RegisterIsExact | server/internal/platform/service.go:368-399 | in any run a registration makes an account exactly if it is acceptable and no registration of that address was answered with tokens before; the account and its tokens are then as the request says, else 400 or 409 and nothing changes |
| Logins.LoginIsExact | server/internal/platform/service.go:400-432 | in any run a login is answered with tokens for a user exactly if some earlier registration of that address and that password was; else 401 and nothing changes |
| Logins.LongPasswordIsRefused | server/internal/platform/service.go:408-411 | in any run a login with a password of more than 256 characters is answered 400 and changes nothing |
| Logins.RotateIsExact | server/internal/platform/service.go:433-459 | in any run a refresh token is exchanged exactly if it is stored, in time and unused; it is then used, and one new token of its family and user is stored for 7 days; an unknown or overdue one changes nothing |
| Access.AccessIsExact | server/internal/platform/auth.go:61-76 | in any run a token that was handed out is accepted later, as its recipient's, exactly if the clock read from 60 seconds before its second of signing to less than 600 after, and that user was not invalidated in between |
| Access.AcceptedWasHandedOut | server/internal/security/token.go:32-58 | in any run in which nobody else makes a MAC with the server's key, a token is accepted as a user's exactly if it was handed out to that user earlier, is in its window, and the user was not invalidated since |
| Access.LookupLasts | server/internal/platform/service.go:416-431 | the account that login finds under an address and a password is still the one they name at every later moment of any run |
| Access.VersionTells | server/internal/platform/service.go:470-471 | between two moments a user's version is the same exactly if no section invalidated the user |
| Token.SignedWindow | server/internal/security/token.go:24-58 | a signed token verifies exactly from 60 seconds before to 600 after its signing second, and then says who and which version was signed |
| Token.ProofIsBound | server/internal/security/token.go:60-70 | one signature cannot be good for two different methods, paths or nonces, nor under two texts of different keys, although the message is built by joining lines |
| Served.ServedDeadline | server/internal/platform/service.go:311-331 | in every served run an active session's deadline is at most 8 hours and 3 minutes minus 2 ns after its creation |
| Served.ServedAction | server/internal/platform/service.go:503-514 | in every served run a section whose proof passes finds no session open a minute minus 1 ns or more after its deadline |
| Reachable.BoundIsReached | server/internal/platform/service.go:705-735 | a served run with an active session whose deadline is exactly at that bound |
| Lifetime.DeadlineBound | server/internal/platform/service.go:727-730 | in any run in which approvals come no more than some lag after a prologue, the deadline is less than 2 minutes, 8 hours and that lag after creation |
| Lifetime.OpenBeforeDeadline | server/internal/platform/service.go:219-225 | in any run no section that comes at most some lag after a prologue finds a session open that lag or more after its deadline |
| Lifetime.DeadlineIffTimelyApproval | server/internal/platform/service.go:727-730 | in any run an active session has an approving decision that took it from pending to active and set its deadline, and the deadline is within that bound exactly if the decision came within 2 minutes of its creation |
| Presence.LiveIffTouched | server/internal/platform/service.go:216-218 | in any run a device is live exactly if it is registered, unrevoked, connected, and was last touched less than 45 seconds before |
| Presence.NoTouchNoSession | server/internal/platform/service.go:640-644 | in any run without a touch there is never a session |
| Lifetime.RelayWithinSession | server/internal/platform/ice.go:27-59 | a relay deadline is after now, at most 10 minutes away, at most the session's, one of the two exactly; exactly the configured relays carry the credential |
| Listings.RelaysAreExact | server/internal/platform/ice.go:27-59 | in any run exactly a party to an active session before its deadline gets relay addresses, if any are configured, with a credential of its own on exactly the relays among them; each refusal exactly when it should be |
| Lifetime.RelaySecondsAfterNow | server/internal/platform/ice.go:43-48 | the whole-second deadline lies after now exactly if the session lasts into the next whole second |
| Reachable.PastCredentialIsReachable | server/internal/platform/ice.go:43-48 | a served run that ends with a relay credential whose whole seconds have passed before it is answered |
| Rates.MinuteBound | server/internal/platform/service.go:311-330 | in every run, with and without deletion of stale windows, every half-open minute lets fewer than 2·limit requests of a host through |
| Rates.MinuteBoundIsReached | server/internal/platform/service.go:311-330 | some run lets 2·limit − 1 through in a minute |
| Rates.WindowLimit | server/internal/platform/service.go:319-325 | in every run each window lets at most the limit through |
| Rates.AdmittedIffRoom | server/internal/platform/service.go:311-330 | in every run, with and without deletion of stale windows, a request is let through exactly if its window, reckoned from the requests alone, has seen at most 15 authentication requests of the host, or 300 others |
| Purging.PurgeInvisible | server/internal/platform/service.go:226-240 | every run is answered, event for event, like a run of a service that never deletes a stale challenge, window or token |
| Purging.KeepingInvisible | server/internal/platform/service.go:226-240 | conversely, every run of that service is answered like a run of the one that deletes |
| AuditLog.NewestIsMatchingReversed | server/internal/platform/service.go:822-834 | a listing is the matching entries read backwards and cut at its limit, none skipped or repeated |
| AuditLog.MatchingOfLast | server/internal/platform/service.go:195-200 | the bounded log is the last 10000 of the history, and looking at it loses only older entries |
| AuditLog.GatherIsNewest | server/internal/platform/service.go:822-834 | the backward loop, from any point, ends with the newest wanted entries in order |
| Listings.ListingIsExact | server/internal/platform/service.go:822-834 | in any run a listing is the newest 200, newest first, of those among the last 10000 events that the user caused or that are about a device of the user's or a session the user is party to |
| Permissions.ValidGrantIsShort | server/internal/platform/service.go:174-186 | the length test of validPermissions cannot fail for a list that passes the others |
| Permissions.ValidPermissions | server/internal/platform/service.go:174-186 | accepts exactly the duplicate-free lists of known permissions with view |
| Permissions.Subset | server/internal/platform/service.go:187-194 | accepts exactly if every element occurs in the other list |
| Permissions.WithoutControlKeeps | server/internal/platform/service.go:786-791 | stripping control removes mouse and keyboard, nothing else, and makes no duplicates |
| Permissions.WithControlAdds | server/internal/platform/service.go:797-801 | a handover adds exactly the requested control permissions and makes no duplicates |
| Platform.Service.Arrive | server/internal/platform/service.go:311-330 | the prologue on objects and maps: overdue sessions ended in loop order, stale entries deleted, the window charged, the answer |
| Platform.Service.EndAll | server/internal/platform/service.go:219-225 | the loop that ends sessions finishes exactly those it should, in place, with their events in loop order |
| Platform.Service.Register | server/internal/platform/service.go:368-399 | the new account, its address, its event and its first tokens, or the refusal, as planned |
| Platform.Service.Login | server/internal/platform/service.go:400-432 | tokens of a new family for the account whose password it is, or the refusal, as planned |
| Platform.Service.Rotate | server/internal/platform/service.go:433-460 | rotation, reuse detection with its loops, the panic at an unknown peer and the refusals, as planned; and the sockets it closes, none unless a token is reused |
| Platform.Service.Logout | server/internal/platform/service.go:461-487 | every token of the user out of date, every visible open session closed, and the panic at an unknown peer, as planned; and the sockets it closes |
| Platform.Service.CloseSockets | server/internal/platform/service.go:482-486 | the loop over the peers gets to its end exactly if all are registered devices, and then closes exactly the user's, in whichever order |
| Platform.Service.VerifyAccess | server/internal/platform/auth.go:64-76 | answers as planned and changes nothing |
| Platform.Service.CheckProof | server/internal/platform/service.go:503-514 | the verdict on a proof, and the challenge used up |
| Platform.Service.FindDevice | server/internal/platform/service.go:539-557 | the registration loop finds the holder of the key or counts the user's unrevoked devices, in whichever order |
| Platform.Service.RegisterDevice | server/internal/platform/service.go:515-568 | enrolment, confirmation and every refusal, as planned |
| Platform.Service.RevokeDevice | server/internal/platform/service.go:595-614 | the device revoked and its open sessions ended, as planned; and its socket closed if it has one |
| Platform.Service.CountOpen | server/internal/platform/service.go:654-664 | the quota loop tells a duplicate, or counts the open sessions, in whichever order |
| Platform.Service.RequestSession | server/internal/platform/service.go:630-674 | the new pending session or the refusal, as planned |
| Platform.Service.TargetSession | server/internal/platform/service.go:675-687 | lets exactly the proved owner of a live target through, and answers the rest |
| Platform.Service.ControllerIsBusy | server/internal/platform/service.go:688-695 | whether another active session of the target holds control |
| Platform.Service.DecideSession | server/internal/platform/service.go:696-735 | approval, rejection and every refusal, as planned |
| Platform.Service.ChangePermissions | server/internal/platform/service.go:736-772 | narrowing, revocation by an empty list and every refusal, as planned |
| Platform.Service.HandoverSession | server/internal/platform/service.go:773-808 | control taken from every other active session of the target and given to this one, as planned |
| Platform.Service.StopSession | server/internal/platform/service.go:809-821 | an open visible session closed, an ended one answered unchanged, as planned |
| Platform.Service.ListAudit | server/internal/platform/service.go:822-834 | the page of the newest entries that concern the user, at most 200 |
| Platform.Service.NewestConcerning | server/internal/platform/service.go:822-834 | the backward loop over the bounded slice returns exactly that page of the full history |
| Platform.Service.IceConfiguration | server/internal/platform/ice.go:27-59 | the relay entries and deadline, or the refusal, as planned |
| MemoryStore.Store.CreateAudit | server/internal/store/memory.go:323-332 | the stored log stays the last 10000 of everything recorded |
| MemoryStore.Store.ListAudit | server/internal/store/memory.go:334-346 | the newest retained events of the actor, newest first, up to any limit, negative ones included |
| Base64Loops.DecodeInto | server/internal/store/postgres.go:289-325 | rejects the first illegal character before the first `=` unless the buffer overflows first; whatever the verdict, writes exactly the octets before that character that fit, and leaves the rest of the buffer alone |
| Base64Loops.ReadDecodes | server/internal/store/postgres.go:305-322 | the bit accumulator, never masked and wrapping in 32 bits, reads the first floor(6k/8) octets of the k concatenated 6-bit groups |
| Base64Loops.EncodeBytes | server/internal/store/postgres.go:359-389 | the block loop writes the encoding of section 4 of RFC 4648 |
| Base64.RoundTrip | server/internal/store/postgres.go:289-389 | decoding an encoding gives the bytes back, for every length |
| Base64.ReencodeIffCanonical | server/internal/store/postgres.go:289-389 | re-encoding a decoded text is a fixed point, and gives the text itself exactly if its padding and pad bits are canonical (section 3.5 of RFC 4648) |
| Base64.EncodeIsCanonical | server/internal/store/postgres.go:359-389 | every encoding is canonical |
| Base64.NonCanonicalAccepted | server/internal/store/postgres.go:289-325 | a text that is accepted and is not canonical |
| PublicKeys.PublicKeyBytes | server/internal/store/postgres.go:251-261 | a key exactly if the text, white space around it apart, decodes to 32 bytes |
| PublicKeys.KeyRoundTrip | server/internal/store/postgres.go:251-389 | a 32-byte key survives being encoded and read back, with any white space put around it |
| TrimSpace.TrimOfPadded | server/internal/store/postgres.go:252 | trimming takes exactly the white space off, in any of its UTF-8 encodings |
| TrimSpace.TrimIsTrimmed | server/internal/store/postgres.go:252 | what trimming leaves neither begins nor ends with white space |

## Left out

- Account and refresh-token records: in `Platform.Service` they are values held in its maps and replaced
  there; devices and sessions are objects shared between the maps and the handlers. Aliasing of the
  first two is not captured.
- Sockets: the signalling loop and `notify`; presence is an input (`Connect`, `Disconnect`), and which
  sockets `invalidate` and `revokeDevice` close is an answer of their methods, not a change of state.
- `Touch`: stands for the missing heartbeat; no code outside the tests sets a device's last-seen time.
- Event identifiers of the audit log, the second log that `recordEvent` keeps in the store, and `slog`.
- `me`, `listDevices`, `listSessions`, `lookupDevice`: plain reads, easy members.
- Platform.Service.Register: takes the address as trimmed and lower-cased, and whether `net/mail`
  accepts it as an input.
- Platform.Service.Login: takes the address as trimmed and lower-cased; its two sections are one.
- HTTP, JSON decoding, headers, the two-slot limit on password hashing.
- Two-factor login, mail, teams, workflows and AI handlers. Several of them record without the mutex;
  `session.ai_analyzed` is kept as an event that any user may add about any name. `verify2FALogin`
  issues tokens for any user name, which would break the invariant that tokens belong to accounts.
- Argon2, HMAC, SHA-256, Ed25519 and randomness: assumptions above. The base64 and JSON layers of access
  tokens are one case, `Malformed` or `Garbled`. The base64 layer of signatures and the credential half of
  `TURNCredential` likewise.
- SQL, transactions, Redis and the other methods of the memory store.
- `ConfigureICE`: the relay addresses are given when the service is made.
- Base64Loops.DecodeInto: does not model the decoder's out-parameter, which its only caller ignores.
- Wrap-around of the 64-bit version, epoch and sequence counters.

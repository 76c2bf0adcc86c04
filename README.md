# Voting system contracts in Dafny

A model of the three small voting contracts of the Voting-System repository:

- the **voter registration** contract: a set of registered voters, a
  `registrationOpen` flag that gates new registrations, and the fixed owner
  `"owner1"` who alone may open or close registration;
- the **ballot creation** contract: ballots (title, options, creator) stored
  under ids handed out by a counter `lastBallotId` that only grows, so an id is
  never issued twice, even after its ballot is closed (deleted);
- the **vote casting** contract: a ledger of at most one option index per
  (ballot id, voter) pair.

Each contract is one module and one file. Each has:

- a value type for its state (`Registry`, `Store`, `Ledger`);
- pure step functions (`Register`, `Create`, `Cast`, ...) that return the
  result together with the next state. Their `ensures` clauses say when the
  operation succeeds, which error it raises otherwise, what the new state is,
  and that a failure changes nothing;
- a class holding the contract's own mutable state (`VoterRegistry`,
  `BallotStore`, `VoteLedger`). Its mutating methods update the fields in
  place, and each one's contract ties the new state and the result to the step
  function; each query's contract gives its result in terms of the current
  state;
- lemmas over sequences of calls (`Run`) for the properties that span several
  calls: only the owner moves the registration flag, ids are consecutive and
  never reissued, and a vote is accepted at most once and never changes;
- client methods that replay the repository's test cases against the class
  and state their outcomes in their `ensures` clauses.

`outcomes.dfy` holds what the three share. Every thrown `Error` becomes one
variant of `Error`, and `Message` gives its text. A successful call returns
`Ok(true)`, `Ok(id)` for `createBallot` or `Ok(options)` for
`getBallotOptions`. `getBallot` and `getVote` return `None` when nothing is
stored.

Behaviour of the code that the model keeps as it is:

- `castVote` checks only for a duplicate (ballot, voter) pair. It does not
  check registration, ballot existence or the option range. The stubs at
  tests/vote-casting.test.ts:20-27 are never called.
- `createBallot` rejects only more than 10 options, so a ballot with no
  options is accepted.
- A rejected `createBallot` consumes no id, because the check comes before
  `++lastBallotId`.
- Closing a ballot deletes only its record. Votes cast for it stay in the
  ledger, because the vote ledger is independent of the ballot store.

The source keys votes by the text `${ballotId}-${voter}`. The model keys them
by the pair `(ballotId, voter)`. The two agree for integer ids: the text of an
integer contains no `-` except a leading sign, so the first `-` after the sign
ends the id.

## Model

| member | source | states |
|---|---|---|
| `Outcomes.MessageInjective` | tests/voter-registration.test.ts:10-29 | Each error variant has its own message, so the thrown text identifies the failure. The messages of the other two contracts (tests/ballot-creation.test.ts:9-29, tests/vote-casting.test.ts:9) are covered too. |
| `VoterRegistration.Initial` | tests/voter-registration.test.ts:43-46 | The reset state has no voters, and registration is open. |
| `VoterRegistration.Register` | tests/voter-registration.test.ts:9-14 | Succeeds iff registration is open and the voter is new, and then adds exactly that voter. When closed it fails with RegistrationClosed, even for a voter already registered. When open with a duplicate it fails with AlreadyRegistered. A failure leaves the state unchanged. |
| `VoterRegistration.Unregister` | tests/voter-registration.test.ts:16-20 | Succeeds iff the voter is registered, and then removes exactly that voter and keeps the flag. Otherwise it fails with NotRegistered and changes nothing. The voter is absent afterwards. |
| `VoterRegistration.Close` | tests/voter-registration.test.ts:22-26 | Succeeds iff the caller is the owner, and then clears the flag. Any other caller gets Unauthorized and the state is unchanged. The voter set never changes. |
| `VoterRegistration.Open` | tests/voter-registration.test.ts:28-32 | Succeeds iff the caller is the owner, and then sets the flag. Any other caller gets Unauthorized and the state is unchanged. The voter set never changes. |
| `VoterRegistration.ToggleIdempotent` | tests/voter-registration.test.ts:22-32 | A second close or open by the owner succeeds again and leaves the same state. |
| `VoterRegistration.UnregisterIgnoresGate` | tests/voter-registration.test.ts:16-20 | Unregistering has the same result and the same effect on the voter set whether registration is open or closed. |
| `VoterRegistration.RegisterThenUnregister` | tests/voter-registration.test.ts:9-20 | While open, registering a new voter and then unregistering them restores the original state. |
| `VoterRegistration.OnlyOwnerToggles` | tests/voter-registration.test.ts:22-32 | Without a close or open call by the owner, the flag is the same after any sequence of calls. |
| `VoterRegistration.ClosedGateAdmitsNobody` | tests/voter-registration.test.ts:9-32 | While registration is closed and the owner does not reopen it, no sequence of calls adds a voter, and registration stays closed. |
| `VoterRegistration.VoterRegistry.constructor` | tests/voter-registration.test.ts:4-6 | A new registry is in the reset state. |
| `VoterRegistration.VoterRegistry.RegisterVoter` | tests/voter-registration.test.ts:9-14 | Updates the set in place and returns what `Register` prescribes. |
| `VoterRegistration.VoterRegistry.UnregisterVoter` | tests/voter-registration.test.ts:16-20 | Updates the set in place and returns what `Unregister` prescribes. |
| `VoterRegistration.VoterRegistry.CloseRegistration` | tests/voter-registration.test.ts:22-26 | Updates the flag in place and returns what `Close` prescribes. |
| `VoterRegistration.VoterRegistry.OpenRegistration` | tests/voter-registration.test.ts:28-32 | Updates the flag in place and returns what `Open` prescribes. |
| `VoterRegistration.VoterRegistry.IsRegistered` | tests/voter-registration.test.ts:34-36 | Returns set membership and changes nothing. |
| `VoterRegistration.VoterRegistry.IsRegistrationOpen` | tests/voter-registration.test.ts:38-40 | Returns the current flag and changes nothing. |
| `VoterRegistration.RegisterTwiceScenario` | tests/voter-registration.test.ts:48-57 | A first registration returns true and makes the voter registered. A second one fails with "Already registered". |
| `VoterRegistration.UnregisterScenario` | tests/voter-registration.test.ts:59-68 | Unregistering an unknown voter fails with "Not registered". Unregistering a registered voter returns true and removes them. |
| `VoterRegistration.GateScenario` | tests/voter-registration.test.ts:70-94 | A non-owner gets "Unauthorized" when closing and when opening. The owner closes registration, and a registration then fails with "Registration closed". The owner reopens it. |
| `BallotCreation.Initial` | tests/ballot-creation.test.ts:34-37 | The reset state has no ballots, the counter is 0, and every stored id lies within the issued range. |
| `BallotCreation.Create` | tests/ballot-creation.test.ts:8-13 | Succeeds iff there are at most 10 options, so 0 to 10 options are accepted. On success it returns the old counter + 1, stores the counter at that value and stores exactly (title, options, creator) under the new id, which was not in use. Otherwise it fails with TooManyOptions and leaves the counter and the map unchanged. The counter never decreases, and the invariant that stored ids lie in 1..counter is kept. |
| `BallotCreation.Close` | tests/ballot-creation.test.ts:15-21 | Succeeds iff the ballot exists and the caller is its creator, and then deletes exactly that entry. A missing id fails with BallotNotFound, checked first. An existing ballot with another caller fails with Unauthorized. A failure changes nothing. The counter is never decremented. |
| `BallotCreation.FirstIdIsOne` | tests/ballot-creation.test.ts:39-41 | From the reset state an accepted ballot gets id 1. |
| `BallotCreation.IssuedIdsAreConsecutive` | tests/ballot-creation.test.ts:8-21 | Over any sequence of create and close calls, the returned ids are the consecutive integers after the starting counter. The counter ends that many steps further on. |
| `BallotCreation.RunKeepsValid` | tests/ballot-creation.test.ts:8-21 | The invariant that stored ids lie in 1..counter holds after any sequence of calls. |
| `BallotCreation.RetiredIdStaysRetired` | tests/ballot-creation.test.ts:8-21 | An id that was issued but is no longer stored is never stored or issued again. |
| `BallotCreation.ClosedBallotNeverReturns` | tests/ballot-creation.test.ts:15-21 | After its creator closes a ballot, its id is never issued again and never found again, whatever calls follow. |
| `BallotCreation.BallotStore.constructor` | tests/ballot-creation.test.ts:4-5 | A new store is in the reset state, and the object invariant (stored ids lie in 1..counter) holds. |
| `BallotCreation.BallotStore.CreateBallot` | tests/ballot-creation.test.ts:8-13 | Bumps the counter and sets the map entry in place, as `Create` prescribes. It keeps the object invariant, and a returned id was not in use and exceeds the old counter. |
| `BallotCreation.BallotStore.CloseBallot` | tests/ballot-creation.test.ts:15-21 | Deletes the map entry in place, as `Close` prescribes, and keeps the object invariant. |
| `BallotCreation.BallotStore.GetBallot` | tests/ballot-creation.test.ts:23-25 | Returns the stored record for a known id and nothing otherwise, and changes nothing. |
| `BallotCreation.BallotStore.GetBallotOptions` | tests/ballot-creation.test.ts:27-31 | Returns the stored options for a known id and fails with BallotNotFound otherwise. It changes nothing. |
| `BallotCreation.CreateScenario` | tests/ballot-creation.test.ts:39-48 | The first ballot gets id 1, and `getBallot` returns exactly the title, options and creator given. |
| `BallotCreation.OptionsScenario` | tests/ballot-creation.test.ts:67-71 | `getBallotOptions` returns the options the ballot was created with. |
| `BallotCreation.TooManyOptionsScenario` | tests/ballot-creation.test.ts:50-53 | A ballot with 11 options fails with "Too many options" and leaves the store in its reset state. |
| `BallotCreation.CloseScenario` | tests/ballot-creation.test.ts:55-65 | Closing by another caller fails with "Unauthorized". Closing by the creator returns true, and `getBallot` then finds nothing. |
| `VoteCasting.Initial` | tests/vote-casting.test.ts:30-32 | The reset ledger holds no votes. |
| `VoteCasting.Cast` | tests/vote-casting.test.ts:7-12 | Succeeds iff the (ballot, voter) pair has no vote yet, whatever the ballot id, voter and option index. On success it records the given option index under that pair. A repeat fails with AlreadyVoted and changes nothing. Existing votes are unchanged, and no other key appears. |
| `VoteCasting.VotesArePermanent` | tests/vote-casting.test.ts:7-12 | A recorded vote stays, with the same option index, after any sequence of casts. |
| `VoteCasting.SingleVote` | tests/vote-casting.test.ts:7-12 | Over any sequence of casts, a pair that has not voted has exactly one cast accepted if any call is for it, and none otherwise. A pair that has voted has none accepted. |
| `VoteCasting.FirstCastWins` | tests/vote-casting.test.ts:7-12 | The first cast for a pair that has not voted decides the stored option index, whatever follows. |
| `VoteCasting.SecondCastRefused` | tests/vote-casting.test.ts:7-12 | After a successful cast, any later cast for the same pair fails with AlreadyVoted, whatever option it names, and the first option stays stored. |
| `VoteCasting.VoteLedger.constructor` | tests/vote-casting.test.ts:4 | A new ledger holds no votes. |
| `VoteCasting.VoteLedger.CastVote` | tests/vote-casting.test.ts:7-12 | Sets the map entry in place, as `Cast` prescribes. |
| `VoteCasting.VoteLedger.GetVote` | tests/vote-casting.test.ts:14-17 | Returns the recorded option index, or nothing for a pair that has not voted. It changes nothing. |
| `VoteCasting.CastTwiceScenario` | tests/vote-casting.test.ts:34-49 | A first cast returns true and `getVote` gives 0. A second cast with another option fails with "Already voted", and the stored vote stays 0. |

## Left out

- The vitest harness (`describe`, `it`, `expect`, `beforeEach`). Each `beforeEach` reset appears as the class constructor and as `Initial`. The test cases appear as the scenario methods.
- The stubs `mockVoterRegistration` and `mockBallotCreation` in tests/vote-casting.test.ts:20-27. `castVote` never calls them, and they return constants.
- Checks across contracts when a vote is cast: registered voter, existing ballot and option index in range. The code performs none of them.
- JavaScript number semantics. Ballot ids, the counter and option indices are unbounded integers. Fractional ids, `NaN`, and precision loss above 2^53 are not modelled.
- The string form of the vote key. The model uses the pair `(ballotId, voter)`, which matches the text key for integer ids.
- Exception propagation. A thrown `Error` is returned as an `Err` value, with one variant per message.
- Aliasing of stored ballot data. `getBallot` returns the stored record object itself, `getBallotOptions` returns the stored options array, and `createBallot` stores the caller's own `options` array. A caller can change a stored ballot through any of these, for example its `creator`, which `closeBallot` then checks. Ballots are immutable values in the model, so its contracts (`BallotCreation.Close`'s creator check among them) assume that no caller writes through these references.
- JavaScript strings are sequences of UTF-16 code units, while a Dafny `string` is a sequence of Unicode scalar values. Voters, callers, titles and options that contain lone surrogates have no counterpart in the model.

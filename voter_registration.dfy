/**
 The voter registration contract: a set of registered voters, a flag that
 gates new registrations, and a fixed owner who alone may toggle the flag.
 */
module VoterRegistration {
  import opened Outcomes

  /** The identity allowed to open and close registration. */
  const ContractOwner: string := "owner1"

  /** The abstract state of the contract. */
  datatype Registry = Registry(voters: set<string>, open: bool)

  /** The state every test starts from: nobody registered, registration open. */
  function Initial(): (s: Registry)
    ensures s.voters == {} && s.open
  {
    Registry({}, true)
  }

  /** `registerVoter`: the closed gate is checked before the duplicate check. */
  function Register(s: Registry, voter: string): (t: Step<Registry, bool>)
    ensures t.result.Ok? <==> s.open && voter !in s.voters
    ensures t.result.Ok? ==> t.result.value && t.next == Registry(s.voters + {voter}, s.open)
    ensures t.result.Err? ==> t.next == s
    ensures !s.open ==> t.result == Err(RegistrationClosed)
    ensures s.open && voter in s.voters ==> t.result == Err(AlreadyRegistered)
  {
    if !s.open then Step(Err(RegistrationClosed), s)
    else if voter in s.voters then Step(Err(AlreadyRegistered), s)
    else Step(Ok(true), s.(voters := s.voters + {voter}))
  }

  /** `unregisterVoter`: the registration flag plays no part. */
  function Unregister(s: Registry, voter: string): (t: Step<Registry, bool>)
    ensures t.result.Ok? <==> voter in s.voters
    ensures t.result.Ok? ==> t.result.value && t.next == Registry(s.voters - {voter}, s.open)
    ensures t.result.Err? ==> t.result.error == NotRegistered && t.next == s
    ensures voter !in t.next.voters
  {
    if voter !in s.voters then Step(Err(NotRegistered), s)
    else Step(Ok(true), s.(voters := s.voters - {voter}))
  }

  /** `closeRegistration`: only the owner may close; closing twice is allowed. */
  function Close(s: Registry, caller: string): (t: Step<Registry, bool>)
    ensures t.result.Ok? <==> caller == ContractOwner
    ensures t.result.Ok? ==> t.result.value && !t.next.open
    ensures t.result.Err? ==> t.result.error == Unauthorized && t.next == s
    ensures t.next.voters == s.voters
  {
    if caller != ContractOwner then Step(Err(Unauthorized), s)
    else Step(Ok(true), s.(open := false))
  }

  /** `openRegistration`: only the owner may open; opening twice is allowed. */
  function Open(s: Registry, caller: string): (t: Step<Registry, bool>)
    ensures t.result.Ok? <==> caller == ContractOwner
    ensures t.result.Ok? ==> t.result.value && t.next.open
    ensures t.result.Err? ==> t.result.error == Unauthorized && t.next == s
    ensures t.next.voters == s.voters
  {
    if caller != ContractOwner then Step(Err(Unauthorized), s)
    else Step(Ok(true), s.(open := true))
  }

  /** Closing and opening are idempotent: a second call by the owner succeeds
      again and leaves the state the first call left. */
  lemma ToggleIdempotent(s: Registry)
    ensures Close(Close(s, ContractOwner).next, ContractOwner) == Close(s, ContractOwner)
    ensures Open(Open(s, ContractOwner).next, ContractOwner) == Open(s, ContractOwner)
  {
  }

  /** Unregistering gives the same outcome whether registration is open or closed. */
  lemma UnregisterIgnoresGate(s: Registry, voter: string, open: bool)
    ensures Unregister(s.(open := open), voter).result == Unregister(s, voter).result
    ensures Unregister(s.(open := open), voter).next == Unregister(s, voter).next.(open := open)
  {
  }

  /** Registering a new voter and then unregistering them restores the state. */
  lemma RegisterThenUnregister(s: Registry, voter: string)
    requires s.open && voter !in s.voters
    ensures Unregister(Register(s, voter).next, voter) == Step(Ok(true), s)
  {
  }

  /** One call to the contract, as a hosting layer would issue it. */
  datatype RegistryCall =
    | RegisterCall(voter: string)
    | UnregisterCall(voter: string)
    | CloseCall(caller: string)
    | OpenCall(caller: string)

  /** The state a call leaves behind. */
  function Next(s: Registry, c: RegistryCall): Registry
  {
    match c
    case RegisterCall(v) => Register(s, v).next
    case UnregisterCall(v) => Unregister(s, v).next
    case CloseCall(who) => Close(s, who).next
    case OpenCall(who) => Open(s, who).next
  }

  /** The state after a sequence of calls, each applied to the state the previous one left. */
  function Run(s: Registry, calls: seq<RegistryCall>): Registry
    decreases |calls|
  {
    if calls == [] then s else Run(Next(s, calls[0]), calls[1..])
  }

  /** True of the calls that change the registration flag when they succeed. */
  predicate TogglesAsOwner(c: RegistryCall)
  {
    (c.CloseCall? || c.OpenCall?) && c.caller == ContractOwner
  }

  /** Only the owner moves the flag: without an owner's open or close call the
      flag is the same after any sequence of calls. */
  lemma {:induction false} OnlyOwnerToggles(s: Registry, calls: seq<RegistryCall>)
    requires forall i :: 0 <= i < |calls| ==> !TogglesAsOwner(calls[i])
    ensures Run(s, calls).open == s.open
    decreases |calls|
  {
    if calls != [] {
      var next := Next(s, calls[0]);
      OnlyOwnerToggles(next, calls[1..]);
    }
  }

  /** While registration is closed and the owner does not reopen it, nobody
      joins the set: the registered voters after any such sequence of calls
      are among those registered before. */
  lemma {:induction false} ClosedGateAdmitsNobody(s: Registry, calls: seq<RegistryCall>)
    requires !s.open
    requires forall i :: 0 <= i < |calls| ==> calls[i] != OpenCall(ContractOwner)
    ensures Run(s, calls).voters <= s.voters
    ensures !Run(s, calls).open
    decreases |calls|
  {
    if calls != [] {
      var next := Next(s, calls[0]);
      ClosedGateAdmitsNobody(next, calls[1..]);
    }
  }

  /** The contract object: the source's module-level `registeredVoters`,
      `registrationOpen` and `contractOwner`. */
  class VoterRegistry {
    var registeredVoters: set<string>
    var registrationOpen: bool
    const contractOwner: string := ContractOwner

    function State(): Registry
      reads this
    {
      Registry(registeredVoters, registrationOpen)
    }

    constructor ()
      ensures State() == Initial()
    {
      registeredVoters := {};
      registrationOpen := true;
    }

    method RegisterVoter(voter: string) returns (r: Result<bool>)
      modifies this
      ensures Step(r, State()) == Register(old(State()), voter)
    {
      if !registrationOpen {
        return Err(RegistrationClosed);
      }
      if voter in registeredVoters {
        return Err(AlreadyRegistered);
      }
      registeredVoters := registeredVoters + {voter};
      return Ok(true);
    }

    method UnregisterVoter(voter: string) returns (r: Result<bool>)
      modifies this
      ensures Step(r, State()) == Unregister(old(State()), voter)
    {
      if voter !in registeredVoters {
        return Err(NotRegistered);
      }
      registeredVoters := registeredVoters - {voter};
      return Ok(true);
    }

    method CloseRegistration(caller: string) returns (r: Result<bool>)
      modifies this
      ensures Step(r, State()) == Close(old(State()), caller)
    {
      if caller != contractOwner {
        return Err(Unauthorized);
      }
      registrationOpen := false;
      return Ok(true);
    }

    method OpenRegistration(caller: string) returns (r: Result<bool>)
      modifies this
      ensures Step(r, State()) == Open(old(State()), caller)
    {
      if caller != contractOwner {
        return Err(Unauthorized);
      }
      registrationOpen := true;
      return Ok(true);
    }

    /** `isRegistered`: membership, read without changing anything. */
    method IsRegistered(voter: string) returns (r: bool)
      ensures r <==> voter in State().voters
    {
      return voter in registeredVoters;
    }

    /** `isRegistrationOpen`: the current flag, read without changing anything. */
    method IsRegistrationOpen() returns (r: bool)
      ensures r == State().open
    {
      return registrationOpen;
    }
  }

  /** The test "should register a voter" and "should not register a voter twice". */
  method RegisterTwiceScenario() returns (first: Result<bool>, member: bool, second: Result<bool>)
    ensures first == Ok(true) && member
    ensures second == Err(AlreadyRegistered) && Message(second.error) == "Already registered"
  {
    var registry := new VoterRegistry();
    first := registry.RegisterVoter("voter1");
    member := registry.IsRegistered("voter1");
    second := registry.RegisterVoter("voter1");
  }

  /** The tests "should unregister a voter" and "should not unregister a non-registered voter". */
  method UnregisterScenario() returns (missing: Result<bool>, removed: Result<bool>, member: bool)
    ensures missing == Err(NotRegistered) && Message(missing.error) == "Not registered"
    ensures removed == Ok(true) && !member
  {
    var registry := new VoterRegistry();
    missing := registry.UnregisterVoter("voter1");
    var _ := registry.RegisterVoter("voter1");
    removed := registry.UnregisterVoter("voter1");
    member := registry.IsRegistered("voter1");
  }

  /** The tests on closing and opening registration and on registering while closed. */
  method GateScenario()
    returns (denied: Result<bool>, closed: Result<bool>, openAfterClose: bool,
             registerClosed: Result<bool>, openDenied: Result<bool>,
             reopened: Result<bool>, openAfterOpen: bool)
    ensures denied == Err(Unauthorized) && Message(denied.error) == "Unauthorized"
    ensures openDenied == Err(Unauthorized) && Message(openDenied.error) == "Unauthorized"
    ensures closed == Ok(true) && !openAfterClose
    ensures registerClosed == Err(RegistrationClosed) && Message(registerClosed.error) == "Registration closed"
    ensures reopened == Ok(true) && openAfterOpen
  {
    var registry := new VoterRegistry();
    denied := registry.CloseRegistration("non-owner");
    closed := registry.CloseRegistration(ContractOwner);
    openAfterClose := registry.IsRegistrationOpen();
    registerClosed := registry.RegisterVoter("voter1");
    openDenied := registry.OpenRegistration("non-owner");
    reopened := registry.OpenRegistration(ContractOwner);
    openAfterOpen := registry.IsRegistrationOpen();
  }
}

/**
 The ballot creation contract: ballots stored under ids handed out by a
 counter that only ever grows, so an id is never issued twice, even after
 the ballot that held it has been closed (deleted).
 */
module BallotCreation {
  import opened Outcomes

  /** The largest number of options a ballot may have. */
  const MaxOptions: nat := 10

  /** A stored ballot record. */
  datatype Ballot = Ballot(title: string, options: seq<string>, creator: string)

  /** The abstract state: the `ballots` map and the `lastBallotId` counter. */
  datatype Store = Store(ballots: map<int, Ballot>, lastBallotId: nat)

  /** Every stored id was issued by the counter: it lies in 1..lastBallotId. */
  ghost predicate Valid(s: Store)
  {
    forall id :: id in s.ballots ==> 1 <= id <= s.lastBallotId
  }

  /** The state every test starts from: no ballots, counter at zero. */
  function Initial(): (s: Store)
    ensures s.ballots == map[] && s.lastBallotId == 0
    ensures Valid(s)
  {
    Store(map[], 0)
  }

  /** `createBallot`: the option bound is checked before the counter moves,
      so a rejected ballot consumes no id. */
  function Create(s: Store, title: string, options: seq<string>, creator: string): (t: Step<Store, int>)
    ensures t.result.Ok? <==> |options| <= MaxOptions
    ensures t.result.Err? ==> t.result.error == TooManyOptions && t.next == s
    ensures t.result.Ok? ==>
      && t.result.value == s.lastBallotId + 1
      && t.next.lastBallotId == t.result.value
      && t.next.ballots == s.ballots[t.result.value := Ballot(title, options, creator)]
    ensures Valid(s) && t.result.Ok? ==> t.result.value !in s.ballots
    ensures Valid(s) ==> Valid(t.next)
    ensures t.next.lastBallotId >= s.lastBallotId
  {
    if |options| > MaxOptions then Step(Err(TooManyOptions), s)
    else
      var id := s.lastBallotId + 1;
      Step(Ok(id), Store(s.ballots[id := Ballot(title, options, creator)], id))
  }

  /** `closeBallot`: existence is checked before authorization, and a closed
      ballot is deleted while the counter stays where it is. */
  function Close(s: Store, ballotId: int, caller: string): (t: Step<Store, bool>)
    ensures t.result.Ok? <==> ballotId in s.ballots && s.ballots[ballotId].creator == caller
    ensures ballotId !in s.ballots ==> t.result == Err(BallotNotFound)
    ensures ballotId in s.ballots && s.ballots[ballotId].creator != caller ==> t.result == Err(Unauthorized)
    ensures t.result.Err? ==> t.next == s
    ensures t.result.Ok? ==> t.result.value && t.next.ballots == s.ballots - {ballotId}
    ensures t.next.lastBallotId == s.lastBallotId
    ensures ballotId !in t.next.ballots <==> ballotId !in s.ballots || t.result.Ok?
    ensures Valid(s) ==> Valid(t.next)
  {
    if ballotId !in s.ballots then Step(Err(BallotNotFound), s)
    else if s.ballots[ballotId].creator != caller then Step(Err(Unauthorized), s)
    else Step(Ok(true), s.(ballots := s.ballots - {ballotId}))
  }

  /** From the initial state the first ballot gets id 1. */
  lemma FirstIdIsOne(title: string, options: seq<string>, creator: string)
    requires |options| <= MaxOptions
    ensures Create(Initial(), title, options, creator).result == Ok(1)
  {
  }

  /** One call to the contract. */
  datatype BallotCall =
    | CreateCall(title: string, options: seq<string>, creator: string)
    | CloseCall(ballotId: int, caller: string)

  /** The state a call leaves behind. */
  function Next(s: Store, c: BallotCall): Store
  {
    match c
    case CreateCall(title, options, creator) => Create(s, title, options, creator).next
    case CloseCall(id, caller) => Close(s, id, caller).next
  }

  /** The state after a sequence of calls. */
  function Run(s: Store, calls: seq<BallotCall>): Store
    decreases |calls|
  {
    if calls == [] then s else Run(Next(s, calls[0]), calls[1..])
  }

  /** The id a call returns, if it is a creation that succeeds. */
  function IssuedBy(s: Store, c: BallotCall): seq<int>
  {
    match c
    case CreateCall(title, options, creator) =>
      var r := Create(s, title, options, creator).result;
      if r.Ok? then [r.value] else []
    case CloseCall(_, _) => []
  }

  /** The ids returned by the successful creations among the calls, in order. */
  function Issued(s: Store, calls: seq<BallotCall>): seq<int>
    decreases |calls|
  {
    if calls == [] then [] else IssuedBy(s, calls[0]) + Issued(Next(s, calls[0]), calls[1..])
  }

  /** Id monotonicity: over any sequence of calls the ids handed out are the
      consecutive integers after the counter's starting value, and the counter
      ends exactly that many steps further on. */
  lemma {:induction false} IssuedIdsAreConsecutive(s: Store, calls: seq<BallotCall>)
    ensures Run(s, calls).lastBallotId == s.lastBallotId + |Issued(s, calls)|
    ensures forall i :: 0 <= i < |Issued(s, calls)| ==> Issued(s, calls)[i] == s.lastBallotId + 1 + i
    decreases |calls|
  {
    if calls != [] {
      IssuedIdsAreConsecutive(Next(s, calls[0]), calls[1..]);
    }
  }

  /** Every stored id stays in range after any sequence of calls. */
  lemma {:induction false} RunKeepsValid(s: Store, calls: seq<BallotCall>)
    requires Valid(s)
    ensures Valid(Run(s, calls))
    decreases |calls|
  {
    if calls != [] {
      RunKeepsValid(Next(s, calls[0]), calls[1..]);
    }
  }

  /** An id that is not stored but was already handed out stays unstored:
      no later call can bring it back. */
  lemma {:induction false} RetiredIdStaysRetired(s: Store, calls: seq<BallotCall>, id: int)
    requires id !in s.ballots && id <= s.lastBallotId
    ensures id !in Run(s, calls).ballots
    ensures id !in Issued(s, calls)
    decreases |calls|
  {
    if calls != [] {
      var next := Next(s, calls[0]);
      assert id !in next.ballots && id <= next.lastBallotId;
      RetiredIdStaysRetired(next, calls[1..], id);
    }
  }

  /** A ballot closed by its creator is gone for good: its id is never issued
      again and never found again, whatever calls follow. */
  lemma ClosedBallotNeverReturns(s: Store, ballotId: int, caller: string, calls: seq<BallotCall>)
    requires Valid(s)
    requires Close(s, ballotId, caller).result.Ok?
    ensures ballotId !in Run(Close(s, ballotId, caller).next, calls).ballots
    ensures ballotId !in Issued(Close(s, ballotId, caller).next, calls)
  {
    RetiredIdStaysRetired(Close(s, ballotId, caller).next, calls, ballotId);
  }

  /** The contract object: the source's module-level `ballots` map and
      `lastBallotId` counter. */
  class BallotStore {
    var ballots: map<int, Ballot>
    var lastBallotId: nat

    function State(): Store
      reads this
    {
      Store(ballots, lastBallotId)
    }

    /** The object invariant: every stored id was issued by the counter. */
    ghost predicate Inv()
      reads this
    {
      Valid(State())
    }

    constructor ()
      ensures State() == Initial() && Inv()
    {
      ballots := map[];
      lastBallotId := 0;
    }

    method CreateBallot(title: string, options: seq<string>, creator: string) returns (r: Result<int>)
      requires Inv()
      modifies this
      ensures Step(r, State()) == Create(old(State()), title, options, creator)
      ensures Inv()
      ensures r.Ok? ==> r.value !in old(ballots) && r.value > old(lastBallotId)
    {
      if |options| > MaxOptions {
        return Err(TooManyOptions);
      }
      lastBallotId := lastBallotId + 1;
      var newBallotId := lastBallotId;
      ballots := ballots[newBallotId := Ballot(title, options, creator)];
      return Ok(newBallotId);
    }

    method CloseBallot(ballotId: int, caller: string) returns (r: Result<bool>)
      requires Inv()
      modifies this
      ensures Step(r, State()) == Close(old(State()), ballotId, caller)
      ensures Inv()
    {
      if ballotId !in ballots {
        return Err(BallotNotFound);
      }
      var ballot := ballots[ballotId];
      if ballot.creator != caller {
        return Err(Unauthorized);
      }
      ballots := ballots - {ballotId};
      return Ok(true);
    }

    /** `getBallot`: the stored record, or nothing for an unknown id. */
    method GetBallot(ballotId: int) returns (r: Option<Ballot>)
      ensures r.Some? <==> ballotId in State().ballots
      ensures r.Some? ==> r.value == State().ballots[ballotId]
    {
      if ballotId in ballots {
        return Some(ballots[ballotId]);
      }
      return None;
    }

    /** `getBallotOptions`: the stored options, or "Ballot not found". */
    method GetBallotOptions(ballotId: int) returns (r: Result<seq<string>>)
      ensures r.Ok? <==> ballotId in State().ballots
      ensures r.Ok? ==> r.value == State().ballots[ballotId].options
      ensures r.Err? ==> r.error == BallotNotFound
    {
      if ballotId !in ballots {
        return Err(BallotNotFound);
      }
      return Ok(ballots[ballotId].options);
    }
  }

  /** The test "should create a ballot". */
  method CreateScenario() returns (id: Result<int>, stored: Option<Ballot>)
    ensures id == Ok(1)
    ensures stored == Some(Ballot("Test Ballot", ["Option 1", "Option 2"], "creator1"))
  {
    var store := new BallotStore();
    id := store.CreateBallot("Test Ballot", ["Option 1", "Option 2"], "creator1");
    stored := store.GetBallot(id.value);
  }

  /** The test "should get ballot options". */
  method OptionsScenario() returns (options: Result<seq<string>>)
    ensures options == Ok(["Option 1", "Option 2"])
  {
    var store := new BallotStore();
    var id := store.CreateBallot("Test Ballot", ["Option 1", "Option 2"], "creator1");
    options := store.GetBallotOptions(id.value);
  }

  /** The test "should not create a ballot with too many options", with eleven options. */
  method TooManyOptionsScenario() returns (r: Result<int>, untouched: bool)
    ensures r == Err(TooManyOptions) && Message(r.error) == "Too many options"
    ensures untouched
  {
    var store := new BallotStore();
    var options := ["Option 1", "Option 2", "Option 3", "Option 4", "Option 5", "Option 6",
                    "Option 7", "Option 8", "Option 9", "Option 10", "Option 11"];
    r := store.CreateBallot("Test Ballot", options, "creator1");
    untouched := store.State() == Initial();
  }

  /** The tests "should close a ballot" and "should not close a ballot if not the creator". */
  method CloseScenario() returns (denied: Result<bool>, closed: Result<bool>, after: Option<Ballot>)
    ensures denied == Err(Unauthorized) && Message(denied.error) == "Unauthorized"
    ensures closed == Ok(true) && after == None
  {
    var store := new BallotStore();
    var id := store.CreateBallot("Test Ballot", ["Option 1", "Option 2"], "creator1");
    denied := store.CloseBallot(id.value, "creator2");
    closed := store.CloseBallot(id.value, "creator1");
    after := store.GetBallot(id.value);
  }
}

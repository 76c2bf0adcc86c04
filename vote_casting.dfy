/**
 The vote casting contract: a ledger holding at most one vote per ballot and
 voter. Casting checks only that the pair has not voted yet; it does not ask
 whether the voter is registered, whether the ballot exists or whether the
 option index names one of the ballot's options.
 */
module VoteCasting {
  import opened Outcomes

  /** A vote is filed under its ballot id and its voter. The contract joins
      the two into the text `${ballotId}-${voter}`; for integer ids that text
      determines the pair (the text of an integer contains no `-` except a
      leading sign, so the first `-` after the sign separates the two), so a
      pair is used here. */
  type VoteKey = (int, string)

  /** The abstract state: the `votes` map. */
  datatype Ledger = Ledger(votes: map<VoteKey, int>)

  /** The state every test starts from: no votes. */
  function Initial(): (s: Ledger)
    ensures s.votes == map[]
  {
    Ledger(map[])
  }

  /** `castVote`: the only check is the duplicate check, made before the vote is stored. */
  function Cast(s: Ledger, ballotId: int, voter: string, optionIndex: int): (t: Step<Ledger, bool>)
    ensures t.result.Ok? <==> (ballotId, voter) !in s.votes
    ensures t.result.Err? ==> t.result.error == AlreadyVoted && t.next == s
    ensures t.result.Ok? ==> t.result.value && t.next.votes == s.votes[(ballotId, voter) := optionIndex]
    ensures (ballotId, voter) in t.next.votes
    ensures forall k :: k in s.votes ==> k in t.next.votes && t.next.votes[k] == s.votes[k]
    ensures forall k :: k in t.next.votes && k != (ballotId, voter) ==> k in s.votes
  {
    var key := (ballotId, voter);
    if key in s.votes then Step(Err(AlreadyVoted), s)
    else Step(Ok(true), Ledger(s.votes[key := optionIndex]))
  }

  /** One call to `castVote`. */
  datatype VoteCall = VoteCall(ballotId: int, voter: string, optionIndex: int)

  function KeyOf(c: VoteCall): VoteKey
  {
    (c.ballotId, c.voter)
  }

  /** The state a call leaves behind. */
  function Next(s: Ledger, c: VoteCall): Ledger
  {
    Cast(s, c.ballotId, c.voter, c.optionIndex).next
  }

  /** The state after a sequence of calls. */
  function Run(s: Ledger, calls: seq<VoteCall>): Ledger
    decreases |calls|
  {
    if calls == [] then s else Run(Next(s, calls[0]), calls[1..])
  }

  /** How many of the calls cast a vote under `key` successfully. */
  function Accepted(s: Ledger, calls: seq<VoteCall>, key: VoteKey): nat
    decreases |calls|
  {
    if calls == [] then 0
    else
      var c := calls[0];
      (if KeyOf(c) == key && Cast(s, c.ballotId, c.voter, c.optionIndex).result.Ok? then 1 else 0)
        + Accepted(Next(s, c), calls[1..], key)
  }

  /** A recorded vote is permanent: after any sequence of calls it is still
      there with the option it was cast for. */
  lemma {:induction false} VotesArePermanent(s: Ledger, calls: seq<VoteCall>, key: VoteKey)
    requires key in s.votes
    ensures key in Run(s, calls).votes && Run(s, calls).votes[key] == s.votes[key]
    decreases |calls|
  {
    if calls != [] {
      VotesArePermanent(Next(s, calls[0]), calls[1..], key);
    }
  }

  /** Single vote: over any sequence of calls, a pair that has not voted gets
      exactly one accepted vote if some call is for it and none otherwise, and
      a pair that has voted gets none. */
  lemma {:induction false} SingleVote(s: Ledger, calls: seq<VoteCall>, key: VoteKey)
    ensures Accepted(s, calls, key) ==
      if key !in s.votes && exists i :: 0 <= i < |calls| && KeyOf(calls[i]) == key then 1 else 0
    decreases |calls|
  {
    if calls != [] {
      var next := Next(s, calls[0]);
      SingleVote(next, calls[1..], key);
      if KeyOf(calls[0]) == key {
        assert key in next.votes;
      } else {
        assert key in next.votes <==> key in s.votes;
        assert (exists i :: 0 <= i < |calls| && KeyOf(calls[i]) == key) ==>
               (exists i :: 0 <= i < |calls[1..]| && KeyOf(calls[1..][i]) == key) by {
          if i :| 0 <= i < |calls| && KeyOf(calls[i]) == key {
            assert KeyOf(calls[1..][i - 1]) == key;
          }
        }
        assert (exists i :: 0 <= i < |calls[1..]| && KeyOf(calls[1..][i]) == key) ==>
               (exists i :: 0 <= i < |calls| && KeyOf(calls[i]) == key) by {
          if i :| 0 <= i < |calls[1..]| && KeyOf(calls[1..][i]) == key {
            assert KeyOf(calls[i + 1]) == key;
          }
        }
      }
    }
  }

  /** The first call for a pair that has not voted decides its vote: whatever
      follows, the ledger keeps that call's option index. */
  lemma {:induction false} FirstCastWins(s: Ledger, calls: seq<VoteCall>, i: nat)
    requires i < |calls| && KeyOf(calls[i]) !in s.votes
    requires forall j :: 0 <= j < i ==> KeyOf(calls[j]) != KeyOf(calls[i])
    ensures KeyOf(calls[i]) in Run(s, calls).votes
    ensures Run(s, calls).votes[KeyOf(calls[i])] == calls[i].optionIndex
    decreases i
  {
    var key := KeyOf(calls[i]);
    var next := Next(s, calls[0]);
    if i == 0 {
      assert next.votes[key] == calls[0].optionIndex;
      VotesArePermanent(next, calls[1..], key);
    } else {
      assert KeyOf(calls[0]) != key;
      assert calls[1..][i - 1] == calls[i];
      FirstCastWins(next, calls[1..], i - 1);
    }
  }

  /** A second cast for a pair that has voted is refused with "Already voted",
      whatever option it names and whatever calls came in between. */
  lemma SecondCastRefused(s: Ledger, ballotId: int, voter: string, first: int,
                          calls: seq<VoteCall>, second: int)
    requires Cast(s, ballotId, voter, first).result.Ok?
    ensures Cast(Run(Cast(s, ballotId, voter, first).next, calls), ballotId, voter, second)
            == Step(Err(AlreadyVoted), Run(Cast(s, ballotId, voter, first).next, calls))
    ensures Run(Cast(s, ballotId, voter, first).next, calls).votes[(ballotId, voter)] == first
  {
    VotesArePermanent(Cast(s, ballotId, voter, first).next, calls, (ballotId, voter));
  }

  /** The contract object: the source's module-level `votes` map. */
  class VoteLedger {
    var votes: map<VoteKey, int>

    function State(): Ledger
      reads this
    {
      Ledger(votes)
    }

    constructor ()
      ensures State() == Initial()
    {
      votes := map[];
    }

    method CastVote(ballotId: int, voter: string, optionIndex: int) returns (r: Result<bool>)
      modifies this
      ensures Step(r, State()) == Cast(old(State()), ballotId, voter, optionIndex)
    {
      var key := (ballotId, voter);
      if key in votes {
        return Err(AlreadyVoted);
      }
      votes := votes[key := optionIndex];
      return Ok(true);
    }

    /** `getVote`: the recorded option index, or nothing for a pair that has not voted. */
    method GetVote(ballotId: int, voter: string) returns (r: Option<int>)
      ensures r.Some? <==> (ballotId, voter) in State().votes
      ensures r.Some? ==> r.value == State().votes[(ballotId, voter)]
    {
      var key := (ballotId, voter);
      if key in votes {
        return Some(votes[key]);
      }
      return None;
    }
  }

  /** The tests "should cast a vote", "should get a vote" and "should not allow voting twice". */
  method CastTwiceScenario() returns (first: Result<bool>, recorded: Option<int>, second: Result<bool>, kept: Option<int>)
    ensures first == Ok(true) && recorded == Some(0)
    ensures second == Err(AlreadyVoted) && Message(second.error) == "Already voted"
    ensures kept == Some(0)
  {
    var ledger := new VoteLedger();
    first := ledger.CastVote(1, "voter1", 0);
    recorded := ledger.GetVote(1, "voter1");
    second := ledger.CastVote(1, "voter1", 1);
    kept := ledger.GetVote(1, "voter1");
  }
}

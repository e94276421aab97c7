/** The scoring rules of the game store: the special calls a team can declare,
    the rounds the store records, how a round's raw points are adjusted by its
    calls, and the cumulative totals. */
module Scoring {

  import opened Nullable

  datatype TeamId = A | B

  datatype CallType = Tichu | GrandTichu | OneTwo

  /** A special call. `successful` is `None` while a Tichu or Grand Tichu is
      pending, and is ignored for a 1-2 finish. */
  datatype Call = Call(kind: CallType, team: TeamId, successful: Option<bool>)

  /** A recorded round. The points are the ADJUSTED points of each team. */
  datatype Round = Round(id: int, teamAPoints: int, teamBPoints: int, calls: seq<Call>)

  function Other(t: TeamId): TeamId {
    if t == A then B else A
  }

  /** The bonus of a 1-2 finish. */
  const OneTwoBonus: int := 200

  /** What a Tichu or Grand Tichu wins when it succeeds and loses when it fails. */
  function Stake(kind: CallType): int {
    if kind == Tichu then 100 else 200
  }

  /** What call `c` adds to team `t`'s points in its round. */
  function CallValue(c: Call, t: TeamId): int {
    if c.team != t then 0
    else if c.kind == OneTwo then OneTwoBonus
    else match c.successful
      case None => 0
      case Some(won) => if won then Stake(c.kind) else -Stake(c.kind)
  }

  /** The sum of what every call of a round adds to team `t`. */
  function CallsDelta(calls: seq<Call>, t: TeamId): int {
    if calls == [] then 0 else CallValue(calls[0], t) + CallsDelta(calls[1..], t)
  }

  /** Team `t`'s adjusted points for a round in which it scored `raw`. */
  function Adjusted(raw: int, calls: seq<Call>, t: TeamId): int {
    raw + CallsDelta(calls, t)
  }

  lemma {:induction false} CallsDeltaAppend(xs: seq<Call>, ys: seq<Call>, t: TeamId)
    ensures CallsDelta(xs + ys, t) == CallsDelta(xs, t) + CallsDelta(ys, t)
  {
    if xs == [] {
      assert xs + ys == ys;
    } else {
      assert (xs + ys)[1..] == xs[1..] + ys;
      CallsDeltaAppend(xs[1..], ys, t);
    }
  }

  /** The calls of a round are applied in a loop, one at a time; the result is
      the raw points plus what every call adds to each team. */
  method AdjustPoints(rawA: int, rawB: int, calls: seq<Call>) returns (adjA: int, adjB: int)
    ensures adjA == Adjusted(rawA, calls, A)
    ensures adjB == Adjusted(rawB, calls, B)
  {
    adjA, adjB := rawA, rawB;
    var i := 0;
    while i < |calls|
      invariant 0 <= i <= |calls|
      invariant adjA == rawA + CallsDelta(calls[..i], A)
      invariant adjB == rawB + CallsDelta(calls[..i], B)
    {
      var call := calls[i];
      if call.kind == OneTwo {
        if call.team == A {
          adjA := adjA + 200;
        } else {
          adjB := adjB + 200;
        }
      } else if call.successful == Some(true) {
        var points := if call.kind == Tichu then 100 else 200;
        if call.team == A {
          adjA := adjA + points;
        } else {
          adjB := adjB + points;
        }
      } else if call.successful == Some(false) {
        var points := if call.kind == Tichu then 100 else 200;
        if call.team == A {
          adjA := adjA - points;
        } else {
          adjB := adjB - points;
        }
      }
      assert calls[..i + 1] == calls[..i] + [call];
      CallsDeltaAppend(calls[..i], [call], A);
      CallsDeltaAppend(calls[..i], [call], B);
      i := i + 1;
    }
    assert calls[..i] == calls;
  }

  /** Inserting one call anywhere in a round's calls adds exactly that call's
      value: calls act independently and additively. */
  lemma {:induction false} CallContribution(before: seq<Call>, c: Call, after: seq<Call>, t: TeamId)
    ensures CallsDelta(before + [c] + after, t) == CallsDelta(before + after, t) + CallValue(c, t)
  {
    assert before + [c] + after == before + ([c] + after);
    CallsDeltaAppend(before, [c] + after, t);
    CallsDeltaAppend(before, after, t);
    assert ([c] + after)[1..] == after;
  }

  /** A 1-2 finish adds exactly 200 to its team, whatever its `successful`
      field says and whatever the other calls are, and nothing to the other team. */
  lemma OneTwoAddsTwoHundred(raw: int, before: seq<Call>, after: seq<Call>, team: TeamId, successful: Option<bool>)
    ensures Adjusted(raw, before + [Call(OneTwo, team, successful)] + after, team)
         == Adjusted(raw, before + after, team) + 200
    ensures Adjusted(raw, before + [Call(OneTwo, team, successful)] + after, Other(team))
         == Adjusted(raw, before + after, Other(team))
  {
    CallContribution(before, Call(OneTwo, team, successful), after, team);
    CallContribution(before, Call(OneTwo, team, successful), after, Other(team));
  }

  /** A decided Tichu adds 100 to its team when it succeeds and subtracts 100
      when it fails; a Grand Tichu does the same with 200. The other team is
      not affected. */
  lemma DecidedCallAdjusts(raw: int, before: seq<Call>, after: seq<Call>, kind: CallType, team: TeamId, won: bool)
    requires kind != OneTwo
    ensures kind == Tichu && won ==>
      Adjusted(raw, before + [Call(kind, team, Some(won))] + after, team) == Adjusted(raw, before + after, team) + 100
    ensures kind == Tichu && !won ==>
      Adjusted(raw, before + [Call(kind, team, Some(won))] + after, team) == Adjusted(raw, before + after, team) - 100
    ensures kind == GrandTichu && won ==>
      Adjusted(raw, before + [Call(kind, team, Some(won))] + after, team) == Adjusted(raw, before + after, team) + 200
    ensures kind == GrandTichu && !won ==>
      Adjusted(raw, before + [Call(kind, team, Some(won))] + after, team) == Adjusted(raw, before + after, team) - 200
    ensures Adjusted(raw, before + [Call(kind, team, Some(won))] + after, Other(team))
         == Adjusted(raw, before + after, Other(team))
  {
    CallContribution(before, Call(kind, team, Some(won)), after, team);
    CallContribution(before, Call(kind, team, Some(won)), after, Other(team));
  }

  /** A pending Tichu or Grand Tichu changes neither team's points. */
  lemma PendingCallAdjustsNothing(raw: int, before: seq<Call>, after: seq<Call>, kind: CallType, team: TeamId, t: TeamId)
    requires kind != OneTwo
    ensures Adjusted(raw, before + [Call(kind, team, None)] + after, t) == Adjusted(raw, before + after, t)
  {
    CallContribution(before, Call(kind, team, None), after, t);
  }

  predicate IsPending(c: Call) {
    c.kind != OneTwo && c.successful == None
  }

  /** When every call of a round is still pending (in particular when there is
      no call at all) the adjusted points are the raw points. */
  lemma {:induction false} PendingCallsKeepRawPoints(raw: int, calls: seq<Call>, t: TeamId)
    requires forall i :: 0 <= i < |calls| ==> IsPending(calls[i])
    ensures Adjusted(raw, calls, t) == raw
  {
    if calls != [] {
      assert IsPending(calls[0]);
      PendingCallsKeepRawPoints(raw, calls[1..], t);
    }
  }

  /** Removing the element at `k` removes one occurrence of it from the multiset. */
  lemma RemoveAt(ys: seq<Call>, k: nat)
    requires k < |ys|
    ensures multiset(ys[..k] + ys[k + 1..]) == multiset(ys) - multiset{ys[k]}
  {
    assert ys == ys[..k] + [ys[k]] + ys[k + 1..];
  }

  /** A call list with the same elements as one starting with `x` contains `x`
      somewhere, and without it has the same elements as the rest. */
  lemma FindCall(xs: seq<Call>, ys: seq<Call>) returns (k: nat)
    requires xs != [] && multiset(xs) == multiset(ys)
    ensures k < |ys| && ys[k] == xs[0]
    ensures multiset(xs[1..]) == multiset(ys[..k] + ys[k + 1..])
  {
    assert xs[0] in multiset(ys) by {
      assert xs[0] in xs;
    }
    assert xs[0] in ys;
    k :| 0 <= k < |ys| && ys[k] == xs[0];
    RemoveAt(xs, 0);
    assert xs[..0] + xs[1..] == xs[1..];
    RemoveAt(ys, k);
  }

  /** The order in which the calls are listed does not matter. */
  lemma {:induction false} CallOrderIrrelevant(xs: seq<Call>, ys: seq<Call>, t: TeamId)
    requires multiset(xs) == multiset(ys)
    ensures CallsDelta(xs, t) == CallsDelta(ys, t)
    decreases |xs|
  {
    if xs == [] {
      assert |ys| == |multiset(ys)| == 0;
    } else {
      var k := FindCall(xs, ys);
      var before, after := ys[..k], ys[k + 1..];
      CallOrderIrrelevant(xs[1..], before + after, t);
      assert ys == before + [xs[0]] + after;
      CallContribution(before, xs[0], after, t);
    }
  }

  /** Team `t`'s points in round `r`. */
  function Points(r: Round, t: TeamId): int {
    if t == A then r.teamAPoints else r.teamBPoints
  }

  /** Team `t`'s cumulative total: the rounds folded from the first to the last. */
  function TeamTotal(rounds: seq<Round>, t: TeamId): int {
    if rounds == [] then 0
    else TeamTotal(rounds[..|rounds| - 1], t) + Points(rounds[|rounds| - 1], t)
  }

  /** The total over a history split in two is the sum of the two totals, so a
      total recomputed from scratch agrees with a running one. */
  lemma {:induction false} TeamTotalConcat(xs: seq<Round>, ys: seq<Round>, t: TeamId)
    ensures TeamTotal(xs + ys, t) == TeamTotal(xs, t) + TeamTotal(ys, t)
    decreases |ys|
  {
    if ys == [] {
      assert xs + ys == xs;
    } else {
      var n := |ys| - 1;
      assert (xs + ys)[..|xs + ys| - 1] == xs + ys[..n];
      TeamTotalConcat(xs, ys[..n], t);
    }
  }

  /** Adding or removing the last round changes the total by that round's points. */
  lemma LastRoundTotal(rounds: seq<Round>, r: Round, t: TeamId)
    ensures TeamTotal(rounds + [r], t) == TeamTotal(rounds, t) + Points(r, t)
  {
    assert (rounds + [r])[..|rounds|] == rounds;
  }

  /** When every round's two scores add up to 100, the two totals add up to
      100 per round. */
  lemma {:induction false} HundredPointRounds(rounds: seq<Round>)
    requires forall i :: 0 <= i < |rounds| ==> rounds[i].teamAPoints + rounds[i].teamBPoints == 100
    ensures TeamTotal(rounds, A) + TeamTotal(rounds, B) == 100 * |rounds|
    decreases |rounds|
  {
    if rounds != [] {
      var n := |rounds| - 1;
      HundredPointRounds(rounds[..n]);
      assert rounds[n].teamAPoints + rounds[n].teamBPoints == 100;
    }
  }

  /** Three rounds worked through: no calls, a successful Tichu, a 1-2 finish. */
  lemma ExampleRounds()
    ensures Adjusted(60, [], A) == 60 && Adjusted(40, [], B) == 40
    ensures Adjusted(100, [Call(Tichu, A, Some(true))], A) == 200
    ensures Adjusted(0, [Call(Tichu, A, Some(true))], B) == 0
    ensures Adjusted(50, [Call(OneTwo, B, None)], A) == 50
    ensures Adjusted(50, [Call(OneTwo, B, None)], B) == 250
  {
  }

  /** Round ids are 1, 2, 3, ... in order, without gaps. */
  predicate SequentialIds(rounds: seq<Round>) {
    forall i :: 0 <= i < |rounds| ==> rounds[i].id == i + 1
  }

}

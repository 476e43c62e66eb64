/**
 A match can always be finished, and no seat is ever out of it: whenever a roll is due, every
 seat still has a way to win.
 */
module LudoFinish {
  import opened Wrappers
  import opened LudoBoard
  import opened LudoRules
  import opened LudoInvariant
  import opened LudoFairness

  /** How far a token has to go, leaving the yard counted as one step. */
  function Remaining(t: Token): nat {
    if t.state == InYard then FINISH_POS + 1 else if t.pos <= FINISH_POS then FINISH_POS - t.pos else 0
  }

  function Distance(seat: Seat): nat
    requires |seat.tokens| == TOKENS_PER_PLAYER
  {
    Remaining(seat.tokens[0]) + Remaining(seat.tokens[1]) + Remaining(seat.tokens[2]) + Remaining(seat.tokens[3])
  }

  lemma DistanceAfterAdvance(seat: Seat, id: nat, dice: int)
    requires |seat.tokens| == TOKENS_PER_PLAYER && id < TOKENS_PER_PLAYER
    requires PositionOk(seat.tokens[id]) && CanMove(seat.tokens[id], dice) && 1 <= dice
    ensures Distance(seat.(tokens := seat.tokens[id := Advance(seat.tokens[id], dice)])) < Distance(seat)
  {}

  /** No token of `seat` stands where `mover` lands on position `pos`, or the landing is out of reach of captures. */
  predicate Spares(seat: Seat, mover: Color, pos: int) {
    pos >= SHARED_SQUARES || forall j :: 0 <= j < |seat.tokens| ==>
      !OnSquare(seat.color, seat.tokens[j], GlobalIndex(mover, pos))
  }

  lemma LandingsDiffer(c: Color, pos: int, a: int, b: int)
    requires 1 <= a < b <= 5
    ensures GlobalIndex(c, pos + a) != GlobalIndex(c, pos + b)
  {}

  /** Four tokens cannot cover five squares: some roll below six spares the seat. */
  lemma SparingRoll(seat: Seat, mover: Color, pos: int) returns (v: Die)
    requires |seat.tokens| == TOKENS_PER_PLAYER
    ensures v <= 5 && Spares(seat, mover, pos + v)
  {
    v := 1;
    ghost var blocker: seq<int> := [];
    while v < 5 && !Spares(seat, mover, pos + v)
      invariant 1 <= v <= 5 && |blocker| == v - 1
      invariant forall i :: 0 <= i < |blocker| ==>
        && 0 <= blocker[i] < TOKENS_PER_PLAYER
        && OnSquare(seat.color, seat.tokens[blocker[i]], GlobalIndex(mover, pos + i + 1))
      decreases 5 - v
    {
      var j :| 0 <= j < |seat.tokens| && OnSquare(seat.color, seat.tokens[j], GlobalIndex(mover, pos + v));
      blocker := blocker + [j];
      v := v + 1;
    }
    if v == 5 {
      forall i, j | 0 <= i < j < 4 ensures blocker[i] != blocker[j] {
        LandingsDiffer(mover, pos, i + 1, j + 1);
      }
      forall j | 0 <= j < |seat.tokens| ensures !OnSquare(seat.color, seat.tokens[j], GlobalIndex(mover, pos + 5)) {
        assert blocker[0] != blocker[1] && blocker[0] != blocker[2] && blocker[0] != blocker[3];
        assert blocker[1] != blocker[2] && blocker[1] != blocker[3] && blocker[2] != blocker[3];
        var i := if j == blocker[0] then 0 else if j == blocker[1] then 1 else if j == blocker[2] then 2 else 3;
        assert blocker[i] == j;
        LandingsDiffer(mover, pos, i + 1, 5);
      }
    }
  }

  /** A roll with no legal move below six passes the turn. */
  lemma RollPasses(s: State, val: Die)
    requires Inv(s) && s.phase == RollDice && val <= 5
    requires forall id :: 0 <= id < TOKENS_PER_PLAYER ==> !CanMove(Current(s).tokens[id], val)
    ensures var t := Exec(s, [Roll(val)]);
      ProperRun(s, [Roll(val)]) && Inv(t) && t.phase == RollDice && t.turn == NextTurn(s) && t.sixes == 0
        && t.seats == s.seats
  {
    NoMovesFrom(Current(s).tokens, val, 0);
    StepInv(s, Roll(val));
    OneStep(s, Roll(val));
  }

  lemma OneStep(s: State, a: Action)
    requires WellFormed(s)
    ensures Exec(s, [a]) == Step(s, a)
    ensures ProperRun(s, [a]) <==> Proper(s, a)
  {
    assert [a][1..] == [];
  }

  lemma TwoSteps(s: State, a: Action, b: Action)
    requires WellFormed(s)
    ensures Exec(s, [a, b]) == Step(Step(s, a), b)
    ensures ProperRun(s, [a, b]) <==> Proper(s, a) && Proper(Step(s, a), b)
  {
    var t := Step(s, a);
    assert [a, b][1..] == [b];
    OneStep(t, b);
  }

  /** A due roll that leaves a choice. */
  lemma RollOffersMove(s: State, val: Die, id: nat)
    requires Inv(s) && s.phase == RollDice && id < TOKENS_PER_PLAYER && CanMove(Current(s).tokens[id], val)
    requires val == YARD_EXIT_ROLL ==> s.sixes < 2
    ensures var r := Step(s, Roll(val));
      && r == s.(phase := SelectToken, dice := val, sixes := if val == YARD_EXIT_ROLL then s.sixes + 1 else 0)
      && Inv(r) && MoveToken(r, id).Ok? && Proper(r, Move(id))
  {
    assert id in LegalFrom(Current(s).tokens, val, 0);
    StepInv(s, Roll(val));
  }

  /** A roll followed by a legal move. */
  lemma RollThenMove(s: State, val: Die, id: nat)
    requires Inv(s) && s.phase == RollDice && id < TOKENS_PER_PLAYER && CanMove(Current(s).tokens[id], val)
    requires val == YARD_EXIT_ROLL ==> s.sixes < 2
    ensures var run := [Roll(val), Move(id)]; var r := Step(s, Roll(val));
      ProperRun(s, run) && MoveToken(r, id).Ok? && Exec(s, run) == MoveToken(r, id).value.next && Inv(Exec(s, run))
  {
    RollOffersMove(s, val, id);
    StepInv(Step(s, Roll(val)), Move(id));
    TwoSteps(s, Roll(val), Move(id));
  }

  /** A move that spares seat `k` leaves that seat exactly as it was, and one short of home does not end the match. */
  lemma SparingMove(r: State, id: nat, k: nat)
    requires Inv(r) && MoveToken(r, id).Ok? && k < |r.seats| && k != r.turn
    requires Current(r).tokens[id].state != InYard && r.dice < YARD_EXIT_ROLL
    requires Current(r).tokens[id].pos + r.dice < FINISH_POS
    requires Spares(r.seats[k], Current(r).color, Current(r).tokens[id].pos + r.dice)
    ensures var t := MoveToken(r, id).value.next;
      t.phase == RollDice && t.turn == NextTurn(r) && t.sixes == 0 && t.seats[k] == r.seats[k]
  {
    MoveEffect(r, id);
    var t := MoveToken(r, id).value.next;
    assert t.seats[r.turn].tokens[id].state != Finished;
    forall j | 0 <= j < TOKENS_PER_PLAYER ensures t.seats[k].tokens[j] == r.seats[k].tokens[j] {}
    assert t.seats[k].tokens == r.seats[k].tokens;
  }

  /** A token in play with more than one step to go. */
  predicate HasRoom(t: Token) {
    t.state in {OnTrack, InHomeStretch} && t.pos + 1 < FINISH_POS
  }

  /** A roll that takes such a token somewhere harmless to seat `k`. */
  lemma SafeRoll(s: State, id: nat, k: nat) returns (v: Die)
    requires Inv(s) && id < TOKENS_PER_PLAYER && k < |s.seats| && HasRoom(Current(s).tokens[id])
    ensures v < YARD_EXIT_ROLL && CanMove(Current(s).tokens[id], v)
    ensures Current(s).tokens[id].pos + v < FINISH_POS
    ensures Spares(s.seats[k], Current(s).color, Current(s).tokens[id].pos + v)
  {
    var t := Current(s).tokens[id];
    assert PositionOk(t);
    v := 1;
    if t.pos < SHARED_SQUARES {
      v := SparingRoll(s.seats[k], Current(s).color, t.pos);
    }
  }

  /** It is the next seat's turn, and seat `k` is as it was. */
  predicate PassedBy(s: State, t: State, k: nat)
    requires WellFormed(s) && k < |s.seats|
  {
    && Inv(t) && t.phase == RollDice && t.turn == NextTurn(s) && t.sixes == 0
    && |t.seats| == |s.seats| && t.seats[k] == s.seats[k]
  }

  lemma OpponentMoves(s: State, id: nat, k: nat) returns (run: seq<Action>)
    requires Inv(s) && s.phase == RollDice && k < |s.seats| && k != s.turn
    requires id < TOKENS_PER_PLAYER && HasRoom(Current(s).tokens[id])
    ensures ProperRun(s, run) && PassedBy(s, Exec(s, run), k)
  {
    var v := SafeRoll(s, id, k);
    RollOffersMove(s, v, id);
    RollThenMove(s, v, id);
    var r := Step(s, Roll(v));
    assert Current(r) == Current(s) && r.seats[k] == s.seats[k];
    SparingMove(r, id, k);
    run := [Roll(v), Move(id)];
  }

  lemma OpponentPasses(s: State, k: nat)
    requires Inv(s) && s.phase == RollDice && k < |s.seats| && k != s.turn
    requires forall id :: 0 <= id < TOKENS_PER_PLAYER ==> !HasRoom(Current(s).tokens[id])
    ensures ProperRun(s, [Roll(2)]) && PassedBy(s, Exec(s, [Roll(2)]), k)
  {
    var tokens := Current(s).tokens;
    forall id | 0 <= id < TOKENS_PER_PLAYER ensures !CanMove(tokens[id], 2) {
      assert PositionOk(tokens[id]) && !HasRoom(tokens[id]);
    }
    RollPasses(s, 2);
  }

  /** An opponent's turn can go by without touching seat `k` and without ending the match. */
  lemma OpponentTurn(s: State, k: nat) returns (run: seq<Action>)
    requires Inv(s) && s.phase == RollDice && k < |s.seats| && k != s.turn
    ensures ProperRun(s, run) && PassedBy(s, Exec(s, run), k)
  {
    if id :| 0 <= id < TOKENS_PER_PLAYER && HasRoom(Current(s).tokens[id]) {
      run := OpponentMoves(s, id, k);
    } else {
      OpponentPasses(s, k);
      run := [Roll(2)];
    }
  }

  /** A seat's own legal move brings it nearer, and only it can win by it. */
  lemma OwnMove(r: State, id: nat)
    requires Inv(r) && MoveToken(r, id).Ok?
    ensures var t := MoveToken(r, id).value.next;
      && Distance(t.seats[r.turn]) < Distance(r.seats[r.turn])
      && (t.phase == GameOver ==> t.winner == Some(Current(r).color))
      && (t.phase != GameOver ==> t.phase == RollDice)
  {
    MoveEffect(r, id);
    DistanceAfterAdvance(Current(r), id, r.dice);
  }

  predicate Nearer(s: State, t: State, k: nat)
    requires WellFormed(s) && WellFormed(t) && k < |s.seats| && k < |t.seats|
  {
    Distance(t.seats[k]) < Distance(s.seats[k])
  }

  predicate ForgotSixes(s: State, t: State, k: nat)
    requires WellFormed(s) && WellFormed(t) && k < |s.seats| && k < |t.seats|
  {
    s.sixes == 2 && t.turn == NextTurn(s) && t.sixes == 0 && t.seats[k] == s.seats[k]
  }

  /** Seat `k`'s own turn: it wins, comes nearer to winning, or forgets two sixes by passing. */
  lemma OwnTurn(s: State, k: nat) returns (run: seq<Action>)
    requires Inv(s) && s.phase == RollDice && k == s.turn
    ensures ProperRun(s, run)
    ensures var t := Exec(s, run);
      && Inv(t) && |t.seats| == |s.seats|
      && (t.phase == GameOver ==> t.winner == Some(s.seats[k].color))
      && (t.phase != GameOver ==> t.phase == RollDice && (Nearer(s, t, k) || ForgotSixes(s, t, k)))
  {
    var tokens := Current(s).tokens;
    if id :| 0 <= id < TOKENS_PER_PLAYER && CanMove(tokens[id], 1) {
      RollOffersMove(s, 1, id);
      RollThenMove(s, 1, id);
      OwnMove(Step(s, Roll(1)), id);
      run := [Roll(1), Move(id)];
    } else if s.sixes < 2 {
      var id :| 0 <= id < TOKENS_PER_PLAYER && tokens[id].state != Finished;
      assert PositionOk(tokens[id]) && !CanMove(tokens[id], 1);
      RollOffersMove(s, 6, id);
      RollThenMove(s, 6, id);
      OwnMove(Step(s, Roll(6)), id);
      run := [Roll(6), Move(id)];
    } else {
      RollPasses(s, 1);
      run := [Roll(1)];
    }
  }

  /** Turns to go before seat `k` rolls with fewer than two sixes behind it. */
  function TurnsToGo(s: State, k: nat): nat
    requires WellFormed(s) && k < |s.seats|
  {
    if s.turn == k then (if s.sixes == 2 then |s.seats| else 0) else TurnsUntil(s, k)
  }

  /** Whenever a roll is due, every seat can still win; this is how. */
  lemma {:induction false} WinningRun(s: State, k: nat) returns (run: seq<Action>)
    requires Inv(s) && s.phase == RollDice && k < |s.seats|
    ensures ProperRun(s, run) && Exec(s, run).phase == GameOver && Exec(s, run).winner == Some(s.seats[k].color)
    decreases Distance(s.seats[k]), TurnsToGo(s, k)
  {
    if k == s.turn {
      run := OwnTurn(s, k);
    } else {
      run := OpponentTurn(s, k);
    }
    var t := Exec(s, run);
    if t.phase != GameOver {
      var rest := WinningRun(t, k);
      ExecConcat(s, run, rest);
      run := run + rest;
    }
  }

  // ---- The theorems ----

  ghost predicate CanStillWin(s: State, k: nat)
    requires WellFormed(s) && k < |s.seats|
  {
    exists run: seq<Action> :: ProperRun(s, run) && Exec(s, run).phase == GameOver
      && Exec(s, run).winner == Some(s.seats[k].color)
  }

  /** The current player has a choice that does not end the match at once. */
  predicate CanPlayOn(s: State)
    requires WellFormed(s)
  {
    exists id :: 0 <= id < TOKENS_PER_PLAYER && Proper(s, Move(id)) && Step(s, Move(id)).phase != GameOver
  }

  lemma WinAfterMove(s: State, id: nat, k: nat)
    requires Inv(s) && Proper(s, Move(id)) && k < |s.seats|
    requires Step(s, Move(id)).phase != GameOver || k == s.turn
    ensures CanStillWin(s, k)
  {
    var t := Step(s, Move(id));
    StepInv(s, Move(id));
    OwnMove(s, id);
    OneStep(s, Move(id));
    if t.phase != GameOver {
      var rest := WinningRun(t, k);
      ExecConcat(s, [Move(id)], rest);
    }
  }

  /**
   Every seat of an unfinished match can still win, except for one case: a pending choice of
   another player that cannot but win the match.
   */
  lemma EverySeatStillInIt(s: State, k: nat)
    requires Reachable(s) && s.phase != GameOver && k < |s.seats|
    ensures CanStillWin(s, k) <==> s.phase == RollDice || k == s.turn || CanPlayOn(s)
  {
    ReachableInv(s);
    if s.phase == RollDice {
      var run := WinningRun(s, k);
    } else if id :| 0 <= id < TOKENS_PER_PLAYER && Proper(s, Move(id)) && Step(s, Move(id)).phase != GameOver {
      WinAfterMove(s, id, k);
    } else if k == s.turn {
      var id := LegalMoves(s)[0];
      assert id in LegalMoves(s);
      WinAfterMove(s, id, k);
    } else if CanStillWin(s, k) {
      var run: seq<Action> :| ProperRun(s, run) && Exec(s, run).phase == GameOver
        && Exec(s, run).winner == Some(s.seats[k].color);
      assert run != [] && run[0].Move? && run[0].id in LegalMoves(s);
      var t := Step(s, run[0]);
      StepInv(s, run[0]);
      GameOverAbsorbing(t, run[1..]);
      OwnMove(s, run[0].id);
    }
  }

  /** From every reachable unfinished state some dice and legal choices finish the match. */
  lemma MatchCanBeFinished(s: State)
    requires Reachable(s) && s.phase != GameOver
    ensures exists run: seq<Action> :: ProperRun(s, run) && Exec(s, run).phase == GameOver
  {
    EverySeatStillInIt(s, s.turn);
  }
}

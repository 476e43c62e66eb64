/**
 What every reachable Ludo state satisfies, whatever is rolled and whatever token ids are
 tried, including rolls made while a token choice is pending.
 */
module LudoInvariant {
  import opened Wrappers
  import opened LudoBoard
  import opened LudoRules

  /** A token's position lies in the range its state calls for. */
  predicate PositionOk(t: Token) {
    match t.state
    case InYard => t.pos == 0
    case OnTrack => 0 <= t.pos < SHARED_SQUARES
    case InHomeStretch => SHARED_SQUARES <= t.pos < FINISH_POS
    case Finished => t.pos == FINISH_POS
  }

  /** Tokens of different colours share a track square only where it is safe. */
  predicate Exclusive(seats: seq<Seat>) {
    forall i, j, a, b ::
      && 0 <= i < |seats| && 0 <= j < |seats| && 0 <= a < |seats[i].tokens| && 0 <= b < |seats[j].tokens|
      && seats[i].tokens[a].state == OnTrack && seats[j].tokens[b].state == OnTrack
      && GlobalIndex(seats[i].color, seats[i].tokens[a].pos) == GlobalIndex(seats[j].color, seats[j].tokens[b].pos)
      && !IsSafeSquare(GlobalIndex(seats[i].color, seats[i].tokens[a].pos))
      ==> seats[i].color == seats[j].color
  }

  predicate PositionsOk(seats: seq<Seat>) {
    forall i, j :: 0 <= i < |seats| && 0 <= j < |seats[i].tokens| ==> PositionOk(seats[i].tokens[j])
  }

  /** The dice and the run of sixes agree with the phase. */
  predicate DiceOk(s: State)
    requires WellFormed(s)
  {
    && s.sixes <= 2
    && (s.phase == SelectToken ==>
         1 <= s.dice <= 6 && LegalMoves(s) != [] && (s.dice == YARD_EXIT_ROLL <==> s.sixes > 0))
  }

  predicate WinnerOk(s: State)
    requires WellFormed(s)
  {
    && (s.phase == GameOver ==> s.winner == Some(Current(s).color) && HasWon(Current(s)))
    && (s.phase != GameOver ==> s.winner == None)
    && (forall i :: 0 <= i < |s.seats| && HasWon(s.seats[i]) ==> s.phase == GameOver && i == s.turn)
  }

  predicate Inv(s: State) {
    && WellFormed(s)
    && PositionsOk(s.seats)
    && Exclusive(s.seats)
    && DiceOk(s)
    && WinnerOk(s)
  }

  lemma NewGameInv(seats: seq<Seat>)
    requires WellFormed(NewGame(seats))
    requires forall i :: 0 <= i < |seats| ==>
      seats[i].tokens == NewSeat(seats[i].color, seats[i].name, seats[i].isAI).tokens
    ensures Inv(NewGame(seats))
  {
    assert forall i, j :: 0 <= i < |seats| && 0 <= j < |seats[i].tokens| ==> seats[i].tokens[j] == YARD_TOKEN;
    forall i | 0 <= i < |seats| ensures !HasWon(seats[i]) {
      assert seats[i].tokens[0].state == InYard;
    }
  }

  lemma {:induction false} NoMovesFrom(tokens: seq<Token>, dice: int, i: nat)
    requires i <= |tokens| && forall id :: i <= id < |tokens| ==> !CanMove(tokens[id], dice)
    ensures LegalFrom(tokens, dice, i) == []
    decreases |tokens| - i
  {
    if i < |tokens| { NoMovesFrom(tokens, dice, i + 1); }
  }

  /** Where each token stands after an accepted move. */
  lemma MoveEffect(s: State, id: int)
    requires WellFormed(s) && MoveToken(s, id).Ok?
    ensures 0 <= id < TOKENS_PER_PLAYER && CanMove(Current(s).tokens[id], s.dice)
    ensures var next := MoveToken(s, id).value.next;
            var t := Advance(Current(s).tokens[id], s.dice);
            && next.seats[s.turn].tokens == Current(s).tokens[id := t]
            && forall i, j :: 0 <= i < |s.seats| && i != s.turn && 0 <= j < TOKENS_PER_PLAYER ==>
                next.seats[i].tokens[j] ==
                  if t.state == OnTrack && !IsSafeSquare(GlobalIndex(Current(s).color, t.pos))
                  then SentHome(s.seats[i].color, s.seats[i].tokens[j], GlobalIndex(Current(s).color, t.pos))
                  else s.seats[i].tokens[j]
  {}

  lemma AdvanceOk(t: Token, dice: int)
    requires PositionOk(t) && CanMove(t, dice) && 1 <= dice
    ensures PositionOk(Advance(t, dice))
    ensures Advance(t, dice).state != InYard
  {}

  lemma MoveKeepsPositions(s: State, id: int)
    requires Inv(s) && MoveToken(s, id).Ok?
    ensures PositionsOk(MoveToken(s, id).value.next.seats)
  {
    MoveEffect(s, id);
    AdvanceOk(Current(s).tokens[id], s.dice);
  }

  lemma MoveKeepsExclusive(s: State, id: int)
    requires Inv(s) && MoveToken(s, id).Ok?
    ensures Exclusive(MoveToken(s, id).value.next.seats)
  {
    MoveEffect(s, id);
    var t := Advance(Current(s).tokens[id], s.dice);
    var next := MoveToken(s, id).value.next.seats;
    forall i, j, a, b |
      && 0 <= i < |next| && 0 <= j < |next| && 0 <= a < |next[i].tokens| && 0 <= b < |next[j].tokens| && i != j
      && next[i].tokens[a].state == OnTrack && next[j].tokens[b].state == OnTrack
      && !IsSafeSquare(GlobalIndex(next[i].color, next[i].tokens[a].pos))
      ensures GlobalIndex(next[i].color, next[i].tokens[a].pos) != GlobalIndex(next[j].color, next[j].tokens[b].pos)
    {
      // of two tokens of different seats at most one moved, and what the other stood on was captured
      assert j == s.turn ==> next[i].tokens[a] == s.seats[i].tokens[a];
      assert i == s.turn ==> next[j].tokens[b] == s.seats[j].tokens[b];
    }
  }

  lemma MoveKeepsWinner(s: State, id: int)
    requires Inv(s) && MoveToken(s, id).Ok?
    ensures WinnerOk(MoveToken(s, id).value.next)
  {
    MoveEffect(s, id);
    var next := MoveToken(s, id).value.next;
    forall i | 0 <= i < |next.seats| && i != s.turn ensures !HasWon(next.seats[i]) {
      var j :| 0 <= j < |s.seats[i].tokens| && s.seats[i].tokens[j].state != Finished;
      assert next.seats[i].tokens[j].state != Finished;
    }
  }

  lemma StepInv(s: State, a: Action)
    requires Inv(s)
    ensures Inv(Step(s, a))
  {
    match a
    case Roll(val) =>
    case Move(id) =>
      if MoveToken(s, id).Ok? {
        MoveKeepsPositions(s, id);
        MoveKeepsExclusive(s, id);
        MoveKeepsWinner(s, id);
      }
  }

  lemma {:induction false} ExecInv(s: State, run: seq<Action>)
    requires Inv(s)
    ensures Inv(Exec(s, run))
    decreases |run|
  {
    if run != [] {
      StepInv(s, run[0]);
      ExecInv(Step(s, run[0]), run[1..]);
    }
  }

  /** Every state a match can reach, rolls unrestricted. */
  ghost predicate Reachable(s: State) {
    exists seats: seq<Seat>, run: seq<Action> ::
      && WellFormed(NewGame(seats))
      && (forall i :: 0 <= i < |seats| ==>
           seats[i].tokens == NewSeat(seats[i].color, seats[i].name, seats[i].isAI).tokens)
      && s == Exec(NewGame(seats), run)
  }

  lemma ReachableInv(s: State)
    requires Reachable(s)
    ensures Inv(s)
  {
    var seats: seq<Seat>, run: seq<Action> :|
      && WellFormed(NewGame(seats))
      && (forall i :: 0 <= i < |seats| ==>
           seats[i].tokens == NewSeat(seats[i].color, seats[i].name, seats[i].isAI).tokens)
      && s == Exec(NewGame(seats), run);
    NewGameInv(seats);
    ExecInv(NewGame(seats), run);
  }

  /**
   Game over, a recorded winner and a seat with four finished tokens are the same thing, and there
   is only one such seat.
   */
  lemma SingleWinner(s: State)
    requires Reachable(s)
    ensures s.phase == GameOver <==> s.winner.Some?
    ensures s.phase == GameOver <==> exists i :: 0 <= i < |s.seats| && HasWon(s.seats[i])
    ensures forall i, j :: 0 <= i < |s.seats| && 0 <= j < |s.seats| && HasWon(s.seats[i]) && HasWon(s.seats[j]) ==>
      i == j
    ensures forall i :: 0 <= i < |s.seats| ==> (HasWon(s.seats[i]) <==> s.winner == Some(s.seats[i].color))
  {
    ReachableInv(s);
    if s.phase == GameOver { assert HasWon(s.seats[s.turn]); }
  }

  /** Once over, a match never changes again. */
  lemma {:induction false} GameOverAbsorbing(s: State, run: seq<Action>)
    requires WellFormed(s) && s.phase == GameOver
    ensures Exec(s, run) == s
    decreases |run|
  {
    if run != [] {
      assert Step(s, run[0]) == s;
      GameOverAbsorbing(s, run[1..]);
    }
  }

  /** The consequences of the invariant for a reachable state, in one place. */
  lemma ReachableState(s: State)
    requires Reachable(s)
    ensures PositionsOk(s.seats) && Exclusive(s.seats)
    ensures s.sixes <= 2
    ensures s.phase == SelectToken ==> LegalMoves(s) != []
  {
    ReachableInv(s);
  }
}

/**
 The rules of Ludo written out: for every state of a match, which tokens a die moves, where they
 then stand, what is captured and what happens next, in positions and squares and not in the
 functions that compute them.
 */
module LudoLaws {
  import opened Wrappers
  import opened LudoBoard
  import opened LudoRules
  import opened LudoInvariant
  import LudoAi

  /** The absolute square of a colour's position on the track. */
  function Square(c: Color, pos: int): int {
    ((match c case Red => 0 case Green => 13 case Yellow => 26 case Blue => 39) + pos) % 52
  }

  /** A start square or a star: nobody is captured there. */
  predicate Shelter(square: int) {
    square in {0, 8, 13, 21, 26, 34, 39, 47}
  }

  /** A die takes a token out of the yard on a six, and any other not yet home as far as home and no further. */
  predicate Moves(t: Token, die: int) {
    match t.state
    case InYard => die == 6
    case OnTrack => die <= 56 - t.pos
    case InHomeStretch => die <= 56 - t.pos
    case Finished => false
  }

  lemma SquareIsGlobal(c: Color, pos: int)
    ensures Square(c, pos) == GlobalIndex(c, pos)
    ensures Shelter(Square(c, pos)) <==> IsSafeSquare(GlobalIndex(c, pos))
  {
    SafeSquareTable(GlobalIndex(c, pos));
  }

  // ---- The start ----

  /** A match starts with the first player to roll and every token in the yard. */
  lemma StartsInTheYards(seats: seq<Seat>, color: Color, name: string, isAI: bool)
    ensures NewGame(seats) == State(seats, 0, 0, RollDice, None, 0)
    ensures NewSeat(color, name, isAI) ==
      Seat(color, name, isAI, [Token(InYard, 0), Token(InYard, 0), Token(InYard, 0), Token(InYard, 0)])
  {}

  // ---- Which tokens move ----

  /**
   A choice is accepted exactly if a choice is due and the die moves that token, which then stands
   a die further on, or on its start square; otherwise it is said why not.
   */
  lemma MovesExactly(s: State, id: int)
    requires Inv(s)
    ensures MoveToken(s, id).Ok? <==> s.phase == SelectToken && 0 <= id < 4 && Moves(s.seats[s.turn].tokens[id], s.dice)
    ensures MoveToken(s, id).Err? ==>
      MoveToken(s, id).error ==
        if s.phase != SelectToken then WrongPhase else if !(0 <= id < 4) then NoSuchToken else NoLegalMove
    ensures MoveToken(s, id).Ok? ==>
      var before := s.seats[s.turn].tokens[id];
      MoveToken(s, id).value.next.seats[s.turn].tokens[id].pos
        == if before.state == InYard then 0 else before.pos + s.dice
  {
    if MoveToken(s, id).Ok? { MoveEffect(s, id); }
  }

  /** The tokens offered are exactly those the die moves, in order. */
  lemma OfferedExactly(s: State)
    requires Inv(s)
    ensures forall id :: id in LegalMoves(s) <==> 0 <= id < 4 && Moves(s.seats[s.turn].tokens[id], s.dice)
    ensures forall a, b :: 0 <= a < b < |LegalMoves(s)| ==> LegalMoves(s)[a] < LegalMoves(s)[b]
  {}

  predicate SomethingMoves(s: State, die: int)
    requires WellFormed(s)
  {
    exists id :: 0 <= id < 4 && Moves(s.seats[s.turn].tokens[id], die)
  }

  function NextSeat(s: State): nat
    requires WellFormed(s)
  {
    if s.turn == |s.seats| - 1 then 0 else s.turn + 1
  }

  // ---- Rolling ----

  lemma NextSeatRound(s: State)
    requires WellFormed(s)
    ensures (s.turn + 1) % |s.seats| == NextSeat(s)
  {}

  lemma NothingOffered(s: State, rolled: State)
    requires WellFormed(s) && rolled == s.(dice := rolled.dice, sixes := rolled.sixes)
    ensures LegalMoves(rolled) == [] <==> !SomethingMoves(s, rolled.dice)
  {
    var tokens := Current(s).tokens;
    if SomethingMoves(s, rolled.dice) {
      var id :| 0 <= id < 4 && Moves(tokens[id], rolled.dice);
      assert id in LegalFrom(tokens, rolled.dice, 0);
    } else {
      NoMovesFrom(tokens, rolled.dice, 0);
    }
  }

  /**
   A roll in a match that is on: the third six in a row passes the turn; else a choice is due if
   the die moves anything; else a six is rolled again; else the turn passes.
   */
  lemma RollExactly(s: State, die: Die)
    requires Inv(s) && s.phase != GameOver
    ensures ApplyRoll(s, die) ==
      if die == 6 && s.sixes == 2 then s.(dice := 6, sixes := 0, turn := NextSeat(s), phase := RollDice)
      else if SomethingMoves(s, die) then
        s.(dice := die, sixes := if die == 6 then s.sixes + 1 else 0, phase := SelectToken)
      else if die == 6 then s.(dice := 6, sixes := s.sixes + 1, phase := RollDice)
      else s.(dice := die, sixes := 0, turn := NextSeat(s), phase := RollDice)
  {
    NextSeatRound(s);
    NothingOffered(s, s.(dice := die, sixes := if die == 6 then s.sixes + 1 else 0));
  }

  lemma RollOnceOver(s: State, die: Die)
    requires Inv(s) && s.phase == GameOver
    ensures ApplyRoll(s, die) == s
  {}

  // ---- Moving ----

  /** The token stands a die further on, or on its start square, and its own seat's other tokens where they were. */
  lemma MovedExactly(s: State, id: int)
    requires Inv(s) && MoveToken(s, id).Ok?
    ensures 0 <= id < 4
    ensures var (before, after) := (s.seats[s.turn].tokens, MoveToken(s, id).value.next.seats[s.turn].tokens);
      && after[id].pos == (if before[id].state == InYard then 0 else before[id].pos + s.dice)
      && (after[id].state == OnTrack <==> 0 <= after[id].pos <= 50)
      && (after[id].state == InHomeStretch <==> 51 <= after[id].pos <= 55)
      && (after[id].state == Finished <==> after[id].pos == 56)
      && forall j :: 0 <= j < 4 && j != id ==> after[j] == before[j]
  {
    MoveEffect(s, id);
  }

  /** The opponent's token `j` of seat `i` shares an unsheltered track square with the token just moved. */
  predicate Hit(s: State, next: State, id: nat, i: nat, j: nat)
    requires WellFormed(s) && WellFormed(next) && |next.seats| == |s.seats|
    requires id < 4 && i < |s.seats| && j < 4
  {
    var (mover, other) := (next.seats[s.turn], s.seats[i]);
    && i != s.turn && other.tokens[j].state == OnTrack && mover.tokens[id].state == OnTrack
    && Square(other.color, other.tokens[j].pos) == Square(mover.color, mover.tokens[id].pos)
    && !Shelter(Square(mover.color, mover.tokens[id].pos))
  }

  /**
   An opponent's token changes exactly if it is hit, and then it is back in its yard; everything
   else about the seats stays.
   */
  lemma CapturedExactly(s: State, id: int, i: nat, j: nat)
    requires Inv(s) && MoveToken(s, id).Ok? && i < |s.seats| && i != s.turn && j < 4
    ensures var next := MoveToken(s, id).value.next;
      && next.seats[i].tokens[j] == (if Hit(s, next, id, i, j) then Token(InYard, 0) else s.seats[i].tokens[j])
      && (next.seats[i].tokens[j] != s.seats[i].tokens[j] <==> Hit(s, next, id, i, j))
  {
    MoveEffect(s, id);
    SquareIsGlobal(s.seats[i].color, s.seats[i].tokens[j].pos);
    var next := MoveToken(s, id).value.next;
    SquareIsGlobal(s.seats[s.turn].color, next.seats[s.turn].tokens[id].pos);
  }

  /** A move captures exactly if it sends some token home. */
  lemma CapturesExactly(s: State, id: int)
    requires Inv(s) && MoveToken(s, id).Ok?
    ensures MoveToken(s, id).value.captured <==>
      exists i: nat, j: nat :: i < |s.seats| && j < 4 && Hit(s, MoveToken(s, id).value.next, id, i, j)
  {
    MoveEffect(s, id);
    var m := MoveToken(s, id).value;
    var (color, t, moved) := (Current(s).color, Advance(Current(s).tokens[id], s.dice), SeatsMoved(s, id));
    assert m.next.seats[s.turn].tokens[id] == t && m.captured == LandsOnOpponent(moved, color, t);
    SquareIsGlobal(color, t.pos);
    if m.captured {
      var i, j :| 0 <= i < |moved| && 0 <= j < |moved[i].tokens|
        && moved[i].color != color && OnSquare(moved[i].color, moved[i].tokens[j], GlobalIndex(color, t.pos));
      assert i != s.turn && moved[i] == s.seats[i];
      SquareIsGlobal(s.seats[i].color, s.seats[i].tokens[j].pos);
      assert Hit(s, m.next, id, i, j);
    }
    if i: nat, j: nat :| i < |s.seats| && j < 4 && Hit(s, m.next, id, i, j) {
      SquareIsGlobal(s.seats[i].color, s.seats[i].tokens[j].pos);
      assert moved[i] == s.seats[i] && moved[i].color != color;
      assert OnSquare(moved[i].color, moved[i].tokens[j], GlobalIndex(color, t.pos));
    }
  }

  lemma HomeIsWon(s: State, i: nat)
    requires Inv(s) && i < |s.seats|
    ensures HasWon(s.seats[i]) <==> forall j :: 0 <= j < 4 ==> s.seats[i].tokens[j].pos == 56
  {
    assert forall j :: 0 <= j < 4 ==> PositionOk(s.seats[i].tokens[j]);
  }

  /** What follows a move: a mover with four tokens home has won; else a six is rolled again; else the turn passes. */
  lemma MoveOutcome(s: State, id: int)
    requires Inv(s) && MoveToken(s, id).Ok?
    ensures var next := MoveToken(s, id).value.next;
      if forall j :: 0 <= j < 4 ==> next.seats[s.turn].tokens[j].pos == 56
      then next == s.(seats := next.seats, phase := GameOver, winner := Some(s.seats[s.turn].color))
      else if s.dice == 6 then next == s.(seats := next.seats, phase := RollDice)
      else next == s.(seats := next.seats, phase := RollDice, sixes := 0, turn := NextSeat(s))
  {
    StepInv(s, Move(id));
    HomeIsWon(MoveToken(s, id).value.next, s.turn);
    NextSeatRound(s);
    MoveEnds(s, id);
  }

  lemma MoveEnds(s: State, id: int)
    requires WellFormed(s) && MoveToken(s, id).Ok?
    ensures var next := MoveToken(s, id).value.next;
      if HasWon(next.seats[s.turn])
      then next == s.(seats := next.seats, phase := GameOver, winner := Some(s.seats[s.turn].color))
      else if s.dice == 6 then next == s.(seats := next.seats, phase := RollDice)
      else next == s.(seats := next.seats, phase := RollDice, sixes := 0, turn := (s.turn + 1) % |s.seats|)
  {}

  lemma SeatsKeepNames(s: State, id: int, i: nat)
    requires Inv(s) && MoveToken(s, id).Ok? && i < |s.seats|
    ensures var next := MoveToken(s, id).value.next;
      && |next.seats| == |s.seats| && |next.seats[i].tokens| == 4
      && next.seats[i].color == s.seats[i].color && next.seats[i].name == s.seats[i].name
      && next.seats[i].isAI == s.seats[i].isAI
  {}

  // ---- Over whole matches ----

  lemma FinishedStaysStep(s: State, a: Action, i: nat, j: nat)
    requires Inv(s) && i < |s.seats| && j < 4 && s.seats[i].tokens[j].state == Finished
    ensures i < |Step(s, a).seats| && Step(s, a).seats[i].tokens[j] == Token(Finished, 56)
  {
    assert PositionOk(s.seats[i].tokens[j]);
    if a.Move? && MoveToken(s, a.id).Ok? {
      MovesExactly(s, a.id);
      if i == s.turn {
        MovedExactly(s, a.id);
      } else {
        CapturedExactly(s, a.id, i, j);
      }
    }
  }

  /** A token that is home stays home, whatever is rolled and tried. */
  lemma {:induction false} FinishedStays(s: State, run: seq<Action>, i: nat, j: nat)
    requires Inv(s) && i < |s.seats| && j < 4 && s.seats[i].tokens[j].state == Finished
    ensures i < |Exec(s, run).seats| && Exec(s, run).seats[i].tokens[j] == Token(Finished, 56)
    decreases |run|
  {
    if run == [] {
      assert PositionOk(s.seats[i].tokens[j]);
    } else {
      StepInv(s, run[0]);
      FinishedStaysStep(s, run[0], i, j);
      FinishedStays(Step(s, run[0]), run[1..], i, j);
    }
  }

  // ---- The computer player ----

  /** The look-ahead: an opponent stands on that square of the track, and the square gives no shelter. */
  lemma LooksAheadExactly(seats: seq<Seat>, mover: Color, pos: nat)
    ensures WouldCaptureAt(seats, mover, pos) <==>
      && pos <= 50 && !Shelter(Square(mover, pos))
      && exists i: nat, j: nat :: i < |seats| && j < |seats[i].tokens| && Standing(seats[i], j, mover, pos)
  {
    SquareIsGlobal(mover, pos);
    if pos <= 50 && OpponentOn(seats, mover, GlobalIndex(mover, pos)) {
      var i, j :| 0 <= i < |seats| && 0 <= j < |seats[i].tokens|
        && seats[i].color != mover && OnSquare(seats[i].color, seats[i].tokens[j], GlobalIndex(mover, pos));
      SquareIsGlobal(seats[i].color, seats[i].tokens[j].pos);
      assert Standing(seats[i], j, mover, pos);
    }
    if i: nat, j: nat :| i < |seats| && j < |seats[i].tokens| && Standing(seats[i], j, mover, pos) {
      SquareIsGlobal(seats[i].color, seats[i].tokens[j].pos);
      assert OnSquare(seats[i].color, seats[i].tokens[j], GlobalIndex(mover, pos));
    }
  }

  /** Token `j` of another colour's seat stands where `mover`'s position `pos` is. */
  predicate Standing(seat: Seat, j: nat, mover: Color, pos: int)
    requires j < |seat.tokens|
  {
    && seat.color != mover && seat.tokens[j].state == OnTrack
    && Square(seat.color, seat.tokens[j].pos) == Square(mover, pos)
  }

  predicate CanCapture(s: State, k: int)
    requires WellFormed(s)
  {
    MoveToken(s, k).Ok? && MoveToken(s, k).value.captured
  }

  predicate CanLeaveYard(s: State, k: int)
    requires WellFormed(s)
  {
    MoveToken(s, k).Ok? && s.seats[s.turn].tokens[k].state == InYard
  }

  /** Token `id` may move and no token that may is further on, nor as far on with a smaller number. */
  predicate Foremost(s: State, id: int)
    requires WellFormed(s) && 0 <= id < 4
  {
    var tokens := s.seats[s.turn].tokens;
    MoveToken(s, id).Ok? && forall k :: 0 <= k < 4 && MoveToken(s, k).Ok? ==>
      if k < id then tokens[k].pos < tokens[id].pos else tokens[k].pos <= tokens[id].pos
  }

  predicate FirstToCapture(s: State, id: int)
    requires WellFormed(s)
  {
    CanCapture(s, id) && forall k :: 0 <= k < id ==> !CanCapture(s, k)
  }

  predicate FirstToLeaveYard(s: State, id: int)
    requires WellFormed(s)
  {
    CanLeaveYard(s, id) && forall k :: 0 <= k < id ==> !CanLeaveYard(s, k)
  }

  lemma SamePriorities(s: State, k: int)
    requires Inv(s) && s.phase == SelectToken
    ensures MoveToken(s, k).Ok? <==> LudoAi.Legal(s, k)
    ensures CanCapture(s, k) <==> LudoAi.Legal(s, k) && LudoAi.Captures(s, k)
    ensures CanLeaveYard(s, k) <==> LudoAi.Legal(s, k) && LudoAi.LeavesYard(s, k)
  {
    if LudoAi.Legal(s, k) { LudoAi.LookAheadFaithful(s, k); }
  }

  /**
   The computer moves the first token whose move captures; if none does, the first that leaves
   the yard; if none can, the foremost.
   */
  lemma ComputerChoosesExactly(s: State, id: int)
    requires Inv(s) && s.phase == SelectToken && LudoAi.Chosen(s, id)
    ensures 0 <= id < 4
    ensures (exists k :: CanCapture(s, k)) ==> FirstToCapture(s, id)
    ensures (forall k :: !CanCapture(s, k)) && (exists k :: CanLeaveYard(s, k)) ==> FirstToLeaveYard(s, id)
    ensures (forall k :: !CanCapture(s, k)) && (forall k :: !CanLeaveYard(s, k)) ==> Foremost(s, id)
  {
    if k :| CanCapture(s, k) {
      ChoosesCapture(s, id, k);
    } else if k :| CanLeaveYard(s, k) {
      ChoosesYardExit(s, id, k);
    } else {
      ChoosesForemost(s, id);
    }
  }

  lemma ChoosesForemost(s: State, id: int)
    requires Inv(s) && s.phase == SelectToken && LudoAi.Chosen(s, id)
    requires (forall k :: !CanCapture(s, k)) && (forall k :: !CanLeaveYard(s, k))
    ensures 0 <= id < 4 && Foremost(s, id)
  {
    forall k
      ensures LudoAi.Legal(s, k) ==> !LudoAi.Captures(s, k) && !LudoAi.LeavesYard(s, k)
    {
      SamePriorities(s, k);
    }
    SamePriorities(s, id);
    forall k | 0 <= k < 4 && MoveToken(s, k).Ok?
      ensures if k < id then LudoAi.Position(s, k) < LudoAi.Position(s, id)
              else LudoAi.Position(s, k) <= LudoAi.Position(s, id)
    {
      SamePriorities(s, k);
    }
  }

  lemma ChoosesCapture(s: State, id: int, k: int)
    requires Inv(s) && s.phase == SelectToken && LudoAi.Chosen(s, id) && CanCapture(s, k)
    ensures FirstToCapture(s, id)
  {
    SamePriorities(s, k);
    SamePriorities(s, id);
    forall j | 0 <= j < id ensures !CanCapture(s, j) {
      SamePriorities(s, j);
    }
  }

  lemma ChoosesYardExit(s: State, id: int, k: int)
    requires Inv(s) && s.phase == SelectToken && LudoAi.Chosen(s, id)
    requires CanLeaveYard(s, k) && forall j :: !CanCapture(s, j)
    ensures FirstToLeaveYard(s, id)
  {
    SamePriorities(s, k);
    SamePriorities(s, id);
    forall j ensures !(LudoAi.Legal(s, j) && LudoAi.Captures(s, j)) {
      SamePriorities(s, j);
    }
    forall j | 0 <= j < id ensures !CanLeaveYard(s, j) {
      SamePriorities(s, j);
    }
  }
}

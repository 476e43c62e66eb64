/**
 No colour is favoured: giving every player the next colour round the board commutes with
 everything that can happen in a match.
 */
module LudoSymmetry {
  import opened Wrappers
  import opened LudoBoard
  import opened LudoRules
  import opened LudoAi

  function RotateWinner(w: Option<Color>): Option<Color> {
    if w.Some? then Some(NextColor(w.value)) else None
  }

  function RotateSeat(seat: Seat): Seat {
    seat.(color := NextColor(seat.color))
  }

  function RotateSeats(seats: seq<Seat>): (r: seq<Seat>)
    ensures |r| == |seats|
  {
    seq(|seats|, i requires 0 <= i < |seats| => RotateSeat(seats[i]))
  }

  /** The same position with every player's colour advanced by a quarter of the board. */
  function Rotate(s: State): (r: State)
    ensures WellFormed(s) ==> WellFormed(r)
  {
    s.(seats := RotateSeats(s.seats), winner := RotateWinner(s.winner))
  }

  function RotateMoved(r: Result<Moved, MoveError>): Result<Moved, MoveError> {
    if r.Ok? then Ok(Moved(Rotate(r.value.next), r.value.captured)) else r
  }

  function Shift(g: int): int {
    (g + 13) % TRACK_SQUARES
  }

  lemma OnSquareRotates(c: Color, t: Token, g: int)
    requires 0 <= g < TRACK_SQUARES
    ensures OnSquare(NextColor(c), t, Shift(g)) <==> OnSquare(c, t, g)
  {
    GlobalIndexShift(c, t.pos);
    QuarterTurnInjective(GlobalIndex(c, t.pos), g);
  }

  lemma CaptureRotatesSeat(seat: Seat, mover: Color, g: int)
    requires 0 <= g < TRACK_SQUARES
    ensures SeatAfterCapture(RotateSeat(seat), NextColor(mover), Shift(g)) ==
      RotateSeat(SeatAfterCapture(seat, mover, g))
  {
    NextColorInjective(seat.color, mover);
    forall i | 0 <= i < |seat.tokens|
      ensures SentHome(NextColor(seat.color), seat.tokens[i], Shift(g)) == SentHome(seat.color, seat.tokens[i], g)
    {
      OnSquareRotates(seat.color, seat.tokens[i], g);
    }
    assert SeatAfterCapture(RotateSeat(seat), NextColor(mover), Shift(g)).tokens ==
      SeatAfterCapture(seat, mover, g).tokens;
  }

  lemma CaptureRotates(seats: seq<Seat>, mover: Color, g: int)
    requires 0 <= g < TRACK_SQUARES
    ensures SeatsAfterCapture(RotateSeats(seats), NextColor(mover), Shift(g)) ==
      RotateSeats(SeatsAfterCapture(seats, mover, g))
  {
    forall i | 0 <= i < |seats|
      ensures SeatsAfterCapture(RotateSeats(seats), NextColor(mover), Shift(g))[i] ==
        RotateSeats(SeatsAfterCapture(seats, mover, g))[i]
    {
      CaptureRotatesSeat(seats[i], mover, g);
    }
  }

  lemma OpponentRotates(seats: seq<Seat>, mover: Color, g: int)
    requires 0 <= g < TRACK_SQUARES
    ensures OpponentOn(RotateSeats(seats), NextColor(mover), Shift(g)) <==> OpponentOn(seats, mover, g)
  {
    var rot := RotateSeats(seats);
    forall i, j | 0 <= i < |seats| && 0 <= j < |seats[i].tokens|
      ensures (rot[i].color != NextColor(mover) && OnSquare(rot[i].color, rot[i].tokens[j], Shift(g)))
         <==> (seats[i].color != mover && OnSquare(seats[i].color, seats[i].tokens[j], g))
    {
      NextColorInjective(seats[i].color, mover);
      OnSquareRotates(seats[i].color, seats[i].tokens[j], g);
    }
  }

  lemma LandingRotates(seats: seq<Seat>, mover: Color, t: Token)
    ensures LandsOnOpponent(RotateSeats(seats), NextColor(mover), t) == LandsOnOpponent(seats, mover, t)
    ensures SeatsCaptured(RotateSeats(seats), NextColor(mover), t) == RotateSeats(SeatsCaptured(seats, mover, t))
  {
    var g := GlobalIndex(mover, t.pos);
    GlobalIndexShift(mover, t.pos);
    QuarterTurnKeepsSafety(g);
    OpponentRotates(seats, mover, g);
    CaptureRotates(seats, mover, g);
  }

  lemma SeatsMovedRotate(s: State, id: nat)
    requires WellFormed(s) && id < TOKENS_PER_PLAYER
    ensures SeatsMoved(Rotate(s), id) == RotateSeats(SeatsMoved(s, id))
  {}

  lemma EndTurnRotates(s: State, extraRoll: bool)
    requires WellFormed(s)
    ensures EndTurn(Rotate(s), extraRoll) == Rotate(EndTurn(s, extraRoll))
  {}

  lemma RollRotates(s: State, val: int)
    requires WellFormed(s)
    ensures ApplyRoll(Rotate(s), val) == Rotate(ApplyRoll(s, val))
  {
    var sixes := if val == YARD_EXIT_ROLL then s.sixes + 1 else 0;
    var rolled := s.(dice := val, sixes := sixes);
    assert Rotate(s).(dice := val, sixes := sixes) == Rotate(rolled);
    assert Current(Rotate(rolled)).tokens == Current(rolled).tokens;
  }

  lemma MoveRotates(s: State, id: int)
    requires WellFormed(s)
    ensures MoveToken(Rotate(s), id) == RotateMoved(MoveToken(s, id))
  {
    if MoveToken(s, id).Ok? {
      var t := Advance(Current(s).tokens[id], s.dice);
      var moved := SeatsMoved(s, id);
      SeatsMovedRotate(s, id);
      LandingRotates(moved, Current(s).color, t);
      var next := s.(seats := SeatsCaptured(moved, Current(s).color, t));
      assert Rotate(s).(seats := RotateSeats(next.seats)) == Rotate(next);
      EndTurnRotates(next, s.dice == YARD_EXIT_ROLL);
    }
  }

  lemma OptionsRotate(s: State, k: int)
    requires WellFormed(s)
    ensures Legal(Rotate(s), k) <==> Legal(s, k)
    ensures LeavesYard(Rotate(s), k) <==> LeavesYard(s, k)
    ensures Position(Rotate(s), k) == Position(s, k)
    ensures Captures(Rotate(s), k) <==> Captures(s, k)
  {
    assert Current(Rotate(s)) == RotateSeat(Current(s));
    if 0 <= k < TOKENS_PER_PLAYER {
      var pos := Current(s).tokens[k].pos + s.dice;
      GlobalIndexShift(Current(s).color, pos);
      QuarterTurnKeepsSafety(GlobalIndex(Current(s).color, pos));
      OpponentRotates(s.seats, Current(s).color, GlobalIndex(Current(s).color, pos));
    }
  }

  /** The computer player chooses the same token in a rotated position. */
  lemma AiRotates(s: State, id: int)
    requires WellFormed(s)
    ensures Chosen(Rotate(s), id) <==> Chosen(s, id)
  {
    forall k: int
      ensures (Legal(Rotate(s), k) <==> Legal(s, k)) && (LeavesYard(Rotate(s), k) <==> LeavesYard(s, k))
      ensures Position(Rotate(s), k) == Position(s, k) && (Captures(Rotate(s), k) <==> Captures(s, k))
    {
      OptionsRotate(s, k);
    }
  }

  lemma StepRotates(s: State, a: Action)
    requires WellFormed(s)
    ensures Step(Rotate(s), a) == Rotate(Step(s, a))
  {
    match a
    case Roll(val) => RollRotates(s, val);
    case Move(id) => MoveRotates(s, id);
  }

  /**
   The same rolls and token choices lead rotated positions through rotated matches: the same
   seat wins, under its own colour, and every choice is as legal in the one as in the other.
   */
  lemma {:induction false} RunRotates(s: State, run: seq<Action>)
    requires WellFormed(s)
    ensures Exec(Rotate(s), run) == Rotate(Exec(s, run))
    ensures ProperRun(Rotate(s), run) <==> ProperRun(s, run)
    decreases |run|
  {
    if run != [] {
      StepRotates(s, run[0]);
      RunRotates(Step(s, run[0]), run[1..]);
    }
  }

  /** Four quarter turns bring every position back, so rotation is a bijection on positions. */
  lemma FourTurns(s: State)
    ensures Rotate(Rotate(Rotate(Rotate(s)))) == s
  {
    var r := Rotate(Rotate(Rotate(Rotate(s))));
    forall i | 0 <= i < |s.seats| ensures r.seats[i] == s.seats[i] {
      assert NextColor(NextColor(NextColor(NextColor(s.seats[i].color)))) == s.seats[i].color;
    }
    assert r.seats == s.seats;
  }
}

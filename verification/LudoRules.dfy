/**
 The rules of Ludo as functions on immutable states. `LudoEngine` proves that the mutable
 game computes exactly these functions; every other Ludo theorem is about them.
 */
module LudoRules {
  import opened Wrappers
  import opened LudoBoard

  datatype TokenState = InYard | OnTrack | InHomeStretch | Finished

  datatype Token = Token(state: TokenState, pos: int)

  datatype Seat = Seat(color: Color, name: string, isAI: bool, tokens: seq<Token>)

  datatype Phase = RollDice | SelectToken | GameOver

  datatype State = State(seats: seq<Seat>, turn: nat, dice: int, phase: Phase, winner: Option<Color>, sixes: nat)

  type Die = v: int | 1 <= v <= 6 witness 1

  const YARD_TOKEN := Token(InYard, 0)

  /** What the constructors of a match give: two to four seats of distinct colours with four tokens each. */
  predicate WellFormed(s: State) {
    && 2 <= |s.seats| <= 4
    && s.turn < |s.seats|
    && (forall i :: 0 <= i < |s.seats| ==> |s.seats[i].tokens| == TOKENS_PER_PLAYER)
    && (forall i, j :: 0 <= i < j < |s.seats| ==> s.seats[i].color != s.seats[j].color)
  }

  /** Same seats in the same order, each with as many tokens. */
  predicate SameShape(a: seq<Seat>, b: seq<Seat>) {
    && |a| == |b|
    && forall i :: 0 <= i < |a| ==>
      a[i].color == b[i].color && a[i].name == b[i].name && a[i].isAI == b[i].isAI && |a[i].tokens| == |b[i].tokens|
  }

  function NewSeat(color: Color, name: string, isAI: bool): Seat {
    Seat(color, name, isAI, [YARD_TOKEN, YARD_TOKEN, YARD_TOKEN, YARD_TOKEN])
  }

  function NewGame(seats: seq<Seat>): State {
    State(seats, 0, 0, RollDice, None, 0)
  }

  function Current(s: State): Seat
    requires WellFormed(s)
  {
    s.seats[s.turn]
  }

  predicate HasWon(seat: Seat) {
    forall i :: 0 <= i < |seat.tokens| ==> seat.tokens[i].state == Finished
  }

  // ---- Legal moves ----

  predicate CanMove(t: Token, dice: int) {
    match t.state
    case InYard => dice == YARD_EXIT_ROLL
    case OnTrack | InHomeStretch => t.pos + dice <= FINISH_POS
    case Finished => false
  }

  function LegalFrom(tokens: seq<Token>, dice: int, i: nat): (ids: seq<nat>)
    requires i <= |tokens|
    ensures forall id :: id in ids <==> i <= id < |tokens| && CanMove(tokens[id], dice)
    ensures forall k, l :: 0 <= k < l < |ids| ==> ids[k] < ids[l]
    decreases |tokens| - i
  {
    if i == |tokens| then []
    else if CanMove(tokens[i], dice) then
      var rest := LegalFrom(tokens, dice, i + 1);
      assert forall k :: 0 <= k < |rest| ==> rest[k] in rest;
      [i] + rest
    else LegalFrom(tokens, dice, i + 1)
  }

  /** Indices of the current player's movable tokens, in ascending order. */
  function LegalMoves(s: State): seq<nat>
    requires WellFormed(s)
  {
    LegalFrom(Current(s).tokens, s.dice, 0)
  }

  // ---- Rolling ----

  function EndTurn(s: State, extraRoll: bool): (r: State)
    requires WellFormed(s)
    ensures WellFormed(r) && r.seats == s.seats
  {
    if extraRoll then s.(phase := RollDice)
    else s.(sixes := 0, turn := (s.turn + 1) % |s.seats|, phase := RollDice)
  }

  function ApplyRoll(s: State, val: int): (r: State)
    requires WellFormed(s)
    ensures WellFormed(r) && r.seats == s.seats
  {
    if s.phase == GameOver then s
    else
      var sixes := if val == YARD_EXIT_ROLL then s.sixes + 1 else 0;
      var rolled := s.(dice := val, sixes := sixes);
      if sixes == 3 then EndTurn(rolled.(sixes := 0), false)
      else if LegalMoves(rolled) == [] then EndTurn(rolled, val == YARD_EXIT_ROLL)
      else rolled.(phase := SelectToken)
  }

  // ---- Moving and capturing ----

  function Advance(t: Token, dice: int): Token {
    var pos := if t.state == InYard then 0 else t.pos + dice;
    Token(if pos == FINISH_POS then Finished else if pos >= SHARED_SQUARES then InHomeStretch else OnTrack, pos)
  }

  predicate OnSquare(color: Color, t: Token, global: int) {
    t.state == OnTrack && GlobalIndex(color, t.pos) == global
  }

  function SentHome(color: Color, t: Token, global: int): Token {
    if OnSquare(color, t, global) then YARD_TOKEN else t
  }

  function SeatAfterCapture(seat: Seat, mover: Color, global: int): Seat {
    if seat.color == mover then seat
    else
      seat.(tokens := seq(|seat.tokens|, i requires 0 <= i < |seat.tokens| =>
        SentHome(seat.color, seat.tokens[i], global)))
  }

  function SeatsAfterCapture(seats: seq<Seat>, mover: Color, global: int): (r: seq<Seat>)
    ensures SameShape(seats, r)
  {
    seq(|seats|, i requires 0 <= i < |seats| => SeatAfterCapture(seats[i], mover, global))
  }

  /** Some opponent of `mover` stands on `global`. */
  predicate OpponentOn(seats: seq<Seat>, mover: Color, global: int) {
    exists i, j :: 0 <= i < |seats| && 0 <= j < |seats[i].tokens|
      && seats[i].color != mover && OnSquare(seats[i].color, seats[i].tokens[j], global)
  }

  predicate WouldCaptureAt(seats: seq<Seat>, mover: Color, pos: int) {
    && pos < SHARED_SQUARES
    && !IsSafeSquare(GlobalIndex(mover, pos))
    && OpponentOn(seats, mover, GlobalIndex(mover, pos))
  }

  /** The seats after the current player's token `id` has advanced, before any capture. */
  function SeatsMoved(s: State, id: nat): (r: seq<Seat>)
    requires WellFormed(s) && id < TOKENS_PER_PLAYER
    ensures SameShape(s.seats, r)
  {
    var p := Current(s);
    s.seats[s.turn := p.(tokens := p.tokens[id := Advance(p.tokens[id], s.dice)])]
  }

  /** The capture step: `mover` has just landed its token `t`. */
  predicate LandsOnOpponent(seats: seq<Seat>, mover: Color, t: Token) {
    && t.state == OnTrack
    && !IsSafeSquare(GlobalIndex(mover, t.pos))
    && OpponentOn(seats, mover, GlobalIndex(mover, t.pos))
  }

  function SeatsCaptured(seats: seq<Seat>, mover: Color, t: Token): (r: seq<Seat>)
    ensures SameShape(seats, r)
  {
    if t.state == OnTrack && !IsSafeSquare(GlobalIndex(mover, t.pos))
    then SeatsAfterCapture(seats, mover, GlobalIndex(mover, t.pos))
    else seats
  }

  datatype MoveError = WrongPhase | NoSuchToken | NoLegalMove

  datatype Moved = Moved(next: State, captured: bool)

  function MoveToken(s: State, id: int): (r: Result<Moved, MoveError>)
    requires WellFormed(s)
    ensures r.Ok? ==> WellFormed(r.value.next) && SameShape(s.seats, r.value.next.seats)
  {
    if s.phase != SelectToken then Err(WrongPhase)
    else if !(0 <= id < TOKENS_PER_PLAYER) then Err(NoSuchToken)
    else if !CanMove(Current(s).tokens[id], s.dice) then Err(NoLegalMove)
    else
      var color := Current(s).color;
      var t := Advance(Current(s).tokens[id], s.dice);
      var moved := SeatsMoved(s, id);
      var captured := LandsOnOpponent(moved, color, t);
      var next := s.(seats := SeatsCaptured(moved, color, t));
      if HasWon(next.seats[s.turn])
      then Ok(Moved(next.(winner := Some(color), phase := GameOver), captured))
      else Ok(Moved(EndTurn(next, s.dice == YARD_EXIT_ROLL), captured))
  }

  // ---- Runs ----

  datatype Action = Roll(val: Die) | Move(id: int)

  /** One action; a rejected move leaves the state alone. */
  function Step(s: State, a: Action): (r: State)
    requires WellFormed(s)
    ensures WellFormed(r) && SameShape(s.seats, r.seats)
  {
    match a
    case Roll(val) => ApplyRoll(s, val)
    case Move(id) => var m := MoveToken(s, id); if m.Ok? then m.value.next else s
  }

  function Exec(s: State, run: seq<Action>): (r: State)
    requires WellFormed(s)
    ensures WellFormed(r) && SameShape(s.seats, r.seats)
    decreases |run|
  {
    if run == [] then s else Exec(Step(s, run[0]), run[1..])
  }

  /** The action is one the keyboard and AI drivers allow: a roll when a roll is due, a legal move when a move is. */
  predicate Proper(s: State, a: Action)
    requires WellFormed(s)
  {
    match a
    case Roll(_) => s.phase == RollDice
    case Move(id) => s.phase == SelectToken && id in LegalMoves(s)
  }

  predicate ProperRun(s: State, run: seq<Action>)
    requires WellFormed(s)
    decreases |run|
  {
    run == [] || (Proper(s, run[0]) && ProperRun(Step(s, run[0]), run[1..]))
  }

  lemma {:induction false} ExecConcat(s: State, a: seq<Action>, b: seq<Action>)
    requires WellFormed(s)
    ensures Exec(s, a + b) == Exec(Exec(s, a), b)
    ensures ProperRun(s, a + b) <==> ProperRun(s, a) && ProperRun(Exec(s, a), b)
    decreases |a|
  {
    if a == [] {
      assert a + b == b;
    } else {
      assert (a + b)[1..] == a[1..] + b;
      ExecConcat(Step(s, a[0]), a[1..], b);
    }
  }
}

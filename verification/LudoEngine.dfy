/**
 The mutable game: tokens, players and the match they form. Every method is proved to take
 the match from one `LudoRules` state to the state the rules give.
 */
module LudoEngine {
  import opened Wrappers
  import opened LudoBoard
  import R = LudoRules

  class Token {
    const id: nat
    const color: Color
    var state: R.TokenState
    var position: int

    constructor (id: nat, color: Color)
      ensures this.id == id && this.color == color && Value() == R.YARD_TOKEN
    {
      this.id, this.color := id, color;
      state, position := R.InYard, 0;
    }

    function Value(): R.Token
      reads this
    {
      R.Token(state, position)
    }
  }

  class Player {
    const color: Color
    const name: string
    const isAI: bool
    const tokens: seq<Token>

    constructor (color: Color, name: string, isAI: bool)
      ensures Valid() && fresh(tokens)
      ensures this.color == color && this.name == name && this.isAI == isAI
      ensures Shows(R.NewSeat(color, name, isAI))
    {
      var ts: seq<Token> := [];
      for i := 0 to TOKENS_PER_PLAYER
        invariant |ts| == i && fresh(ts)
        invariant forall j :: 0 <= j < i ==> ts[j].id == j && ts[j].color == color && ts[j].Value() == R.YARD_TOKEN
      {
        var t := new Token(i, color);
        ts := ts + [t];
      }
      this.color, this.name, this.isAI, tokens := color, name, isAI, ts;
    }

    ghost function Footprint(): set<Token> {
      set t | t in tokens
    }

    ghost predicate Valid() {
      && |tokens| == TOKENS_PER_PLAYER
      && forall i :: 0 <= i < |tokens| ==> tokens[i].id == i && tokens[i].color == color
    }

    /** The seat gives this player and where its tokens stand. */
    ghost predicate Shows(seat: R.Seat)
      requires Valid()
      reads Footprint()
    {
      && seat.color == color && seat.name == name && seat.isAI == isAI
      && |seat.tokens| == TOKENS_PER_PLAYER
      && forall j :: 0 <= j < TOKENS_PER_PLAYER ==> tokens[j].Value() == seat.tokens[j]
    }

    method Snapshot(ghost shown: R.Seat) returns (seat: R.Seat)
      requires Valid() && Shows(shown)
      ensures seat == shown
    {
      var values: seq<R.Token> := [];
      for i := 0 to |tokens|
        invariant values == shown.tokens[..i]
      {
        values := values + [R.Token(tokens[i].state, tokens[i].position)];
      }
      seat := R.Seat(color, name, isAI, values);
    }

    /** Every token has reached Home. */
    method HasWon(ghost seat: R.Seat) returns (won: bool)
      requires Valid() && Shows(seat)
      ensures won == R.HasWon(seat)
    {
      for i := 0 to |tokens|
        invariant forall j :: 0 <= j < i ==> tokens[j].state == R.Finished
      {
        if tokens[i].state != R.Finished {
          assert seat.tokens[i].state != R.Finished;
          return false;
        }
      }
      return true;
    }
  }

  /** The tokens among `ts` standing on the shared-track square `idx`, in order. */
  ghost function Standing(ts: seq<Token>, idx: int): (found: seq<Token>)
    reads ts
  {
    if ts == [] then []
    else
      var last := ts[|ts| - 1];
      Standing(ts[..|ts| - 1], idx) + if R.OnSquare(last.color, last.Value(), idx) then [last] else []
  }

  lemma StandingMore(ts: seq<Token>, t: Token, idx: int)
    ensures Standing(ts + [t], idx) == Standing(ts, idx) + if R.OnSquare(t.color, t.Value(), idx) then [t] else []
  {
    assert (ts + [t])[..|ts|] == ts;
  }

  lemma StandingNext(before: seq<Token>, ts: seq<Token>, j: nat, idx: int)
    requires j < |ts|
    ensures Standing(before + ts[..j + 1], idx) ==
      Standing(before + ts[..j], idx) + if R.OnSquare(ts[j].color, ts[j].Value(), idx) then [ts[j]] else []
  {
    assert before + ts[..j + 1] == (before + ts[..j]) + [ts[j]];
    StandingMore(before + ts[..j], ts[j], idx);
  }

  lemma {:induction false} StandingMember(ts: seq<Token>, idx: int, t: Token)
    ensures t in Standing(ts, idx) <==> t in ts && R.OnSquare(t.color, t.Value(), idx)
  {
    if ts != [] {
      assert ts == ts[..|ts| - 1] + [ts[|ts| - 1]];
      StandingMember(ts[..|ts| - 1], idx, t);
    }
  }

  ghost function FlatTokens(ps: seq<Player>): seq<Token> {
    if ps == [] then [] else FlatTokens(ps[..|ps| - 1]) + ps[|ps| - 1].tokens
  }

  lemma {:induction false} FlatTokensMember(ps: seq<Player>, t: Token)
    ensures t in FlatTokens(ps) <==> exists i :: 0 <= i < |ps| && t in ps[i].tokens
  {
    if ps != [] {
      FlatTokensMember(ps[..|ps| - 1], t);
    }
  }

  /** The objects that hold the positions of the players `ps`. */
  ghost function Footprint(ps: seq<Player>): (r: set<Token>)
  {
    if ps == [] then {} else Footprint(ps[..|ps| - 1]) + ps[|ps| - 1].Footprint()
  }

  lemma {:induction false} FootprintMember(ps: seq<Player>, t: Token)
    ensures t in Footprint(ps) <==> exists i :: 0 <= i < |ps| && t in ps[i].tokens
  {
    if ps != [] {
      FootprintMember(ps[..|ps| - 1], t);
    }
  }

  class Game {
    const players: seq<Player>
    var turn: nat
    var dice: int
    var phase: R.Phase
    var winner: Option<Color>
    var consecutiveSixes: nat

    ghost const repr: set<Token>   // every token in the match
    ghost var seats: seq<R.Seat>   // what the players and their tokens amount to

    /** A fresh match; `initial` is what the given players show. */
    constructor (players: seq<Player>, ghost initial: seq<R.Seat>)
      requires 2 <= |players| <= 4
      requires forall i :: 0 <= i < |players| ==> players[i].Valid()
      requires forall i, j :: 0 <= i < j < |players| ==> players[i].color != players[j].color
      requires |initial| == |players| && forall i :: 0 <= i < |players| ==> players[i].Shows(initial[i])
      ensures Valid() && this.players == players && repr == Footprint(players)
      ensures State() == R.NewGame(initial)
    {
      this.players := players;
      turn, dice, phase, winner, consecutiveSixes := 0, 0, R.RollDice, None, 0;
      repr := Footprint(players);
      seats := initial;
      new;
      forall i, t | 0 <= i < |players| && t in players[i].tokens ensures t in repr {
        FootprintMember(players, t);
      }
    }

    /** The players are as the constructor took them. */
    ghost predicate Seated() {
      && 2 <= |players| <= 4
      && (forall i :: 0 <= i < |players| ==> players[i].Valid())
      && (forall i, j :: 0 <= i < j < |players| ==> players[i].color != players[j].color)
      && (forall i :: 0 <= i < |players| ==> players[i].Footprint() <= repr)
    }

    ghost predicate Valid()
      reads this, repr
    {
      && Seated()
      && turn < |players|
      && |seats| == |players|
      && R.WellFormed(State())
      && forall i :: 0 <= i < |players| ==> players[i].Shows(seats[i])
    }

    ghost function State(): R.State
      reads this
    {
      R.State(seats, turn, dice, phase, winner, consecutiveSixes)
    }

    /** The match as it is serialised for guests: the run of sixes is not exported. */
    method Snapshot() returns (s: R.State)
      requires Valid()
      ensures s == State().(sixes := 0)
    {
      var shown: seq<R.Seat> := [];
      for i := 0 to |players|
        invariant shown == seats[..i]
      {
        var seat := players[i].Snapshot(seats[i]);
        shown := shown + [seat];
      }
      s := R.State(shown, turn, dice, phase, winner, 0);
    }

    method LegalMoves() returns (moves: seq<nat>)
      requires Valid()
      ensures moves == R.LegalMoves(State())
    {
      var p := players[turn];
      ghost var tokens := R.Current(State()).tokens;
      assert players[turn].Shows(seats[turn]);
      moves := [];
      for i := 0 to |p.tokens|
        invariant moves + R.LegalFrom(tokens, dice, i) == R.LegalMoves(State())
      {
        var ok := CanMove(p.tokens[i]);
        if ok {
          moves := moves + [p.tokens[i].id];
        }
      }
    }

    method CanMove(t: Token) returns (ok: bool)
      ensures ok == R.CanMove(t.Value(), dice)
    {
      match t.state
      case InYard => ok := dice == YARD_EXIT_ROLL;
      case OnTrack | InHomeStretch => ok := t.position + dice <= FINISH_POS;
      case Finished => ok := false;
    }

    method EndTurn(extraRoll: bool)
      requires Valid()
      modifies this
      ensures Valid() && State() == R.EndTurn(old(State()), extraRoll)
    {
      if extraRoll {
        phase := R.RollDice;
        return;
      }
      consecutiveSixes := 0;
      turn := (turn + 1) % |players|;
      phase := R.RollDice;
    }

    /** Records the die and the run of sixes. */
    method CountRoll(val: int)
      requires Valid()
      modifies this
      ensures Valid()
      ensures State() ==
        old(State()).(dice := val, sixes := if val == YARD_EXIT_ROLL then old(consecutiveSixes) + 1 else 0)
    {
      dice := val;
      if val == YARD_EXIT_ROLL {
        consecutiveSixes := consecutiveSixes + 1;
      } else {
        consecutiveSixes := 0;
      }
    }

    method ApplyRoll(val: int)
      requires Valid()
      modifies this
      ensures Valid() && State() == R.ApplyRoll(old(State()), val)
    {
      if phase == R.GameOver { return; }
      CountRoll(val);
      if consecutiveSixes == 3 {
        consecutiveSixes := 0;
        EndTurn(false);
        return;
      }
      var moves := LegalMoves();
      if |moves| == 0 {
        EndTurn(val == YARD_EXIT_ROLL);
        return;
      }
      phase := R.SelectToken;
    }

    /** A roll with the value the random source supplies, `r` in 0..5. */
    method RollDice(r: int) returns (val: int)
      requires Valid() && 0 <= r < 6
      modifies this
      ensures Valid() && 1 <= val <= 6 && val == r + 1
      ensures State() == R.ApplyRoll(old(State()), val)
    {
      val := r + 1;
      ApplyRoll(val);
    }

    /** Which tokens the list of a square's occupants holds, seat by seat. */
    lemma StandingAt(global: int, i: nat, j: nat)
      requires Valid() && i < |players| && j < TOKENS_PER_PLAYER
      ensures players[i].tokens[j] in Standing(FlatTokens(players), global)
        <==> R.OnSquare(players[i].color, seats[i].tokens[j], global)
    {
      var t := players[i].tokens[j];
      assert players[i].Shows(seats[i]) && t in players[i].tokens;
      StandingMember(FlatTokens(players), global, t);
      FlatTokensMember(players, t);
    }

    /** Every occupant of a square is some player's token. */
    lemma StandingIsSeated(global: int, t: Token) returns (i: nat, j: nat)
      requires Valid() && t in Standing(FlatTokens(players), global)
      ensures i < |players| && j < TOKENS_PER_PLAYER && players[i].tokens[j] == t
      ensures R.OnSquare(players[i].color, seats[i].tokens[j], global)
    {
      StandingMember(FlatTokens(players), global, t);
      FlatTokensMember(players, t);
      i :| 0 <= i < |players| && t in players[i].tokens;
      j :| 0 <= j < |players[i].tokens| && players[i].tokens[j] == t;
      assert players[i].Shows(seats[i]);
    }

    /** The list of a square's occupants and the rules' question whether an opponent is there agree. */
    lemma StandingMeansOpponent(c: Color, global: int)
      requires Valid()
      ensures R.OpponentOn(seats, c, global) <==> exists t :: t in Standing(FlatTokens(players), global) && t.color != c
    {
      if R.OpponentOn(seats, c, global) {
        var i, j :| 0 <= i < |seats| && 0 <= j < |seats[i].tokens|
          && seats[i].color != c && R.OnSquare(seats[i].color, seats[i].tokens[j], global);
        assert players[i].Shows(seats[i]);
        StandingAt(global, i, j);
        assert players[i].tokens[j].color != c;
      }
      if t :| t in Standing(FlatTokens(players), global) && t.color != c {
        var i, j := StandingIsSeated(global, t);
        assert players[i].Shows(seats[i]);
      }
    }

    /** The list of a square's occupants, seat by seat. */
    lemma OccupantsSeated(global: int)
      requires Valid()
      ensures var found := Standing(FlatTokens(players), global);
        && (forall t :: t in found ==> t in repr)
        && forall i, j :: 0 <= i < |players| && 0 <= j < TOKENS_PER_PLAYER ==>
            (players[i].tokens[j] in found <==> R.OnSquare(players[i].color, seats[i].tokens[j], global))
    {
      forall t | t in Standing(FlatTokens(players), global) ensures t in repr {
        var i, j := StandingIsSeated(global, t);
      }
      forall i: nat, j: nat | i < |players| && j < TOKENS_PER_PLAYER
        ensures players[i].tokens[j] in Standing(FlatTokens(players), global)
          <==> R.OnSquare(players[i].color, seats[i].tokens[j], global)
      {
        StandingAt(global, i, j);
      }
    }

    lemma FlatTokensNext(i: nat)
      requires i < |players|
      ensures FlatTokens(players[..i]) + players[i].tokens[..0] == FlatTokens(players[..i])
      ensures FlatTokens(players[..i]) + players[i].tokens[..|players[i].tokens|] == FlatTokens(players[..i + 1])
    {
      var tokens := players[i].tokens;
      assert tokens[..0] == [] && tokens[..|tokens|] == tokens;
      assert FlatTokens(players[..i]) + [] == FlatTokens(players[..i]);
      assert players[..i + 1][..i] == players[..i];
    }

    method TokensOnSquare(idx: int) returns (found: seq<Token>)
      requires Valid()
      ensures found == Standing(FlatTokens(players), idx)
      ensures forall t :: t in found ==> t in repr
      ensures forall i, j :: 0 <= i < |players| && 0 <= j < TOKENS_PER_PLAYER ==>
        (players[i].tokens[j] in found <==> R.OnSquare(players[i].color, seats[i].tokens[j], idx))
    {
      found := [];
      for i := 0 to |players|
        invariant found == Standing(FlatTokens(players[..i]), idx)
      {
        var p := players[i];
        FlatTokensNext(i);
        for j := 0 to |p.tokens|
          invariant found == Standing(FlatTokens(players[..i]) + p.tokens[..j], idx)
        {
          var t := p.tokens[j];
          StandingNext(FlatTokens(players[..i]), p.tokens, j, idx);
          if t.state == R.OnTrack && GlobalIndex(t.color, t.position) == idx {
            found := found + [t];
          }
        }
        FlatTokensNext(i);
      }
      assert players[..|players|] == players;
      OccupantsSeated(idx);
    }

    method WouldCaptureAt(c: Color, pos: int) returns (would: bool)
      requires Valid()
      ensures would == R.WouldCaptureAt(State().seats, c, pos)
    {
      if pos >= SHARED_SQUARES { return false; }
      var global := GlobalIndex(c, pos);
      if IsSafeSquare(global) { return false; }
      var found := TokensOnSquare(global);
      StandingMeansOpponent(c, global);
      for k := 0 to |found|
        invariant forall m :: 0 <= m < k ==> found[m].color == c
      {
        if found[k].color != c {
          assert found[k] in found;
          return true;
        }
      }
      return false;
    }

    /** Sends the opponents sharing `t`'s square back to their yard, unless the square is safe. */
    method Capture(t: Token) returns (captured: bool)
      requires Valid() && t.state == R.OnTrack
      modifies this`seats, repr
      ensures Valid()
      ensures seats == R.SeatsCaptured(old(seats), t.color, old(t.Value()))
      ensures captured == R.LandsOnOpponent(old(seats), t.color, old(t.Value()))
    {
      var global := GlobalIndex(t.color, t.position);
      if IsSafeSquare(global) { return false; }
      captured := CaptureOn(t.color, global);
    }

    /** Sends every opponent of `mover` on a square back to its yard. */
    method CaptureOn(mover: Color, global: int) returns (captured: bool)
      requires Valid()
      modifies this`seats, repr
      ensures Valid()
      ensures seats == R.SeatsAfterCapture(old(seats), mover, global)
      ensures captured == R.OpponentOn(old(seats), mover, global)
    {
      var found := TokensOnSquare(global);
      StandingMeansOpponent(mover, global);
      captured := ClearSquare(found, mover, global);
      Reseat(R.SeatsAfterCapture(seats, mover, global));
    }

    /** Records what the players show after their tokens have changed. */
    ghost method Reseat(after: seq<R.Seat>)
      requires Seated() && turn < |players| && |seats| == |players| && R.WellFormed(State())
      requires R.SameShape(seats, after)
      requires forall i :: 0 <= i < |players| ==> players[i].Shows(after[i])
      modifies this`seats
      ensures Valid() && seats == after
    {
      seats := after;
    }

    /** Sends the opponents among a square's occupants home; every player then shows its seat after the capture. */
    method ClearSquare(found: seq<Token>, mover: Color, ghost global: int) returns (captured: bool)
      requires Valid()
      requires forall t :: t in found ==> t in repr
      requires forall i, j :: 0 <= i < |players| && 0 <= j < TOKENS_PER_PLAYER ==>
        (players[i].tokens[j] in found <==> R.OnSquare(players[i].color, seats[i].tokens[j], global))
      modifies repr
      ensures captured <==> exists t :: t in found && t.color != mover
      ensures forall i :: 0 <= i < |players| ==> players[i].Shows(R.SeatAfterCapture(seats[i], mover, global))
    {
      assert forall i :: 0 <= i < |players| ==> players[i].Shows(seats[i]);
      captured := SendHome(found, mover);
    }

    /**
     Moves the current player's token `tokenID` by the dice: captures what it lands on, and
     passes the turn, grants an extra roll or ends the match. A rejected id changes nothing.
     */
    method MoveToken(tokenID: int) returns (r: Result<bool, R.MoveError>)
      requires Valid()
      modifies this, repr
      ensures Valid()
      ensures r.Ok? ==> R.MoveToken(old(State()), tokenID) == Ok(R.Moved(State(), r.value))
      ensures r.Err? ==> R.MoveToken(old(State()), tokenID) == Err(r.error) && State() == old(State())
    {
      if phase != R.SelectToken { return Err(R.WrongPhase); }
      var p := players[turn];
      if tokenID < 0 || tokenID >= |p.tokens| { return Err(R.NoSuchToken); }
      var t := p.tokens[tokenID];
      assert players[turn].Shows(seats[turn]);
      var ok := CanMove(t);
      if !ok { return Err(R.NoLegalMove); }

      AdvanceToken(tokenID);
      var captured := false;
      if t.state == R.OnTrack {
        captured := Capture(t);
      }

      assert players[turn].Shows(seats[turn]);
      var won := p.HasWon(seats[turn]);
      if won {
        DeclareWinner(p.color);
        return Ok(captured);
      }
      EndTurn(dice == YARD_EXIT_ROLL);
      return Ok(captured);
    }

    method DeclareWinner(color: Color)
      requires Valid()
      modifies this
      ensures Valid() && State() == old(State()).(winner := Some(color), phase := R.GameOver)
    {
      winner := Some(color);
      phase := R.GameOver;
    }

    /** The token's own step of a move: out of the yard, or forward by the dice. */
    method AdvanceToken(tokenID: nat)
      requires Valid() && tokenID < TOKENS_PER_PLAYER
      modifies this`seats, repr
      ensures Valid()
      ensures seats == R.SeatsMoved(old(State()), tokenID)
      ensures players[turn].tokens[tokenID].Value() == R.Advance(old(R.Current(State()).tokens[tokenID]), dice)
    {
      var t := players[turn].tokens[tokenID];
      assert players[turn].Shows(seats[turn]) && t in players[turn].tokens;
      ghost var moved := R.Advance(t.Value(), dice);
      if t.state == R.InYard {
        t.state := R.OnTrack;
        t.position := 0;
      } else {
        t.position := t.position + dice;
      }
      if t.position == FINISH_POS {
        t.state := R.Finished;
      } else if t.position >= SHARED_SQUARES {
        t.state := R.InHomeStretch;
      } else {
        t.state := R.OnTrack;
      }
      assert t.Value() == moved;
      ghost var after := R.SeatsMoved(State(), tokenID);
      forall i | 0 <= i < |players| ensures players[i].Shows(after[i]) {
        assert old(players[i].Shows(seats[i]));
        assert i != turn ==> t !in players[i].tokens;
      }
      Reseat(after);
    }
  }

  /** The loop of `Capture`: every token of another colour in the list goes back to its yard. */
  method SendHome(found: seq<Token>, mover: Color) returns (captured: bool)
    modifies found
    ensures captured <==> exists t :: t in found && t.color != mover
    ensures forall t :: t in found ==> t.Value() == if t.color != mover then R.YARD_TOKEN else old(t.Value())
  {
    captured := false;
    for k := 0 to |found|
      invariant captured <==> exists m :: 0 <= m < k && found[m].color != mover
      invariant forall m :: 0 <= m < k && found[m].color != mover ==> found[m].Value() == R.YARD_TOKEN
      invariant forall t :: t in found && (t !in found[..k] || t.color == mover) ==> t.Value() == old(t.Value())
    {
      var other := found[k];
      if other.color == mover { continue; }
      other.state := R.InYard;
      other.position := 0;
      captured := true;
    }
  }
}

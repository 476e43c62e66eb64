/**
 The computer player: which token it moves, and why its look-ahead can be trusted.
 */
module LudoAi {
  import opened LudoBoard
  import opened LudoRules
  import opened LudoInvariant
  import E = LudoEngine

  predicate Legal(s: State, id: int)
    requires WellFormed(s)
  {
    0 <= id < TOKENS_PER_PLAYER && CanMove(Current(s).tokens[id], s.dice)
  }

  /** The look-ahead: token `id` is out of the yard and would land on an opponent. */
  predicate Captures(s: State, id: int)
    requires WellFormed(s)
  {
    && 0 <= id < TOKENS_PER_PLAYER
    && var t := Current(s).tokens[id];
       t.state != InYard && WouldCaptureAt(s.seats, Current(s).color, t.pos + s.dice)
  }

  predicate LeavesYard(s: State, id: int)
    requires WellFormed(s)
  {
    0 <= id < TOKENS_PER_PLAYER && Current(s).tokens[id].state == InYard
  }

  function Position(s: State, id: int): int
    requires WellFormed(s)
  {
    if 0 <= id < TOKENS_PER_PLAYER then Current(s).tokens[id].pos else 0
  }

  /** The first capturing move, else the first yard exit, else the first of the foremost movable tokens. */
  predicate Chosen(s: State, id: int)
    requires WellFormed(s)
  {
    && Legal(s, id)
    && if exists k :: 0 <= k < TOKENS_PER_PLAYER && Legal(s, k) && Captures(s, k) then
         Captures(s, id) && forall k :: 0 <= k < id && Legal(s, k) ==> !Captures(s, k)
       else if exists k :: 0 <= k < TOKENS_PER_PLAYER && Legal(s, k) && LeavesYard(s, k) then
         LeavesYard(s, id) && forall k :: 0 <= k < id && Legal(s, k) ==> !LeavesYard(s, k)
       else
         forall k :: 0 <= k < TOKENS_PER_PLAYER && Legal(s, k) ==>
           if k < id then Position(s, k) < Position(s, id) else Position(s, k) <= Position(s, id)
  }

  /** The list of legal moves, by index: what it holds, and that it is in order. */
  lemma LegalListed(s: State)
    requires WellFormed(s)
    ensures var moves := LegalMoves(s);
      && (forall k :: 0 <= k < |moves| ==> moves[k] < TOKENS_PER_PLAYER && Legal(s, moves[k]))
      && (forall id :: 0 <= id < TOKENS_PER_PLAYER && Legal(s, id) ==> exists k :: 0 <= k < |moves| && moves[k] == id)
  {
    var moves := LegalMoves(s);
    assert forall k :: 0 <= k < |moves| ==> moves[k] in moves;
    assert forall id :: 0 <= id < TOKENS_PER_PLAYER && Legal(s, id) ==> id in moves;
  }

  /** A smaller legal id stands earlier in the list. */
  lemma EarlierInList(s: State, at: nat, id: int) returns (k: nat)
    requires WellFormed(s) && at < |LegalMoves(s)|
    requires 0 <= id < TOKENS_PER_PLAYER && Legal(s, id)
    ensures k < |LegalMoves(s)| && LegalMoves(s)[k] == id
    ensures id < LegalMoves(s)[at] <==> k < at
  {
    LegalListed(s);
    k :| 0 <= k < |LegalMoves(s)| && LegalMoves(s)[k] == id;
  }

  lemma ChosenByCapture(s: State, at: nat)
    requires WellFormed(s) && at < |LegalMoves(s)|
    requires Captures(s, LegalMoves(s)[at]) && forall k :: 0 <= k < at ==> !Captures(s, LegalMoves(s)[k])
    ensures Chosen(s, LegalMoves(s)[at])
  {
    LegalListed(s);
    forall id | 0 <= id < LegalMoves(s)[at] && Legal(s, id) ensures !Captures(s, id) {
      var k := EarlierInList(s, at, id);
    }
  }

  lemma ChosenByYardExit(s: State, at: nat)
    requires WellFormed(s) && at < |LegalMoves(s)|
    requires forall k :: 0 <= k < |LegalMoves(s)| ==> !Captures(s, LegalMoves(s)[k])
    requires LeavesYard(s, LegalMoves(s)[at]) && forall k :: 0 <= k < at ==> !LeavesYard(s, LegalMoves(s)[k])
    ensures Chosen(s, LegalMoves(s)[at])
  {
    LegalListed(s);
    forall id | 0 <= id < LegalMoves(s)[at] && Legal(s, id) ensures !LeavesYard(s, id) {
      var k := EarlierInList(s, at, id);
    }
  }

  lemma ChosenByPosition(s: State, at: nat)
    requires WellFormed(s) && at < |LegalMoves(s)|
    requires forall k :: 0 <= k < |LegalMoves(s)| ==> !Captures(s, LegalMoves(s)[k]) && !LeavesYard(s, LegalMoves(s)[k])
    requires forall k :: 0 <= k < |LegalMoves(s)| ==> Position(s, LegalMoves(s)[k]) <= Position(s, LegalMoves(s)[at])
    requires forall k :: 0 <= k < at ==> Position(s, LegalMoves(s)[k]) < Position(s, LegalMoves(s)[at])
    ensures Chosen(s, LegalMoves(s)[at])
  {
    LegalListed(s);
    forall id | 0 <= id < TOKENS_PER_PLAYER && Legal(s, id)
      ensures if id < LegalMoves(s)[at] then Position(s, id) < Position(s, LegalMoves(s)[at])
              else Position(s, id) <= Position(s, LegalMoves(s)[at])
    {
      var k := EarlierInList(s, at, id);
    }
  }

  method ChooseAIMove(g: E.Game) returns (id: nat)
    requires g.Valid()
    requires LegalMoves(g.State()) != []
    ensures Chosen(g.State(), id)
  {
    var moves := g.LegalMoves();
    LegalListed(g.State());
    var found, at := FindCapture(g, moves);
    if found {
      ChosenByCapture(g.State(), at);
      return moves[at];
    }
    found, at := FindYardExit(g, moves);
    if found {
      ChosenByYardExit(g.State(), at);
      return moves[at];
    }
    at := FindForemost(g, moves);
    ChosenByPosition(g.State(), at);
    return moves[at];
  }

  /** The first move in the list that captures. */
  method FindCapture(g: E.Game, moves: seq<nat>) returns (found: bool, at: nat)
    requires g.Valid() && forall k :: 0 <= k < |moves| ==> moves[k] < TOKENS_PER_PLAYER
    ensures found ==> at < |moves| && Captures(g.State(), moves[at])
    ensures forall k :: 0 <= k < (if found then at else |moves|) ==> !Captures(g.State(), moves[k])
  {
    var p := g.players[g.turn];
    assert p.Shows(g.seats[g.turn]);
    for i := 0 to |moves|
      invariant forall k :: 0 <= k < i ==> !Captures(g.State(), moves[k])
    {
      var t := p.tokens[moves[i]];
      if t.state == InYard { continue; }
      var would := g.WouldCaptureAt(t.color, t.position + g.dice);
      if would { return true, i; }
    }
    return false, 0;
  }

  /** The first move in the list that leaves the yard. */
  method FindYardExit(g: E.Game, moves: seq<nat>) returns (found: bool, at: nat)
    requires g.Valid() && forall k :: 0 <= k < |moves| ==> moves[k] < TOKENS_PER_PLAYER
    ensures found ==> at < |moves| && LeavesYard(g.State(), moves[at])
    ensures forall k :: 0 <= k < (if found then at else |moves|) ==> !LeavesYard(g.State(), moves[k])
  {
    var p := g.players[g.turn];
    assert p.Shows(g.seats[g.turn]);
    for i := 0 to |moves|
      invariant forall k :: 0 <= k < i ==> !LeavesYard(g.State(), moves[k])
    {
      if p.tokens[moves[i]].state == InYard { return true, i; }
    }
    return false, 0;
  }

  /** The first move in the list of a token that no other movable token is ahead of. */
  method FindForemost(g: E.Game, moves: seq<nat>) returns (at: nat)
    requires g.Valid() && moves != [] && forall k :: 0 <= k < |moves| ==> moves[k] < TOKENS_PER_PLAYER
    ensures at < |moves|
    ensures forall k :: 0 <= k < |moves| ==> Position(g.State(), moves[k]) <= Position(g.State(), moves[at])
    ensures forall k :: 0 <= k < at ==> Position(g.State(), moves[k]) < Position(g.State(), moves[at])
  {
    var p := g.players[g.turn];
    assert p.Shows(g.seats[g.turn]);
    at := 0;
    for i := 1 to |moves|
      invariant 0 <= at < i
      invariant forall k :: 0 <= k < i ==> Position(g.State(), moves[k]) <= Position(g.State(), moves[at])
      invariant forall k :: 0 <= k < at ==> Position(g.State(), moves[k]) < Position(g.State(), moves[at])
    {
      if p.tokens[moves[i]].position > p.tokens[moves[at]].position {
        at := i;
      }
    }
  }

  /** The choice is determined by the state. */
  lemma ChosenUnique(s: State, a: int, b: int)
    requires WellFormed(s) && Chosen(s, a) && Chosen(s, b)
    ensures a == b
  {
  }

  /** Moving a token of one's own does not change where the opponents stand. */
  lemma OpponentsUnmoved(s: State, id: int, g: int)
    requires WellFormed(s) && 0 <= id < TOKENS_PER_PLAYER
    ensures OpponentOn(SeatsMoved(s, id), Current(s).color, g) <==> OpponentOn(s.seats, Current(s).color, g)
  {
    var color := Current(s).color;
    var moved := SeatsMoved(s, id);
    assert forall i :: 0 <= i < |moved| && moved[i].color != color ==> moved[i] == s.seats[i];
    assert forall i :: 0 <= i < |moved| && s.seats[i].color != color ==> moved[i] == s.seats[i];
  }

  /** Landing by the dice and looking ahead by the dice are about the same square. */
  lemma LandingFaithful(s: State, id: int)
    requires Inv(s) && 0 <= id < TOKENS_PER_PLAYER && Current(s).tokens[id].state != InYard
    requires 1 <= s.dice && CanMove(Current(s).tokens[id], s.dice)
    ensures LandsOnOpponent(SeatsMoved(s, id), Current(s).color, Advance(Current(s).tokens[id], s.dice))
      <==> WouldCaptureAt(s.seats, Current(s).color, Current(s).tokens[id].pos + s.dice)
  {
    OpponentsUnmoved(s, id, GlobalIndex(Current(s).color, Current(s).tokens[id].pos + s.dice));
  }

  /** The look-ahead agrees, for every legal token, with the captured flag of the move itself. */
  lemma LookAheadFaithful(s: State, id: int)
    requires Inv(s) && s.phase == SelectToken && Legal(s, id)
    ensures MoveToken(s, id).Ok? && MoveToken(s, id).value.captured == Captures(s, id)
  {
    if Current(s).tokens[id].state == InYard {
      StartIsSafe(Current(s).color);
    } else {
      LandingFaithful(s, id);
    }
  }

  /** What the computer player's priorities come to in play. */
  lemma AiPriorities(s: State, id: int)
    requires Inv(s) && s.phase == SelectToken && Chosen(s, id)
    ensures MoveToken(s, id).Ok?
    ensures (exists k :: MoveToken(s, k).Ok? && MoveToken(s, k).value.captured) ==> MoveToken(s, id).value.captured
    ensures !MoveToken(s, id).value.captured && (exists k :: MoveToken(s, k).Ok? && LeavesYard(s, k)) ==>
      LeavesYard(s, id)
    ensures !MoveToken(s, id).value.captured && !LeavesYard(s, id) ==>
      forall k :: MoveToken(s, k).Ok? ==> Position(s, k) <= Position(s, id)
  {
    LookAheadFaithful(s, id);
    if k :| MoveToken(s, k).Ok? && MoveToken(s, k).value.captured {
      LookAheadFaithful(s, k);
    }
    if !MoveToken(s, id).value.captured {
      forall k | 0 <= k < TOKENS_PER_PLAYER && Legal(s, k) ensures !Captures(s, k) {}
      if k :| MoveToken(s, k).Ok? && LeavesYard(s, k) {
        assert Legal(s, k);
      }
    }
  }
}

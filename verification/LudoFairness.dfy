/**
 Turn order and fairness: who rolls when, over whole runs that roll only when a roll is due.
 */
module LudoFairness {
  import opened LudoBoard
  import opened LudoRules
  import opened LudoInvariant

  /** The seats that roll during a run, in order. */
  function Rollers(s: State, run: seq<Action>): (r: seq<nat>)
    requires WellFormed(s)
    decreases |run|
  {
    if run == [] then []
    else (if run[0].Roll? && s.phase != GameOver then [s.turn] else []) + Rollers(Step(s, run[0]), run[1..])
  }

  /** How many seats must finish their turn before seat `k` next starts one. */
  function TurnsUntil(s: State, k: nat): (d: nat)
    requires WellFormed(s) && k < |s.seats|
    ensures d < |s.seats|
  {
    if k >= s.turn then k - s.turn else k - s.turn + |s.seats|
  }

  /** The most rolls that can still be made before seat `k` makes one. */
  function RollsBefore(s: State, k: nat): int
    requires WellFormed(s) && k < |s.seats|
  {
    var d := TurnsUntil(s, k);
    if s.phase == SelectToken && s.dice != YARD_EXIT_ROLL then 3 * ((if d == 0 then |s.seats| else d) - 1)
    else if d == 0 then 0
    else 3 * d - s.sixes
  }

  function NextTurn(s: State): (t: nat)
    requires WellFormed(s)
    ensures t == (s.turn + 1) % |s.seats|
  {
    if s.turn + 1 == |s.seats| then 0 else s.turn + 1
  }

  /** Where a due roll leads: to a choice of token, to another roll after a six, or to the next seat. */
  lemma RollCases(s: State, val: Die)
    requires Inv(s) && s.phase == RollDice
    ensures var t := Step(s, Roll(val));
      || (t.turn == s.turn && t.phase == SelectToken && t.dice == val
           && t.sixes == if val == YARD_EXIT_ROLL then s.sixes + 1 else 0)
      || (t.turn == s.turn && t.phase == RollDice && val == YARD_EXIT_ROLL && t.sixes == s.sixes + 1)
      || (t.turn == NextTurn(s) && t.phase == RollDice && t.sixes == 0)
  {}

  /** Where a legal move leads: to the end of the match, to another roll after a six, or to the next seat. */
  lemma MoveCases(s: State, id: int)
    requires Inv(s) && Proper(s, Move(id))
    ensures var t := Step(s, Move(id));
      || t.phase == GameOver
      || (t.turn == s.turn && t.phase == RollDice && s.dice == YARD_EXIT_ROLL && t.sixes == s.sixes)
      || (t.turn == NextTurn(s) && t.phase == RollDice && s.dice != YARD_EXIT_ROLL && t.sixes == 0)
  {}

  lemma RollsBeforeStep(s: State, a: Action, k: nat)
    requires Inv(s) && Inv(Step(s, a)) && Proper(s, a) && k < |s.seats| && Step(s, a).phase != GameOver
    requires a.Roll? ==> s.turn != k
    ensures RollsBefore(Step(s, a), k) <= RollsBefore(s, k) - (if a.Roll? then 1 else 0)
    ensures RollsBefore(Step(s, a), k) >= 0
  {
    var t := Step(s, a);
    match a
    case Roll(val) => RollCases(s, val);
    case Move(id) => MoveCases(s, id);
  }

  lemma {:induction false} RollsBeforeBound(s: State, run: seq<Action>, k: nat)
    requires Inv(s) && ProperRun(s, run) && k < |s.seats| && Exec(s, run).phase != GameOver
    requires k !in Rollers(s, run)
    ensures |Rollers(s, run)| <= RollsBefore(s, k)
    decreases |run|
  {
    if run == [] {
    } else {
      var t := Step(s, run[0]);
      StepInv(s, run[0]);
      if t.phase == GameOver { GameOverAbsorbing(t, run[1..]); }
      if s.phase == GameOver { GameOverAbsorbing(s, run); }
      if run[0].Roll? { assert Rollers(s, run)[0] == s.turn; }
      assert t.phase != GameOver && s.phase != GameOver;
      RollsBeforeStep(s, run[0], k);
      RollsBeforeBound(t, run[1..], k);
    }
  }

  /**
   In any stretch of an unfinished match with `3 * (n - 1) + 1` rolls, every one of the `n`
   seats rolls.
   */
  lemma EverySeatRolls(s: State, run: seq<Action>, k: nat)
    requires Inv(s) && ProperRun(s, run) && k < |s.seats| && Exec(s, run).phase != GameOver
    requires |Rollers(s, run)| >= 3 * (|s.seats| - 1) + 1
    ensures k in Rollers(s, run)
  {
    if k !in Rollers(s, run) {
      RollsBeforeBound(s, run, k);
    }
  }

  /** The rolls the current seat can still make in this turn. */
  function RollsLeft(s: State): int {
    if s.phase == SelectToken && s.dice != YARD_EXIT_ROLL then 0 else 3 - s.sixes
  }

  lemma {:induction false} SameSeatRolls(s: State, run: seq<Action>)
    requires Inv(s) && ProperRun(s, run)
    requires forall r :: r in Rollers(s, run) ==> r == s.turn
    ensures |Rollers(s, run)| <= RollsLeft(s)
    decreases |run|
  {
    if run == [] {
    } else {
      var t := Step(s, run[0]);
      StepInv(s, run[0]);
      match run[0] { case Roll(val) => RollCases(s, val); case Move(id) => MoveCases(s, id); }
      assert forall r :: r in Rollers(t, run[1..]) ==> r in Rollers(s, run);
      if t.phase == GameOver {
        NoRollsOnceOver(t, run[1..]);
      } else if t.turn == s.turn {
        SameSeatRolls(t, run[1..]);
      } else {
        NextSeatRollsFirst(t, run[1..]);
      }
    }
  }

  lemma NextSeatRollsFirst(s: State, run: seq<Action>)
    requires Inv(s) && s.phase == RollDice && ProperRun(s, run)
    ensures Rollers(s, run) == [] || s.turn in Rollers(s, run)
  {
    if run != [] { assert Rollers(s, run)[0] == s.turn; }
  }

  lemma {:induction false} NoRollsOnceOver(s: State, run: seq<Action>)
    requires WellFormed(s) && s.phase == GameOver
    ensures Rollers(s, run) == []
    decreases |run|
  {
    if run != [] { NoRollsOnceOver(Step(s, run[0]), run[1..]); }
  }

  /** The first to roll is the seat whose turn it is, unless its turn is about to end with the pending move. */
  lemma FirstRoller(s: State, run: seq<Action>)
    requires Inv(s) && ProperRun(s, run) && Rollers(s, run) != []
    ensures Rollers(s, run)[0] == s.turn || (s.phase == SelectToken && Rollers(s, run)[0] == NextTurn(s))
  {
    if run[0].Move? {
      var t := Step(s, run[0]);
      StepInv(s, run[0]);
      MoveCases(s, run[0].id);
      if t.phase == GameOver { NoRollsOnceOver(t, run[1..]); }
      assert Rollers(s, run) == Rollers(t, run[1..]);
      assert run[1..] != [] && Proper(t, run[1..][0]);
    }
  }

  lemma {:induction false} AtMostThree(s: State, run: seq<Action>, r: nat)
    requires Inv(s) && ProperRun(s, run)
    requires forall q :: q in Rollers(s, run) ==> q == r
    ensures |Rollers(s, run)| <= 3
    decreases |run|
  {
    if run == [] {
    } else if run[0].Roll? {
      assert Rollers(s, run)[0] == s.turn && s.turn in Rollers(s, run);
      SameSeatRolls(s, run);
    } else {
      StepInv(s, run[0]);
      assert Rollers(s, run) == Rollers(Step(s, run[0]), run[1..]);
      AtMostThree(Step(s, run[0]), run[1..], r);
    }
  }

  /** A turn has at most three rolls: among any four consecutive rolls two seats roll. */
  lemma AtMostThreeInARow(s: State, run: seq<Action>)
    requires Inv(s) && ProperRun(s, run) && |Rollers(s, run)| >= 4
    ensures exists i :: 0 <= i < |Rollers(s, run)| && Rollers(s, run)[i] != Rollers(s, run)[0]
  {
    if forall i :: 0 <= i < |Rollers(s, run)| ==> Rollers(s, run)[i] == Rollers(s, run)[0] {
      forall q | q in Rollers(s, run) ensures q == Rollers(s, run)[0] {}
      AtMostThree(s, run, Rollers(s, run)[0]);
    }
  }

  /** Of `n` seats round the table, `b` is `a` or the one after it. */
  predicate SameOrNext(n: nat, a: nat, b: nat)
    requires n > 0
  {
    b == a || b == (a + 1) % n
  }

  lemma NextIsNext(s: State, t: State)
    requires WellFormed(s) && WellFormed(t) && |t.seats| == |s.seats|
    ensures t.turn == s.turn ==> SameOrNext(|s.seats|, s.turn, NextTurn(t)) && SameOrNext(|s.seats|, s.turn, t.turn)
    ensures t.turn == NextTurn(s) ==> SameOrNext(|s.seats|, s.turn, t.turn)
  {}

  lemma AfterOwnRoll(s: State, run: seq<Action>)
    requires Inv(s) && ProperRun(s, run) && run != [] && run[0].Roll?
    ensures var rest := Rollers(Step(s, run[0]), run[1..]); rest == [] || SameOrNext(|s.seats|, s.turn, rest[0])
  {
    var t := Step(s, run[0]);
    StepInv(s, run[0]);
    RollCases(s, run[0].val);
    NextIsNext(s, t);
    if Rollers(t, run[1..]) != [] {
      FirstRoller(t, run[1..]);
    }
  }

  /** The rolls of a run are those after its first action, with that action's own in front. */
  lemma RollersOfFirst(s: State, run: seq<Action>)
    requires Inv(s) && ProperRun(s, run) && run != []
    ensures Inv(Step(s, run[0])) && |Step(s, run[0]).seats| == |s.seats| && ProperRun(Step(s, run[0]), run[1..])
    ensures Rollers(s, run) == (if run[0].Roll? then [s.turn] else []) + Rollers(Step(s, run[0]), run[1..])
  {
    StepInv(s, run[0]);
  }

  predicate InTableOrder(n: nat, rollers: seq<nat>)
    requires n > 0
  {
    forall i :: 0 <= i < |rollers| - 1 ==> SameOrNext(n, rollers[i], rollers[i + 1])
  }

  lemma InOrderWithFirst(n: nat, first: nat, rest: seq<nat>)
    requires n > 0 && InTableOrder(n, rest) && (rest == [] || SameOrNext(n, first, rest[0]))
    ensures InTableOrder(n, [first] + rest)
  {
    forall i | 0 <= i < |rest| ensures SameOrNext(n, ([first] + rest)[i], ([first] + rest)[i + 1]) {
      if i > 0 { assert SameOrNext(n, rest[i - 1], rest[(i - 1) + 1]); }
    }
  }

  /** Seats roll in table order: after a seat's roll comes its own next roll or the next seat's. */
  lemma {:induction false} RollersInTableOrder(s: State, run: seq<Action>)
    requires Inv(s) && ProperRun(s, run)
    ensures InTableOrder(|s.seats|, Rollers(s, run))
    decreases |run|
  {
    if run != [] {
      RollersOfFirst(s, run);
      RollersInTableOrder(Step(s, run[0]), run[1..]);
      if run[0].Roll? {
        AfterOwnRoll(s, run);
        InOrderWithFirst(|s.seats|, s.turn, Rollers(Step(s, run[0]), run[1..]));
      }
    }
  }

  // ---- Rolls made without the phase check, as for a networked guest ----

  /** Any rolls, and legal moves: what the host carries out when it does not check that a roll is due. */
  predicate UncheckedRun(s: State, run: seq<Action>)
    requires WellFormed(s)
    decreases |run|
  {
    run == [] || ((run[0].Move? ==> MoveToken(s, run[0].id).Ok?) && UncheckedRun(Step(s, run[0]), run[1..]))
  }

  /** The run is all the current seat's: nobody else rolls in it. */
  predicate HoldsTurn(s: State, run: seq<Action>)
    requires WellFormed(s)
  {
    UncheckedRun(s, run) && forall r :: r in Rollers(s, run) ==> r == s.turn
  }

  ghost predicate CanHoldTurn(s: State, m: nat)
    requires WellFormed(s)
  {
    exists run :: HoldsTurn(s, run) && |Rollers(s, run)| == m
  }

  function Ones(m: nat): seq<Action> {
    seq(m, _ => Roll(1))
  }

  /** The current seat has a token that is neither in the yard nor finished. */
  predicate HasTokenInPlay(s: State)
    requires WellFormed(s)
  {
    exists id :: 0 <= id < TOKENS_PER_PLAYER && CanMove(Current(s).tokens[id], 1)
  }

  /** It has one, or will have after the choice it is about to make or after a six. */
  predicate CanRollOn(s: State)
    requires WellFormed(s)
  {
    HasTokenInPlay(s) || s.phase == SelectToken || s.sixes < 2
  }

  lemma OneKeepsTheTurn(s: State)
    requires Inv(s) && s.phase != GameOver && HasTokenInPlay(s)
    ensures var t := Step(s, Roll(1)); t.seats == s.seats && t.turn == s.turn && t.phase == SelectToken
  {
    var id :| 0 <= id < TOKENS_PER_PLAYER && CanMove(Current(s).tokens[id], 1);
    assert id in LegalFrom(Current(s).tokens, 1, 0);
  }

  /** A seat with a token in play keeps its turn through any number of ones. */
  lemma {:induction false} OnesKeepTheTurn(s: State, m: nat)
    requires Inv(s) && s.phase != GameOver && HasTokenInPlay(s)
    ensures UncheckedRun(s, Ones(m)) && Rollers(s, Ones(m)) == seq(m, _ => s.turn)
    ensures Exec(s, Ones(m)).seats == s.seats && Exec(s, Ones(m)).turn == s.turn && Exec(s, Ones(m)).phase != GameOver
    decreases m
  {
    if m > 0 {
      var t := Step(s, Roll(1));
      OneKeepsTheTurn(s);
      StepInv(s, Roll(1));
      OnesKeepTheTurn(t, m - 1);
      assert Ones(m)[1..] == Ones(m - 1);
      assert [s.turn] + seq(m - 1, _ => s.turn) == seq(m, _ => s.turn);
    }
  }

  lemma HoldsWithToken(s: State, m: nat)
    requires Inv(s) && s.phase != GameOver && HasTokenInPlay(s)
    ensures CanHoldTurn(s, m)
  {
    OnesKeepTheTurn(s, m);
    assert HoldsTurn(s, Ones(m));
  }

  /** A seat without a token in play that has a choice to make is leaving its yard on a six, and rolls on. */
  lemma YardExit(s: State, id: nat)
    requires Inv(s) && !HasTokenInPlay(s) && MoveToken(s, id).Ok?
    ensures var t := MoveToken(s, id).value.next;
      Inv(t) && t.phase == RollDice && t.turn == s.turn && HasTokenInPlay(t)
  {
    StepInv(s, Move(id));
    MoveEffect(s, id);
    assert PositionOk(Current(s).tokens[id]) && !CanMove(Current(s).tokens[id], 1);
    var t := MoveToken(s, id).value.next;
    assert t.seats[s.turn].tokens[id] == Advance(Current(s).tokens[id], s.dice);
    assert t.turn == s.turn && CanMove(Current(t).tokens[id], 1);
  }

  lemma HoldsAfterChoice(s: State, m: nat)
    requires Inv(s) && s.phase == SelectToken && !HasTokenInPlay(s)
    ensures CanHoldTurn(s, m)
  {
    var id := LegalMoves(s)[0];
    assert id in LegalMoves(s);
    YardExit(s, id);
    var t := Step(s, Move(id));
    OnesKeepTheTurn(t, m);
    var run := [Move(id)] + Ones(m);
    assert run[1..] == Ones(m);
    assert HoldsTurn(s, run);
  }

  /** A seat that has not won and has no token in play has one in its yard, so a six gives it a choice. */
  lemma SixGivesChoice(s: State)
    requires Inv(s) && s.phase == RollDice && !HasTokenInPlay(s) && s.sixes < 2
    ensures var t := Step(s, Roll(6));
      Inv(t) && t.phase == SelectToken && t.turn == s.turn && t.seats == s.seats && !HasTokenInPlay(t)
  {
    StepInv(s, Roll(6));
    var tokens := Current(s).tokens;
    assert !HasWon(Current(s));
    var id :| 0 <= id < |tokens| && tokens[id].state != Finished;
    assert PositionOk(tokens[id]) && !CanMove(tokens[id], 1);
    assert id in LegalMoves(s.(dice := 6, sixes := s.sixes + 1));
  }

  lemma HoldsWithRollFirst(s: State, val: Die, rest: seq<Action>)
    requires Inv(s) && s.phase != GameOver && Step(s, Roll(val)).turn == s.turn && HoldsTurn(Step(s, Roll(val)), rest)
    ensures var run := [Roll(val)] + rest;
      HoldsTurn(s, run) && |Rollers(s, run)| == 1 + |Rollers(Step(s, Roll(val)), rest)|
  {
    assert ([Roll(val)] + rest)[1..] == rest;
  }

  lemma HoldsAfterSix(s: State, m: nat)
    requires Inv(s) && s.phase == RollDice && !HasTokenInPlay(s) && s.sixes < 2
    ensures CanHoldTurn(s, m)
  {
    if m == 0 {
      assert HoldsTurn(s, []);
    } else {
      SixGivesChoice(s);
      HoldsAfterChoice(Step(s, Roll(6)), m - 1);
      var rest :| HoldsTurn(Step(s, Roll(6)), rest) && |Rollers(Step(s, Roll(6)), rest)| == m - 1;
      HoldsWithRollFirst(s, 6, rest);
    }
  }

  /** After two sixes in a row a seat without a token in play passes on whatever it rolls. */
  lemma LastRollPasses(s: State, val: Die)
    requires Inv(s) && s.phase == RollDice && !CanRollOn(s)
    ensures var t := Step(s, Roll(val)); Inv(t) && t.phase == RollDice && t.turn != s.turn
  {
    StepInv(s, Roll(val));
    NextDiffers(|s.seats|, s.turn);
    var tokens := Current(s).tokens;
    if val != YARD_EXIT_ROLL {
      forall id | 0 <= id < TOKENS_PER_PLAYER ensures !CanMove(tokens[id], val) {
        assert PositionOk(tokens[id]) && !CanMove(tokens[id], 1);
      }
      NoMovesFrom(tokens, val, 0);
      assert LegalMoves(s.(dice := val, sixes := 0)) == [];
    }
  }

  lemma NextDiffers(n: nat, a: nat)
    requires 2 <= n && a < n
    ensures (a + 1) % n != a
  {}

  /** While a roll is due nobody rolls before the seat whose turn it is. */
  lemma DueRollComesFirst(s: State, run: seq<Action>)
    requires Inv(s) && s.phase == RollDice && UncheckedRun(s, run)
    ensures run == [] || s.turn in Rollers(s, run)
  {
    if run != [] { assert Rollers(s, run)[0] == s.turn; }
  }

  lemma OneRollLeft(s: State, run: seq<Action>)
    requires Inv(s) && s.phase != GameOver && !CanRollOn(s) && HoldsTurn(s, run)
    ensures |Rollers(s, run)| <= 1
  {
    if run != [] {
      var (t, rest) := (Step(s, run[0]), run[1..]);
      LastRollPasses(s, run[0].val);
      assert Rollers(s, run) == [s.turn] + Rollers(t, rest);
      assert forall r :: r in Rollers(t, rest) ==> r in Rollers(s, run);
      DueRollComesFirst(t, rest);
    }
  }

  /**
   The three-roll limit needs the phase check, which the handler of a networked guest's roll
   leaves out. Without it a seat can make any number of rolls in one turn exactly if it has a
   token in play, has a choice to make, or has fewer than two sixes behind it; and otherwise
   it makes one more roll at most.
   */
  lemma UncheckedRollsExactly(s: State)
    requires Inv(s) && s.phase != GameOver
    ensures CanRollOn(s) <==> forall m: nat :: CanHoldTurn(s, m)
    ensures !CanRollOn(s) ==> forall run :: HoldsTurn(s, run) ==> |Rollers(s, run)| <= 1
  {
    if CanRollOn(s) {
      forall m: nat ensures CanHoldTurn(s, m) {
        if HasTokenInPlay(s) {
          HoldsWithToken(s, m);
        } else if s.phase == SelectToken {
          HoldsAfterChoice(s, m);
        } else {
          HoldsAfterSix(s, m);
        }
      }
    } else {
      forall run | HoldsTurn(s, run) ensures |Rollers(s, run)| <= 1 {
        OneRollLeft(s, run);
      }
      assert !CanHoldTurn(s, 2);
    }
  }
}

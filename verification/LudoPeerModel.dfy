/**
 The mutable host and guest of a networked Ludo match: the handlers, each proved to compute its
 `LudoPeer` function and to put on its sessions what that function says.
 */
module LudoPeerModel {
  import opened Wrappers
  import opened GameSession
  import opened LudoBoard
  import R = LudoRules
  import opened LudoPeer
  import E = LudoEngine

  /** What the runtime is asked to do next. */
  datatype Command = NoCommand | ListenTo(seat: Color) | ListenToHost | AnnounceEnd(result: Outcome)

  /** What a reaction puts on every session, in order. */
  function Sent(broadcast: Option<R.State>, resigned: bool, closed: bool): seq<Wire<R.State>> {
    (if broadcast.Some? then [Data(broadcast.value)] else [])
    + (if resigned then [Resignation] else [])
    + (if closed then [Closing] else [])
  }

  function HostCommand(r: HostReaction): Command {
    if r.announced then AnnounceEnd(r.host.result)
    else match r.listen
      case Some(c) => ListenTo(c)
      case None => NoCommand
  }

  method SeatColorOfPlayers(players: seq<E.Player>, ghost seats: seq<R.Seat>, self: string) returns (c: Color)
    requires |seats| == |players| && forall i :: 0 <= i < |players| ==>
      players[i].name == seats[i].name && players[i].color == seats[i].color
    ensures c == SeatColorOf(seats, self)
  {
    for i := 0 to |players|
      invariant SeatColorOf(seats, self) == SeatColorOf(seats[i..], self)
    {
      if players[i].name == self { return players[i].color; }
    }
    return Red;
  }

  /** What a won match means for the instance called `self`. */
  method WinTextOf(game: E.Game, self: string) returns (text: Outcome)
    requires game.Valid()
    ensures text == WinText(game.State(), self)
  {
    if game.winner == None { return NoResult; }
    ghost var seats := game.seats;
    assert forall i :: 0 <= i < |game.players| ==> game.players[i].Shows(seats[i]);
    var mine := SeatColorOfPlayers(game.players, seats, self);
    for i := 0 to |game.players|
      invariant forall k :: 0 <= k < i ==> seats[k].color != game.winner.value
      invariant NameFor(seats, game.winner.value, "") == NameFor(seats[i..], game.winner.value, "")
    {
      var p := game.players[i];
      if p.color == game.winner.value {
        return if p.color == mine then YouWin else Wins(p.name);
      }
    }
    return NoResult;
  }

  method NameForSeat(game: E.Game, c: Color, default: string) returns (name: string)
    requires game.Valid()
    ensures name == NameFor(game.State().seats, c, default)
  {
    ghost var seats := game.seats;
    for i := 0 to |game.players|
      invariant NameFor(seats, c, default) == NameFor(seats[i..], c, default)
    {
      assert game.players[i].Shows(seats[i]);
      if game.players[i].color == c { return game.players[i].name; }
    }
    return default;
  }

  class HostModel {
    const game: E.Game
    const self: string
    const sessions: seq<Session<R.State>>   // one per guest, in seat order
    var done: bool
    var result: Outcome

    constructor (game: E.Game, self: string, sessions: seq<Session<R.State>>)
      requires game.Valid()
      requires forall i, j :: 0 <= i < j < |sessions| ==> sessions[i] != sessions[j]
      ensures Valid() && this.game == game && this.sessions == sessions
      ensures Peer() == Host(game.State(), self, false, NoResult)
    {
      this.game, this.self, this.sessions := game, self, sessions;
      done, result := false, NoResult;
    }

    ghost predicate Valid()
      reads this, game, game.repr
    {
      game.Valid() && forall i, j :: 0 <= i < j < |sessions| ==> sessions[i] != sessions[j]
    }

    ghost function Peer(): Host
      reads this, game
    {
      Host(game.State(), self, done, result)
    }

    /** Sends every guest the match as it stands. */
    method BroadcastState()
      requires Valid()
      modifies sessions
      ensures forall i :: 0 <= i < |sessions| ==>
        sessions[i].sent == old(sessions[i].sent) + [Data(Project(old(Peer()).game))]
    {
      var payload := game.Snapshot();
      for i := 0 to |sessions|
        invariant forall k :: 0 <= k < i ==> sessions[k].sent == old(sessions[k].sent) + [Data(payload)]
        invariant forall k :: i <= k < |sessions| ==> sessions[k].sent == old(sessions[k].sent)
      {
        sessions[i].SendData(payload);
      }
    }

    method ResignAll()
      requires Valid()
      modifies sessions
      ensures forall i :: 0 <= i < |sessions| ==> sessions[i].sent == old(sessions[i].sent) + [Resignation]
    {
      for i := 0 to |sessions|
        invariant forall k :: 0 <= k < i ==> sessions[k].sent == old(sessions[k].sent) + [Resignation]
        invariant forall k :: i <= k < |sessions| ==> sessions[k].sent == old(sessions[k].sent)
      {
        sessions[i].Resign();
      }
    }

    method CloseNetwork()
      requires Valid()
      modifies sessions
      ensures forall i :: 0 <= i < |sessions| ==> sessions[i].sent == old(sessions[i].sent) + [Closing]
    {
      for i := 0 to |sessions|
        invariant forall k :: 0 <= k < i ==> sessions[k].sent == old(sessions[k].sent) + [Closing]
        invariant forall k :: i <= k < |sessions| ==> sessions[k].sent == old(sessions[k].sent)
      {
        sessions[i].Close();
      }
    }

    /** Each session has been sent what the reaction calls for, after what it had been sent before. */
    twostate predicate SentAll(r: HostReaction)
      reads sessions
    {
      forall i :: 0 <= i < |sessions| ==>
        sessions[i].sent == old(sessions[i].sent) + Sent(r.broadcast, r.resigned, r.closed)
    }

    method Finish() returns (cmd: Command)
      requires Valid()
      modifies this, sessions
      ensures Valid()
      ensures var r := HostFinish(old(Peer()), None); Peer() == r.host && cmd == HostCommand(r) && SentAll(r)
    {
      done := true;
      var text := WinTextOf(game, self);
      result := text;
      CloseNetwork();
      return AnnounceEnd(result);
    }

    method FinishWithReason(reason: Outcome) returns (cmd: Command)
      requires Valid()
      modifies this, sessions
      ensures Valid()
      ensures var r := HostFinishWithReason(old(Peer()), reason, false);
        Peer() == r.host && cmd == HostCommand(r) && SentAll(r)
    {
      done := true;
      result := reason;
      CloseNetwork();
      return AnnounceEnd(result);
    }

    method AfterAction() returns (cmd: Command)
      requires Valid()
      modifies this, sessions
      ensures Valid()
      ensures var r := LudoPeer.AfterAction(old(Peer())); Peer() == r.host && cmd == HostCommand(r) && SentAll(r)
    {
      BroadcastState();
      if game.phase == R.GameOver {
        cmd := Finish();
        return;
      }
      var next := game.players[game.turn];
      assert next.Shows(game.seats[game.turn]);
      if next.color != Red { return ListenTo(next.color); }
      return NoCommand;
    }

    /** A roll carried out and reported. */
    method RollDice(random: int) returns (cmd: Command)
      requires Valid() && 0 <= random < 6
      modifies this, game, sessions
      ensures Valid()
      ensures var h := old(Peer());
        var r := LudoPeer.AfterAction(h.(game := R.ApplyRoll(old(game.State()), random + 1)));
        Peer() == r.host && cmd == HostCommand(r) && SentAll(r)
    {
      var _ := game.RollDice(random);
      assert Peer() == old(Peer()).(game := R.ApplyRoll(old(game.State()), random + 1));
      cmd := AfterAction();
    }

    /** A move carried out and reported, or a rejected one left without effect. */
    method MoveToken(id: int) returns (moved: bool, cmd: Command)
      requires Valid()
      modifies this, game, game.repr, sessions
      ensures Valid()
      ensures moved <==> R.MoveToken(old(game.State()), id).Ok?
      ensures moved ==>
        var r := LudoPeer.AfterAction(old(Peer()).(game := R.MoveToken(old(game.State()), id).value.next));
        Peer() == r.host && cmd == HostCommand(r) && SentAll(r)
      ensures !moved ==> Peer() == old(Peer()) && cmd == NoCommand && SentAll(Idle(old(Peer())))
    {
      var r := game.MoveToken(id);
      if r.Err? { return false, NoCommand; }
      assert Peer() == old(Peer()).(game := R.MoveToken(old(game.State()), id).value.next);
      cmd := AfterAction();
      moved := true;
    }

    /**
     A message from the listener on the session of the guest seated `seat`; `random` is what the die
     would be rolled with.
     */
    method Receive(seat: Color, m: GuestMessage, random: int) returns (cmd: Command)
      requires Valid() && 0 <= random < 6
      modifies this, game, game.repr, sessions
      ensures Valid()
      ensures var r := HostReceive(old(Peer()), seat, m, random + 1);
        Peer() == r.host && cmd == HostCommand(r) && SentAll(r)
    {
      if done { return NoCommand; }
      if m.Left? {
        var name := NameForSeat(game, seat, ColorName(seat));
        cmd := FinishWithReason(GuestLeft(name));
        return;
      }
      var p := game.players[game.turn];
      assert p.Shows(game.seats[game.turn]);
      if p.color != seat { return ListenTo(seat); }
      match m.action
      case ActRoll =>
        cmd := RollDice(random);
      case ActMove(id) =>
        var moved;
        moved, cmd := MoveToken(id);
        if !moved { return ListenTo(seat); }
      case ActUnknown =>
        return ListenTo(seat);
    }

    /** The host's own player rolls or picks a token. */
    method Key(pick: Option<int>, random: int) returns (cmd: Command)
      requires Valid() && 0 <= random < 6
      modifies this, game, game.repr, sessions
      ensures Valid()
      ensures var r := match pick
                       case None => HostRollKey(old(Peer()), random + 1)
                       case Some(id) => HostMoveKey(old(Peer()), id);
        Peer() == r.host && cmd == HostCommand(r) && SentAll(r)
    {
      if done { return NoCommand; }
      assert forall i :: 0 <= i < |game.players| ==> game.players[i].Shows(game.seats[i]);
      var mine := SeatColorOfPlayers(game.players, game.seats, self);
      if game.players[game.turn].color != mine { return NoCommand; }
      match pick
      case None =>
        if game.phase != R.RollDice { return NoCommand; }
        cmd := RollDice(random);
      case Some(id) =>
        if game.phase != R.SelectToken { return NoCommand; }
        var moved;
        moved, cmd := MoveToken(id);
    }

    method Quit() returns (cmd: Command)
      requires Valid()
      modifies this, sessions
      ensures Valid()
      ensures var r := HostQuitKey(old(Peer())); Peer() == r.host && cmd == HostCommand(r) && SentAll(r)
    {
      if done { return NoCommand; }
      ResignAll();
      cmd := FinishWithReason(YouLeft);
    }
  }

  /** The host sits down as Red and its guests, in order, as Green, Yellow and Blue, each on its own session. */
  method NewHost(self: string, guestHandles: seq<string>, guestSessions: seq<Session<R.State>>) returns (m: HostModel)
    requires 1 <= |guestHandles| <= 3 && |guestSessions| == |guestHandles|
    requires forall i, j :: 0 <= i < j < |guestSessions| ==> guestSessions[i] != guestSessions[j]
    ensures m.Valid() && m.sessions == guestSessions
    ensures m.Peer() == Host(R.NewGame(SeatsFor([self] + guestHandles)), self, false, NoResult)
  {
    ghost var seats := SeatsFor([self] + guestHandles);
    var host := new E.Player(Red, self, false);
    var players := [host];
    for i := 0 to |guestHandles|
      invariant |players| == i + 1
      invariant forall k :: 0 <= k <= i ==> players[k].Valid() && players[k].Shows(seats[k])
    {
      var p := new E.Player(COLORS[i + 1], guestHandles[i], false);
      players := players + [p];
    }
    SeatColorsDiffer([self] + guestHandles);
    var game := new E.Game(players, seats);
    m := new HostModel(game, self, guestSessions);
  }

  /** Fresh seats for players of these names, in the order the colours are given out. */
  function SeatsFor(names: seq<string>): (seats: seq<R.Seat>)
    requires |names| <= |COLORS|
    ensures |seats| == |names|
  {
    seq(|names|, i requires 0 <= i < |names| => R.NewSeat(COLORS[i], names[i], false))
  }

  lemma SeatColorsDiffer(names: seq<string>)
    requires |names| <= |COLORS|
    ensures var seats := SeatsFor(names); forall i, j :: 0 <= i < j < |seats| ==> seats[i].color != seats[j].color
  {
    forall i: nat, j: nat | i < j < |names| ensures COLORS[i] != COLORS[j] {}
  }

  function GuestCommand(r: GuestReaction): Command {
    if r.announced then AnnounceEnd(r.guest.result) else if r.listen then ListenToHost else NoCommand
  }

  class GuestModel {
    const self: string
    const session: Session<GuestAction>
    var view: Option<R.State>   // the last snapshot, replaced whole
    var done: bool
    var result: Outcome

    constructor (self: string, session: Session<GuestAction>)
      ensures this.session == session && Peer() == Guest(None, self, false, NoResult)
    {
      this.self, this.session := self, session;
      view, done, result := None, false, NoResult;
    }

    ghost function Peer(): Guest
      reads this
    {
      Guest(view, self, done, result)
    }

    method FinishWithReason(reason: Outcome) returns (cmd: Command)
      modifies this`done, this`result, session
      ensures Peer() == GuestFinishWithReason(old(Peer()), reason, false).guest && cmd == AnnounceEnd(reason)
      ensures session.sent == old(session.sent) + [Closing]
    {
      done := true;
      result := reason;
      session.Close();
      return AnnounceEnd(result);
    }

    method Receive(m: HostMessage) returns (cmd: Command)
      modifies this, session
      ensures var r := GuestReceive(old(Peer()), m);
        && Peer() == r.guest && cmd == GuestCommand(r)
        && session.sent == old(session.sent) + (if r.closed then [Closing] else [])
    {
      if done { return NoCommand; }
      match m
      case EndedByHost => cmd := FinishWithReason(HostEnded);
      case Lost => cmd := FinishWithReason(HostLost);
      case Snapshot(game) =>
        view := Some(game);
        if game.phase == R.GameOver {
          cmd := FinishWithReason(WinText(game, self));
        } else {
          cmd := ListenToHost;
        }
    }

    method Quit() returns (cmd: Command)
      modifies this, session
      ensures var r := GuestQuitKey(old(Peer()));
        && Peer() == r.guest && cmd == GuestCommand(r)
        && session.sent == old(session.sent) + (if r.closed then [Resignation, Closing] else [])
    {
      if done { return NoCommand; }
      session.Resign();
      cmd := FinishWithReason(YouLeft);
      assert session.sent == old(session.sent) + [Resignation, Closing];
    }

    /** Rolling and picking send the action to the host; the view is left alone until the host answers. */
    method Key(action: GuestAction) returns (sent: bool)
      requires view.Some? ==> R.WellFormed(view.value)
      modifies session
      ensures sent <==> MaySend(Peer(), action)
      ensures session.sent == old(session.sent) + (if sent then [Data(action)] else [])
    {
      if done || view == None { return false; }
      var game := view.value;
      if R.Current(game).color != SeatColorOf(game.seats, self) { return false; }
      match action {
        case ActRoll => if game.phase != R.RollDice { return false; }
        case ActMove(id) => if game.phase != R.SelectToken || id !in R.LegalMoves(game) { return false; }
        case ActUnknown => return false;
      }
      session.SendData(action);
      return true;
    }
  }
}

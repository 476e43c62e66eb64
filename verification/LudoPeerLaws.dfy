/**
 What a networked Ludo host and its guests make of every key and every message, written out: the
 position afterwards, what is sent to whom, who is listened to, and what the player is told.
 */
module LudoPeerLaws {
  import opened Wrappers
  import opened GameSession
  import opened LudoBoard
  import opened LudoRules
  import opened LudoPeer
  import LudoPeerModel
  import LudoLaws
  import N = LudoNet

  // ---- What is told of a won match ----

  /**
   When the player of seat `w` has won, the instance reads that it has if that is the first seat
   of its own name, and the winner's name otherwise.
   */
  lemma TellsWinner(s: State, w: nat, i: nat)
    requires WellFormed(s) && w < |s.seats| && i < |s.seats| && s.winner == Some(s.seats[w].color)
    requires forall j :: 0 <= j < i ==> s.seats[j].name != s.seats[i].name
    ensures WinText(s, s.seats[i].name) == if i == w then YouWin else Wins(s.seats[w].name)
  {
    SeatColorOfFirst(s.seats, i);
    NameForAt(s.seats, w, "");
  }

  /** An instance whose name is at no seat takes itself for Red. */
  lemma {:induction false} StrangerIsRed(seats: seq<Seat>, name: string)
    requires forall j :: 0 <= j < |seats| ==> seats[j].name != name
    ensures SeatColorOf(seats, name) == Red
  {
    if seats != [] {
      assert forall j :: 0 <= j < |seats| - 1 ==> seats[1..][j] == seats[j + 1];
      StrangerIsRed(seats[1..], name);
    }
  }

  lemma NoWinnerNoText(s: State, self: string)
    requires s.winner == None
    ensures WinText(s, self) == NoResult
  {}

  // ---- The host ----

  /** The position as guests are sent it: without the count of sixes. */
  function Shown(s: State): State {
    State(s.seats, s.turn, s.dice, s.phase, s.winner, 0)
  }

  /**
   The host has taken the match to `game`: everybody is sent it; a match that is on goes on with
   a listener for the guest whose turn it is, and one that is over is closed and announced.
   */
  predicate Reports(r: HostReaction, h: Host, game: State)
    requires WellFormed(game)
  {
    if game.phase == GameOver then
      r == HostReaction(Host(game, h.self, true, WinText(game, h.self)), Some(Shown(game)), false, true, None, true)
    else
      var next := game.seats[game.turn].color;
      r == HostReaction(Host(game, h.self, false, h.result), Some(Shown(game)), false, false,
                        if next == Red then None else Some(next), false)
  }

  predicate NothingHappens(r: HostReaction, h: Host) {
    r == HostReaction(h, None, false, false, None, false)
  }

  /** Once it is over, the host ignores every message and every key. */
  lemma HostOverIsOver(h: Host, seat: Color, m: GuestMessage, die: Die, id: int)
    requires WellFormed(h.game) && h.done
    ensures NothingHappens(HostReceive(h, seat, m, die), h) && NothingHappens(HostRollKey(h, die), h)
    ensures NothingHappens(HostMoveKey(h, id), h) && NothingHappens(HostQuitKey(h), h)
  {}

  /** A guest that has gone ends the match: every session is closed, and the player is told who left. */
  lemma HostHearsDeparture(h: Host, i: nat, die: Die)
    requires WellFormed(h.game) && !h.done && i < |h.game.seats|
    ensures HostReceive(h, h.game.seats[i].color, Left, die) ==
      HostReaction(Host(h.game, h.self, true, GuestLeft(h.game.seats[i].name)), None, false, true, None, true)
  {
    NameForAt(h.game.seats, i, ColorName(h.game.seats[i].color));
  }

  /**
   A roll of the guest whose turn it is is made whatever the phase, and its legal choice carried
   out; anything else is passed over, and that guest listened to again.
   */
  lemma HostHearsAction(h: Host, seat: Color, action: GuestAction, die: Die)
    requires WellFormed(h.game) && !h.done
    ensures var r := HostReceive(h, seat, Acted(action), die);
      if h.game.seats[h.game.turn].color == seat && action == ActRoll then
        Reports(r, h, ApplyRoll(h.game, die))
      else if h.game.seats[h.game.turn].color == seat && action.ActMove? && MoveToken(h.game, action.id).Ok? then
        Reports(r, h, MoveToken(h.game, action.id).value.next)
      else r == HostReaction(h, None, false, false, Some(seat), false)
  {}

  /** The host's own keys roll when its roll is due and move when its choice is, and do nothing else. */
  lemma HostKeysExactly(h: Host, die: Die, id: int)
    requires WellFormed(h.game) && !h.done && h.self == h.game.seats[0].name
    ensures if h.game.turn == 0 && h.game.phase == RollDice then Reports(HostRollKey(h, die), h, ApplyRoll(h.game, die))
            else NothingHappens(HostRollKey(h, die), h)
    ensures if h.game.turn == 0 && MoveToken(h.game, id).Ok?
            then Reports(HostMoveKey(h, id), h, MoveToken(h.game, id).value.next)
            else NothingHappens(HostMoveKey(h, id), h)
  {
    SeatColorOfFirst(h.game.seats, 0);
  }

  /** Leaving resigns to every guest and closes every session. */
  lemma HostLeaves(h: Host)
    requires !h.done
    ensures HostQuitKey(h) == HostReaction(Host(h.game, h.self, true, YouLeft), None, true, true, None, true)
  {}

  // ---- A guest ----

  /** A snapshot replaces the view; a won one ends the match, and so do a host that ends it and one that is lost. */
  lemma GuestHears(g: Guest, game: State)
    requires !g.done
    ensures GuestReceive(g, Snapshot(game)) ==
      if game.phase == GameOver
      then GuestReaction(Guest(Some(game), g.self, true, WinText(game, g.self)), false, true, false, true)
      else GuestReaction(Guest(Some(game), g.self, false, g.result), false, false, true, false)
    ensures GuestReceive(g, EndedByHost) ==
      GuestReaction(Guest(g.view, g.self, true, HostEnded), false, true, false, true)
    ensures GuestReceive(g, Lost) == GuestReaction(Guest(g.view, g.self, true, HostLost), false, true, false, true)
    ensures GuestQuitKey(g) == GuestReaction(Guest(g.view, g.self, true, YouLeft), true, true, false, true)
  {}

  lemma GuestOverIsOver(g: Guest, m: HostMessage, action: GuestAction)
    requires g.done
    ensures GuestReceive(g, m) == GuestReaction(g, false, false, false, false) == GuestQuitKey(g)
    ensures !MaySend(g, action)
  {}

  /**
   A guest that has seen a position sends a roll exactly if by that position it is its turn and a
   roll is due, and a choice exactly if it is its turn, a choice is due and the die moves that token.
   */
  lemma GuestKeysExactly(g: Guest, i: nat, action: GuestAction)
    requires !g.done && g.view.Some? && WellFormed(g.view.value)
    requires var seats := g.view.value.seats;
      i < |seats| && seats[i].name == g.self && forall j :: 0 <= j < i ==> seats[j].name != g.self
    ensures var s := g.view.value;
      MaySend(g, action) <==>
        && s.turn == i
        && (|| (action.ActRoll? && s.phase == RollDice)
            || (action.ActMove? && s.phase == SelectToken && 0 <= action.id < 4
                && LudoLaws.Moves(s.seats[i].tokens[action.id], s.dice)))
  {
    var s := g.view.value;
    SeatColorOfFirst(s.seats, i);
    assert Current(s).color == s.seats[i].color <==> s.turn == i;
  }

  /** Before the first snapshot a guest sends nothing. */
  lemma BlindGuestIsSilent(g: Guest, action: GuestAction)
    requires g.view == None
    ensures !MaySend(g, action)
  {}

  // ---- What goes on the sessions, and what the runtime is asked ----

  lemma SentInOrder(shown: State)
    ensures LudoPeerModel.Sent(Some(shown), false, false) == [Data(shown)]
    ensures LudoPeerModel.Sent(Some(shown), false, true) == [Data(shown), Closing]
    ensures LudoPeerModel.Sent(None, false, true) == [Closing]
    ensures LudoPeerModel.Sent(None, true, true) == [Resignation, Closing]
    ensures LudoPeerModel.Sent(None, false, false) == []
  {}

  /** The end is announced with the text the player is told; otherwise the listener asked for is armed. */
  lemma CommandsExactly(r: HostReaction, g: GuestReaction)
    ensures LudoPeerModel.HostCommand(r) ==
      if r.announced then LudoPeerModel.AnnounceEnd(r.host.result)
      else if r.listen.Some? then LudoPeerModel.ListenTo(r.listen.value) else LudoPeerModel.NoCommand
    ensures LudoPeerModel.GuestCommand(g) ==
      if g.announced then LudoPeerModel.AnnounceEnd(g.guest.result)
      else if g.listen then LudoPeerModel.ListenToHost else LudoPeerModel.NoCommand
  {}

  // ---- What travels between them ----

  /** The host is handed each action as it was sent, and takes anything else for a departure. */
  lemma ListensExactly(l: N.Link)
    requires l.listeners > 0 && l.toHost != []
    ensures var (t, wire) := (N.LinkListens(l), l.toHost[0]);
      && t == l.(listeners := l.listeners - 1, inbox := t.inbox, toHost := t.toHost)
      && t.inbox == l.inbox + multiset{if wire.Action? then Acted(wire.action) else Left}
      && t.toHost == if wire == N.Gone then l.toHost else l.toHost[1..]
  {}

  /** What of the host's reaction reaches a guest, in order; a session that is closed reads as ended at both ends. */
  lemma HostReachesExactly(l: N.Link, color: Color, r: HostReaction)
    requires l.up && (r.resigned ==> r.closed && r.broadcast.None?)
    ensures var t := N.LinkAfterHost(l, color, r);
      && t.listeners == (if r.listen == Some(color) then l.listeners + 1 else l.listeners) && t.inbox == l.inbox
      && t.guest == l.guest && t.views == l.views && (t.up <==> !r.closed)
      && t.toHost == (if r.closed then l.toHost + [N.Gone] else l.toHost)
      && t.toGuest ==
           match r.broadcast
           case Some(game) => l.toGuest + if r.closed then [Snapshot(game), Lost] else [Snapshot(game)]
           case None =>
             l.toGuest + if r.resigned then [EndedByHost, Lost] else if r.closed then [Lost] else []
  {}

  /** A guest that leaves resigns and closes the session; one that is told of the end just closes it. */
  lemma GuestLeaves(l: N.Link, m: HostMessage)
    requires l.up && !l.guest.done && (m.EndedByHost? || m.Lost?)
    ensures var t := N.LinkAfterGuest(l, GuestQuitKey(l.guest));
      !t.up && t.toHost == l.toHost + [N.Resigned, N.Gone] && t.ends == l.ends + 1 && t.inbox == l.inbox
    ensures var t := N.LinkAfterGuest(l, GuestReceive(l.guest, m));
      !t.up && t.toHost == l.toHost + [N.Gone] && t.ends == l.ends + 1 && t.inbox == l.inbox
  {}
}

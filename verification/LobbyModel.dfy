/**
 The chat screen's lobby as it is kept: two slices filled in place as the answers come in, and
 gone once they all have.
 */
module LobbyModel {
  import opened Wrappers
  import opened GameSession
  import L = Lobby

  const MAX_TARGETS := 3

  datatype Peer = Peer(handle: string, address: string)

  datatype Invitation = Invitation(address: string, target: string, idx: nat)

  /** The slots, seen as values. */
  ghost function Slots<T>(sessions: seq<Session?<T>>): (r: seq<Option<Session<T>>>)
    ensures |r| == |sessions|
  {
    if sessions == [] then []
    else
      var last := sessions[|sessions| - 1];
      Slots(sessions[..|sessions| - 1]) + [if last == null then None else Some(last)]
  }

  lemma {:induction false} SlotsAre<T>(sessions: seq<Session?<T>>)
    ensures forall i :: 0 <= i < |sessions| ==>
      Slots(sessions)[i] == if sessions[i] == null then None else Some(sessions[i])
  {
    if sessions != [] {
      SlotsAre(sessions[..|sessions| - 1]);
    }
  }

  ghost function Given<T>(a: L.Answer<Session<T>>): set<Session<T>> {
    if a.session.Some? then {a.session.value} else {}
  }

  method ResignAndClose<T>(s: Session<T>)
    modifies s
    ensures s.sent == old(s.sent) + [Resignation, Closing]
  {
    s.Resign();
    s.Close();
  }

  class Lobby<T> {
    const targets: seq<string>
    const sessions: array<Session?<T>>
    const resolved: array<bool>
    var failReason: string
    ghost var taken: set<Session<T>>     // the sessions in the slots

    constructor (targets: seq<string>)
      ensures Valid() && fresh(sessions) && fresh(resolved)
      ensures View() == L.NewLobby(targets)
    {
      this.targets := targets;
      sessions := new Session?<T>[|targets|](_ => null);
      resolved := new bool[|targets|](_ => false);
      failReason, taken := "", {};
      new;
      assert resolved[..] == seq(|targets|, _ => false);
      SlotsAre(sessions[..]);
      assert Slots(sessions[..]) == seq(|targets|, _ => None);
    }

    ghost predicate Valid()
      reads this, sessions
    {
      && sessions.Length == resolved.Length
      && (forall i, j :: 0 <= i < j < sessions.Length && sessions[i] != null ==> sessions[i] != sessions[j])
      && (forall i :: 0 <= i < sessions.Length && sessions[i] != null ==> sessions[i] in taken)
      && forall s :: s in taken ==> s in sessions[..]
    }

    ghost function View(): L.Lobby<Session<T>>
      reads this, sessions, resolved
    {
      L.Lobby(targets, Slots(sessions[..]), resolved[..], failReason)
    }

    method Record(a: L.Answer<Session<T>>)
      requires Valid() && a.idx < resolved.Length
      requires a.session.Some? ==> a.session.value !in taken
      modifies this, sessions, resolved
      ensures Valid() && View() == L.Recorded(old(View()), a)
      ensures taken <= old(taken) + Given(a)
    {
      ghost var before := sessions[..];
      ghost var displaced := sessions[a.idx];
      resolved[a.idx] := true;
      sessions[a.idx] := if a.session.Some? then a.session.value else null;
      if a.session.None? && failReason == "" {
        failReason := L.Reason(a);
      }
      taken := taken - {displaced} + Given(a);
      assert sessions[..] == before[a.idx := sessions[a.idx]];
      forall s | s in taken
        ensures s in sessions[..]
      {
        if s !in Given(a) {
          var i :| 0 <= i < |before| && before[i] == s;
          assert sessions[..][i] == s;
        } else {
          assert sessions[..][a.idx] == s;
        }
      }
      SlotsAre(before);
      SlotsAre(sessions[..]);
      assert Slots(sessions[..]) == Slots(before)[a.idx := a.session];
    }

    method AllResolved() returns (all: bool)
      ensures all <==> false !in resolved[..]
    {
      for i := 0 to resolved.Length
        invariant forall k :: 0 <= k < i ==> resolved[k]
      {
        if !resolved[i] { return false; }
      }
      return true;
    }

    /** Closes every session there is, each once. */
    method CloseAll() returns (closed: seq<Session<T>>)
      requires Valid()
      modifies taken
      ensures closed == L.Opened(Slots(sessions[..]))
      ensures forall s :: s in taken ==> s.sent == old(s.sent) + [Resignation, Closing]
    {
      closed := [];
      ghost var slots := sessions[..];
      ghost var left := taken;
      for i := 0 to sessions.Length
        invariant closed == L.Opened(Slots(slots[..i]))
        invariant left <= taken && forall k :: i <= k < |slots| && slots[k] != null ==> slots[k] in left
        invariant forall s :: s in left ==> s in slots[i..] && s.sent == old(s.sent)
        invariant forall s :: s in taken - left ==> s.sent == old(s.sent) + [Resignation, Closing]
      {
        var s := sessions[i];
        OpenedNext(slots, i);
        assert slots[i..] == [s] + slots[i + 1..];
        if s != null {
          ResignAndClose(s);
          closed := closed + [s];
          left := left - {s};
        }
      }
      assert slots[..|slots|] == slots;
    }

    /** Starts the match or calls it off. */
    method Conclude() returns (effects: seq<L.Effect<Session<T>>>)
      requires Valid() && false !in resolved[..]
      modifies taken
      ensures Valid() && View() == old(View()) && (None, effects) == L.Decision(View())
      ensures forall s :: s in taken ==> s.sent == old(s.sent) + if failReason != "" then [Resignation, Closing] else []
    {
      if failReason != "" {
        var closed := CloseAll();
        return [L.Cancels(closed, failReason)];
      }
      var slots := Collected();
      return [L.Starts(targets, slots)];
    }

    /** Records an answer and, if it is the last one missing, concludes. */
    method Settle(a: L.Answer<Session<T>>) returns (over: bool, effects: seq<L.Effect<Session<T>>>)
      requires Valid() && a.idx < resolved.Length
      requires a.session.Some? ==> a.session.value !in taken
      modifies this, sessions, resolved, taken, Given(a)
      ensures Valid() && View() == L.Recorded(old(View()), a)
      ensures ((if over then None else Some(View())), effects) == L.Decision(View())
      ensures taken <= old(taken) + Given(a)
      ensures forall s :: s in taken ==>
        s.sent == old(s.sent) + if over && failReason != "" then [Resignation, Closing] else []
      ensures forall s :: s in old(taken) + Given(a) && s !in taken ==> s.sent == old(s.sent)
    {
      Record(a);
      over := AllResolved();
      effects := [];
      if over {
        effects := Conclude();
      }
    }

    lemma TakenAreOpened()
      requires Valid()
      ensures forall s :: s in taken <==> s in L.Opened(Slots(sessions[..]))
    {
      OpenedSlots(sessions[..]);
      forall s: Session<T> | s in sessions[..]
        ensures s in taken
      {
        var i :| 0 <= i < sessions.Length && sessions[i] == s;
      }
    }

    lemma ClosesTaken(effects: seq<L.Effect<Session<T>>>)
      requires Valid() && effects == L.Decision(View()).1
      ensures forall s :: Closes(effects, s) <==> L.Decision(View()).0.None? && failReason != "" && s in taken
    {
      TakenAreOpened();
    }

    /** The sessions as they are handed to the match. */
    method Collected() returns (slots: seq<Option<Session<T>>>)
      ensures slots == Slots(sessions[..])
    {
      slots := [];
      for i := 0 to sessions.Length
        invariant slots == Slots(sessions[..i])
      {
        assert sessions[..i + 1] == sessions[..i] + [sessions[i]];
        slots := slots + [if sessions[i] == null then None else Some(sessions[i])];
      }
      assert sessions[..sessions.Length] == sessions[..];
    }
  }

  /** The sessions that `effects` closes are closed, and no others. */
  ghost predicate Closes<T>(effects: seq<L.Effect<Session<T>>>, s: Session<T>) {
    |effects| == 1 && effects[0].Cancels? && s in effects[0].closed
  }

  lemma OpenedNext<T>(sessions: seq<Session?<T>>, i: nat)
    requires i < |sessions|
    ensures L.Opened(Slots(sessions[..i + 1])) ==
      L.Opened(Slots(sessions[..i])) + (if sessions[i] == null then [] else [sessions[i]])
  {
    var q := sessions[..i + 1];
    assert q[..|q| - 1] == sessions[..i];
    assert Slots(q)[..|q| - 1] == Slots(sessions[..i]);
  }

  lemma OpenedSlots<T>(sessions: seq<Session?<T>>)
    ensures forall s: Session<T> :: s in L.Opened(Slots(sessions)) <==> s in sessions
  {
    L.OpenedExactly(Slots(sessions));
    forall s: Session<T>
      ensures s in L.Opened(Slots(sessions)) <==> s in sessions
    {
      SlotOf(sessions, s);
    }
  }

  lemma SlotOf<T>(sessions: seq<Session?<T>>, s: Session<T>)
    ensures Some(s) in Slots(sessions) <==> s in sessions
  {
    SlotsAre(sessions);
    if s in sessions {
      var i :| 0 <= i < |sessions| && sessions[i] == s;
      assert Slots(sessions)[i] == Some(s);
    }
    if Some(s) in Slots(sessions) {
      var i :| 0 <= i < |sessions| && Slots(sessions)[i] == Some(s);
      assert sessions[i] == s;
    }
  }

  class Chat<T> {
    var lobby: Lobby?<T>

    constructor ()
      ensures lobby == null
    {
      lobby := null;
    }

    ghost function View(): Option<L.Lobby<Session<T>>>
      reads this, lobby, if lobby != null then {lobby.sessions, lobby.resolved} else {}
    {
      if lobby == null then None else Some(lobby.View())
    }

    /** A second lobby, too many names or a name nobody answers to start nothing. */
    method StartLobby(names: seq<string>, peers: map<string, Peer>) returns (invitations: seq<Invitation>)
      modifies this
      ensures old(lobby) != null || |names| > 3 || (exists n :: n in names && n !in peers) ==>
        lobby == old(lobby) && invitations == []
      ensures old(lobby) == null && |names| <= 3 && (forall n :: n in names ==> n in peers) ==>
        && lobby != null && fresh(lobby) && lobby.Valid() && |lobby.targets| == |names| == |invitations|
        && View() == Some(L.NewLobby(lobby.targets))
        && forall i :: 0 <= i < |names| ==>
          (lobby.targets[i] == peers[names[i]].handle
            && invitations[i] == Invitation(peers[names[i]].address, lobby.targets[i], i))
    {
      invitations := [];
      if lobby != null { return; }
      if |names| > MAX_TARGETS { return; }
      var targets: seq<string> := [];
      var made: seq<Invitation> := [];
      for i := 0 to |names|
        invariant |targets| == |made| == i
        invariant forall k :: 0 <= k < i ==>
          (names[k] in peers && targets[k] == peers[names[k]].handle
            && made[k] == Invitation(peers[names[k]].address, targets[k], k))
      {
        if names[i] !in peers { return; }
        var peer := peers[names[i]];
        targets := targets + [peer.handle];
        made := made + [Invitation(peer.address, peer.handle, i)];
      }
      assert forall n :: n in names ==> n in peers;
      lobby := new Lobby(targets);
      invitations := made;
    }

    /** The sessions the lobby holds. */
    ghost function Held(): set<Session<T>>
      reads this, lobby
    {
      if lobby == null then {} else lobby.taken
    }

    method HandleAnswer(a: L.Answer<Session<T>>) returns (effects: seq<L.Effect<Session<T>>>)
      requires lobby != null ==> lobby.Valid()
      requires a.session.Some? ==> a.session.value !in Held()
      modifies this, if lobby != null then {lobby, lobby.sessions, lobby.resolved} else {}, Held(), Given(a)
      ensures (View(), effects) == L.HandleAnswer(old(View()), a)
      ensures lobby != null ==> lobby == old(lobby) && lobby.Valid()
      ensures forall s :: s in old(Held()) + Given(a) ==>
        s.sent == old(s.sent) + if Closes(effects, s) then [Resignation, Closing] else []
    {
      if lobby == null || a.idx >= lobby.resolved.Length { return []; }
      var over;
      over, effects := lobby.Settle(a);
      lobby.ClosesTaken(effects);
      if over {
        lobby := null;
      }
    }
  }
}

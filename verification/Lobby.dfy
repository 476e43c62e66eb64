/**
 Inviting peers to a networked Ludo match: the lobby collects one answer per invited peer, in
 whatever order they come, and then starts the match or calls it off.
 */
module Lobby {
  import opened Wrappers

  /** One peer's answer; a session means acceptance. */
  datatype Answer<S> = Answer(idx: nat, opponent: string, session: Option<S>, reason: string, err: Option<string>)

  datatype Lobby<S> = Lobby(targets: seq<string>, sessions: seq<Option<S>>, resolved: seq<bool>, failReason: string)

  datatype Effect<S> = Starts(targets: seq<string>, sessions: seq<Option<S>>) | Cancels(closed: seq<S>, why: string)

  function NewLobby<S>(targets: seq<string>): Lobby<S> {
    Lobby(targets, seq(|targets|, _ => None), seq(|targets|, _ => false), "")
  }

  function Reason<S>(a: Answer<S>): string {
    a.opponent + ": " + (
      match a.err
      case Some(text) => text
      case None => if a.reason == "" then "declined" else a.reason)
  }

  function Recorded<S>(l: Lobby<S>, a: Answer<S>): Lobby<S>
    requires a.idx < |l.resolved| == |l.sessions|
  {
    Lobby(l.targets, l.sessions[a.idx := a.session], l.resolved[a.idx := true],
          if a.session.None? && l.failReason == "" then Reason(a) else l.failReason)
  }

  /** The sessions there are, in seat order. */
  function Opened<S>(sessions: seq<Option<S>>): seq<S> {
    if sessions == [] then []
    else Opened(sessions[..|sessions| - 1]) + match sessions[|sessions| - 1] case Some(s) => [s] case None => []
  }

  /** A lobby waits until every slot is resolved, and then is gone. */
  function Decision<S>(l: Lobby<S>): (Option<Lobby<S>>, seq<Effect<S>>) {
    if false in l.resolved then (Some(l), [])
    else if l.failReason != "" then (None, [Cancels(Opened(l.sessions), l.failReason)])
    else (None, [Starts(l.targets, l.sessions)])
  }

  function HandleAnswer<S>(lobby: Option<Lobby<S>>, a: Answer<S>): (Option<Lobby<S>>, seq<Effect<S>>)
    requires lobby.Some? ==> |lobby.value.resolved| == |lobby.value.sessions|
  {
    if lobby.None? || a.idx >= |lobby.value.resolved| then (lobby, [])
    else
      Decision(Recorded(lobby.value, a))
  }

  /** The answers handled one after another. */
  function HandleAll<S>(targets: seq<string>, answers: seq<Answer<S>>): (r: (Option<Lobby<S>>, seq<Effect<S>>))
    ensures r.0.Some? ==> |r.0.value.resolved| == |r.0.value.sessions| == |targets|
  {
    if answers == [] then (Some(NewLobby(targets)), [])
    else
      var (lobby, effects) := HandleAll(targets, answers[..|answers| - 1]);
      var (lobby', more) := HandleAnswer(lobby, answers[|answers| - 1]);
      (lobby', effects + more)
  }

  /** Each invited peer answers once. */
  predicate OneEach<S>(targets: seq<string>, answers: seq<Answer<S>>) {
    && |answers| == |targets|
    && (forall k :: 0 <= k < |answers| ==> answers[k].idx < |targets|)
    && forall j, k :: 0 <= j < k < |answers| ==> answers[j].idx != answers[k].idx
  }

  predicate AllAccepted<S>(answers: seq<Answer<S>>) {
    forall k :: 0 <= k < |answers| ==> answers[k].session.Some?
  }

  /** The lobby stands as the answers so far say. */
  ghost predicate Reflects<S>(l: Lobby<S>, targets: seq<string>, answers: seq<Answer<S>>) {
    && l.targets == targets && |l.sessions| == |l.resolved| == |targets|
    && (forall k :: 0 <= k < |answers| ==>
         answers[k].idx < |targets| && l.resolved[answers[k].idx] && l.sessions[answers[k].idx] == answers[k].session)
    && (forall i :: 0 <= i < |targets| && l.resolved[i] ==> exists k :: 0 <= k < |answers| && answers[k].idx == i)
    && (l.failReason == "" <==> AllAccepted(answers))
  }

  lemma RecordedReflects<S>(l: Lobby<S>, targets: seq<string>, answers: seq<Answer<S>>, a: Answer<S>)
    requires Reflects(l, targets, answers) && a.idx < |targets|
    requires forall k :: 0 <= k < |answers| ==> answers[k].idx != a.idx
    ensures Reflects(Recorded(l, a), targets, answers + [a])
  {
    var l' := Recorded(l, a);
    var answers' := answers + [a];
    assert AllAccepted(answers') <==> AllAccepted(answers) && a.session.Some? by {
      assert answers'[|answers|] == a;
      assert AllAccepted(answers') ==> forall k :: 0 <= k < |answers| ==> answers'[k] == answers[k];
    }
    forall i | 0 <= i < |targets| && l'.resolved[i]
      ensures exists k :: 0 <= k < |answers'| && answers'[k].idx == i
    {
      if i == a.idx {
        assert answers'[|answers|].idx == i;
      } else {
        var k :| 0 <= k < |answers| && answers[k].idx == i;
        assert answers'[k].idx == i;
      }
    }
  }

  /** How many have answered is how many slots are resolved. */
  lemma {:induction false} SlotsTaken<S>(n: nat, answers: seq<Answer<S>>) returns (slots: set<nat>)
    requires forall k :: 0 <= k < |answers| ==> answers[k].idx < n
    requires forall j, k :: 0 <= j < k < |answers| ==> answers[j].idx != answers[k].idx
    ensures forall i :: i in slots <==> exists k :: 0 <= k < |answers| && answers[k].idx == i
    ensures |slots| == |answers| && forall i :: i in slots ==> i < n
  {
    if answers == [] {
      slots := {};
    } else {
      var last := answers[|answers| - 1];
      var before := SlotsTaken(n, answers[..|answers| - 1]);
      slots := before + {last.idx};
      forall i
        ensures i in slots <==> exists k :: 0 <= k < |answers| && answers[k].idx == i
      {
        if i in before {
          var k :| 0 <= k < |answers| - 1 && answers[..|answers| - 1][k].idx == i;
          assert answers[k].idx == i;
        }
        if exists k :: 0 <= k < |answers| && answers[k].idx == i {
          var k :| 0 <= k < |answers| && answers[k].idx == i;
          assert k < |answers| - 1 ==> answers[..|answers| - 1][k].idx == i;
        }
      }
    }
  }

  lemma {:induction false} Below(n: nat) returns (all: set<nat>)
    ensures |all| == n && forall i: nat :: i in all <==> i < n
  {
    if n == 0 {
      all := {};
    } else {
      var fewer := Below(n - 1);
      all := fewer + {n - 1};
    }
  }

  lemma SubsetOfSameSize<T>(a: set<T>, b: set<T>)
    requires a <= b && |a| == |b|
    ensures a == b
  {
    assert b == a + (b - a) && |b| == |a| + |b - a|;
  }

  /** With an answer missing a slot is unresolved; with none missing, none is. */
  lemma ResolvedExactlyAtLast<S>(l: Lobby<S>, targets: seq<string>, answers: seq<Answer<S>>)
    requires Reflects(l, targets, answers)
    requires forall j, k :: 0 <= j < k < |answers| ==> answers[j].idx != answers[k].idx
    ensures |answers| <= |targets|
    ensures false !in l.resolved <==> |answers| == |targets|
  {
    var slots := SlotsTaken(|targets|, answers);
    var all := Below(|targets|);
    Pigeonhole(slots, all);
    if false !in l.resolved {
      forall i | i in all
        ensures i in slots
      {
        assert l.resolved[i] in l.resolved;
      }
      assert slots == all;
    }
    if |answers| == |targets| {
      SubsetOfSameSize(slots, all);
      forall i | 0 <= i < |targets|
        ensures l.resolved[i]
      {
        assert i in slots;
      }
    }
  }

  lemma Pigeonhole<T>(a: set<T>, b: set<T>)
    requires a <= b
    ensures |a| <= |b|
  {
    assert b == a + (b - a);
  }

  /** Nothing having been decided yet, the next answer decides. */
  lemma OneMoreAnswer<S>(targets: seq<string>, before: seq<Answer<S>>, a: Answer<S>, l: Lobby<S>)
    requires HandleAll(targets, before) == (Some(l), []) && |l.resolved| == |l.sessions|
    ensures HandleAll(targets, before + [a]) == HandleAnswer(Some(l), a)
  {
    assert (before + [a])[..|before|] == before;
    var (lobby, more) := HandleAnswer(Some(l), a);
    assert [] + more == more;
  }

  /** Until the last answer the lobby waits, whatever the answers are and whatever their order. */
  lemma {:induction false} WaitsForAll<S>(targets: seq<string>, answers: seq<Answer<S>>)
    requires |answers| < |targets|
    requires forall k :: 0 <= k < |answers| ==> answers[k].idx < |targets|
    requires forall j, k :: 0 <= j < k < |answers| ==> answers[j].idx != answers[k].idx
    ensures var (lobby, effects) := HandleAll(targets, answers);
      effects == [] && lobby.Some? && Reflects(lobby.value, targets, answers)
    decreases |answers|
  {
    if answers != [] {
      var before := answers[..|answers| - 1];
      var a := answers[|answers| - 1];
      assert before + [a] == answers;
      WaitsForAll(targets, before);
      var l := HandleAll(targets, before).0.value;
      OneMoreAnswer(targets, before, a, l);
      RecordedReflects(l, targets, before, a);
      ResolvedExactlyAtLast(Recorded(l, a), targets, answers);
    }
  }

  /** Every slot holds its peer's answer. */
  ghost predicate InSeatOrder<S>(sessions: seq<Option<S>>, targets: seq<string>, answers: seq<Answer<S>>) {
    |sessions| == |targets| && forall k :: 0 <= k < |answers| ==>
      answers[k].idx < |targets| && sessions[answers[k].idx] == answers[k].session
  }

  /** What is closed is what was opened, and nothing twice. */
  lemma {:induction false} OpenedExactly<S>(sessions: seq<Option<S>>)
    ensures forall s :: s in Opened(sessions) <==> Some(s) in sessions
    ensures (forall i, j :: 0 <= i < j < |sessions| && sessions[i].Some? ==> sessions[i] != sessions[j]) ==>
      forall i, j :: 0 <= i < j < |Opened(sessions)| ==> Opened(sessions)[i] != Opened(sessions)[j]
  {
    if sessions != [] {
      var before := sessions[..|sessions| - 1];
      var last := sessions[|sessions| - 1];
      OpenedExactly(before);
      assert sessions == before + [last];
      if (forall i, j :: 0 <= i < j < |sessions| && sessions[i].Some? ==> sessions[i] != sessions[j]) && last.Some? {
        assert forall i, j :: 0 <= i < j < |before| && before[i].Some? ==> before[i] != before[j];
        assert Some(last.value) !in before;
      }
    }
  }

  /** What the lobby knows, and does, once everybody has answered. */
  lemma LastAnswer<S>(targets: seq<string>, answers: seq<Answer<S>>) returns (l: Lobby<S>)
    requires targets != [] && OneEach(targets, answers)
    ensures Reflects(l, targets, answers) && false !in l.resolved
    ensures HandleAll(targets, answers) == Decision(l)
  {
    var before := answers[..|answers| - 1];
    var a := answers[|answers| - 1];
    assert before + [a] == answers;
    WaitsForAll(targets, before);
    var waiting := HandleAll(targets, before).0.value;
    OneMoreAnswer(targets, before, a, waiting);
    l := Recorded(waiting, a);
    LastRecorded(waiting, targets, before, a);
  }

  lemma LastRecorded<S>(l: Lobby<S>, targets: seq<string>, before: seq<Answer<S>>, a: Answer<S>)
    requires Reflects(l, targets, before) && a.idx < |targets| && OneEach(targets, before + [a])
    ensures Reflects(Recorded(l, a), targets, before + [a]) && false !in Recorded(l, a).resolved
  {
    var answers := before + [a];
    assert answers[|before|] == a && forall k :: 0 <= k < |before| ==> answers[k] == before[k];
    RecordedReflects(l, targets, before, a);
    ResolvedExactlyAtLast(Recorded(l, a), targets, answers);
  }

  /**
   All or nothing. However the answers arrive, the lobby decides at the last one and then is
   gone: if everybody accepted, the match starts with everybody's session in seat order;
   otherwise it is called off and exactly the sessions that were opened are closed.
   */
  lemma AllOrNothing<S>(targets: seq<string>, answers: seq<Answer<S>>)
    requires targets != [] && OneEach(targets, answers)
    ensures var (lobby, effects) := HandleAll(targets, answers);
      && lobby.None? && |effects| == 1
      && (if AllAccepted(answers) then
            effects[0].Starts? && effects[0].targets == targets && InSeatOrder(effects[0].sessions, targets, answers)
            && None !in effects[0].sessions
          else
            effects[0].Cancels? && exists sessions ::
              InSeatOrder(sessions, targets, answers) && effects[0].closed == Opened(sessions))
  {
    var l := LastAnswer(targets, answers);
    assert InSeatOrder(l.sessions, targets, answers);
    if AllAccepted(answers) {
      forall i | 0 <= i < |targets|
        ensures l.sessions[i].Some?
      {
        assert l.resolved[i] in l.resolved;
      }
    }
  }

  /** The slots are fixed by the answers, whatever their order. */
  lemma SlotsAreFixed<S>(targets: seq<string>, a: seq<Answer<S>>, b: seq<Answer<S>>, x: seq<Option<S>>,
    y: seq<Option<S>>)
    requires OneEach(targets, a) && InSeatOrder(x, targets, a) && InSeatOrder(y, targets, b)
    requires forall answer :: answer in a ==> answer in b
    ensures x == y
  {
    var slots := SlotsTaken(|targets|, a);
    var all := Below(|targets|);
    SubsetOfSameSize(slots, all);
    forall i | 0 <= i < |targets|
      ensures x[i] == y[i]
    {
      assert i in slots;
      var k :| 0 <= k < |a| && a[k].idx == i;
      assert a[k] in b;
      var j :| 0 <= j < |b| && b[j] == a[k];
    }
  }

  /**
   The decision, and the sessions the match starts with or that are closed, do not depend on the
   order of the answers.
   */
  lemma OrderDoesNotMatter<S>(targets: seq<string>, a: seq<Answer<S>>, b: seq<Answer<S>>)
    requires targets != [] && OneEach(targets, a) && OneEach(targets, b)
    requires forall answer :: answer in a <==> answer in b
    ensures var (x, y) := (HandleAll(targets, a).1, HandleAll(targets, b).1);
      && |x| == |y| == 1
      && (x[0].Starts? <==> y[0].Starts?)
      && (x[0].Starts? ==> x == y)
      && (x[0].Cancels? ==> x[0].closed == y[0].closed)
  {
    AllOrNothing(targets, a);
    AllOrNothing(targets, b);
    var x := HandleAll(targets, a).1[0];
    var y := HandleAll(targets, b).1[0];
    if AllAccepted(a) {
      SameAcceptance(a, b);
    }
    if AllAccepted(b) {
      SameAcceptance(b, a);
    }
    if x.Starts? {
      SlotsAreFixed(targets, a, b, x.sessions, y.sessions);
    } else {
      var p :| InSeatOrder(p, targets, a) && x.closed == Opened(p);
      var q :| InSeatOrder(q, targets, b) && y.closed == Opened(q);
      SlotsAreFixed(targets, a, b, p, q);
    }
  }

  lemma SameAcceptance<S>(a: seq<Answer<S>>, b: seq<Answer<S>>)
    requires (forall answer :: answer in b ==> answer in a) && AllAccepted(a)
    ensures AllAccepted(b)
  {
    forall k | 0 <= k < |b|
      ensures b[k].session.Some?
    {
      assert b[k] in a;
    }
  }

  // ---- Why a match is called off, and what is closed ----

  /** The answer at `k` is the first that refuses, and is quoted. */
  predicate FirstRefusal<S>(answers: seq<Answer<S>>, k: nat, why: string) {
    && k < |answers| && answers[k].session.None? && (forall j :: 0 <= j < k ==> answers[j].session.Some?)
    && why == answers[k].opponent + ": " +
         if answers[k].err.Some? then answers[k].err.value
         else if answers[k].reason != "" then answers[k].reason else "declined"
  }

  ghost predicate Quotes<S>(answers: seq<Answer<S>>, why: string) {
    if AllAccepted(answers) then why == "" else exists k: nat :: FirstRefusal(answers, k, why)
  }

  lemma QuotesOneMore<S>(l: Lobby<S>, answers: seq<Answer<S>>, a: Answer<S>)
    requires a.idx < |l.resolved| == |l.sessions| && Quotes(answers, l.failReason)
    requires l.failReason == "" <==> AllAccepted(answers)
    ensures Quotes(answers + [a], Recorded(l, a).failReason)
  {
    var more := answers + [a];
    assert more[|answers|] == a && forall k :: 0 <= k < |answers| ==> more[k] == answers[k];
    if AllAccepted(answers) {
      assert a.session.Some? ==> AllAccepted(more);
      assert a.session.None? ==> FirstRefusal(more, |answers|, Reason(a));
    } else {
      var k: nat :| FirstRefusal(answers, k, l.failReason);
      assert FirstRefusal(more, k, l.failReason);
    }
  }

  lemma {:induction false} QuotesWhileWaiting<S>(targets: seq<string>, answers: seq<Answer<S>>)
    requires |answers| < |targets|
    requires forall k :: 0 <= k < |answers| ==> answers[k].idx < |targets|
    requires forall j, k :: 0 <= j < k < |answers| ==> answers[j].idx != answers[k].idx
    ensures HandleAll(targets, answers).0.Some? && Quotes(answers, HandleAll(targets, answers).0.value.failReason)
    decreases |answers|
  {
    WaitsForAll(targets, answers);
    if answers != [] {
      var before := answers[..|answers| - 1];
      var a := answers[|answers| - 1];
      assert before + [a] == answers;
      WaitsForAll(targets, before);
      QuotesWhileWaiting(targets, before);
      var l := HandleAll(targets, before).0.value;
      OneMoreAnswer(targets, before, a, l);
      QuotesOneMore(l, before, a);
    }
  }

  /** A match is called off for what the first peer to refuse said: an error, a reason, or plainly no. */
  lemma FirstRefusalIsQuoted<S>(targets: seq<string>, answers: seq<Answer<S>>)
    requires targets != [] && OneEach(targets, answers) && !AllAccepted(answers)
    ensures var effects := HandleAll(targets, answers).1;
      |effects| == 1 && effects[0].Cancels? && exists k: nat :: FirstRefusal(answers, k, effects[0].why)
  {
    AllOrNothing(targets, answers);
    var before := answers[..|answers| - 1];
    var a := answers[|answers| - 1];
    assert before + [a] == answers;
    WaitsForAll(targets, before);
    QuotesWhileWaiting(targets, before);
    var l := HandleAll(targets, before).0.value;
    OneMoreAnswer(targets, before, a, l);
    QuotesOneMore(l, before, a);
  }

  /** An answer to no lobby, or for a slot there is not, is ignored. */
  lemma StaleAnswersIgnored<S>(lobby: Option<Lobby<S>>, a: Answer<S>)
    requires lobby.Some? ==> |lobby.value.resolved| == |lobby.value.sessions| <= a.idx
    ensures HandleAnswer(lobby, a) == (lobby, [])
  {}

  /** The sessions opened are closed in seat order. */
  lemma {:induction false} OpenedInSeatOrder<S>(first: seq<Option<S>>, next: seq<Option<S>>)
    ensures Opened(first + next) == Opened(first) + Opened(next)
    decreases |next|
  {
    if next == [] {
      assert first + next == first;
    } else {
      var n := |next| - 1;
      assert (first + next)[..|first| + n] == first + next[..n];
      OpenedInSeatOrder(first, next[..n]);
    }
  }

  lemma OpenedOne<S>(slot: Option<S>)
    ensures Opened([slot]) == if slot.Some? then [slot.value] else []
  {
    assert [slot][..0] == [] && Opened<S>([]) == [];
  }
}

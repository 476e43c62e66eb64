/**
 Leaving the relay: a connection that is left to itself comes to give up its handle, unless its
 writer has stopped and its handler waits for room on the outbox.
 */
module RelayLeaving {
  import opened Wrappers
  import opened RelayStore
  import opened RelayHub
  import opened RelayServer

  /** The connection is registered: it has joined and has not left. */
  predicate Present(s: Server, c: nat) {
    c < |s.conns| && s.conns[c].user.Some? && !s.conns[c].left
  }

  /** Its handler waits for room that nobody will make. */
  predicate Stuck(k: Conn) {
    k.stopped && k.task.Answering? && |k.outbox| >= OUTBOX_SIZE
  }

  /**
   What a connection does when no request comes any more: its handler goes on, its writer writes,
   its reader finds the end.
   */
  predicate Own(e: Event, c: nat) {
    (e.Steps? && e.c == c) || (e.Drains? && e.c == c) || (e.HangsUp? && e.c == c)
  }

  // ---- How far a handler is from leaving ----

  function Stage(task: Task): nat {
    match task
    case Leaving | Idle => 0
    case Answering(_, next) => Stage(next)
    case Sending(_, _, _) | Putting(_, _, _, _) | Awarding | Telling(_, _) => 1
    case ReadingMates(_, _) => 2
    case MemberChecking(_, _) => 4
    case _ => 3
  }

  function Size(task: Task): nat {
    match task
    case Leaving => 0
    case Idle => 1
    case Answering(_, next) => 1 + Size(next)
    case Telling(_, rest) => 4 * |rest| + 1
    case Putting(_, _, _, rest) => 4 * |rest| + 2
    case Sending(_, _, rest) => 4 * |rest| + 3
    case LookingUp(_, _) => 2
    case Checking(_, _, _) | AdminChecking(_) | UnlockChecking(_) | CompletingTodo(_, _) => 1
    case _ => 0
  }

  /** `b` is nearer to leaving than `a`: an earlier stage, less to do in it, or less to be written first. */
  predicate Nearer(b: Conn, a: Conn) {
    || Stage(b.task) < Stage(a.task)
    || (Stage(b.task) == Stage(a.task) && Size(b.task) < Size(a.task))
    || (b.task == a.task && |b.outbox| < |a.outbox|)
  }

  /** One step of working, for a handler that is not leaving. */
  lemma WorkIsNearer(s: Server, user: User, task: Task, draw: Draw)
    requires Grounded(s.db, s.conns, user, task) && !Departing(task)
    requires !NoWork(task) && !task.Idle? && !task.Finished?
    ensures var next := NextTask(s, user, task, draw);
      Stage(next) < Stage(task) || (Stage(next) == Stage(task) && Size(next) < Size(task))
  {}

  /** The connection has left, or is nearer to it, and its writer is as before. */
  predicate Advances(k': Conn, k: Conn) {
    k'.user.Some? && k'.stopped == k.stopped && (k'.left || Nearer(k', k))
  }

  /** Once an envelope has been put or dropped there is less to do. */
  lemma AfterSendIsNearer(e: Envelope, target: string, outbox: nat, rest: seq<string>, sent: bool)
    ensures var (task, next) := (Putting(e, target, outbox, rest), AfterSend(e, rest, sent));
      Stage(next) < Stage(task) || (Stage(next) == Stage(task) && Size(next) < Size(task))
  {}

  lemma PuttingIsNearer(s: Server, c: nat, t: Server)
    requires Present(s, c) && s.conns[c].task.Putting? && s.conns[c].task.outbox < |s.conns| && t == Puts(s, c)
    ensures c < |t.conns| && Advances(t.conns[c], s.conns[c])
  {
    var Putting(e, target, outbox, rest) := s.conns[c].task;
    AfterSendIsNearer(e, target, outbox, rest, true);
    AfterSendIsNearer(e, target, outbox, rest, false);
  }

  lemma WorkingIsNearer(s: Server, c: nat, draw: Draw, t: Server)
    requires Present(s, c) && ConnOk(s.db, s.conns, s.conns[c]) && t == Works(s, c, draw)
    requires var task := s.conns[c].task; !NoWork(task) && !task.Idle? && !task.Finished?
    ensures c < |t.conns| && Advances(t.conns[c], s.conns[c])
  {
    WorkIsNearer(s, s.conns[c].user.value, s.conns[c].task, draw);
  }

  lemma OwnStepIsNearer(s: Server, c: nat, draw: Draw, t: Server)
    requires Good(s) && Present(s, c) && CanStep(s, c, draw) && t == Step(s, c, draw)
    ensures c < |t.conns| && Advances(t.conns[c], s.conns[c])
  {
    var task := s.conns[c].task;
    assert ConnOk(s.db, s.conns, s.conns[c]);
    if task.Putting? {
      PuttingIsNearer(s, c, t);
    } else if !NoWork(task) {
      WorkingIsNearer(s, c, draw, t);
    }
  }

  /** Whatever a connection left to itself does next brings it nearer to leaving. */
  lemma OwnEventIsNearer(s: Server, e: Event, c: nat, t: Server)
    requires Good(s) && Present(s, c) && Own(e, c) && Enabled(s, e) && t == Next(s, e)
    ensures c < |t.conns| && Advances(t.conns[c], s.conns[c])
  {
    if e.Steps? { OwnStepIsNearer(s, c, e.draw, t); }
  }

  // ---- When a connection can do nothing ----

  lemma {:induction false} InSomeOrder(handles: set<string>) returns (mates: seq<string>)
    ensures (set h | h in mates) == handles
    decreases |handles|
  {
    if handles == {} {
      mates := [];
    } else {
      var h :| h in handles;
      var rest := InSomeOrder(handles - {h});
      mates := [h] + rest;
      assert (set x | x in mates) == {h} + (set x | x in rest);
    }
  }

  lemma WorkCanGoOn(s: Server, c: nat) returns (draw: Draw)
    requires Good(s) && Present(s, c) && !s.conns[c].task.Idle?
    requires s.conns[c].task.Answering? ==> |s.conns[c].outbox| < OUTBOX_SIZE
    ensures CanStep(s, c, draw)
  {
    var k := s.conns[c];
    assert ConnOk(s.db, s.conns, k);
    draw := Draw(0, "", []);
    if k.task.ReadingMates? {
      var mates := InSomeOrder(Mates(s.db, k.user.value, k.task.scope));
      draw := Draw(0, "", mates);
    }
  }

  lemma SomethingToDo(s: Server, c: nat) returns (e: Event)
    requires Good(s) && Present(s, c) && !Stuck(s.conns[c])
    ensures Own(e, c) && Enabled(s, e)
  {
    var k := s.conns[c];
    if k.task.Idle? {
      e := HangsUp(c);
    } else if k.task.Answering? && |k.outbox| >= OUTBOX_SIZE {
      e := Drains(c);
    } else {
      var draw := WorkCanGoOn(s, c);
      e := Steps(c, draw);
    }
  }

  /** A connection that has not left can do nothing of its own exactly if it is stuck. */
  lemma StuckExactly(s: Server, c: nat)
    requires Good(s) && Present(s, c)
    ensures Stuck(s.conns[c]) <==> forall e :: Own(e, c) ==> !Enabled(s, e)
  {
    if !Stuck(s.conns[c]) {
      var e := SomethingToDo(s, c);
      assert Own(e, c) && Enabled(s, e);
    }
  }

  lemma FirstThenRest(s: Server, e: Event, rest: seq<Event>)
    requires Enabled(s, e) && CanRun(Next(s, e), rest)
    ensures var run := [e] + rest;
      CanRun(s, run) && Run(s, run) == Run(Next(s, e), rest) && forall d :: d in run ==> d == e || d in rest
  {
    assert ([e] + rest)[1..] == rest;
  }

  /**
   Left to itself, a connection gives up its handle or gets stuck, and it cannot get stuck while its
   writer writes.
   */
  lemma {:induction false} LeavesOrSticks(s: Server, c: nat) returns (run: seq<Event>)
    requires Good(s) && Present(s, c)
    ensures CanRun(s, run) && (forall e :: e in run ==> Own(e, c)) && c < |Run(s, run).conns|
    ensures var k := Run(s, run).conns[c]; k.left || Stuck(k)
    ensures !s.conns[c].stopped ==> Run(s, run).conns[c].left
    decreases Stage(s.conns[c].task), Size(s.conns[c].task), |s.conns[c].outbox|
  {
    run := [];
    if !Stuck(s.conns[c]) {
      var e := SomethingToDo(s, c);
      OwnEventIsNearer(s, e, c, Next(s, e));
      NextGood(s, e);
      var rest := [];
      if !Next(s, e).conns[c].left {
        rest := LeavesOrSticks(Next(s, e), c);
      }
      FirstThenRest(s, e, rest);
      run := [e] + rest;
    }
  }

  // ---- Stuck for good ----

  /** Nobody else's step changes a connection whose outbox is full. */
  lemma OthersLeaveFull(s: Server, d: nat, draw: Draw, c: nat, t: Server)
    requires CanStep(s, d, draw) && c < |s.conns| && c != d && |s.conns[c].outbox| >= OUTBOX_SIZE
      && t == Step(s, d, draw)
    ensures c < |t.conns| && t.conns[c] == s.conns[c]
  {}

  lemma StuckStays(s: Server, e: Event, c: nat, t: Server)
    requires Present(s, c) && Stuck(s.conns[c]) && Enabled(s, e) && t == Next(s, e)
    ensures c < |t.conns| && t.conns[c] == s.conns[c]
  {
    if e.Steps? {
      assert e.c != c;
      OthersLeaveFull(s, e.c, e.draw, c, t);
    }
  }

  /** A connection that is stuck is stuck for good, and its handle stays taken. */
  lemma {:induction false} StuckForGood(s: Server, run: seq<Event>, c: nat)
    requires Good(s) && Present(s, c) && Stuck(s.conns[c]) && CanRun(s, run)
    ensures var (t, handle) := (Run(s, run), s.conns[c].user.value.handle);
      Present(t, c) && Stuck(t.conns[c]) && handle in t.clients && t.clients[handle] == c
    decreases |run|
  {
    if run != [] {
      StuckStays(s, run[0], c, Next(s, run[0]));
      NextGood(s, run[0]);
      StuckForGood(Next(s, run[0]), run[1..], c);
    }
  }

  // ---- How a connection gets stuck ----

  predicate Waiting(s: Server, c: nat) {
    Present(s, c) && s.conns[c].task.Idle?
  }

  const ANY_DRAW := Draw(0, "", [])

  lemma OneAnswer(s: Server, c: nat)
    requires Good(s) && Waiting(s, c) && |s.conns[c].outbox| < OUTBOX_SIZE
    ensures Enabled(s, Requests(c, DONE)) && Enabled(Next(s, Requests(c, DONE)), Steps(c, ANY_DRAW))
    ensures var t := Next(Next(s, Requests(c, DONE)), Steps(c, ANY_DRAW));
      Good(t) && Waiting(t, c) && t.conns[c] == s.conns[c].(outbox := s.conns[c].outbox + [Answer])
  {
    NextGood(s, Requests(c, DONE));
    NextGood(Next(s, Requests(c, DONE)), Steps(c, ANY_DRAW));
  }

  /** A peer whose writer has stopped goes on asking until its handler waits for room. */
  lemma {:induction false} AsksOn(s: Server, c: nat) returns (run: seq<Event>)
    requires Good(s) && Waiting(s, c) && s.conns[c].stopped && |s.conns[c].outbox| <= OUTBOX_SIZE
    ensures CanRun(s, run) && Present(Run(s, run), c) && Stuck(Run(s, run).conns[c])
    decreases OUTBOX_SIZE - |s.conns[c].outbox|
  {
    var asks := Requests(c, DONE);
    var rest := [];
    if |s.conns[c].outbox| < OUTBOX_SIZE {
      OneAnswer(s, c);
      var s1 := Next(s, asks);
      rest := AsksOn(Next(s1, Steps(c, ANY_DRAW)), c);
      FirstThenRest(s1, Steps(c, ANY_DRAW), rest);
      rest := [Steps(c, ANY_DRAW)] + rest;
    }
    FirstThenRest(s, asks, rest);
    run := [asks] + rest;
  }

  lemma FailsAndAsksOn(s: Server, c: nat) returns (run: seq<Event>)
    requires Good(s) && Waiting(s, c) && !s.conns[c].stopped && s.conns[c].outbox != []
    ensures CanRun(s, run) && Present(Run(s, run), c) && Stuck(Run(s, run).conns[c])
  {
    var fails := WriterFails(c);
    assert Accounted(s.deliveries, c, s.conns[c].outbox);
    NextGood(s, fails);
    var rest := AsksOn(Next(s, fails), c);
    FirstThenRest(s, fails, rest);
    run := [fails] + rest;
  }

  /** Wherever a signed-in connection waits for requests, a failed write and requests can get it stuck. */
  lemma CanGetStuck(s: Server, c: nat) returns (run: seq<Event>)
    requires Good(s) && Waiting(s, c) && !s.conns[c].stopped
    ensures CanRun(s, run) && Present(Run(s, run), c) && Stuck(Run(s, run).conns[c])
  {
    if s.conns[c].outbox != [] {
      run := FailsAndAsksOn(s, c);
    } else {
      OneAnswer(s, c);
      var (asks, answers) := (Requests(c, DONE), Steps(c, ANY_DRAW));
      var s1 := Next(s, asks);
      var rest := FailsAndAsksOn(Next(s1, answers), c);
      FirstThenRest(s1, answers, rest);
      FirstThenRest(s, asks, [answers] + rest);
      run := [asks] + ([answers] + rest);
    }
  }
}

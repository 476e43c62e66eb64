/**
 What each key and each reply leads to on the sign-in screen, field by field; and that no handle
 is ever registered that the server had not called free.
 */
module OnboardingLaws {
  import opened Wrappers
  import opened Text
  import opened Onboarding

  // ---- The answer to a handle check ----

  /** At field `i` of a wizard, with nothing under way. */
  predicate At(s: Screen, flow: Flow, i: nat) {
    s.step.Wizard? && s.flow == flow && s.fields == FieldsOf(flow) && s.fieldIdx == |s.answers| == i
    && i < |s.fields| && !s.checkingHandle && s.menu < 3 && (flow.RegisterFlow? && i == 4 ==> s.choice <= 10)
  }

  /** A free handle is recorded; one that is taken, or was not looked up, has to be entered again. */
  lemma AvailabilityExactly(s: Screen, handle: string, reply: Reply)
    requires At(s.(checkingHandle := false), RegisterFlow, 0)
    ensures HandleReply(s, CheckHandle(handle), reply) == (
      if reply == Available(true) then
        s.(answers := [handle], fieldIdx := 1, input := "", checkingHandle := false, complaint := NoComplaint)
      else s.(checkingHandle := false, complaint := if reply == Available(false) then HandleTaken else Refused),
      Nothing)
  {
    assert s.answers + [handle] == [handle];
  }

  // ---- No handle is registered that was not free ----

  /** The server said so, to a question about that very handle. */
  predicate Cleared(log: seq<Entry>, handle: string) {
    Replied(CheckHandle(handle), Available(true)) in log
  }

  predicate RegistersCleared(log: seq<Entry>) {
    forall i :: 0 <= i < |log| && log[i].Asked? && log[i].request.Register? ==>
      Cleared(log[..i], log[i].request.handle)
  }

  predicate Registering(s: Screen) {
    s.step.Wizard? && s.flow.RegisterFlow? && s.answers != []
  }

  predicate HandleCleared(s: Session) {
    RegistersCleared(s.log) && (Registering(s.screen) ==> Cleared(s.log, s.screen.answers[0]))
  }

  lemma ClearedMore(log: seq<Entry>, entry: Entry)
    requires RegistersCleared(log)
    requires entry.Asked? && entry.request.Register? ==> Cleared(log, entry.request.handle)
    ensures RegistersCleared(log + [entry])
    ensures forall h :: Cleared(log, h) ==> Cleared(log + [entry], h)
  {
    forall i | 0 <= i < |log + [entry]| && (log + [entry])[i].Asked? && (log + [entry])[i].request.Register?
      ensures Cleared((log + [entry])[..i], (log + [entry])[i].request.handle)
    {
      assert (log + [entry])[..i] == log[..i];
      assert log[..|log|] == log;
    }
  }

  /** A registration in progress keeps its first answer, and is submitted with it. */
  predicate KeepsHandle(s: Screen, t: Screen, command: Command) {
    && (Registering(t) ==> Registering(s) && t.answers[0] == s.answers[0])
    && (command.Ask? && command.request.Register? ==> Registering(t) && command.request.handle == t.answers[0])
  }

  lemma CommitKeepsHandle(s: Screen, value: string)
    requires ScreenOk(s) && s.step.Wizard? && AtField(s) && !(s.flow.RegisterFlow? && s.fieldIdx == 0)
    ensures var (t, command) := CommitAnswer(s, value); KeepsHandle(s, t, command)
  {}

  lemma ChoiceKeepsHandle(s: Screen)
    requires ScreenOk(s) && Readable(s) && s.step.Wizard? && AtField(s) && s.fields[s.fieldIdx].choices != []
    ensures var (t, command) := AdvanceChoiceField(s); KeepsHandle(s, t, command)
  {
    var selected := s.fields[s.fieldIdx].choices[s.choice];
    if selected != SKIP {
      CommitKeepsHandle(s.(complaint := NoComplaint), selected);
    }
  }

  lemma AdvanceKeepsHandle(s: Screen, picture: Option<string>)
    requires ScreenOk(s) && Readable(s) && s.step.Wizard? && AtField(s)
    ensures var (t, command) := AdvanceWizard(s, picture); KeepsHandle(s, t, command)
  {
    if s.flow.RegisterFlow? && s.fieldIdx == 0 {
    } else if s.fields[s.fieldIdx].choices != [] {
      ChoiceKeepsHandle(s);
    } else {
      CommitKeepsHandle(s, TrimSpace(s.input));
      if picture.Some? { CommitKeepsHandle(s, picture.value); }
    }
  }

  lemma BackKeepsHandle(s: Screen)
    requires ScreenOk(s) && s.step.Wizard? && AtField(s)
    ensures KeepsHandle(s, RetreatWizard(s), Nothing)
  {}

  lemma KeyKeepsHandle(s: Screen, key: Key)
    requires ScreenOk(s) && Readable(s)
    ensures var (t, command) := HandleKey(s, key); KeepsHandle(s, t, command)
  {
    if s.step.Wizard? && s.fieldIdx < |s.fields| && !s.checkingHandle {
      match key
      case Back => BackKeepsHandle(s);
      case Enter(picture) => AdvanceKeepsHandle(s, picture);
      case _ =>
    }
  }

  lemma ReplyKeepsHandle(s: Screen, request: Request, reply: Reply)
    requires ScreenOk(s) && (request.CheckHandle? ==> AtField(s))
    ensures var (t, command) := HandleReply(s, request, reply);
      if request.CheckHandle? && reply == Available(true) && s.checkingHandle
      then command == Nothing && t.answers == [request.handle]
      else !request.CheckHandle? || s.checkingHandle ==> KeepsHandle(s, t, command)
  {}

  lemma NextClears(s: Session, e: Event)
    requires Sound(s) && HandleCleared(s) && Enabled(s, e)
    ensures HandleCleared(Next(s, e))
  {
    match e
    case Presses(key) =>
      KeyKeeps(s.screen, key);
      KeyKeepsHandle(s.screen, key);
      var (t, command) := HandleKey(s.screen, key);
      AfterClears(s, t, command, s.outstanding);
    case Replies(k, reply) =>
      ReplyClears(s, k, reply);
  }

  lemma ReplyClears(s: Session, k: nat, reply: Reply)
    requires Sound(s) && HandleCleared(s) && k < |s.outstanding|
    ensures HandleCleared(Next(s, Replies(k, reply)))
  {
    var request := s.outstanding[k];
    var heard := s.(log := s.log + [Replied(request, reply)]);
    assert !Quiet(s.screen);
    ReplyKeeps(s.screen, request, reply);
    ClearedMore(s.log, Replied(request, reply));
    ReplyKeepsHandle(s.screen, request, reply);
    var (t, command) := HandleReply(s.screen, request, reply);
    AfterClears(heard, t, command, s.outstanding[..k] + s.outstanding[k + 1..]);
  }

  lemma AfterClears(s: Session, t: Screen, command: Command, outstanding: seq<Request>)
    requires RegistersCleared(s.log) && (Registering(t) ==> Cleared(s.log, t.answers[0]))
    requires command.Ask? && command.request.Register? ==> Registering(t) && command.request.handle == t.answers[0]
    ensures HandleCleared(After(s, t, command, outstanding))
  {
    if command.Ask? {
      ClearedMore(s.log, Asked(command.request, t.answers));
    } else {
      assert s.log + [] == s.log;
    }
  }

  lemma {:induction false} RunClears(s: Session, run: seq<Event>)
    requires Sound(s) && HandleCleared(s) && CanRun(s, run)
    ensures HandleCleared(Run(s, run))
    decreases |run|
  {
    if run != [] {
      NextSound(s, run[0]);
      NextClears(s, run[0]);
      RunClears(Next(s, run[0]), run[1..]);
    }
  }

  /** In every run, a handle is submitted for registration only after the server called that very handle free. */
  lemma OnlyFreeHandlesAreRegistered(handle: string, savedToken: string, run: seq<Event>, i: nat)
    requires CanRun(Start(handle, savedToken), run)
    requires var log := Run(Start(handle, savedToken), run).log;
      i < |log| && log[i].Asked? && log[i].request.Register?
    ensures var log := Run(Start(handle, savedToken), run).log;
      Replied(CheckHandle(log[i].request.handle), Available(true)) in log[..i]
  {
    StartSound(handle, savedToken);
    RunClears(Start(handle, savedToken), run);
  }

  // ---- Every other reply ----

  lemma DialsExactly(s: Screen, reply: Reply)
    ensures HandleReply(s, Dial, reply) ==
      if reply != Success then (s.(step := Failed, complaint := Refused), Nothing)
      else if s.savedToken != "" then (s.(step := Resuming), Ask(Resume(s.savedToken)))
      else (s.(step := Welcome), Nothing)
  {}

  /** Who is let in is let in; who is not starts over, and the saved token is not tried again. */
  lemma AuthenticatesExactly(s: Screen, request: Request, reply: Reply)
    requires request.Resume? || request.Login? || request.Register? || request.RecoverFinish?
    ensures HandleReply(s, request, reply) ==
      if reply == Success then (s, Authenticated)
      else (s.(step := Welcome, savedToken := "", complaint := Refused), Nothing)
  {}

  /** A security question leads to the second part of a recovery. */
  lemma RecoversExactly(s: Screen, handle: string, reply: Reply)
    ensures HandleReply(s, RecoverStart(handle), reply) == (
      if reply.Question? then
        s.(step := Wizard, flow := RecoverAnswerFlow, fields := FieldsOf(RecoverAnswerFlow), fieldIdx := 0,
           answers := [], input := "")
      else s.(step := Welcome, complaint := Refused),
      Nothing)
  {}

  // ---- The keys, outside the wizard ----

  lemma WelcomesExactly(s: Screen, key: Key)
    requires s.step.Welcome? && s.menu < 3
    ensures HandleKey(s, key) == (
      match key
      case Up => if s.menu == 0 then s else s.(menu := s.menu - 1)
      case Down => if s.menu == 2 then s else s.(menu := s.menu + 1)
      case Enter(_) =>
        Started(s, if s.menu == 0 then LoginFlow else if s.menu == 1 then RegisterFlow else RecoverHandleFlow)
      case Back => s
      case Types(_) => s, Nothing)
  {}

  /** The first field of a wizard; a new account, or an old one, is first thought to bear the user's own handle. */
  function Started(s: Screen, flow: Flow): Screen {
    s.(step := Wizard, flow := flow, fields := FieldsOf(flow), fieldIdx := 0, answers := [],
       input := if flow.LoginFlow? || flow.RegisterFlow? then s.handle else "", complaint := NoComplaint)
  }

  /** Keys that come while the screen waits change nothing; after a failure, Enter dials again. */
  lemma WaitsExactly(s: Screen, key: Key)
    requires s.menu < 3
    requires s.step.Connecting? || s.step.Resuming? || s.step.Failed?
      || (s.step.Wizard? && (s.fieldIdx >= |s.fields| || (s.checkingHandle && AtField(s) && s.fieldIdx == 0)))
    ensures HandleKey(s, key) ==
      if s.step.Failed? && key.Enter? then (s.(complaint := NoComplaint, step := Connecting), Ask(Dial))
      else (s, Nothing)
  {
    assert Readable(s);
  }

  // ---- The keys, in the wizard ----

  function Complains(s: Screen, complaint: Complaint): (Screen, Command) {
    (s.(complaint := complaint), Nothing)
  }

  /** The value is recorded and an empty text field comes next. */
  function Passes(s: Screen, value: string): (Screen, Command) {
    (s.(complaint := NoComplaint, answers := s.answers + [value], fieldIdx := s.fieldIdx + 1, input := ""), Nothing)
  }

  /** The last values are recorded and the request goes out. */
  function Submits(s: Screen, values: seq<string>, request: Request): (Screen, Command) {
    (s.(complaint := NoComplaint, answers := s.answers + values, fieldIdx := |s.answers| + |values|), Ask(request))
  }

  lemma LoginExactly(s: Screen, i: nat, picture: Option<string>)
    requires At(s, LoginFlow, i)
    ensures var value := TrimSpace(s.input);
      HandleKey(s, Enter(picture)) ==
      if value == "" then Complains(s, Required)
      else if i == 0 then Passes(s, value)
      else Submits(s, [value], Login(s.answers[0], value))
  {}

  /** Its handle, and its password twice. */
  lemma RegisterStartsExactly(s: Screen, i: nat, picture: Option<string>)
    requires At(s, RegisterFlow, i) && i < 3
    ensures var value := TrimSpace(s.input);
      HandleKey(s, Enter(picture)) ==
      if value == "" then Complains(s, Required)
      else if i == 0 then (s.(complaint := NoComplaint, checkingHandle := true), Ask(CheckHandle(value)))
      else if i == 1 && ByteLength(value) < 6 then Complains(s, TooShort)
      else if i == 2 && value != s.answers[1] then Complains(s, Mismatch)
      else Passes(s, value)
  {}

  /** A picture, which may be left out; the list of security questions comes next. */
  lemma PictureExactly(s: Screen, picture: Option<string>)
    requires At(s, RegisterFlow, 3)
    ensures var value := TrimSpace(s.input);
      HandleKey(s, Enter(picture)) ==
      if value != "" && picture.None? then Complains(s, BadPicture)
      else (s.(complaint := NoComplaint, answers := s.answers + [if value == "" then "" else picture.value],
               fieldIdx := 4, choice := 0), Nothing)
  {
    NoEmptyChoice(SECURITY_QUESTIONS + [SKIP]);
  }

  lemma {:induction false} NoEmptyChoice(choices: seq<string>)
    requires forall i :: 0 <= i < |choices| ==> choices[i] != ""
    ensures IndexOf(choices, "") == |choices|
  {
    if choices != [] { NoEmptyChoice(choices[1..]); }
  }

  /** One of ten questions; or the last entry, which submits the registration without any. */
  lemma QuestionExactly(s: Screen, picture: Option<string>)
    requires At(s, RegisterFlow, 4)
    ensures HandleKey(s, Enter(picture)) ==
      if s.choice < 10 then Passes(s, SECURITY_QUESTIONS[s.choice])
      else Submits(s, ["", ""], Register(s.answers[0], s.answers[1], s.answers[3], "", ""))
  {}

  /** The answer to the question, with which the registration is submitted. */
  lemma RegisterEndsExactly(s: Screen, picture: Option<string>)
    requires At(s, RegisterFlow, 5)
    ensures var (value, a) := (TrimSpace(s.input), s.answers);
      HandleKey(s, Enter(picture)) ==
      if value == "" then Complains(s, Required)
      else Submits(s, [value], Register(a[0], a[1], a[3], a[4], value))
  {}

  lemma RecoverStartsExactly(s: Screen, picture: Option<string>)
    requires At(s, RecoverHandleFlow, 0)
    ensures var value := TrimSpace(s.input);
      HandleKey(s, Enter(picture)) ==
      if value == "" then Complains(s, Required)
      else Submits(s.(recoverHandle := value), [value], RecoverStart(value))
  {}

  lemma RecoverEndsExactly(s: Screen, i: nat, picture: Option<string>)
    requires At(s, RecoverAnswerFlow, i)
    ensures var value := TrimSpace(s.input);
      HandleKey(s, Enter(picture)) ==
      if value == "" then Complains(s, Required)
      else if i == 0 then Passes(s, value)
      else if ByteLength(value) < 6 then Complains(s, TooShort)
      else Submits(s, [value], RecoverFinish(s.recoverHandle, s.answers[0], value))
  {}

  /** A step back shows the answer given there, for editing; from the first field it leaves the wizard. */
  lemma BackExactly(s: Screen, i: nat)
    requires At(s, s.flow, i) && s.flow != NoFlow && !(s.flow.RegisterFlow? && i == 5)
    ensures HandleKey(s, Back) == (
      if i == 0 then s.(complaint := NoComplaint, step := Welcome)
      else
        var last := s.answers[i - 1];
        s.(complaint := NoComplaint, fieldIdx := i - 1, answers := s.answers[..i - 1],
           input := if last == "" && i == 1 && (s.flow.LoginFlow? || s.flow.RegisterFlow?) then s.handle else last),
      Nothing)
  {}

  lemma {:induction false} FirstIndex(choices: seq<string>, value: string)
    ensures var i := IndexOf(choices, value);
      && i <= |choices| && (i < |choices| ==> choices[i] == value)
      && forall j :: 0 <= j < i ==> choices[j] != value
  {
    if choices != [] && choices[0] != value {
      FirstIndex(choices[1..], value);
      var i := IndexOf(choices[1..], value);
      assert forall j :: 0 < j <= i ==> choices[j] == choices[1..][j - 1] != value;
    }
  }

  /** Back at the questions, the one chosen is shown chosen. */
  lemma BackToTheQuestion(s: Screen)
    requires At(s, RegisterFlow, 5)
    ensures var (t, command) := HandleKey(s, Back);
      var (choices, chosen) := (SECURITY_QUESTIONS + [SKIP], s.answers[4]);
      && command == Nothing
      && t == s.(complaint := NoComplaint, fieldIdx := 4, answers := s.answers[..4], choice := t.choice)
      && t.choice < 11 && (forall j :: 0 <= j < t.choice ==> choices[j] != chosen)
      && if chosen in choices then choices[t.choice] == chosen else t.choice == 0
  {
    FirstIndex(SECURITY_QUESTIONS + [SKIP], s.answers[4]);
  }

  /** Text goes into a text field, and the arrows move along the questions. */
  lemma EditsExactly(s: Screen, i: nat, key: Key)
    requires At(s, s.flow, i) && s.flow != NoFlow && (key.Up? || key.Down? || key.Types?)
    ensures var asks := s.flow.RegisterFlow? && i == 4;
      HandleKey(s, key) == (
        if key.Types? then if asks then s else s.(input := key.text)
        else if key.Up? && asks && s.choice > 0 then s.(choice := s.choice - 1)
        else if key.Down? && asks && s.choice < 10 then s.(choice := s.choice + 1)
        else s, Nothing)
  {}
}

/**
 Signing in to the relay: a welcome menu, a wizard that asks one field at a time, and the
 requests made of the server. This module gives the screen as a value and its reactions as
 functions; `OnboardingModel` holds the mutable screen proved to react this way.
 */
module Onboarding {
  import opened Wrappers
  import opened Text

  datatype Step = Connecting | Resuming | Welcome | Wizard | Failed

  datatype Flow = NoFlow | LoginFlow | RegisterFlow | RecoverHandleFlow | RecoverAnswerFlow

  /** A field with choices is a menu; any other is free text. */
  datatype Field = Field(optional: bool, minLength: nat, choices: seq<string>)

  const MIN_PASSWORD_LENGTH := 6

  const SKIP := "Skip (no password recovery)"

  const SECURITY_QUESTIONS := [
    "What was the name of your first pet?",
    "What is your mother's maiden name?",
    "What was the name of your elementary school?",
    "What city were you born in?",
    "What was your childhood nickname?",
    "What is the name of your best childhood friend?",
    "What was the make of your first car?",
    "What is your favorite book?",
    "What was the name of your first employer?",
    "What street did you grow up on?"]

  const TEXT := Field(false, 0, [])
  const PASSWORD := Field(false, MIN_PASSWORD_LENGTH, [])
  const LOGIN_FIELDS := [TEXT, TEXT]
  const REGISTER_FIELDS := [TEXT, PASSWORD, TEXT, Field(true, 0, []), Field(false, 0, SECURITY_QUESTIONS + [SKIP]),
    TEXT]
  const RECOVER_HANDLE_FIELDS := [TEXT]
  const RECOVER_ANSWER_FIELDS := [TEXT, PASSWORD]

  function FieldsOf(flow: Flow): seq<Field> {
    match flow
    case NoFlow => []
    case LoginFlow => LOGIN_FIELDS
    case RegisterFlow => REGISTER_FIELDS
    case RecoverHandleFlow => RECOVER_HANDLE_FIELDS
    case RecoverAnswerFlow => RECOVER_ANSWER_FIELDS
  }

  datatype Complaint = NoComplaint | Required | TooShort | Mismatch | BadPicture | HandleTaken | Refused

  datatype Screen = Screen(
    handle: string, savedToken: string, step: Step, flow: Flow, menu: nat,
    fields: seq<Field>, fieldIdx: nat, answers: seq<string>, input: string, choice: nat, checkingHandle: bool,
    recoverHandle: string, complaint: Complaint)

  datatype Request =
    | Dial
    | Resume(token: string)
    | CheckHandle(handle: string)
    | Login(handle: string, password: string)
    | Register(handle: string, password: string, picture: string, question: string, answer: string)
    | RecoverStart(handle: string)
    | RecoverFinish(handle: string, answer: string, password: string)

  datatype Command = Nothing | Ask(request: Request) | Authenticated

  /** `picture` is what a typed path resolves to, if there is a readable image there. */
  datatype Key = Up | Down | Back | Enter(picture: Option<string>) | Types(text: string)

  datatype Reply = Failure | Success | Available(yes: bool) | Question(text: string)

  function NewScreen(handle: string, savedToken: string): Screen {
    Screen(handle, savedToken, Connecting, NoFlow, 0, [], 0, [], "", 0, false, "", NoComplaint)
  }

  // ---- Passwords ----

  predicate LongEnough(password: string) {
    ByteLength(password) >= MIN_PASSWORD_LENGTH
  }

  /** Two keys will do for a password, though six characters are asked for. */
  lemma TwoCharactersPass()
    ensures LongEnough(['\U{1F511}', '\U{1F511}'])
  {
    var key := '\U{1F511}';
    assert [key][1..] == "" && [key, key][1..] == [key];
    assert ByteLength([key]) == 4;
  }

  // ---- Fields ----

  function IndexOf(choices: seq<string>, value: string): nat {
    if choices == [] || choices[0] == value then 0 else 1 + IndexOf(choices[1..], value)
  }

  /** The current field is made ready, showing `prefill`. */
  function ResetInput(s: Screen, prefill: string): Screen
    requires s.fieldIdx < |s.fields|
  {
    var choices := s.fields[s.fieldIdx].choices;
    if choices != [] then
      var i := IndexOf(choices, prefill);
      s.(choice := if i < |choices| then i else 0)
    else if prefill == "" && (s.flow.LoginFlow? || s.flow.RegisterFlow?) && s.fieldIdx == 0 then s.(input := s.handle)
    else s.(input := prefill)
  }

  function StartWizard(s: Screen, flow: Flow, complaint: Complaint): Screen
    requires flow != NoFlow
  {
    ResetInput(
      s.(flow := flow, fields := FieldsOf(flow), fieldIdx := 0, answers := [], step := Wizard,
        complaint := complaint), "")
  }

  function RetreatWizard(s: Screen): Screen
    requires 0 < s.fieldIdx ==> s.fieldIdx <= |s.fields| && s.answers != []
  {
    if s.fieldIdx == 0 then s.(complaint := NoComplaint, step := Welcome)
    else
      var last := |s.answers| - 1;
      ResetInput(s.(complaint := NoComplaint, fieldIdx := s.fieldIdx - 1, answers := s.answers[..last]),
        s.answers[last])
  }

  /** What the finished wizard asks of the server. */
  predicate Complete(s: Screen) {
    match s.flow
    case NoFlow => false
    case LoginFlow => |s.answers| == 2
    case RegisterFlow => |s.answers| == 6
    case RecoverHandleFlow => |s.answers| == 1
    case RecoverAnswerFlow => |s.answers| == 2
  }

  function SubmitWizard(s: Screen): (Screen, Command)
    requires Complete(s)
  {
    match s.flow
    case LoginFlow => (s, Ask(Login(s.answers[0], s.answers[1])))
    case RegisterFlow => (s, Ask(Register(s.answers[0], s.answers[1], s.answers[3], s.answers[4], s.answers[5])))
    case RecoverHandleFlow => (s.(recoverHandle := s.answers[0]), Ask(RecoverStart(s.answers[0])))
    case RecoverAnswerFlow => (s, Ask(RecoverFinish(s.recoverHandle, s.answers[0], s.answers[1])))
  }

  /** Room for one more answer, and for a submission after the last. */
  predicate AtField(s: Screen) {
    s.flow != NoFlow && s.fields == FieldsOf(s.flow) && |s.answers| == s.fieldIdx < |s.fields|
  }

  function CommitAnswer(s: Screen, value: string): (Screen, Command)
    requires AtField(s)
  {
    var t := s.(complaint := NoComplaint, answers := s.answers + [value], fieldIdx := s.fieldIdx + 1);
    if t.fieldIdx < |t.fields| then (ResetInput(t, ""), Nothing) else SubmitWizard(t)
  }

  function AdvanceChoiceField(s: Screen): (Screen, Command)
    requires AtField(s) && s.choice < |s.fields[s.fieldIdx].choices|
    requires s.fields[s.fieldIdx].choices[s.choice] == SKIP ==> s.fieldIdx + 2 <= |s.fields|
  {
    var selected := s.fields[s.fieldIdx].choices[s.choice];
    if selected == SKIP then
      var t := s.(complaint := NoComplaint, answers := s.answers + ["", ""], fieldIdx := s.fieldIdx + 2);
      if t.fieldIdx >= |t.fields| then SubmitWizard(t) else (ResetInput(t, ""), Nothing)
    else CommitAnswer(s.(complaint := NoComplaint), selected)
  }

  function AdvanceWizard(s: Screen, picture: Option<string>): (Screen, Command)
    requires AtField(s) && (s.fields[s.fieldIdx].choices != [] ==> s.choice < |s.fields[s.fieldIdx].choices|)
    requires forall i :: 0 <= i < |s.fields[s.fieldIdx].choices| && s.fields[s.fieldIdx].choices[i] == SKIP ==>
      s.fieldIdx + 2 <= |s.fields|
  {
    var cur := s.fields[s.fieldIdx];
    if cur.choices != [] then AdvanceChoiceField(s)
    else
      var value := TrimSpace(s.input);
      if value == "" && !cur.optional then (s.(complaint := Required), Nothing)
      else if value != "" && cur.minLength > 0 && ByteLength(value) < cur.minLength then
        (s.(complaint := TooShort), Nothing)
      else if s.flow.RegisterFlow? && s.fieldIdx == 0 then
        (s.(complaint := NoComplaint, checkingHandle := true), Ask(CheckHandle(value)))
      else if s.flow.RegisterFlow? && s.fieldIdx == 2 && value != s.answers[1] then (s.(complaint := Mismatch), Nothing)
      else if s.flow.RegisterFlow? && s.fieldIdx == 3 && value != "" then
        match picture
        case Some(resolved) => CommitAnswer(s, resolved)
        case None => (s.(complaint := BadPicture), Nothing)
      else CommitAnswer(s, value)
  }

  /**
   A password is refused as too short when it has fewer than six characters, and only then,
   exactly if it is not one of fewer than six characters that take six bytes or more.
   */
  lemma ShortPasswordsExactly(s: Screen, picture: Option<string>)
    requires AtField(s) && s.fields[s.fieldIdx] == PASSWORD && TrimSpace(s.input) != ""
    ensures var value := TrimSpace(s.input);
      var refused := AdvanceWizard(s, picture).0.complaint == TooShort;
      && ((refused <==> |value| < 6) <==> !(|value| < 6 && LongEnough(value)))
      && (Ascii(value) ==> (refused <==> |value| < 6))
  {
    BytesAndCharacters(TrimSpace(s.input));
  }

  // ---- Keys ----

  const MENU: seq<Flow> := [LoginFlow, RegisterFlow, RecoverHandleFlow]

  function HandleWelcomeKey(s: Screen, key: Key): Screen
    requires s.menu < |MENU|
  {
    match key
    case Up => if s.menu > 0 then s.(menu := s.menu - 1) else s
    case Down => if s.menu < |MENU| - 1 then s.(menu := s.menu + 1) else s
    case Enter(_) => StartWizard(s, MENU[s.menu], NoComplaint)
    case _ => s
  }

  /** Every index the wizard reads is in range. */
  predicate Readable(s: Screen) {
    && s.menu < |MENU|
    && (s.step.Wizard? && s.fieldIdx < |s.fields| ==>
          && AtField(s)
          && var choices := s.fields[s.fieldIdx].choices;
             && (choices != [] ==> s.choice < |choices|)
             && forall i :: 0 <= i < |choices| && choices[i] == SKIP ==> s.fieldIdx + 2 <= |s.fields|)
  }

  function HandleWizardKey(s: Screen, key: Key): (Screen, Command)
    requires Readable(s) && s.step.Wizard?
  {
    if s.fieldIdx >= |s.fields| || s.checkingHandle then (s, Nothing)
    else
      var choices := s.fields[s.fieldIdx].choices;
      match key
      case Back => (RetreatWizard(s), Nothing)
      case Enter(picture) => AdvanceWizard(s, picture)
      case Up => (if choices != [] && s.choice > 0 then s.(choice := s.choice - 1) else s, Nothing)
      case Down => (if choices != [] && s.choice < |choices| - 1 then s.(choice := s.choice + 1) else s, Nothing)
      case Types(text) => (if choices != [] then s else s.(input := text), Nothing)
  }

  function HandleKey(s: Screen, key: Key): (Screen, Command)
    requires Readable(s)
  {
    match s.step
    case Welcome => (HandleWelcomeKey(s, key), Nothing)
    case Wizard => HandleWizardKey(s, key)
    case Failed => if key.Enter? then (s.(complaint := NoComplaint, step := Connecting), Ask(Dial)) else (s, Nothing)
    case _ => (s, Nothing)
  }

  // ---- Replies ----

  function DialResult(s: Screen, ok: bool): (Screen, Command) {
    if !ok then (s.(step := Failed, complaint := Refused), Nothing)
    else if s.savedToken != "" then (s.(step := Resuming), Ask(Resume(s.savedToken)))
    else (s.(step := Welcome), Nothing)
  }

  function AuthResult(s: Screen, ok: bool): (Screen, Command) {
    if ok then (s, Authenticated) else (s.(step := Welcome, savedToken := "", complaint := Refused), Nothing)
  }

  function RecoverStartResult(s: Screen, ok: bool): (Screen, Command) {
    if ok then (StartWizard(s, RecoverAnswerFlow, s.complaint), Nothing)
    else (s.(step := Welcome, complaint := Refused), Nothing)
  }

  function CheckHandleResult(s: Screen, handle: string, reply: Reply): (Screen, Command)
    requires AtField(s)
  {
    var t := s.(checkingHandle := false);
    match reply
    case Available(yes) => if yes then CommitAnswer(t, handle) else (t.(complaint := HandleTaken), Nothing)
    case _ => (t.(complaint := Refused), Nothing)
  }

  function HandleReply(s: Screen, request: Request, reply: Reply): (Screen, Command)
    requires request.CheckHandle? ==> AtField(s)
  {
    match request
    case Dial => DialResult(s, reply.Success?)
    case CheckHandle(handle) => CheckHandleResult(s, handle, reply)
    case RecoverStart(_) => RecoverStartResult(s, reply.Question?)
    case _ => AuthResult(s, reply.Success?)
  }

  // ---- Runs ----

  /** What was asked, and the answers it was asked with; or what was replied. */
  datatype Entry = Asked(request: Request, answers: seq<string>) | Replied(request: Request, reply: Reply)

  datatype Session = Session(screen: Screen, outstanding: seq<Request>, authenticated: bool, log: seq<Entry>,
    crashed: bool)

  datatype Event = Presses(key: Key) | Replies(k: nat, reply: Reply)

  function Start(handle: string, savedToken: string): Session {
    Session(NewScreen(handle, savedToken), [Dial], false, [Asked(Dial, [])], false)
  }

  function After(s: Session, screen: Screen, command: Command, outstanding: seq<Request>): Session {
    Session(
      screen,
      outstanding + (if command.Ask? then [command.request] else []),
      s.authenticated || command.Authenticated?,
      s.log + (if command.Ask? then [Asked(command.request, screen.answers)] else []),
      s.crashed)
  }

  predicate Enabled(s: Session, e: Event) {
    e.Replies? ==> e.k < |s.outstanding|
  }

  /** A read beyond what there is would end the program. */
  function Next(s: Session, e: Event): Session
    requires Enabled(s, e)
  {
    match e
    case Presses(key) =>
      if !Readable(s.screen) then s.(crashed := true)
      else
        var (screen, command) := HandleKey(s.screen, key);
        After(s, screen, command, s.outstanding)
    case Replies(k, reply) =>
      if s.outstanding[k].CheckHandle? && !AtField(s.screen) then s.(crashed := true)
      else
        var (screen, command) := HandleReply(s.screen, s.outstanding[k], reply);
        After(s.(log := s.log + [Replied(s.outstanding[k], reply)]), screen, command,
          s.outstanding[..k] + s.outstanding[k + 1..])
  }

  // ---- What every run keeps ----

  /** The answers given so far are ones the wizard lets pass. */
  predicate Passed(flow: Flow, answers: seq<string>) {
    match flow
    case NoFlow => false
    case LoginFlow | RecoverHandleFlow => forall a :: a in answers ==> a != ""
    case RecoverAnswerFlow => (|answers| > 0 ==> answers[0] != "") && (|answers| > 1 ==> LongEnough(answers[1]))
    case RegisterFlow =>
      && (|answers| > 0 ==> answers[0] != "")
      && (|answers| > 1 ==> LongEnough(answers[1]))
      && (|answers| > 2 ==> answers[2] == answers[1])
      && (|answers| == 5 ==> answers[4] != "")
      && (|answers| == 6 ==> (answers[4] == "" <==> answers[5] == ""))
  }

  /** The one request the screen is waiting for, if it is waiting. */
  function Awaited(s: Screen, checked: string): seq<Request> {
    match s.step
    case Connecting => [Dial]
    case Resuming => [Resume(s.savedToken)]
    case Welcome | Failed => []
    case Wizard =>
      if s.checkingHandle then [CheckHandle(checked)]
      else if Complete(s) then
        match s.flow {
          case LoginFlow => [Login(s.answers[0], s.answers[1])]
          case RegisterFlow => [Register(s.answers[0], s.answers[1], s.answers[3], s.answers[4], s.answers[5])]
          case RecoverHandleFlow => [RecoverStart(s.answers[0])]
          case RecoverAnswerFlow => [RecoverFinish(s.recoverHandle, s.answers[0], s.answers[1])]
        }
      else []
  }

  predicate ScreenOk(s: Screen) {
    && s.menu < |MENU|
    && (s.checkingHandle ==> s.step.Wizard? && s.flow.RegisterFlow? && s.fieldIdx == 0)
    && (s.step.Wizard? ==>
          && s.flow != NoFlow && s.fields == FieldsOf(s.flow) && |s.answers| == s.fieldIdx <= |s.fields|
          && Passed(s.flow, s.answers)
          && (s.fieldIdx < |s.fields| && s.fields[s.fieldIdx].choices != [] ==>
               s.choice < |s.fields[s.fieldIdx].choices|))
  }

  /**
   A registration submitted is one whose password was confirmed, and whose question has an answer or
   there is neither.
   */
  predicate Submittable(a: Entry) {
    a.Asked? && a.request.Register? ==>
      && |a.answers| == 6 && a.request.handle == a.answers[0] != ""
      && a.request.password == a.answers[1] == a.answers[2] && LongEnough(a.request.password)
      && (a.request.question == "" <==> a.request.answer == "")
  }

  predicate Waiting(s: Session) {
    if s.authenticated then
      && s.outstanding == []
      && (s.screen.step.Resuming? || (s.screen.step.Wizard? && Complete(s.screen) && !s.screen.checkingHandle))
    else if s.screen.checkingHandle then
      |s.outstanding| == 1 && s.outstanding[0].CheckHandle? && s.outstanding[0].handle != ""
    else s.outstanding == Awaited(s.screen, "")
  }

  predicate Sound(s: Session) {
    ScreenOk(s.screen) && Waiting(s) && !s.crashed && forall a :: a in s.log ==> Submittable(a)
  }

  lemma SoundIsReadable(s: Screen)
    requires ScreenOk(s)
    ensures Readable(s)
    ensures s.checkingHandle ==> AtField(s)
  {}

  lemma CommitKeeps(s: Screen, value: string)
    requires ScreenOk(s) && s.step.Wizard? && AtField(s) && !s.checkingHandle
    requires Passed(s.flow, s.answers + [value])
    ensures var (t, command) := CommitAnswer(s, value);
      && ScreenOk(t) && t.step.Wizard? && !t.checkingHandle
      && Awaited(t, "") == (if command.Ask? then [command.request] else []) && !command.Authenticated?
      && (command.Ask? ==> Submittable(Asked(command.request, t.answers)))
  {}

  /** A screen, with what has just been asked, as `Sound` wants it. */
  predicate Consistent(t: Screen, command: Command) {
    && ScreenOk(t) && !command.Authenticated?
    && (if t.checkingHandle then command.Ask? && command.request.CheckHandle? && command.request.handle != ""
        else Awaited(t, "") == if command.Ask? then [command.request] else [])
    && (command.Ask? ==> Submittable(Asked(command.request, t.answers)))
  }

  /** The screen expects no reply. */
  predicate Quiet(s: Screen) {
    (s.step.Welcome? || s.step.Failed? || (s.step.Wizard? && !s.checkingHandle && !Complete(s)))
  }

  lemma RetreatKeeps(s: Screen)
    requires ScreenOk(s) && s.step.Wizard? && AtField(s) && !s.checkingHandle
    ensures Consistent(RetreatWizard(s), Nothing)
  {
    if s.fieldIdx > 0 {
      assert forall a :: a in s.answers[..|s.answers| - 1] ==> a in s.answers;
    }
  }

  lemma ChoicesSay()
    ensures "" !in SECURITY_QUESTIONS && SKIP != ""
  {
    forall q | q in SECURITY_QUESTIONS
      ensures q != ""
    {
      var i :| 0 <= i < |SECURITY_QUESTIONS| && SECURITY_QUESTIONS[i] == q;
    }
  }

  lemma ChoiceKeeps(s: Screen)
    requires ScreenOk(s) && s.step.Wizard? && AtField(s) && !s.checkingHandle && s.fields[s.fieldIdx].choices != []
    ensures var (t, command) := AdvanceChoiceField(s); Consistent(t, command)
  {
    assert s.flow.RegisterFlow? && s.fieldIdx == 4;
    var choices := SECURITY_QUESTIONS + [SKIP];
    var selected := choices[s.choice];
    ChoicesSay();
    if selected != SKIP {
      assert selected in SECURITY_QUESTIONS;
      CommitKeeps(s.(complaint := NoComplaint), selected);
    }
  }

  lemma RegistrationPassedMore(answers: seq<string>, value: string)
    requires Passed(RegisterFlow, answers) && |answers| < 6
    requires |answers| == 0 || |answers| == 4 ==> value != ""
    requires |answers| == 1 ==> LongEnough(value)
    requires |answers| == 2 ==> value == answers[1]
    requires |answers| == 5 ==> value != ""
    ensures Passed(RegisterFlow, answers + [value])
  {}

  lemma OtherwisePassedMore(flow: Flow, answers: seq<string>, value: string)
    requires flow != RegisterFlow && Passed(flow, answers) && |answers| < 2 && value != ""
    requires flow.RecoverAnswerFlow? && |answers| == 1 ==> LongEnough(value)
    ensures Passed(flow, answers + [value])
  {
    assert forall a :: a in answers + [value] ==> a in answers || a == value;
  }

  lemma PassedMore(s: Screen, value: string)
    requires ScreenOk(s) && s.step.Wizard? && AtField(s) && s.fields[s.fieldIdx].choices == []
    requires value != "" || s.fields[s.fieldIdx].optional
    requires value != "" && s.fields[s.fieldIdx].minLength > 0 ==> LongEnough(value)
    requires s.flow.RegisterFlow? && s.fieldIdx == 2 ==> value == s.answers[1]
    ensures Passed(s.flow, s.answers + [value])
  {
    if s.flow.RegisterFlow? {
      RegistrationPassedMore(s.answers, value);
    } else {
      OtherwisePassedMore(s.flow, s.answers, value);
    }
  }

  lemma AdvanceKeeps(s: Screen, picture: Option<string>)
    requires ScreenOk(s) && s.step.Wizard? && AtField(s) && !s.checkingHandle
    ensures Readable(s)
    ensures var (t, command) := AdvanceWizard(s, picture); Consistent(t, command)
  {
    SoundIsReadable(s);
    if s.fields[s.fieldIdx].choices != [] {
      ChoiceKeeps(s);
    } else {
      TextKeeps(s, picture);
    }
  }

  lemma TextKeeps(s: Screen, picture: Option<string>)
    requires ScreenOk(s) && s.step.Wizard? && AtField(s) && !s.checkingHandle && s.fields[s.fieldIdx].choices == []
    ensures Readable(s)
    ensures var (t, command) := AdvanceWizard(s, picture); Consistent(t, command)
  {
    SoundIsReadable(s);
    var value := TrimSpace(s.input);
    var cur := s.fields[s.fieldIdx];
    if value == "" && !cur.optional {
    } else if value != "" && cur.minLength > 0 && ByteLength(value) < cur.minLength {
    } else if s.flow.RegisterFlow? && s.fieldIdx == 3 && value != "" {
      if picture.Some? {
        CommitKeeps(s, picture.value);
      }
    } else if !(s.flow.RegisterFlow? && (s.fieldIdx == 0 || (s.fieldIdx == 2 && value != s.answers[1]))) {
      PassedMore(s, value);
      CommitKeeps(s, value);
    }
  }

  lemma StartKeeps(s: Screen, flow: Flow, complaint: Complaint)
    requires s.menu < |MENU| && !s.checkingHandle && flow != NoFlow
    ensures Consistent(StartWizard(s, flow, complaint), Nothing)
  {}

  lemma KeyKeeps(s: Screen, key: Key)
    requires ScreenOk(s)
    ensures Readable(s)
    ensures var (t, command) := HandleKey(s, key);
      if Quiet(s) then Consistent(t, command) else t == s && command == Nothing
  {
    SoundIsReadable(s);
    if s.step.Welcome? && key.Enter? {
      StartKeeps(s, MENU[s.menu], NoComplaint);
    } else if s.step.Wizard? && Quiet(s) {
      if key.Back? {
        RetreatKeeps(s);
      } else if key.Enter? {
        AdvanceKeeps(s, key.picture);
      }
    }
  }

  lemma ReplyKeeps(s: Screen, request: Request, reply: Reply)
    requires ScreenOk(s) && !Quiet(s)
    requires if s.checkingHandle then request.CheckHandle? && request.handle != "" else Awaited(s, "") == [request]
    ensures request.CheckHandle? ==> AtField(s)
    ensures var (t, command) := HandleReply(s, request, reply);
      if command.Authenticated? then
        t == s && !s.checkingHandle && (s.step.Resuming? || (s.step.Wizard? && Complete(s)))
      else Consistent(t, command)
  {
    SoundIsReadable(s);
    if s.checkingHandle && reply == Available(true) {
      CommitKeeps(s.(checkingHandle := false), request.handle);
    } else if request.RecoverStart? && reply.Question? {
      StartKeeps(s, RecoverAnswerFlow, s.complaint);
    }
  }

  lemma StartSound(handle: string, savedToken: string)
    ensures Sound(Start(handle, savedToken))
  {}

  lemma NextSound(s: Session, e: Event)
    requires Sound(s) && Enabled(s, e)
    ensures Sound(Next(s, e))
  {
    match e
    case Presses(key) =>
      KeyKeeps(s.screen, key);
      var (t, command) := HandleKey(s.screen, key);
      AfterSound(s, t, command, s.outstanding);
    case Replies(k, reply) =>
      var rest := s.outstanding[..k] + s.outstanding[k + 1..];
      assert |s.outstanding| == 1 && rest == [];
      assert !Quiet(s.screen);
      ReplyKeeps(s.screen, s.outstanding[k], reply);
      var (t, command) := HandleReply(s.screen, s.outstanding[k], reply);
      AfterSound(s.(log := s.log + [Replied(s.outstanding[k], reply)]), t, command, rest);
  }

  lemma AfterSound(s: Session, t: Screen, command: Command, outstanding: seq<Request>)
    requires Sound(s)
    requires
      || (t == s.screen && command == Nothing && outstanding == s.outstanding)
      || (!s.authenticated && outstanding == [] && Consistent(t, command))
      || (!s.authenticated && outstanding == [] && command.Authenticated? && t == s.screen && !t.checkingHandle
          && (t.step.Resuming? || (t.step.Wizard? && Complete(t))))
    ensures Sound(After(s, t, command, outstanding))
  {}

  predicate CanRun(s: Session, run: seq<Event>)
    decreases |run|
  {
    run == [] || (Enabled(s, run[0]) && CanRun(Next(s, run[0]), run[1..]))
  }

  function Run(s: Session, run: seq<Event>): Session
    requires CanRun(s, run)
    decreases |run|
  {
    if run == [] then s else Run(Next(s, run[0]), run[1..])
  }

  lemma {:induction false} RunSound(s: Session, run: seq<Event>)
    requires Sound(s) && CanRun(s, run)
    ensures Sound(Run(s, run))
    decreases |run|
  {
    if run != [] {
      NextSound(s, run[0]);
      RunSound(Next(s, run[0]), run[1..]);
    }
  }

  /**
   In every run, however the user goes back and forth: no read is out of range; in the wizard
   there is an answer for every field passed and, until the answers are submitted, a field still
   to fill; and there is at most one request under way.
   */
  lemma WizardDiscipline(handle: string, savedToken: string, run: seq<Event>)
    requires CanRun(Start(handle, savedToken), run)
    ensures var s := Run(Start(handle, savedToken), run);
      && !s.crashed && |s.outstanding| <= 1
      && (s.screen.step.Wizard? ==>
            && |s.screen.answers| == s.screen.fieldIdx <= |s.screen.fields|
            && (s.screen.fieldIdx == |s.screen.fields| ==>
                 s.authenticated || s.outstanding == Awaited(s.screen, "") != [])
            && (s.screen.fieldIdx < |s.screen.fields| && s.outstanding != [] ==> s.screen.checkingHandle))
  {
    StartSound(handle, savedToken);
    RunSound(Start(handle, savedToken), run);
  }

  /**
   Every registration ever submitted is in order, whatever was edited before it. Its password
   has six bytes; that makes six characters, as the prompt promises, if it is plain ASCII, and
   two in any case.
   */
  lemma RegistrationsAreInOrder(handle: string, savedToken: string, run: seq<Event>, a: Entry)
    requires CanRun(Start(handle, savedToken), run) && a in Run(Start(handle, savedToken), run).log
    requires a.Asked? && a.request.Register?
    ensures |a.answers| == 6 && a.request.handle != ""
    ensures a.request.password == a.answers[1] == a.answers[2] && ByteLength(a.request.password) >= 6
    ensures |a.request.password| >= if Ascii(a.request.password) then 6 else 2
    ensures a.request.question == "" <==> a.request.answer == ""
  {
    StartSound(handle, savedToken);
    RunSound(Start(handle, savedToken), run);
    BytesAndCharacters(a.request.password);
  }
}

/**
 The sign-in screen with its fields reassigned, and its answers pushed and popped, by the
 handlers; each is proved to compute its `Onboarding` function.
 */
module OnboardingModel {
  import opened Wrappers
  import opened Text
  import S = Onboarding
  import opened Onboarding

  class Model {
    const handle: string
    var savedToken: string
    var step: Step
    var flow: Flow
    var menu: nat
    var fields: seq<Field>
    var fieldIdx: nat
    var answers: seq<string>
    var input: string
    var choice: nat
    var checkingHandle: bool
    var recoverHandle: string
    var complaint: Complaint

    constructor (handle: string, savedToken: string)
      ensures View() == NewScreen(handle, savedToken)
    {
      this.handle, this.savedToken := handle, savedToken;
      step, flow, menu, fields, fieldIdx, answers := Connecting, NoFlow, 0, [], 0, [];
      input, choice, checkingHandle, recoverHandle, complaint := "", 0, false, "", NoComplaint;
    }

    ghost function View(): Screen
      reads this
    {
      Screen(handle, savedToken, step, flow, menu, fields, fieldIdx, answers, input, choice, checkingHandle,
        recoverHandle, complaint)
    }

    method ResetInputWithValue(prefill: string)
      requires fieldIdx < |fields|
      modifies this
      ensures View() == S.ResetInput(old(View()), prefill)
    {
      var choices := fields[fieldIdx].choices;
      if |choices| > 0 {
        choice := 0;
        for i := 0 to |choices|
          invariant choice == 0
          invariant IndexOf(choices, prefill) == i + IndexOf(choices[i..], prefill)
        {
          if choices[i] == prefill {
            choice := i;
            return;
          }
        }
        return;
      }
      input := prefill;
      if prefill == "" && (flow == LoginFlow || flow == RegisterFlow) && fieldIdx == 0 {
        input := handle;
      }
    }

    method Begin(f: Flow)
      requires f != NoFlow
      modifies this
      ensures View() == S.StartWizard(old(View()), f, old(complaint))
    {
      flow := f;
      fields := FieldsOf(f);
      fieldIdx := 0;
      answers := [];
      step := Wizard;
      ResetInputWithValue("");
    }

    method RetreatWizard()
      requires 0 < fieldIdx ==> fieldIdx <= |fields| && answers != []
      modifies this
      ensures View() == S.RetreatWizard(old(View()))
    {
      complaint := NoComplaint;
      if fieldIdx == 0 {
        step := Welcome;
        return;
      }
      fieldIdx := fieldIdx - 1;
      var previous := answers[|answers| - 1];
      answers := answers[..|answers| - 1];
      ResetInputWithValue(previous);
    }

    method SubmitWizard() returns (command: Command)
      requires Complete(View())
      modifies this
      ensures (View(), command) == S.SubmitWizard(old(View()))
    {
      match flow {
        case LoginFlow =>
          command := Ask(Login(answers[0], answers[1]));
        case RegisterFlow =>
          command := Ask(Register(answers[0], answers[1], answers[3], answers[4], answers[5]));
        case RecoverHandleFlow =>
          recoverHandle := answers[0];
          command := Ask(RecoverStart(recoverHandle));
        case RecoverAnswerFlow =>
          command := Ask(RecoverFinish(recoverHandle, answers[0], answers[1]));
      }
    }

    method CommitAnswer(value: string) returns (command: Command)
      requires AtField(View())
      modifies this
      ensures (View(), command) == S.CommitAnswer(old(View()), value)
    {
      complaint := NoComplaint;
      answers := answers + [value];
      fieldIdx := fieldIdx + 1;
      if fieldIdx < |fields| {
        ResetInputWithValue("");
        return Nothing;
      }
      command := SubmitWizard();
    }

    method AdvanceChoiceField() returns (command: Command)
      requires AtField(View()) && choice < |fields[fieldIdx].choices|
      requires fields[fieldIdx].choices[choice] == SKIP ==> fieldIdx + 2 <= |fields|
      modifies this
      ensures (View(), command) == S.AdvanceChoiceField(old(View()))
    {
      var selected := fields[fieldIdx].choices[choice];
      complaint := NoComplaint;
      if selected == SKIP {
        answers := answers + ["", ""];
        fieldIdx := fieldIdx + 2;
        if fieldIdx >= |fields| {
          command := SubmitWizard();
          return;
        }
        ResetInputWithValue("");
        return Nothing;
      }
      command := CommitAnswer(selected);
    }

    method AdvanceWizard(picture: Option<string>) returns (command: Command)
      requires Readable(View()) && step == Wizard && fieldIdx < |fields|
      modifies this
      ensures (View(), command) == S.AdvanceWizard(old(View()), picture)
    {
      var cur := fields[fieldIdx];
      if |cur.choices| > 0 {
        command := AdvanceChoiceField();
        return;
      }
      var value := TrimSpace(input);
      if value == "" && !cur.optional {
        complaint := Required;
        return Nothing;
      }
      if value != "" && cur.minLength > 0 && ByteLength(value) < cur.minLength {
        complaint := TooShort;
        return Nothing;
      }
      if flow == RegisterFlow && fieldIdx == 0 {
        complaint := NoComplaint;
        checkingHandle := true;
        return Ask(CheckHandle(value));
      }
      if flow == RegisterFlow && fieldIdx == 2 && value != answers[1] {
        complaint := Mismatch;
        return Nothing;
      }
      if flow == RegisterFlow && fieldIdx == 3 && value != "" {
        if picture.None? {
          complaint := BadPicture;
          return Nothing;
        }
        value := picture.value;
      }
      command := CommitAnswer(value);
    }

    method HandleWelcomeKey(key: Key)
      requires menu < |MENU|
      modifies this
      ensures View() == S.HandleWelcomeKey(old(View()), key)
    {
      match key {
        case Up => if menu > 0 { menu := menu - 1; }
        case Down => if menu < |MENU| - 1 { menu := menu + 1; }
        case Enter(_) =>
          complaint := NoComplaint;
          Begin(MENU[menu]);
        case _ =>
      }
    }

    method HandleWizardKey(key: Key) returns (command: Command)
      requires Readable(View()) && step == Wizard
      modifies this
      ensures (View(), command) == S.HandleWizardKey(old(View()), key)
    {
      command := Nothing;
      if fieldIdx >= |fields| || checkingHandle { return; }
      var choices := fields[fieldIdx].choices;
      match key {
        case Back => RetreatWizard();
        case Enter(picture) => command := AdvanceWizard(picture);
        case Up => if |choices| > 0 && choice > 0 { choice := choice - 1; }
        case Down => if |choices| > 0 && choice < |choices| - 1 { choice := choice + 1; }
        case Types(text) => if |choices| == 0 { input := text; }
      }
    }

    method HandleKey(key: Key) returns (command: Command)
      requires Readable(View())
      modifies this
      ensures (View(), command) == S.HandleKey(old(View()), key)
    {
      command := Nothing;
      match step {
        case Welcome => HandleWelcomeKey(key);
        case Wizard => command := HandleWizardKey(key);
        case Failed =>
          if key.Enter? {
            complaint := NoComplaint;
            step := Connecting;
            command := Ask(Dial);
          }
        case _ =>
      }
    }

    /** The reply to the request that was under way. */
    method HandleReply(request: Request, reply: Reply) returns (command: Command)
      requires request.CheckHandle? ==> AtField(View())
      modifies this
      ensures (View(), command) == S.HandleReply(old(View()), request, reply)
    {
      command := Nothing;
      match request {
        case Dial =>
          if !reply.Success? {
            step, complaint := Failed, Refused;
          } else if savedToken != "" {
            step := Resuming;
            command := Ask(Resume(savedToken));
          } else {
            step := Welcome;
          }
        case CheckHandle(checked) =>
          checkingHandle := false;
          if !reply.Available? {
            complaint := Refused;
          } else if !reply.yes {
            complaint := HandleTaken;
          } else {
            command := CommitAnswer(checked);
          }
        case RecoverStart(_) =>
          if reply.Question? {
            Begin(RecoverAnswerFlow);
          } else {
            step, complaint := Welcome, Refused;
          }
        case _ =>
          if reply.Success? {
            command := Authenticated;
          } else {
            step, savedToken, complaint := Welcome, "", Refused;
          }
      }
    }
  }
}

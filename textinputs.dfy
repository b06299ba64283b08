/** The textinputs example program's form: three text inputs (name,
    nickname, email) and a submit button, with focus cycled by tab,
    shift+tab, up, down and enter. The text-input widget is kept abstract:
    its state is the record `Input`, and its `Update`, `View` and `Blink`
    are parameters. */
module TextInputs {

  import Boba
  import Strings

  const Esc: string := ['\U{1B}']

  /** The colour of a focused input's text. */
  const FocusedText: string := "205"
  /** "> " in colour 205, as termenv writes it for a 256-colour terminal. */
  const FocusedPrompt: string := Esc + "[38;5;205m> " + Esc + "[0m"
  const BlurredPrompt: string := "> "
  const FocusedSubmitButton: string := "[ " + Esc + "[38;5;205mSubmit" + Esc + "[0m ]"
  const BlurredSubmitButton: string := "[ " + Esc + "[38;5;240mSubmit" + Esc + "[0m ]"

  /** The text `view` shows for a model that is not the form's. */
  const ModelError: string := "[error] could not perform assertion on model"

  /** The state of one text input that the form touches; `text` stands for
      the rest of the widget's state, which only its own `Update` changes. */
  datatype Input = Input(placeholder: string, focused: bool, prompt: string, textColor: string, text: string)

  /** The widget's `Focus()` and `Blur()`. */
  function Focus(x: Input): Input { x.(focused := true) }
  function Blur(x: Input): Input { x.(focused := false) }

  /** The program's model. `index` 0, 1, 2 is an input, 3 the button. */
  datatype Form = Form(index: int, nameInput: Input, nickNameInput: Input, emailInput: Input, submitButton: string)

  /** Go's `boba.Model` as `update` and `view` receive it: the form's model,
      or a value of some other type. */
  datatype AppModel = FormModel(form: Form) | OtherModel

  /** What `update` does: return a model and a command, or panic. */
  datatype Outcome = Updated(model: Form, cmd: Boba.Cmd) | Panicked(reason: string)

  function Inputs(f: Form): seq<Input>
  {
    [f.nameInput, f.nickNameInput, f.emailInput]
  }

  /** The style navigation gives an input: focused with the focused prompt
      and text colour, or blurred with the plain prompt and no colour. */
  function Styled(x: Input, focused: bool): Input
  {
    if focused then Focus(x).(prompt := FocusedPrompt, textColor := FocusedText)
    else Blur(x).(prompt := BlurredPrompt, textColor := "")
  }

  predicate HasStyle(x: Input, focused: bool)
  {
    x.focused == focused &&
    x.prompt == (if focused then FocusedPrompt else BlurredPrompt) &&
    x.textColor == (if focused then FocusedText else "")
  }

  /** The focus picture the form keeps: the index is in 0..3, the input at
      the index and no other is styled focused, and the button is styled
      focused exactly when the index is 3. */
  predicate WellFormed(f: Form)
  {
    0 <= f.index <= 3 &&
    (forall i :: 0 <= i < 3 ==> HasStyle(Inputs(f)[i], i == f.index)) &&
    f.submitButton == (if f.index == 3 then FocusedSubmitButton else BlurredSubmitButton)
  }

  /** How many of the four controls show focus. */
  function FocusCount(f: Form): nat
  {
    (if f.nameInput.focused then 1 else 0) + (if f.nickNameInput.focused then 1 else 0) +
    (if f.emailInput.focused then 1 else 0) + (if f.submitButton == FocusedSubmitButton then 1 else 0)
  }

  /** In a well-formed form exactly one control, an input or the button, is
      focused. */
  lemma OneFocused(f: Form)
    requires WellFormed(f)
    ensures FocusCount(f) == 1
  {
    assert FocusedSubmitButton != BlurredSubmitButton by {
      assert FocusedSubmitButton[10] != BlurredSubmitButton[10];
    }
    assert HasStyle(Inputs(f)[0], f.index == 0);
    assert HasStyle(Inputs(f)[1], f.index == 1);
    assert HasStyle(Inputs(f)[2], f.index == 2);
  }

  /** The keys that move the focus. */
  predicate IsNavKey(key: string)
  {
    key == "tab" || key == "shift+tab" || key == "enter" || key == "up" || key == "down"
  }

  predicate MovesBack(key: string)
  {
    key == "up" || key == "shift+tab"
  }

  /** The index after a navigation key: one back for up and shift+tab, one
      on for the others, wrapping 3 to 0 and 0 to 3. From any index at all
      the result is in 0..3. */
  function NextIndex(index: int, key: string): (r: int)
    ensures 0 <= r <= 3
    ensures 0 <= index <= 3 && MovesBack(key) ==> r == (index + 3) % 4
    ensures 0 <= index <= 3 && !MovesBack(key) ==> r == (index + 1) % 4
  {
    var i := if MovesBack(key) then index - 1 else index + 1;
    if i > 3 then 0 else if i < 0 then 3 else i
  }

  /** The form after a navigation key: the new index, every input restyled
      for it, the button styled for it. Nothing but the styling changes. */
  function Navigate(f: Form, key: string): (r: Form)
    ensures WellFormed(r) && r.index == NextIndex(f.index, key)
    ensures forall i :: 0 <= i < 3 ==>
              Inputs(r)[i].text == Inputs(f)[i].text && Inputs(r)[i].placeholder == Inputs(f)[i].placeholder
  {
    var i := NextIndex(f.index, key);
    Form(i, Styled(f.nameInput, i == 0), Styled(f.nickNameInput, i == 1), Styled(f.emailInput, i == 2),
         if i == 3 then FocusedSubmitButton else BlurredSubmitButton)
  }

  /** Restyling an input that already has the style changes nothing. */
  lemma StyledFixesStyle(x: Input, focused: bool)
    requires HasStyle(x, focused)
    ensures Styled(x, focused) == x
  {
  }

  /** Moving back undoes moving on, and the other way round: on a
      well-formed form the two keys are inverse. */
  lemma NavigateInverse(f: Form, on: string, back: string)
    requires WellFormed(f)
    requires (on == "tab" || on == "down" || on == "enter") && MovesBack(back)
    ensures Navigate(Navigate(f, on), back) == f
    ensures Navigate(Navigate(f, back), on) == f
  {
    assert HasStyle(Inputs(f)[0], 0 == f.index);
    assert HasStyle(Inputs(f)[1], 1 == f.index);
    assert HasStyle(Inputs(f)[2], 2 == f.index);
    StyledFixesStyle(f.nameInput, 0 == f.index);
    StyledFixesStyle(f.nickNameInput, 1 == f.index);
    StyledFixesStyle(f.emailInput, 2 == f.index);
  }

  /** `updateInputs`: the message goes to the three inputs in order, and
      the three commands they return are batched. */
  function UpdateAll(msg: Boba.Msg, f: Form, inputUpdate: (Boba.Msg, Input) -> (Input, Boba.Cmd)): (r: (Form, Boba.Cmd))
    ensures r.0.index == f.index && r.0.submitButton == f.submitButton
    ensures Inputs(r.0) == [inputUpdate(msg, f.nameInput).0, inputUpdate(msg, f.nickNameInput).0, inputUpdate(msg, f.emailInput).0]
    ensures r.1 != Boba.NoCmd
    ensures forall effects: nat -> Boba.Msg :: Boba.RunCmd(r.1, effects) == Boba.BatchMsg(
              [inputUpdate(msg, f.nameInput).1, inputUpdate(msg, f.nickNameInput).1, inputUpdate(msg, f.emailInput).1])
  {
    var (name, c0) := inputUpdate(msg, f.nameInput);
    var (nick, c1) := inputUpdate(msg, f.nickNameInput);
    var (email, c2) := inputUpdate(msg, f.emailInput);
    (f.(nameInput := name, nickNameInput := nick, emailInput := email), Boba.Batch([c0, c1, c2]))
  }

  /** `update` on the form's model. */
  function FormUpdate(msg: Boba.Msg, f: Form, inputUpdate: (Boba.Msg, Input) -> (Input, Boba.Cmd)): (r: (Form, Boba.Cmd))
    ensures msg == Boba.KeyMsg("ctrl+c") ==> r == (f, Boba.Quit)
    ensures msg == Boba.KeyMsg("enter") && f.index == 3 ==> r == (f, Boba.Quit)
    ensures msg.KeyMsg? && IsNavKey(msg.key) && !(msg.key == "enter" && f.index == 3) ==>
              r == (Navigate(f, msg.key), Boba.NoCmd)
    ensures !(msg.KeyMsg? && (msg.key == "ctrl+c" || IsNavKey(msg.key))) ==>
              r == UpdateAll(msg, f, inputUpdate) && r.1 != Boba.NoCmd
  {
    if msg.KeyMsg? && msg.key == "ctrl+c" then (f, Boba.Quit)
    else if msg.KeyMsg? && IsNavKey(msg.key) then
      if msg.key == "enter" && f.index == 3 then (f, Boba.Quit)
      else (Navigate(f, msg.key), Boba.NoCmd)
    else UpdateAll(msg, f, inputUpdate)
  }

  /** The input update leaves focus, prompt and text colour alone. */
  ghost predicate KeepsStyle(inputUpdate: (Boba.Msg, Input) -> (Input, Boba.Cmd))
  {
    forall msg, x :: var y := inputUpdate(msg, x).0;
      y.focused == x.focused && y.prompt == x.prompt && y.textColor == x.textColor
  }

  /** `update` keeps the form well formed, provided the widget's own update
      does not restyle an input. */
  lemma UpdateKeepsWellFormed(msg: Boba.Msg, f: Form, inputUpdate: (Boba.Msg, Input) -> (Input, Boba.Cmd))
    requires WellFormed(f) && KeepsStyle(inputUpdate)
    ensures WellFormed(FormUpdate(msg, f, inputUpdate).0)
  {
    var r := FormUpdate(msg, f, inputUpdate).0;
    if !(msg.KeyMsg? && (msg.key == "ctrl+c" || IsNavKey(msg.key))) {
      forall i | 0 <= i < 3 ensures HasStyle(Inputs(r)[i], i == r.index) {
        assert HasStyle(Inputs(f)[i], i == f.index);
        assert Inputs(r)[i] == inputUpdate(msg, Inputs(f)[i]).0;
      }
    }
  }

  /** Run inside the runtime, the form stays well formed whatever events
      arrive. */
  lemma {:induction false} ProgramKeepsWellFormed(s: Boba.Loop<Form>, events: seq<Boba.Event>,
      inputUpdate: (Boba.Msg, Input) -> (Input, Boba.Cmd),
      update: (Boba.Msg, Form) -> (Form, Boba.Cmd), view: Form -> string)
    requires WellFormed(s.model) && KeepsStyle(inputUpdate)
    requires forall msg, f :: update(msg, f) == FormUpdate(msg, f, inputUpdate)
    ensures Boba.Run(s, events, update, view).Continue? ==> WellFormed(Boba.Run(s, events, update, view).state.model)
    decreases |events|
  {
    if |events| > 0 {
      match events[0]
      case InputError(_) =>
      case Received(msg) =>
        if !msg.QuitMsg? && !msg.BatchMsg? {
          UpdateKeepsWellFormed(msg, s.model, inputUpdate);
        }
      match Boba.Step(s, events[0], update, view)
      case Exit(_) =>
      case Continue(s') => ProgramKeepsWellFormed(s', events[1..], inputUpdate, update, view);
    }
  }

  /** `update`: asserts the model is the form's (panicking otherwise), then
      quits, moves the focus or passes the message to the inputs. */
  method Update(msg: Boba.Msg, model: AppModel, inputUpdate: (Boba.Msg, Input) -> (Input, Boba.Cmd))
    returns (r: Outcome)
    ensures model.OtherModel? ==> r == Panicked("could not perform assertion on model")
    ensures model.FormModel? ==>
              r == Updated(FormUpdate(msg, model.form, inputUpdate).0, FormUpdate(msg, model.form, inputUpdate).1)
  {
    if model.OtherModel? {
      return Panicked("could not perform assertion on model");
    }
    var m := model.form;
    if msg.KeyMsg? && msg.key == "ctrl+c" {
      return Updated(m, Boba.Quit);
    }
    if !(msg.KeyMsg? && IsNavKey(msg.key)) {
      var m', cmd := UpdateInputs(msg, m, inputUpdate);
      return Updated(m', cmd);
    }
    var inputs := [m.nameInput, m.nickNameInput, m.emailInput];
    var s := msg.key;
    if s == "enter" && m.index == |inputs| {
      return Updated(m, Boba.Quit);
    }
    if s == "up" || s == "shift+tab" {
      m := m.(index := m.index - 1);
    } else {
      m := m.(index := m.index + 1);
    }
    if m.index > |inputs| {
      m := m.(index := 0);
    } else if m.index < 0 {
      m := m.(index := |inputs|);
    }
    var i := 0;
    while i <= |inputs| - 1
      invariant 0 <= i <= 3 && |inputs| == 3
      invariant forall j :: 0 <= j < i ==> inputs[j] == Styled(Inputs(model.form)[j], j == m.index)
      invariant forall j :: i <= j < 3 ==> inputs[j] == Inputs(model.form)[j]
    {
      var x := inputs[i];
      if i == m.index {
        x := Focus(x);
        x := x.(prompt := FocusedPrompt);
        x := x.(textColor := FocusedText);
      } else {
        x := Blur(x);
        x := x.(prompt := BlurredPrompt);
        x := x.(textColor := "");
      }
      inputs := inputs[i := x];
      i := i + 1;
    }
    m := m.(nameInput := inputs[0], nickNameInput := inputs[1], emailInput := inputs[2]);
    if m.index == |inputs| {
      m := m.(submitButton := FocusedSubmitButton);
    } else {
      m := m.(submitButton := BlurredSubmitButton);
    }
    return Updated(m, Boba.NoCmd);
  }

  /** `updateInputs`: updates the inputs one after another, collecting
      their commands, and batches the commands. */
  method UpdateInputs(msg: Boba.Msg, m: Form, inputUpdate: (Boba.Msg, Input) -> (Input, Boba.Cmd))
    returns (m': Form, cmd: Boba.Cmd)
    ensures (m', cmd) == UpdateAll(msg, m, inputUpdate)
  {
    var cmds: seq<Boba.Cmd> := [];
    var c;
    m' := m;
    var next := inputUpdate(msg, m'.nameInput);
    m', c := m'.(nameInput := next.0), next.1;
    cmds := cmds + [c];
    next := inputUpdate(msg, m'.nickNameInput);
    m', c := m'.(nickNameInput := next.0), next.1;
    cmds := cmds + [c];
    next := inputUpdate(msg, m'.emailInput);
    m', c := m'.(emailInput := next.0), next.1;
    cmds := cmds + [c];
    assert cmds == [inputUpdate(msg, m.nameInput).1, inputUpdate(msg, m.nickNameInput).1, inputUpdate(msg, m.emailInput).1];
    cmd := Boba.Batch(cmds);
  }

  /** The text `view` produces for a form whose inputs show as `views`. */
  function FormText(views: seq<string>, submitButton: string): string
    requires |views| == 3
  {
    "\n" + views[0] + "\n" + views[1] + "\n" + views[2] + "\n\n" + submitButton + "\n"
  }

  /** `view`: the three input views on their own lines after a blank line,
      a blank line, then the button; a fixed error text for a model that is
      not the form's. */
  method View(model: AppModel, inputView: Input -> string) returns (s: string)
    ensures model.OtherModel? ==> s == ModelError
    ensures model.FormModel? ==>
              s == FormText([inputView(model.form.nameInput), inputView(model.form.nickNameInput),
                             inputView(model.form.emailInput)], model.form.submitButton)
  {
    if model.OtherModel? {
      return ModelError;
    }
    var m := model.form;
    s := "\n";
    var inputs := [inputView(m.nameInput), inputView(m.nickNameInput), inputView(m.emailInput)];
    var i := 0;
    while i < |inputs|
      invariant 0 <= i <= |inputs| == 3
      // The views so far, joined by newlines, and a newline after each but the last view.
      invariant s == "\n" + Strings.Join(inputs[..i], "\n") + (if 0 < i < |inputs| then "\n" else "")
    {
      if i > 0 {
        assert inputs[..i + 1] == inputs[..i] + [inputs[i]];
        Strings.JoinConcat(inputs[..i], [inputs[i]], "\n");
      }
      s := s + inputs[i];
      if i < |inputs| - 1 {
        s := s + "\n";
      }
      i := i + 1;
    }
    assert inputs[..i] == inputs;
    assert Strings.Join(inputs, "\n") == inputs[0] + "\n" + inputs[1] + "\n" + inputs[2] by {
      assert inputs[1..][1..] == [inputs[2]];
      assert Strings.Join([inputs[2]], "\n") == inputs[2];
      assert Strings.Join(inputs[1..], "\n") == inputs[1] + "\n" + inputs[2];
    }
    s := s + "\n\n" + m.submitButton + "\n";
  }

  lemma {:induction false} NewlineCountConcat(a: string, b: string)
    ensures Boba.NewlineCount(a + b) == Boba.NewlineCount(a) + Boba.NewlineCount(b)
  {
    if |a| == 0 {
      assert a + b == b;
    } else {
      assert (a + b)[0] == a[0] && (a + b)[1..] == a[1..] + b;
      NewlineCountConcat(a[1..], b);
    }
  }

  /** When no input view spans several lines, the runtime records six
      lines for the form, and the next repaint clears those six. */
  lemma FormTextLines(views: seq<string>, submitButton: string)
    requires |views| == 3
    requires forall i :: 0 <= i < 3 ==> Boba.NewlineCount(views[i]) == 0
    requires Boba.NewlineCount(submitButton) == 0
    ensures Boba.Render(FormText(views, submitButton), 0).lines == 6
  {
    var nl := "\n";
    assert Boba.NewlineCount(nl) == 1 by { assert nl[1..] == ""; }
    assert Boba.NewlineCount("\n\n") == 2 by { assert "\n\n"[1..] == nl; }
    NewlineCountConcat(nl, views[0]);
    NewlineCountConcat(nl + views[0], nl);
    NewlineCountConcat(nl + views[0] + nl, views[1]);
    NewlineCountConcat(nl + views[0] + nl + views[1], nl);
    NewlineCountConcat(nl + views[0] + nl + views[1] + nl, views[2]);
    NewlineCountConcat(nl + views[0] + nl + views[1] + nl + views[2], "\n\n");
    NewlineCountConcat(nl + views[0] + nl + views[1] + nl + views[2] + "\n\n", submitButton);
    NewlineCountConcat(nl + views[0] + nl + views[1] + nl + views[2] + "\n\n" + submitButton, nl);
  }

  /** `initialize`, given the widget's `NewModel()` value and its `Blink`:
      the name input focused, the other two with the plain prompt, the
      index at 0, the button blurred, and the three inputs' blink commands
      batched. */
  function Initialize(blank: Input, blink: Input -> Boba.Cmd): (r: (Form, Boba.Cmd))
    ensures r.0.index == 0 && r.0.submitButton == BlurredSubmitButton
    ensures HasStyle(r.0.nameInput, true)
    ensures forall x :: x in [r.0.nickNameInput, r.0.emailInput] ==>
              x.prompt == BlurredPrompt && x.focused == blank.focused && x.textColor == blank.textColor
    ensures [r.0.nameInput.placeholder, r.0.nickNameInput.placeholder, r.0.emailInput.placeholder]
         == ["Name", "Nickname", "Email"]
    ensures r.1 != Boba.NoCmd
    ensures forall effects: nat -> Boba.Msg :: Boba.RunCmd(r.1, effects)
              == Boba.BatchMsg([blink(r.0.nameInput), blink(r.0.nickNameInput), blink(r.0.emailInput)])
  {
    var name := Focus(blank.(placeholder := "Name")).(prompt := FocusedPrompt, textColor := FocusedText);
    var nickName := blank.(placeholder := "Nickname", prompt := BlurredPrompt);
    var email := blank.(placeholder := "Email", prompt := BlurredPrompt);
    (Form(0, name, nickName, email, BlurredSubmitButton), Boba.Batch([blink(name), blink(nickName), blink(email)]))
  }

  /** The initial form is well formed when a new widget starts unfocused
      and uncoloured. */
  lemma InitializeWellFormed(blank: Input, blink: Input -> Boba.Cmd)
    requires !blank.focused && blank.textColor == ""
    ensures WellFormed(Initialize(blank, blink).0)
    ensures FocusCount(Initialize(blank, blink).0) == 1
  {
    var f := Initialize(blank, blink).0;
    assert HasStyle(Inputs(f)[0], true);
    assert HasStyle(Inputs(f)[1], false);
    assert HasStyle(Inputs(f)[2], false);
    OneFocused(f);
  }
}

/**
 * The PIN gate's controller: its fields, changed in place, and its handlers, each proved to do exactly what the
 * step of the same event says, and to keep what is proved of every run. What went over a port is appended to the log.
 */
module PinGateController {
  import opened PinGate
  import opened PinLedger
  import opened Wrappers

  class PinGateController {
    var page: Page
    var pad: Pad
    var flow: Flow
    var shell: Typed
    var request: nat
    var checks: seq<Check>
    var flows: nat
    var log: seq<Entry>

    function State(): Gate
      reads this
    {
      Gate(page, pad, flow, shell, Books(request, checks, flows, log))
    }

    /** What the run theorems keep: the shape of page and pad, and the ledger of what may go over the ports. */
    ghost predicate Valid()
      reads this
    {
      Shape(State()) && Ledger(State())
    }

    constructor ()
      ensures Valid() && State() == START
    {
      page, pad, flow, shell := NO_PAGE, NO_PAD, NO_FLOW, Typed("", "", "");
      request, checks, flows, log := 0, [], 0, [];
      StartHasInvariant();
      hide Shape, Ledger;
    }

    /** The user edits the bound fields. */
    method OnTyped(typed: Typed)
      requires Valid()
      modifies this
      ensures Valid() && State() == Step(old(State()), Types(typed))
    {
      hide Shape, Ledger;
      StepKeepsInvariant(State(), Types(typed));
      if page.active && !pad.keypad { shell := typed; }
    }

    method PullBoundPinFields()
      modifies this
      ensures State() == old(State()).Pulled()
    {
      pad := pad.(pin := shell.pin, confirm := shell.confirm, payload := shell.payload);
    }

    method ApplyPinGate()
      modifies this
      ensures State() == old(State()).Applied()
    {
      shell := Typed(pad.pin, pad.confirm, pad.payload);
    }

    predicate InNewPinStep()
      reads this
    {
      page.create || (page.change && flow.changeStep == 1)
    }

    method RefreshKeypad()
      modifies this
      ensures State() == old(State()).Refreshed()
    {
      var typed, repeated := |pad.pin|, |pad.confirm|;
      if !pad.keypad {
        pad := pad.(okShown := false, filled := 0);
        return;
      }
      if InNewPinStep() {
        pad := pad.(slots := typed, filled := if pad.step == 0 then typed else repeated,
                    okShown := pad.step == 0 && typed >= 4);
        return;
      }
      pad := pad.(okShown := false, filled := typed);
    }

    method SetupKnownPinEntry(dev: Device)
      modifies this
      ensures State() == old(State()).SetUpKnown(dev)
    {
      var digitPin := dev.pad && dev.digits.Some? && 4 <= dev.digits.value <= 8;
      pad := pad.(keypad := digitPin, offered := digitPin, busy := false);
      pad := pad.(slots := if digitPin then dev.digits.value else 0, askConfirm := false);
      pad := pad.(pin := "", confirm := "", step := 0);
      RefreshKeypad();
    }

    method SetupNewPinEntry(dev: Device)
      modifies this
      ensures State() == old(State()).SetUpNew(dev)
    {
      pad := pad.(keypad := dev.pad);
      pad := pad.(offered := pad.keypad, busy := false, askConfirm := !pad.keypad);
      pad := pad.(pin := "", confirm := "", step := 0);
      RefreshKeypad();
    }

    /** Drops what settings asked for and makes every check still out void. */
    method ResetSettingsFlows()
      modifies this
      ensures flow == Flow(old(flow.link), old(flow.phrase), old(flow.pendingDefault), old(flow.pendingPin), 0, "",
                           None, None, None, None)
      ensures request == old(request) + 1 && pad == old(pad).(step := 0)
      ensures page == old(page) && shell == old(shell) && checks == old(checks)
      ensures flows == old(flows) && log == old(log)
    {
      request := request + 1;
      flow := flow.(verifyCheck := None, verifyOnOk := None, changeCheck := None, changeSubmit := None);
      flow := flow.(changeStep := 0, oldPin := "");
      pad := pad.(step := 0);
    }

    method OnSubmitDeclined()
      requires Valid()
      modifies this
      ensures Valid() && State() == Step(old(State()), Event.SubmitDeclined)
    {
      hide Shape, Ledger;
      StepKeepsInvariant(State(), Event.SubmitDeclined);
      if !page.active || !pad.busy || page.verify || page.change { return; }
      PullBoundPinFields();
      pad := pad.(busy := false);
      if InNewPinStep() {
        pad := pad.(confirm := "");
      } else {
        pad := pad.(pin := "");
      }
      RefreshKeypad();
      ApplyPinGate();
    }

    method ShowError(dev: Device)
      requires Valid()
      modifies this
      ensures Valid() && State() == Step(old(State()), Event.ShowError(dev))
    {
      hide Shape, Ledger;
      StepKeepsInvariant(State(), Event.ShowError(dev));
      hide Gate.UnlockShown, Gate.StartedOver;
      if !page.active { ShowUnlock(dev); }
      StartOver();
    }

    /** Entries begin anew on the pad, a new PIN from its first one. */
    method StartOver()
      modifies this
      ensures State() == old(State()).StartedOver()
    {
      hide Gate.Refreshed;
      PullBoundPinFields();
      if pad.keypad {
        pad := pad.(busy := false, pin := "", confirm := "", step := if InNewPinStep() then 0 else pad.step);
        RefreshKeypad();
      }
      ApplyPinGate();
    }

    method SetWaitingDeviceUnlock(waiting: bool)
      requires Valid()
      modifies this
      ensures Valid() && State() == Step(old(State()), Event.SetWaiting(waiting))
    {
      hide Shape, Ledger;
      StepKeepsInvariant(State(), Event.SetWaiting(waiting));
      if !page.active || !page.unlock || pad.waiting == waiting { return; }
      PullBoundPinFields();
      pad := pad.(waiting := waiting);
      ApplyPinGate();
    }

    method ShowBiometricReset()
      requires Valid()
      modifies this
      ensures Valid() && State() == Step(old(State()), Event.BiometricReset)
    {
      hide Shape, Ledger;
      StepKeepsInvariant(State(), Event.BiometricReset);
      if !page.active || !page.unlock { return; }
      PullBoundPinFields();
      pad := pad.(biometricFirst := false);
      ApplyPinGate();
    }

    method OnUsePin()
      requires Valid()
      modifies this
      ensures Valid() && State() == Step(old(State()), Event.UsePin)
    {
      hide Shape, Ledger;
      StepKeepsInvariant(State(), Event.UsePin);
      if !page.active || !page.unlock || !pad.biometricFirst || pad.waiting { return; }
      pad := pad.(biometricFirst := false);
      ApplyPinGate();
    }

    method Dismiss()
      requires Valid()
      modifies this
      ensures Valid() && State() == Step(old(State()), Event.Dismiss)
    {
      hide Shape, Ledger;
      StepKeepsInvariant(State(), Event.Dismiss);
      Close();
    }

    method Close()
      modifies this
      ensures State() == old(State()).Closed()
    {
      ResetSettingsFlows();
      page, pad := NO_PAGE, NO_PAD;
      flow := flow.(link := false, phrase := false, pendingDefault := false, pendingPin := "");
      ApplyPinGate();
      log := log + [Gone];
    }

    method ShowIdentityFork()
      requires Valid()
      modifies this
      ensures Valid() && State() == Step(old(State()), Event.ShowIdentityFork)
    {
      hide Shape, Ledger;
      StepKeepsInvariant(State(), Event.ShowIdentityFork);
      flow := flow.(link := false, phrase := false, pendingDefault := false, pendingPin := "");
      ResetSettingsFlows();
      page, pad := NO_PAGE.(active := true, fork := true), NO_PAD;
      ApplyPinGate();
      log := log + [Shown];
    }

    method ShowChooser()
      requires Valid()
      modifies this
      ensures Valid() && State() == Step(old(State()), Event.ShowChooser)
    {
      hide Shape, Ledger;
      StepKeepsInvariant(State(), Event.ShowChooser);
      flow := flow.(link := false, phrase := false);
      ResetSettingsFlows();
      page, pad := NO_PAGE.(active := true, chooser := true), NO_PAD;
      ApplyPinGate();
      log := log + [Shown];
    }

    method ShowLinkChooser()
      modifies this
      ensures State() == old(State()).ChooserShown(true)
    {
      flow := flow.(link := true);
      ResetSettingsFlows();
      page, pad := NO_PAGE.(active := true, chooser := true), NO_PAD;
      ApplyPinGate();
      log := log + [Shown];
    }

    method ShowUnlock(dev: Device)
      requires Valid()
      modifies this
      ensures Valid() && State() == Step(old(State()), Event.ShowUnlock(dev))
    {
      hide Shape, Ledger;
      StepKeepsInvariant(State(), Event.ShowUnlock(dev));
      flow := flow.(link := false, phrase := false);
      ResetSettingsFlows();
      page, pad := NO_PAGE.(active := true, unlock := true), NO_PAD;
      SetupKnownPinEntry(dev);
      pad := pad.(biometricFirst := dev.biometric);
      ApplyPinGate();
      log := log + [Shown];
    }

    method ShowCreate(dev: Device)
      modifies this
      ensures State() == old(State()).CreateShown(dev)
    {
      page := page.(fork := false, linkPaste := false, chooser := false, create := true);
      SetupNewPinEntry(dev);
      ApplyPinGate();
    }

    method ShowLinkPaste()
      modifies this
      ensures State() == old(State()).LinkPasteShown()
    {
      page := page.(fork := false, chooser := false, create := false);
      pad := pad.(keypad := false, offered := false, busy := false, askConfirm := false);
      page := page.(linkPaste := true);
      pad := pad.(payload := "");
      ApplyPinGate();
    }

    method ShowVerify(hasCheck: bool, hasOnOk: bool, dev: Device)
      requires Valid()
      modifies this
      ensures Valid() && State() == Step(old(State()), Event.ShowVerify(hasCheck, hasOnOk, dev))
    {
      hide Shape, Ledger;
      StepKeepsInvariant(State(), Event.ShowVerify(hasCheck, hasOnOk, dev));
      flow := flow.(link := false, phrase := false);
      ResetSettingsFlows();
      flow := flow.(verifyCheck := if hasCheck then Some(flows) else None,
                    verifyOnOk := if hasOnOk then Some(flows) else None);
      log, flows := log + [Took(flows, None)], flows + 1;
      page, pad := NO_PAGE.(active := true, verify := true), NO_PAD;
      assert State() == old(State()).Taken(page, flow, None);
      hide Gate.SetUpKnown, Gate.Taken;
      SetupKnownPinEntry(dev);
      ApplyPinGate();
    }

    method ShowChange(hasCheck: bool, hasChange: bool, current: Option<string>, dev: Device)
      requires Valid()
      modifies this
      ensures Valid() && State() == Step(old(State()), Event.ShowChange(hasCheck, hasChange, current, dev))
    {
      hide Shape, Ledger;
      StepKeepsInvariant(State(), Event.ShowChange(hasCheck, hasChange, current, dev));
      flow := flow.(link := false, phrase := false);
      ResetSettingsFlows();
      flow := flow.(changeCheck := if hasCheck then Some(flows) else None,
                    changeSubmit := if hasChange then Some(flows) else None);
      log, flows := log + [Took(flows, current)], flows + 1;
      page, pad := NO_PAGE.(active := true, change := true), NO_PAD;
      assert State() == old(State()).Taken(page, flow, current);
      hide Gate.SetUpKnown, Gate.SetUpNew, Gate.Taken;
      if current.Some? {
        flow := flow.(oldPin := current.value, changeStep := 1);
        SetupNewPinEntry(dev);
      } else {
        SetupKnownPinEntry(dev);
      }
      ApplyPinGate();
    }

    method OnIdentityNew()
      requires Valid()
      modifies this
      ensures Valid() && State() == Step(old(State()), Event.IdentityNew)
    {
      hide Shape, Ledger;
      StepKeepsInvariant(State(), Event.IdentityNew);
      if page.active && page.fork { ShowChooser(); }
    }

    method OnIdentityLink()
      requires Valid()
      modifies this
      ensures Valid() && State() == Step(old(State()), Event.IdentityLink)
    {
      hide Shape, Ledger;
      StepKeepsInvariant(State(), Event.IdentityLink);
      if page.active && page.fork { ShowLinkChooser(); }
    }

    method OnIdentityPhrase()
      requires Valid()
      modifies this
      ensures Valid() && State() == Step(old(State()), Event.IdentityPhrase)
    {
      hide Shape, Ledger;
      StepKeepsInvariant(State(), Event.IdentityPhrase);
      if page.active && page.fork {
        flow := flow.(phrase := true);
        ShowLinkChooser();
      }
    }

    method OnSetPin(dev: Device)
      requires Valid()
      modifies this
      ensures Valid() && State() == Step(old(State()), Event.SetPin(dev))
    {
      hide Shape, Ledger;
      StepKeepsInvariant(State(), Event.SetPin(dev));
      if page.active && page.chooser { ShowCreate(dev); }
    }

    method OnUseDefaultPin()
      requires Valid()
      modifies this
      ensures Valid() && State() == Step(old(State()), Event.UseDefaultPin)
    {
      hide Shape, Ledger;
      StepKeepsInvariant(State(), Event.UseDefaultPin);
      if !page.active || !page.chooser { return; }
      if flow.link {
        flow := flow.(pendingPin := DEFAULT_PIN);
        flow := flow.(pendingDefault := true);
        ShowLinkPaste();
        return;
      }
      PullBoundPinFields();
      ApplyPinGate();
      log := log + [DefaultCalled];
    }

    method OnSubmit()
      requires Valid()
      modifies this
      ensures Valid() && State() == Step(old(State()), Event.Submit)
    {
      hide Shape, Ledger;
      StepKeepsInvariant(State(), Event.Submit);
      hide Gate.NewSubmitted, Gate.KnownSubmitted;
      PullBoundPinFields();
      if !page.active || pad.biometricFirst || page.chooser || page.fork || pad.waiting || pad.keypad || pad.busy {
        return;
      }
      if page.linkPaste {
        ApplyPinGate();
        if pad.payload != "" {
          log := log + [LinkCalled(flow.pendingPin, pad.payload, flow.pendingDefault, flow.phrase)];
        }
        return;
      }
      if pad.pin == "" {
        ApplyPinGate();
        return;
      }
      if InNewPinStep() {
        SubmitNewPin(pad.pin, pad.confirm);
        return;
      }
      SubmitKnownPin(pad.pin);
    }

    method SubmitKnownPin(pin: string)
      modifies this
      ensures State() == old(State()).KnownSubmitted(pin)
    {
      if page.unlock {
        pad := pad.(busy := pad.keypad);
        ApplyPinGate();
        log := log + [UnlockCalled(pin)];
        return;
      }
      var verify := page.verify;
      if !verify && !(page.change && flow.changeStep == 0) { return; }
      var check := if verify then flow.verifyCheck else flow.changeCheck;
      if check.None? { return; }
      pad := pad.(busy := true);
      ApplyPinGate();
      request := request + 1;
      var c := Check(if verify then VerifyPin else OldPin, check.value, pin, request);
      checks, log := checks + [c], log + [CheckCalled(c)];
    }

    method SubmitNewPin(pin: string, confirm: string)
      modifies this
      ensures State() == old(State()).NewSubmitted(pin, confirm)
    {
      log := log + [Entered(pin, confirm)];
      if pin != confirm {
        if pad.keypad {
          pad := pad.(pin := "", confirm := "", step := 0);
          RefreshKeypad();
        }
        ApplyPinGate();
        return;
      }
      if PinDigitsOf(pin).None? {
        ApplyPinGate();
        return;
      }
      if page.create {
        if flow.link {
          flow := flow.(pendingPin := pin, pendingDefault := false);
          ShowLinkPaste();
          return;
        }
        pad := pad.(busy := pad.keypad);
        ApplyPinGate();
        log := log + [CreateCalled(pin)];
        return;
      }
      var change := flow.changeSubmit;
      if change.None? { return; }
      pad := pad.(busy := true);
      ApplyPinGate();
      request := request + 1;
      log := log + [ChangeCalled(change.value, flow.oldPin, pin)];
      var c := Check(NewPin, change.value, pin, request);
      checks, log := checks + [c], log + [CheckCalled(c)];
    }

    /** Check number `index` of those not answered yet is answered. */
    method OnCheckDone(index: nat, ok: bool, dev: Device)
      requires Valid()
      requires index < |checks|
      modifies this
      ensures Valid() && State() == Step(old(State()), Event.Answer(index, ok, dev))
    {
      hide Shape, Ledger, Gate.SetUpNew, Gate.Closed, Gate.Refreshed;
      StepKeepsInvariant(State(), Event.Answer(index, ok, dev));
      var c := checks[index];
      checks, log := checks[..index] + checks[index + 1..], log + [Answered(c.request, ok)];
      if c.request != request || !page.active { return; }
      PullBoundPinFields();
      pad := pad.(busy := false);
      if !ok {
        pad := pad.(pin := "", confirm := "");
        if InNewPinStep() { pad := pad.(step := 0); }
        RefreshKeypad();
        ApplyPinGate();
        return;
      }
      match c.kind
      case VerifyPin =>
        var onOk := flow.verifyOnOk;
        Close();
        if onOk.Some? { log := log + [OnOk(onOk.value)]; }
      case OldPin =>
        flow := flow.(oldPin := c.pin, changeStep := 1);
        SetupNewPinEntry(dev);
        ApplyPinGate();
      case NewPin =>
        Close();
    }

    method OnKey(digit: int)
      requires Valid()
      modifies this
      ensures Valid() && State() == Step(old(State()), Event.Key(digit))
    {
      hide Shape, Ledger;
      StepKeepsInvariant(State(), Event.Key(digit));
      hide Gate.NewSubmitted, Gate.KnownSubmitted;
      if !page.active || pad.biometricFirst || !pad.keypad || pad.busy || pad.waiting || digit < 0 || digit > 9 {
        return;
      }
      var key := ['0' + digit as char];
      if InNewPinStep() {
        if pad.step == 0 {
          if |pad.pin| >= 8 { return; }
          pad := pad.(pin := pad.pin + key);
          RefreshKeypad();
          ApplyPinGate();
          return;
        }
        if |pad.confirm| >= |pad.pin| { return; }
        pad := pad.(confirm := pad.confirm + key);
        RefreshKeypad();
        ApplyPinGate();
        if |pad.confirm| == |pad.pin| { SubmitNewPin(pad.pin, pad.confirm); }
        return;
      }
      if |pad.pin| >= pad.slots { return; }
      pad := pad.(pin := pad.pin + key);
      RefreshKeypad();
      ApplyPinGate();
      if |pad.pin| == pad.slots { SubmitKnownPin(pad.pin); }
    }

    method OnBackspace()
      requires Valid()
      modifies this
      ensures Valid() && State() == Step(old(State()), Event.Backspace)
    {
      hide Shape, Ledger;
      StepKeepsInvariant(State(), Event.Backspace);
      if !page.active || pad.biometricFirst || !pad.keypad || pad.busy || pad.waiting { return; }
      if InNewPinStep() && pad.step == 1 {
        if pad.confirm == "" { return; }
        pad := pad.(confirm := pad.confirm[..|pad.confirm| - 1]);
      } else {
        if pad.pin == "" { return; }
        pad := pad.(pin := pad.pin[..|pad.pin| - 1]);
      }
      RefreshKeypad();
      ApplyPinGate();
    }

    method OnKeypadOk()
      requires Valid()
      modifies this
      ensures Valid() && State() == Step(old(State()), Event.KeypadOk)
    {
      hide Shape, Ledger;
      StepKeepsInvariant(State(), Event.KeypadOk);
      if !page.active || pad.biometricFirst || !pad.keypad || pad.busy || !InNewPinStep() || pad.step != 0
         || |pad.pin| < 4
      {
        return;
      }
      pad := pad.(step := 1, confirm := "");
      RefreshKeypad();
      ApplyPinGate();
    }

    method OnUseText()
      requires Valid()
      modifies this
      ensures Valid() && State() == Step(old(State()), Event.UseText)
    {
      hide Shape, Ledger;
      StepKeepsInvariant(State(), Event.UseText);
      if !page.active || pad.biometricFirst || !pad.keypad || pad.busy || pad.waiting { return; }
      pad := pad.(keypad := false, pin := "", confirm := "", step := 0);
      pad := pad.(askConfirm := InNewPinStep());
      RefreshKeypad();
      ApplyPinGate();
    }

    method OnUseKeypad()
      requires Valid()
      modifies this
      ensures Valid() && State() == Step(old(State()), Event.UseKeypad)
    {
      hide Shape, Ledger;
      StepKeepsInvariant(State(), Event.UseKeypad);
      if !page.active || pad.biometricFirst || pad.keypad || !pad.offered || pad.busy || pad.waiting { return; }
      PullBoundPinFields();
      pad := pad.(keypad := true, pin := "", confirm := "", askConfirm := false, step := 0);
      RefreshKeypad();
      ApplyPinGate();
    }

    method OnCancel()
      requires Valid()
      modifies this
      ensures Valid() && State() == Step(old(State()), Event.Cancel)
    {
      hide Shape, Ledger;
      StepKeepsInvariant(State(), Event.Cancel);
      if !page.active { return; }
      if page.verify || page.change {
        Dismiss();
        return;
      }
      if page.create || page.chooser || page.fork || page.linkPaste { log := log + [CancelCalled]; }
    }
  }
}

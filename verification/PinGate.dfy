/**
 * The PIN gate: seven pages, a number pad or a text field, a new PIN entered twice, the settings flows "verify" and
 * "change" whose checks answer later, in any order, each once. The functions of `Gate` say what every operation
 * does; PinGateController.dfy holds the controller itself, proved against them.
 *
 * The log of a gate lists what went over its ports. It is what the run theorems speak about.
 */
module PinGate {
  import opened Wrappers

  const DEFAULT_PIN := "123456"

  predicate IsDigits(s: string) { forall c :: c in s ==> '0' <= c <= '9' }

  /** The length rule: a digit PIN has 4 to 8 digits, any other PIN at least 4 characters (then 0). */
  function PinDigitsOf(pin: string): Option<nat> {
    if |pin| < 4 then None
    else if |pin| > 8 || !IsDigits(pin) then Some(0)
    else Some(|pin|)
  }

  /** What the device offers when a page is set up: the number pad, the known length of the PIN, a biometric key. */
  datatype Device = Device(pad: bool, digits: Option<int>, biometric: bool)

  /** Which page the gate shows: seven modes. */
  datatype Page = Page(
    active: bool, fork: bool, chooser: bool, create: bool, linkPaste: bool, unlock: bool, verify: bool, change: bool)

  const NO_PAGE := Page(false, false, false, false, false, false, false, false)

  /** The pad or the field, and what is typed; `step` is 1 while a new PIN is repeated on the pad. */
  datatype Pad = Pad(
    waiting: bool, biometricFirst: bool, askConfirm: bool, keypad: bool, busy: bool, offered: bool, okShown: bool,
    slots: nat, filled: nat, step: nat, pin: string, confirm: string, payload: string)

  const NO_PAD := Pad(false, false, false, false, false, false, false, 0, 0, 0, "", "", "")

  /** The flow under way: the link flow's PIN, a change's step and old PIN, the closures settings handed over. */
  datatype Flow = Flow(
    link: bool, phrase: bool, pendingDefault: bool, pendingPin: string, changeStep: nat, oldPin: string,
    verifyCheck: Option<nat>, verifyOnOk: Option<nat>, changeCheck: Option<nat>, changeSubmit: Option<nat>)

  const NO_FLOW := Flow(false, false, false, "", 0, "", None, None, None, None)

  /** The fields bound to inputs, as the shell holds them. */
  datatype Typed = Typed(pin: string, confirm: string, payload: string)

  datatype Kind = VerifyPin | OldPin | NewPin

  /** A check that was asked for and is not answered yet; `flow` names the settings flow whose check it is. */
  datatype Check = Check(kind: Kind, flow: nat, pin: string, request: nat)

  datatype Entry =
    | Took(flow: nat, known: Option<string>) // a settings flow took the gate (with the current PIN, if known)
    | Shown                                    // another page took the gate
    | Gone                                     // the gate closed
    | CheckCalled(check: Check)
    | Answered(request: nat, ok: bool)
    | Entered(first: string, second: string)   // both entries of a new PIN were submitted
    | OnOk(flow: nat)
    | ChangeCalled(flow: nat, current: string, next: string)
    | CreateCalled(pin: string)
    | UnlockCalled(pin: string)
    | DefaultCalled
    | CancelCalled
    | LinkCalled(pin: string, payload: string, isDefault: bool, phrase: bool)

  /** An event: the user's, the app's, or a check's answer. */
  datatype Event =
    | ShowIdentityFork | ShowChooser | ShowUnlock(dev: Device)
    | ShowVerify(hasCheck: bool, hasOnOk: bool, dev: Device)
    | ShowChange(hasCheck: bool, hasChange: bool, current: Option<string>, dev: Device)
    | Dismiss | ShowError(dev: Device) | SubmitDeclined | SetWaiting(waiting: bool) | BiometricReset
    | IdentityNew | IdentityLink | IdentityPhrase | SetPin(dev: Device) | UseDefaultPin | UsePin
    | Types(typed: Typed) | Submit | Key(digit: int) | Backspace | KeypadOk | UseText | UseKeypad | Cancel
    | Answer(index: nat, ok: bool, dev: Device)

  /** The request counter, the checks not answered yet, the next flow's name, and the log. */
  datatype Books = Books(request: nat, checks: seq<Check>, flows: nat, log: seq<Entry>)

  datatype Gate = Gate(page: Page, pad: Pad, flow: Flow, shell: Typed, books: Books) {

    predicate InNewPinStep() { page.create || (page.change && flow.changeStep == 1) }

    function Emit(e: Entry): Gate { this.(books := books.(log := books.log + [e])) }

    function Pulled(): Gate {
      this.(pad := pad.(pin := shell.pin, confirm := shell.confirm, payload := shell.payload))
    }

    function Applied(): Gate { this.(shell := Typed(pad.pin, pad.confirm, pad.payload)) }

    function Busied(busy: bool): Gate { this.(pad := pad.(busy := busy)) }

    function WithPin(pin: string): Gate { this.(pad := pad.(pin := pin)) }

    function WithConfirm(confirm: string): Gate { this.(pad := pad.(confirm := confirm)) }

    /** Both entries of a new PIN start over. */
    function Emptied(): Gate { this.(pad := pad.(pin := "", confirm := "")) }

    function AtStep(step: nat): Gate { this.(pad := pad.(step := step)) }

    function FirstEntry(): Gate { if InNewPinStep() then AtStep(0) else this }

    /** The check `c` goes out. */
    function Asked(c: Check): Gate {
      this.(books := books.(request := c.request, checks := books.checks + [c], log := books.log + [CheckCalled(c)]))
    }

    /** What the pad shows of its entries: dots, and the key to the repeat. */
    function Refreshed(): Gate {
      if !pad.keypad then this.(pad := pad.(okShown := false, filled := 0))
      else if InNewPinStep() then
        this.(pad := pad.(
          slots := |pad.pin|,
          filled := if pad.step == 0 then |pad.pin| else |pad.confirm|,
          okShown := pad.step == 0 && |pad.pin| >= 4))
      else this.(pad := pad.(okShown := false, filled := |pad.pin|))
    }

    function SetUpKnown(dev: Device): Gate {
      var digit := dev.pad && dev.digits.Some? && 4 <= dev.digits.value <= 8;
      this.(pad := pad.(keypad := digit, offered := digit, busy := false,
                        slots := if digit then dev.digits.value else 0, askConfirm := false, pin := "",
                        confirm := "", step := 0)).Refreshed()
    }

    function SetUpNew(dev: Device): Gate {
      this.(pad := pad.(keypad := dev.pad, offered := dev.pad, busy := false, askConfirm := !dev.pad, pin := "",
                        confirm := "", step := 0)).Refreshed()
    }

    /** A page takes the gate, bare; what settings asked for is dropped and every check still out becomes void. */
    function Turned(page: Page, flow: Flow): Gate {
      this.(page := page, pad := NO_PAD, flow := flow, books := books.(request := books.request + 1))
    }

    function Closed(): Gate { Turned(NO_PAGE, NO_FLOW).Applied().Emit(Gone) }

    function ForkShown(): Gate {
      Turned(NO_PAGE.(active := true, fork := true), NO_FLOW).Applied().Emit(Shown)
    }

    /** The link flow's PIN survives the pages in between. */
    function Kept(link: bool): Flow {
      NO_FLOW.(link := link, phrase := link && flow.phrase, pendingDefault := flow.pendingDefault,
               pendingPin := flow.pendingPin)
    }

    function ChooserShown(link: bool): Gate {
      Turned(NO_PAGE.(active := true, chooser := true), Kept(link)).Applied().Emit(Shown)
    }

    function UnlockShown(dev: Device): Gate {
      var g := Turned(NO_PAGE.(active := true, unlock := true), Kept(false)).SetUpKnown(dev);
      g.WithBiometricFirst(dev.biometric).Applied().Emit(Shown)
    }

    function CreateShown(dev: Device): Gate {
      this.(page := page.(fork := false, linkPaste := false, chooser := false, create := true)).SetUpNew(dev).Applied()
    }

    function LinkPasteShown(): Gate {
      this.(page := page.(fork := false, chooser := false, create := false, linkPaste := true),
            pad := pad.(keypad := false, offered := false, busy := false, askConfirm := false, payload := ""))
        .Applied()
    }

    /** A settings flow takes the gate under a fresh name. */
    function Taken(page: Page, flow: Flow, known: Option<string>): Gate {
      Turned(page, flow).(books := Books(books.request + 1, books.checks, books.flows + 1,
                                         books.log + [Took(books.flows, known)]))
    }

    function Named(given: bool): Option<nat> { if given then Some(books.flows) else None }

    function VerifyShown(hasCheck: bool, hasOnOk: bool, dev: Device): Gate {
      Taken(NO_PAGE.(active := true, verify := true),
            Kept(false).(verifyCheck := Named(hasCheck), verifyOnOk := Named(hasOnOk)), None)
        .SetUpKnown(dev).Applied()
    }

    function ChangeShown(hasCheck: bool, hasChange: bool, current: Option<string>, dev: Device): Gate {
      var change := NO_PAGE.(active := true, change := true);
      var f := Kept(false).(changeCheck := Named(hasCheck), changeSubmit := Named(hasChange));
      if current.Some? then
        Taken(change, f.(oldPin := current.value, changeStep := 1), current).SetUpNew(dev).Applied()
      else Taken(change, f, None).SetUpKnown(dev).Applied()
    }

    /** The pad starts over; the field keeps what is typed. */
    function StartedOver(): Gate {
      var g := Pulled();
      (if g.pad.keypad then g.Busied(false).Emptied().FirstEntry().Refreshed() else g).Applied()
    }

    function ErrorShown(dev: Device): Gate {
      (if page.active then this else UnlockShown(dev)).StartedOver()
    }

    function Declined(): Gate {
      if !page.active || !pad.busy || page.verify || page.change then this
      else
        var g := Pulled().Busied(false);
        (if InNewPinStep() then g.WithConfirm("") else g.WithPin("")).Refreshed().Applied()
    }

    function WithWaiting(waiting: bool): Gate { this.(pad := pad.(waiting := waiting)) }

    function WithBiometricFirst(first: bool): Gate { this.(pad := pad.(biometricFirst := first)) }

    function WaitingSet(waiting: bool): Gate {
      if !page.active || !page.unlock || pad.waiting == waiting then this
      else Pulled().WithWaiting(waiting).Applied()
    }

    function BiometricLost(): Gate {
      if !page.active || !page.unlock then this else Pulled().WithBiometricFirst(false).Applied()
    }

    function PinAsked(): Gate {
      if !page.active || !page.unlock || !pad.biometricFirst || pad.waiting then this
      else WithBiometricFirst(false).Applied()
    }

    function WithPending(pin: string, isDefault: bool): Gate {
      this.(flow := flow.(pendingPin := pin, pendingDefault := isDefault))
    }

    function DefaultPinUsed(): Gate {
      if !page.active || !page.chooser then this
      else if flow.link then WithPending(DEFAULT_PIN, true).LinkPasteShown()
      else Pulled().Applied().Emit(DefaultCalled)
    }

    function KnownSubmitted(pin: string): Gate {
      if page.unlock then Busied(pad.keypad).Applied().Emit(UnlockCalled(pin))
      else if !page.verify && !(page.change && flow.changeStep == 0) then this
      else
        var check := if page.verify then flow.verifyCheck else flow.changeCheck;
        if check.None? then this
        else
          Busied(true).Applied()
            .Asked(Check(if page.verify then VerifyPin else OldPin, check.value, pin, books.request + 1))
    }

    function NewSubmitted(pin: string, confirm: string): Gate {
      var g := Emit(Entered(pin, confirm));
      if pin != confirm then (if g.pad.keypad then g.Emptied().AtStep(0).Refreshed() else g).Applied()
      else if PinDigitsOf(pin).None? then g.Applied()
      else if page.create then
        if flow.link then g.WithPending(pin, false).LinkPasteShown()
        else g.Busied(pad.keypad).Applied().Emit(CreateCalled(pin))
      else if flow.changeSubmit.None? then g
      else
        g.Busied(true).Applied().Emit(ChangeCalled(flow.changeSubmit.value, flow.oldPin, pin))
          .Asked(Check(NewPin, flow.changeSubmit.value, pin, books.request + 1))
    }

    function Submitted(): Gate {
      var g := Pulled();
      if !page.active || pad.biometricFirst || page.chooser || page.fork || pad.waiting || pad.keypad || pad.busy then g
      else if page.linkPaste then
        if g.pad.payload == "" then g.Applied()
        else g.Applied().Emit(LinkCalled(flow.pendingPin, g.pad.payload, flow.pendingDefault, flow.phrase))
      else if g.pad.pin == "" then g.Applied()
      else if InNewPinStep() then g.NewSubmitted(g.pad.pin, g.pad.confirm)
      else g.KnownSubmitted(g.pad.pin)
    }

    predicate PadTakesKeys() {
      page.active && !pad.biometricFirst && pad.keypad && !pad.busy && !pad.waiting
    }

    function Keyed(digit: int): Gate {
      if !PadTakesKeys() || digit < 0 || digit > 9 then this
      else
        var key := ['0' + digit as char];
        if InNewPinStep() then
          if pad.step == 0 then
            if |pad.pin| >= 8 then this else WithPin(pad.pin + key).Refreshed().Applied()
          else if |pad.confirm| >= |pad.pin| then this
          else
            var g := WithConfirm(pad.confirm + key).Refreshed().Applied();
            if |g.pad.confirm| == |g.pad.pin| then g.NewSubmitted(g.pad.pin, g.pad.confirm) else g
        else if |pad.pin| >= pad.slots then this
        else
          var g := WithPin(pad.pin + key).Refreshed().Applied();
          if |g.pad.pin| == g.pad.slots then g.KnownSubmitted(g.pad.pin) else g
    }

    function Backspaced(): Gate {
      if !PadTakesKeys() then this
      else if InNewPinStep() && pad.step == 1 then
        if pad.confirm == "" then this else WithConfirm(pad.confirm[..|pad.confirm| - 1]).Refreshed().Applied()
      else
        if pad.pin == "" then this else WithPin(pad.pin[..|pad.pin| - 1]).Refreshed().Applied()
    }

    function OkPressed(): Gate {
      if !page.active || pad.biometricFirst || !pad.keypad || pad.busy || !InNewPinStep() || pad.step != 0
         || |pad.pin| < 4
      then this
      else WithConfirm("").AtStep(1).Refreshed().Applied()
    }

    function WithKeypad(keypad: bool, askConfirm: bool): Gate {
      this.(pad := pad.(keypad := keypad, askConfirm := askConfirm))
    }

    function TextUsed(): Gate {
      if !PadTakesKeys() then this
      else Emptied().AtStep(0).WithKeypad(false, InNewPinStep()).Refreshed().Applied()
    }

    function KeypadUsed(): Gate {
      if !page.active || pad.biometricFirst || pad.keypad || !pad.offered || pad.busy || pad.waiting then this
      else Pulled().Emptied().AtStep(0).WithKeypad(true, false).Refreshed().Applied()
    }

    function Cancelled(): Gate {
      if !page.active then this
      else if page.verify || page.change then Closed()
      else if page.create || page.chooser || page.fork || page.linkPaste then Emit(CancelCalled)
      else this
    }

    /** Check number `index` of those not answered yet is answered. */
    function Heard(index: nat, ok: bool): Gate
      requires index < |books.checks|
    {
      this.(books := books.(checks := books.checks[..index] + books.checks[index + 1..],
                            log := books.log + [Answered(books.checks[index].request, ok)]))
    }

    /** The newest check's answer acts on the gate. */
    function Acted(c: Check, ok: bool, dev: Device): Gate {
      var g := Pulled().Busied(false);
      if !ok then g.Emptied().FirstEntry().Refreshed().Applied()
      else
        match c.kind
        case VerifyPin =>
          if flow.verifyOnOk.Some? then g.Closed().Emit(OnOk(flow.verifyOnOk.value)) else g.Closed()
        case OldPin => g.(flow := flow.(oldPin := c.pin, changeStep := 1)).SetUpNew(dev).Applied()
        case NewPin => g.Closed()
    }

    function CheckAnswered(index: nat, ok: bool, dev: Device): Gate {
      if index >= |books.checks| then this
      else
        var c := books.checks[index];
        if c.request != books.request || !page.active then Heard(index, ok) else Heard(index, ok).Acted(c, ok, dev)
    }

    /** The user edits the bound fields: only the field page has them. */
    function TypedIn(typed: Typed): Gate {
      if page.active && !pad.keypad then this.(shell := typed) else this
    }
  }

  const START := Gate(NO_PAGE, NO_PAD, NO_FLOW, Typed("", "", ""), Books(0, [], 0, []))

  function Step(g: Gate, e: Event): Gate {
    match e
    case ShowIdentityFork => g.ForkShown()
    case ShowChooser => g.ChooserShown(false)
    case ShowUnlock(dev) => g.UnlockShown(dev)
    case ShowVerify(hasCheck, hasOnOk, dev) => g.VerifyShown(hasCheck, hasOnOk, dev)
    case ShowChange(hasCheck, hasChange, current, dev) => g.ChangeShown(hasCheck, hasChange, current, dev)
    case Dismiss => g.Closed()
    case ShowError(dev) => g.ErrorShown(dev)
    case SubmitDeclined => g.Declined()
    case SetWaiting(waiting) => g.WaitingSet(waiting)
    case BiometricReset => g.BiometricLost()
    case IdentityNew => if g.page.active && g.page.fork then g.ChooserShown(false) else g
    case IdentityLink => if g.page.active && g.page.fork then g.ChooserShown(true) else g
    case IdentityPhrase =>
      if g.page.active && g.page.fork then g.(flow := g.flow.(phrase := true)).ChooserShown(true) else g
    case SetPin(dev) => if g.page.active && g.page.chooser then g.CreateShown(dev) else g
    case UseDefaultPin => g.DefaultPinUsed()
    case UsePin => g.PinAsked()
    case Types(typed) => g.TypedIn(typed)
    case Submit => g.Submitted()
    case Key(digit) => g.Keyed(digit)
    case Backspace => g.Backspaced()
    case KeypadOk => g.OkPressed()
    case UseText => g.TextUsed()
    case UseKeypad => g.KeypadUsed()
    case Cancel => g.Cancelled()
    case Answer(index, ok, dev) => g.CheckAnswered(index, ok, dev)
  }

  function Run(events: seq<Event>): Gate {
    if events == [] then START else Step(Run(events[..|events| - 1]), events[|events| - 1])
  }

  // ----- The shape of the gate: its page, its pad -----

  function Count(b: bool): nat { if b then 1 else 0 }

  /** How many of the seven modes are set. */
  function Modes(p: Page): nat {
    Count(p.fork) + Count(p.chooser) + Count(p.create) + Count(p.linkPaste) + Count(p.unlock) + Count(p.verify)
      + Count(p.change)
  }

  predicate OneMode(g: Gate) {
    Modes(g.page) == Count(g.page.active) && g.flow.changeStep <= 1 && (!g.page.change ==> g.flow.changeStep == 0)
  }

  /** The pages that ask for a PIN. */
  predicate AsksPin(p: Page) { p.unlock || p.verify || p.change || p.create }

  /** The limits on what is typed on the pad: a new PIN (`newPin`) has at most 8 digits, its repeat no more than it. */
  predicate WithinLimits(pad: Pad, newPin: bool) {
    && IsDigits(pad.pin) && IsDigits(pad.confirm)
    && if newPin then |pad.pin| <= 8 && (pad.step == 1 ==> 4 <= |pad.pin| && |pad.confirm| <= |pad.pin|)
       else |pad.pin| <= pad.slots
  }

  /** What the pad shows follows from its entries. */
  predicate DotsAreExact(pad: Pad, newPin: bool) {
    if newPin then
      && pad.slots == |pad.pin|
      && pad.filled == (if pad.step == 0 then |pad.pin| else |pad.confirm|)
      && (pad.okShown <==> pad.step == 0 && |pad.pin| >= 4)
    else pad.filled == |pad.pin| && !pad.okShown
  }

  /** The pad's fields, but for what it shows of its entries. */
  predicate PadFits(pad: Pad, page: Page, newPin: bool) {
    && pad.step <= 1
    && (pad.keypad || pad.offered || pad.busy ==> AsksPin(page))
    && (pad.waiting || pad.biometricFirst ==> page.unlock)
    && (pad.offered && !newPin ==> 4 <= pad.slots <= 8)
    && (pad.keypad ==> pad.offered && WithinLimits(pad, newPin))
  }

  predicate Shape(g: Gate) {
    && OneMode(g)
    && PadFits(g.pad, g.page, g.InNewPinStep())
    && (g.pad.keypad ==>
      DotsAreExact(g.pad, g.InNewPinStep()) && g.shell == Typed(g.pad.pin, g.pad.confirm, g.pad.payload))
  }

  lemma RefreshMakesShape(g: Gate)
    requires OneMode(g) && PadFits(g.pad, g.page, g.InNewPinStep())
    ensures Shape(g.Refreshed().Applied())
  {
    hide IsDigits, Modes;
  }

  lemma ShapeFrame(g: Gate, h: Gate)
    requires Shape(g) && h.page == g.page && h.pad == g.pad && h.flow.changeStep == g.flow.changeStep
    requires h.shell == g.shell
    ensures Shape(h)
  {
  }

  lemma AppliedKeepsShape(g: Gate)
    requires Shape(g)
    ensures Shape(g.Applied())
  {
  }

  lemma BusiedKeepsShape(g: Gate, busy: bool)
    requires Shape(g) && (busy ==> AsksPin(g.page))
    ensures Shape(g.Busied(busy).Applied())
  {
    hide IsDigits, Modes;
  }

  lemma LinkPasteShownHasShape(g: Gate)
    requires OneMode(g) && PadFits(g.pad, g.page, g.InNewPinStep()) && g.page.active
    requires g.page.create || g.page.chooser
    ensures Shape(g.LinkPasteShown())
  {
    hide IsDigits;
  }

  /** Starting the entries over: within every limit. */
  lemma EmptiedFits(g: Gate)
    requires Shape(g)
    ensures PadFits(g.Emptied().AtStep(0).pad, g.page, g.InNewPinStep())
    ensures PadFits(g.Busied(false).Emptied().FirstEntry().pad, g.page, g.InNewPinStep())
  {
    assert IsDigits("");
    hide IsDigits;
  }

  lemma NewSubmittedKeepsShape(g: Gate, pin: string, confirm: string)
    requires Shape(g) && g.InNewPinStep() && g.page.active
    ensures Shape(g.NewSubmitted(pin, confirm))
  {
    var h := g.Emit(Entered(pin, confirm));
    ShapeFrame(g, h);
    EmptiedFits(h);
    AppliedKeepsShape(h);
    BusiedKeepsShape(h, true);
    BusiedKeepsShape(h, g.pad.keypad);
    hide PadFits, PinDigitsOf, DotsAreExact;
    if pin != confirm && h.pad.keypad {
      RefreshMakesShape(h.Emptied().AtStep(0));
    } else if g.page.create {
      LinkPasteShownHasShape(h.WithPending(pin, false));
    }
  }

  lemma KnownSubmittedKeepsShape(g: Gate, pin: string)
    requires Shape(g)
    ensures Shape(g.KnownSubmitted(pin))
  {
    hide PadFits, DotsAreExact;
    if g.page.unlock || g.page.verify || g.page.change {
      BusiedKeepsShape(g, true);
      BusiedKeepsShape(g, g.pad.keypad);
    }
  }

  lemma DigitsPrefix(s: string, n: nat)
    requires IsDigits(s) && n <= |s|
    ensures IsDigits(s[..n])
  {
    assert forall c :: c in s[..n] ==> c in s;
  }

  /** A digit more, a digit less: the pad stays exact. */
  lemma TypingKeepsShape(g: Gate, h: Gate)
    requires Shape(g) && g.pad.keypad && h == g.WithPin(h.pad.pin).WithConfirm(h.pad.confirm)
    requires WithinLimits(h.pad, g.InNewPinStep())
    ensures Shape(h.Refreshed().Applied())
  {
    hide IsDigits, WithinLimits;
    RefreshMakesShape(h);
  }

  lemma KeyedKeepsShape(g: Gate, digit: int)
    requires Shape(g)
    ensures Shape(g.Keyed(digit))
  {
    if g.PadTakesKeys() && 0 <= digit <= 9 {
      var key := ['0' + digit as char];
      var p, c := g.WithPin(g.pad.pin + key), g.WithConfirm(g.pad.confirm + key);
      assert IsDigits(p.pad.pin) && IsDigits(c.pad.confirm);
      hide IsDigits, Modes, DotsAreExact;
      if !g.InNewPinStep() {
        if |g.pad.pin| < g.pad.slots {
          TypingKeepsShape(g, p);
          hide Shape;
          KnownSubmittedKeepsShape(p.Refreshed().Applied(), p.pad.pin);
        }
      } else if g.pad.step == 0 {
        if |g.pad.pin| < 8 {
          TypingKeepsShape(g, p);
        }
      } else if |g.pad.confirm| < |g.pad.pin| {
        TypingKeepsShape(g, c);
        hide Shape;
        NewSubmittedKeepsShape(c.Refreshed().Applied(), c.pad.pin, c.pad.confirm);
      }
    }
  }

  lemma BackspacedKeepsShape(g: Gate)
    requires Shape(g)
    ensures Shape(g.Backspaced())
  {
    if g.PadTakesKeys() {
      if g.InNewPinStep() && g.pad.step == 1 {
        if g.pad.confirm != "" {
          DigitsPrefix(g.pad.confirm, |g.pad.confirm| - 1);
          TypingKeepsShape(g, g.WithConfirm(g.pad.confirm[..|g.pad.confirm| - 1]));
        }
      } else if g.pad.pin != "" {
        DigitsPrefix(g.pad.pin, |g.pad.pin| - 1);
        TypingKeepsShape(g, g.WithPin(g.pad.pin[..|g.pad.pin| - 1]));
      }
    }
  }

  lemma PulledKeepsShape(g: Gate)
    requires Shape(g)
    ensures Shape(g.Pulled()) && (g.pad.keypad ==> g.Pulled() == g)
  {
    hide IsDigits;
  }

  lemma SubmittedKeepsShape(g: Gate)
    requires Shape(g)
    ensures Shape(g.Submitted())
  {
    PulledKeepsShape(g);
    var h := g.Pulled();
    AppliedKeepsShape(h);
    hide Shape;
    if g.page.active && g.page.linkPaste {
      ShapeFrame(h.Applied(), h.Applied().Emit(LinkCalled(g.flow.pendingPin, h.pad.payload, g.flow.pendingDefault,
                                                          g.flow.phrase)));
    } else if g.page.active && g.InNewPinStep() {
      NewSubmittedKeepsShape(h, h.pad.pin, h.pad.confirm);
    } else {
      KnownSubmittedKeepsShape(h, h.pad.pin);
    }
  }

  /** A page set up for a known or a new PIN. */
  lemma SetUpHasShape(g: Gate, dev: Device)
    requires OneMode(g) && AsksPin(g.page)
    requires g.pad.waiting || g.pad.biometricFirst ==> g.page.unlock
    ensures !g.InNewPinStep() ==> Shape(g.SetUpKnown(dev).Applied())
    ensures g.InNewPinStep() ==> Shape(g.SetUpNew(dev).Applied())
  {
    assert IsDigits("");
    hide IsDigits, Modes;
  }

  lemma BarePageHasShape(g: Gate)
    requires OneMode(g) && g.pad == NO_PAD
    ensures Shape(g)
  {
  }

  lemma PagesHaveShape(g: Gate, link: bool)
    ensures Shape(g.Closed()) && Shape(g.ForkShown()) && Shape(g.ChooserShown(link))
  {
    BarePageHasShape(g.Closed());
    BarePageHasShape(g.ForkShown());
    BarePageHasShape(g.ChooserShown(link));
  }

  lemma UnlockShownHasShape(g: Gate, dev: Device)
    ensures Shape(g.UnlockShown(dev))
  {
    SetUpHasShape(g.Turned(NO_PAGE.(active := true, unlock := true), g.Kept(false)), dev);
    hide IsDigits;
  }

  lemma FlowsHaveShape(g: Gate, hasCheck: bool, hasOther: bool, current: Option<string>, dev: Device)
    ensures Shape(g.VerifyShown(hasCheck, hasOther, dev))
    ensures Shape(g.ChangeShown(hasCheck, hasOther, current, dev))
  {
    var v, c := NO_PAGE.(active := true, verify := true), NO_PAGE.(active := true, change := true);
    var f := g.Kept(false).(changeCheck := g.Named(hasCheck), changeSubmit := g.Named(hasOther));
    SetUpHasShape(g.Taken(v, g.Kept(false).(verifyCheck := g.Named(hasCheck), verifyOnOk := g.Named(hasOther)), None),
                  dev);
    SetUpHasShape(g.Taken(c, f, None), dev);
    if current.Some? {
      SetUpHasShape(g.Taken(c, f.(oldPin := current.value, changeStep := 1), current), dev);
    }
    hide Shape;
  }

  lemma CreateShownHasShape(g: Gate, dev: Device)
    requires Shape(g) && g.page.active && g.page.chooser
    ensures Shape(g.CreateShown(dev))
  {
    SetUpHasShape(g.(page := g.page.(fork := false, linkPaste := false, chooser := false, create := true)), dev);
  }

  lemma StartedOverHasShape(g: Gate)
    requires Shape(g)
    ensures Shape(g.StartedOver())
    ensures Shape(g.Pulled().Busied(false).Emptied().FirstEntry().Refreshed().Applied())
  {
    PulledKeepsShape(g);
    EmptiedFits(g.Pulled());
    hide PadFits, DotsAreExact;
    RefreshMakesShape(g.Pulled().Busied(false).Emptied().FirstEntry());
    AppliedKeepsShape(g.Pulled());
  }

  lemma ErrorShownHasShape(g: Gate, dev: Device)
    requires Shape(g)
    ensures Shape(g.ErrorShown(dev))
  {
    UnlockShownHasShape(g, dev);
    hide Shape;
    StartedOverHasShape(if g.page.active then g else g.UnlockShown(dev));
  }

  lemma DeclinedKeepsShape(g: Gate)
    requires Shape(g)
    ensures Shape(g.Declined())
  {
    PulledKeepsShape(g);
    assert IsDigits("");
    hide IsDigits, Modes;
    var h := g.Pulled().Busied(false);
    if g.InNewPinStep() {
      RefreshMakesShape(h.WithConfirm(""));
    } else {
      RefreshMakesShape(h.WithPin(""));
    }
  }

  /** The unlock page's own switches: the waiting screen, the biometric door. */
  lemma UnlockSwitchesKeepShape(g: Gate, waiting: bool)
    requires Shape(g)
    ensures Shape(g.WaitingSet(waiting)) && Shape(g.BiometricLost()) && Shape(g.PinAsked())
  {
    PulledKeepsShape(g);
    hide IsDigits, Modes;
  }

  /** The pad's own switches: its OK key, the field instead of the pad, and back. */
  lemma InputSwitchesKeepShape(g: Gate)
    requires Shape(g)
    ensures Shape(g.TextUsed()) && Shape(g.KeypadUsed()) && Shape(g.OkPressed())
  {
    assert IsDigits("");
    hide IsDigits, Modes;
    RefreshMakesShape(g.Emptied().AtStep(0).WithKeypad(false, g.InNewPinStep()));
    if g.pad.offered {
      RefreshMakesShape(g.Pulled().Emptied().AtStep(0).WithKeypad(true, false));
    }
    if g.pad.keypad && g.InNewPinStep() && |g.pad.pin| >= 4 {
      RefreshMakesShape(g.WithConfirm("").AtStep(1));
    }
  }

  lemma DefaultPinUsedKeepsShape(g: Gate)
    requires Shape(g)
    ensures Shape(g.DefaultPinUsed())
  {
    PulledKeepsShape(g);
    AppliedKeepsShape(g.Pulled());
    hide PadFits, DotsAreExact;
    if g.page.active && g.page.chooser {
      LinkPasteShownHasShape(g.WithPending(DEFAULT_PIN, true));
    }
  }

  predicate OldPinCheckFits(g: Gate, c: Check) {
    c.request == g.books.request && c.kind == OldPin && g.page.active ==> g.page.change
  }

  /** A newest check of an old PIN finds the change page (the ledger keeps this). */
  predicate OldPinChecksFit(g: Gate) {
    forall i :: 0 <= i < |g.books.checks| ==> OldPinCheckFits(g, g.books.checks[i])
  }

  lemma CheckAnsweredKeepsShape(g: Gate, index: nat, ok: bool, dev: Device)
    requires Shape(g)
    requires OldPinChecksFit(g)
    ensures Shape(g.CheckAnswered(index, ok, dev))
  {
    if index < |g.books.checks| {
      var c, heard := g.books.checks[index], g.Heard(index, ok);
      var h := heard.Pulled().Busied(false);
      StartedOverHasShape(heard);
      PagesHaveShape(h, false);
      if c.kind == OldPin && g.page.change {
        SetUpHasShape(h.(flow := h.flow.(oldPin := c.pin, changeStep := 1)), dev);
      }
      hide PadFits, DotsAreExact, OneMode;
    }
  }

  lemma CancelledKeepsShape(g: Gate)
    requires Shape(g)
    ensures Shape(g.Cancelled())
  {
    PagesHaveShape(g, false);
    ShapeFrame(g, g.Emit(CancelCalled));
    hide Shape;
  }

  lemma TypedInKeepsShape(g: Gate, typed: Typed)
    requires Shape(g)
    ensures Shape(g.TypedIn(typed))
  {
  }

  /** Every event keeps the shape, whatever the environment does. */
  lemma StepKeepsShape(g: Gate, e: Event)
    requires Shape(g)
    requires OldPinChecksFit(g)
    ensures Shape(Step(g, e))
  {
    hide Shape, Gate.Closed, Gate.ForkShown, Gate.ChooserShown, Gate.UnlockShown, Gate.VerifyShown, Gate.ChangeShown,
         Gate.CreateShown, Gate.ErrorShown, Gate.Declined, Gate.WaitingSet, Gate.BiometricLost, Gate.PinAsked,
         Gate.DefaultPinUsed, Gate.TypedIn, Gate.Submitted, Gate.Keyed, Gate.Backspaced, Gate.OkPressed, Gate.TextUsed,
         Gate.KeypadUsed, Gate.Cancelled, Gate.CheckAnswered;
    match e
    case ShowIdentityFork => PagesHaveShape(g, false);
    case ShowChooser => PagesHaveShape(g, false);
    case ShowUnlock(dev) => UnlockShownHasShape(g, dev);
    case ShowVerify(hasCheck, hasOnOk, dev) => FlowsHaveShape(g, hasCheck, hasOnOk, None, dev);
    case ShowChange(hasCheck, hasChange, current, dev) => FlowsHaveShape(g, hasCheck, hasChange, current, dev);
    case Dismiss => PagesHaveShape(g, false);
    case ShowError(dev) => ErrorShownHasShape(g, dev);
    case SubmitDeclined => DeclinedKeepsShape(g);
    case SetWaiting(waiting) => UnlockSwitchesKeepShape(g, waiting);
    case BiometricReset => UnlockSwitchesKeepShape(g, false);
    case IdentityNew => PagesHaveShape(g, false);
    case IdentityLink => PagesHaveShape(g, true);
    case IdentityPhrase => PagesHaveShape(g.(flow := g.flow.(phrase := true)), true);
    case SetPin(dev) => if g.page.active && g.page.chooser { CreateShownHasShape(g, dev); }
    case UseDefaultPin => DefaultPinUsedKeepsShape(g);
    case UsePin => UnlockSwitchesKeepShape(g, false);
    case Types(typed) => TypedInKeepsShape(g, typed);
    case Submit => SubmittedKeepsShape(g);
    case Key(digit) => KeyedKeepsShape(g, digit);
    case Backspace => BackspacedKeepsShape(g);
    case KeypadOk => InputSwitchesKeepShape(g);
    case UseText => InputSwitchesKeepShape(g);
    case UseKeypad => InputSwitchesKeepShape(g);
    case Cancel => CancelledKeepsShape(g);
    case Answer(index, ok, dev) => CheckAnsweredKeepsShape(g, index, ok, dev);
  }
}

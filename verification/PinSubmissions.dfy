/**
 * One PIN at a time: while a submission of the PIN gate waits, what it shows and what it handed over stay as they
 * are, until one of a few events frees the gate. Which ones do is said exactly.
 */
module PinSubmissions {
  import opened PinGate
  import opened PinLedger
  import opened Wrappers

  /** A PIN leaves the gate: to the app, or for a check. */
  predicate IsSubmission(e: Entry) { e.CheckCalled? || e.ChangeCalled? || e.UnlockCalled? || e.CreateCalled? }

  function Submissions(log: seq<Entry>): seq<Entry> {
    if log == [] then []
    else
      var rest, e := Submissions(log[..|log| - 1]), log[|log| - 1];
      if IsSubmission(e) then rest + [e] else rest
  }

  /** What went out so far. */
  function Sent(g: Gate): seq<Entry> { Submissions(g.books.log) }

  predicate Submits(g: Gate, e: Event) { Sent(Step(g, e)) != Sent(g) }

  lemma SentByEmit(log: seq<Entry>, e: Entry)
    ensures Submissions(log + [e]) == if IsSubmission(e) then Submissions(log) + [e] else Submissions(log)
  {
    assert (log + [e])[..|log|] == log;
  }

  lemma SentQuietly(log: seq<Entry>, e: Entry)
    requires !IsSubmission(e)
    ensures Submissions(log + [e]) == Submissions(log)
  {
    SentByEmit(log, e);
  }

  /** A settings flow has the gate. */
  predicate InSettings(p: Page) { p.verify || p.change }

  /** Whether event `e` frees a gate that waits for an answer. */
  predicate Frees(g: Gate, e: Event) {
    match e
    case ShowIdentityFork => true
    case ShowChooser => true
    case ShowUnlock(_) => true
    case ShowVerify(_, _, _) => true
    case ShowChange(_, _, _, _) => true
    case Dismiss => true
    case ShowError(_) => g.pad.keypad
    case SubmitDeclined => !InSettings(g.page)
    case Cancel => InSettings(g.page)
    case Answer(index, _, _) => index < |g.books.checks| && g.books.checks[index].request == g.books.request
    case _ => false
  }

  /**
   * `h` is as `g`: its page and flow, what it sent, its pad but for the waiting screen, and on the pad what is typed;
   * fields may be edited.
   */
  predicate Still(g: Gate, h: Gate) {
    && h.page == g.page && h.flow == g.flow && Sent(h) == Sent(g)
    && h.pad == g.pad.(waiting := h.pad.waiting, pin := h.pad.pin, confirm := h.pad.confirm,
                       payload := h.pad.payload)
    && (g.pad.keypad ==>
      h.pad == g.pad.(waiting := h.pad.waiting) && h.shell == g.shell)
  }

  /** An answer is awaited, and the pad or the field is open. */
  predicate Waits(g: Gate) { g.pad.busy && !g.pad.biometricFirst }

  lemma RefreshedKeepsPad(g: Gate)
    ensures g.Refreshed() == g.(pad := g.Refreshed().pad) && g.Refreshed().pad.busy == g.pad.busy
  {
  }

  lemma RefreshedKeepsBusy()
    ensures forall g: Gate :: g.Refreshed().pad.busy == g.pad.busy && g.Refreshed().books == g.books
  {
    forall g: Gate ensures g.Refreshed().pad.busy == g.pad.busy && g.Refreshed().books == g.books {
      RefreshedKeepsPad(g);
    }
  }

  lemma PageShownSends(g: Gate, dev: Device, link: bool)
    ensures Sent(g.Closed()) == Sent(g) && !g.Closed().pad.busy
    ensures Sent(g.ForkShown()) == Sent(g) && !g.ForkShown().pad.busy
    ensures Sent(g.ChooserShown(link)) == Sent(g) && !g.ChooserShown(link).pad.busy
    ensures Sent(g.UnlockShown(dev)) == Sent(g) && !g.UnlockShown(dev).pad.busy
  {
    SentQuietly(g.books.log, Shown);
    SentQuietly(g.books.log, Gone);
    RefreshedKeepsBusy();
    hide IsSubmission, Submissions, Gate.Refreshed, Gate.Kept;
  }

  lemma FlowShownSends(g: Gate, hasCheck: bool, hasOther: bool, current: Option<string>, dev: Device)
    ensures Sent(g.VerifyShown(hasCheck, hasOther, dev)) == Sent(g) && !g.VerifyShown(hasCheck, hasOther, dev).pad.busy
    ensures
      var h := g.ChangeShown(hasCheck, hasOther, current, dev);
      Sent(h) == Sent(g) && !h.pad.busy
  {
    SentQuietly(g.books.log, Took(g.books.flows, None));
    SentQuietly(g.books.log, Took(g.books.flows, current));
    RefreshedKeepsBusy();
    hide IsSubmission, Submissions, Gate.Refreshed, Gate.Kept;
  }

  predicate Turns(e: Event) {
    e.ShowIdentityFork? || e.ShowChooser? || e.ShowUnlock? || e.ShowVerify? || e.ShowChange? || e.Dismiss?
  }

  lemma TurnedSends(g: Gate, e: Event)
    requires Turns(e)
    ensures Sent(Step(g, e)) == Sent(g) && !Step(g, e).pad.busy
  {
    hide Gate.Closed, Gate.ForkShown, Gate.ChooserShown, Gate.UnlockShown, Gate.VerifyShown, Gate.ChangeShown, Sent;
    match e
    case ShowVerify(hasCheck, hasOnOk, dev) => FlowShownSends(g, hasCheck, hasOnOk, None, dev);
    case ShowChange(hasCheck, hasChange, current, dev) => FlowShownSends(g, hasCheck, hasChange, current, dev);
    case ShowUnlock(dev) => PageShownSends(g, dev, false);
    case _ => PageShownSends(g, NO_DEVICE, false);
  }

  const NO_DEVICE := Device(false, None, false)

  lemma CreateShownSends(g: Gate, dev: Device)
    ensures Sent(g.CreateShown(dev)) == Sent(g) && !g.CreateShown(dev).pad.busy
  {
    RefreshedKeepsBusy();
    hide Submissions, Gate.Refreshed;
  }

  lemma DefaultSends(g: Gate)
    ensures Sent(g.DefaultPinUsed()) == Sent(g) && (g.DefaultPinUsed().pad.busy ==> g.pad.busy)
  {
    SentQuietly(g.books.log, DefaultCalled);
    hide IsSubmission, Submissions;
  }

  lemma ChooserSends(g: Gate, link: bool)
    ensures Sent(g.ChooserShown(link)) == Sent(g) && !g.ChooserShown(link).pad.busy
  {
    PageShownSends(g, NO_DEVICE, link);
  }

  lemma CancelSends(g: Gate)
    ensures Sent(g.Cancelled()) == Sent(g) && (g.Cancelled().pad.busy ==> g.pad.busy)
  {
    SentQuietly(g.books.log, CancelCalled);
    PageShownSends(g, NO_DEVICE, false);
    hide Gate.Closed, Submissions, IsSubmission;
  }

  /** The pages of onboarding. */
  lemma OnboardingSends(g: Gate, e: Event)
    requires e.IdentityNew? || e.IdentityLink? || e.IdentityPhrase? || e.SetPin? || e.UseDefaultPin? || e.Cancel?
    ensures Sent(Step(g, e)) == Sent(g) && (Step(g, e).pad.busy ==> g.pad.busy)
  {
    var phrase := g.(flow := g.flow.(phrase := true));
    assert Sent(phrase) == Sent(g);
    hide Gate.ChooserShown, Gate.CreateShown, Gate.DefaultPinUsed, Gate.Cancelled, Sent;
    match e
    case SetPin(dev) => CreateShownSends(g, dev);
    case UseDefaultPin => DefaultSends(g);
    case Cancel => CancelSends(g);
    case IdentityPhrase => ChooserSends(phrase, true);
    case IdentityLink => ChooserSends(g, true);
    case IdentityNew => ChooserSends(g, false);
  }

  /** The switches of the unlock page, and the fields. */
  lemma SwitchesSend(g: Gate, e: Event)
    requires e.SubmitDeclined? || e.SetWaiting? || e.BiometricReset? || e.UsePin? || e.Types?
    ensures Sent(Step(g, e)) == Sent(g) && (Step(g, e).pad.busy ==> g.pad.busy)
  {
    RefreshedKeepsBusy();
    hide IsSubmission, Submissions, Gate.Refreshed;
  }

  /** The keys of the pad that hand nothing over. */
  lemma KeysSend(g: Gate, e: Event)
    requires e.Backspace? || e.KeypadOk? || e.UseText? || e.UseKeypad?
    ensures Sent(Step(g, e)) == Sent(g) && (Step(g, e).pad.busy ==> g.pad.busy)
  {
    RefreshedKeepsBusy();
    hide IsSubmission, Submissions, Gate.Refreshed;
  }

  lemma ErrorSends(g: Gate, dev: Device)
    ensures Sent(g.ErrorShown(dev)) == Sent(g) && (g.ErrorShown(dev).pad.busy ==> g.pad.busy)
  {
    SentQuietly(g.books.log, Shown);
    RefreshedKeepsBusy();
    hide IsSubmission, Submissions, Gate.Refreshed;
  }

  lemma ActedSends(g: Gate, c: Check, ok: bool, dev: Device)
    ensures Sent(g.Acted(c, ok, dev)) == Sent(g) && !g.Acted(c, ok, dev).pad.busy
  {
    var log := g.books.log;
    SentQuietly(log, Gone);
    if g.flow.verifyOnOk.Some? { SentQuietly(log + [Gone], OnOk(g.flow.verifyOnOk.value)); }
    RefreshedKeepsBusy();
    hide IsSubmission, Submissions, Gate.Refreshed;
  }

  /** The answer to the newest check frees the gate, any other one does not. */
  lemma AnswerSends(g: Gate, index: nat, ok: bool, dev: Device)
    ensures Sent(g.CheckAnswered(index, ok, dev)) == Sent(g)
    ensures
      if index < |g.books.checks| && g.books.checks[index].request == g.books.request && g.page.active
      then !g.CheckAnswered(index, ok, dev).pad.busy
      else g.CheckAnswered(index, ok, dev) == g.(books := g.CheckAnswered(index, ok, dev).books)
  {
    if index < |g.books.checks| {
      SentQuietly(g.books.log, Answered(g.books.checks[index].request, ok));
      ActedSends(g.Heard(index, ok), g.books.checks[index], ok, dev);
      hide IsSubmission, Submissions, Gate.Acted;
    }
  }

  /** What a submission leaves behind: the pad keeps what it shows, and is busy but for a field of unlock or create. */
  predicate Submitted(g: Gate, h: Gate) {
    && h.page == g.page && Sent(g) < Sent(h) && !h.pad.biometricFirst && h.pad.keypad == g.pad.keypad
    && (h.pad.busy <==> g.pad.keypad || InSettings(g.page))
  }

  lemma KnownSubmittedSends(g: Gate, pin: string)
    requires OneMode(g) && g.page.active && !g.pad.biometricFirst
    ensures var h := g.KnownSubmitted(pin);
      if Sent(h) == Sent(g) then h == g else Submitted(g, h)
  {
    var log := g.books.log;
    if g.page.unlock {
      SentByEmit(log, UnlockCalled(pin));
    } else if g.page.verify || g.page.change {
      var check := if g.page.verify then g.flow.verifyCheck else g.flow.changeCheck;
      if check.Some? {
        var c := Check(if g.page.verify then VerifyPin else OldPin, check.value, pin, g.books.request + 1);
        SentByEmit(log, CheckCalled(c));
      }
    }
    hide Submissions;
  }

  /** Whether a new PIN goes out: both entries alike, long enough, and somewhere to go. */
  predicate GoesOut(g: Gate, pin: string, confirm: string) {
    pin == confirm && PinDigitsOf(pin).Some? && (if g.page.create then !g.flow.link else g.flow.changeSubmit.Some?)
  }

  lemma NewPinStays(g: Gate, pin: string, confirm: string)
    requires !GoesOut(g, pin, confirm)
    ensures Sent(g.NewSubmitted(pin, confirm)) == Sent(g)
    ensures g.NewSubmitted(pin, confirm).pad.busy ==> g.pad.busy
  {
    var e := g.Emit(Entered(pin, confirm));
    SentQuietly(g.books.log, Entered(pin, confirm));
    RefreshedKeepsPad(e.Emptied().AtStep(0));
    hide Submissions, IsSubmission, PinDigitsOf, Gate.Refreshed;
  }

  lemma CreatedPinGoesOut(g: Gate, pin: string, confirm: string)
    requires GoesOut(g, pin, confirm) && g.page.create && OneMode(g) && !g.pad.biometricFirst
    ensures Submitted(g, g.NewSubmitted(pin, confirm))
  {
    var e := g.Emit(Entered(pin, confirm));
    SentQuietly(g.books.log, Entered(pin, confirm));
    SentByEmit(e.books.log, CreateCalled(pin));
    assert !InSettings(g.page);
    hide OneMode, Submissions, PinDigitsOf, Gate.Refreshed, Gate.Emptied, Gate.LinkPasteShown;
  }

  lemma ChangedPinGoesOut(g: Gate, pin: string, confirm: string)
    requires GoesOut(g, pin, confirm) && !g.page.create && g.page.change && !g.pad.biometricFirst
    ensures Submitted(g, g.NewSubmitted(pin, confirm))
  {
    var e := g.Emit(Entered(pin, confirm));
    SentQuietly(g.books.log, Entered(pin, confirm));
    ChangeSends(e, g.flow.changeSubmit.value, pin);
    hide Submissions, PinDigitsOf, Gate.Refreshed, Gate.Emptied, Gate.LinkPasteShown;
  }

  /** Both entries of a new PIN are checked, and go out or not. */
  lemma NewSubmittedSends(g: Gate, pin: string, confirm: string)
    requires OneMode(g) && g.InNewPinStep() && !g.pad.biometricFirst
    ensures var h := g.NewSubmitted(pin, confirm);
      if Sent(h) == Sent(g) then h.pad.busy ==> g.pad.busy else Submitted(g, h)
  {
    if GoesOut(g, pin, confirm) {
      if g.page.create { CreatedPinGoesOut(g, pin, confirm); } else { ChangedPinGoesOut(g, pin, confirm); }
    } else {
      NewPinStays(g, pin, confirm);
    }
    hide Gate.NewSubmitted, GoesOut, OneMode, Submitted, Sent;
  }

  lemma ChangeSends(g: Gate, f: nat, pin: string)
    ensures
      var changed := g.books.log + [ChangeCalled(f, g.flow.oldPin, pin)];
      Sent(g) < Submissions(changed + [CheckCalled(Check(NewPin, f, pin, g.books.request + 1))])
  {
    SentByEmit(g.books.log, ChangeCalled(f, g.flow.oldPin, pin));
    SentByEmit(g.books.log + [ChangeCalled(f, g.flow.oldPin, pin)],
               CheckCalled(Check(NewPin, f, pin, g.books.request + 1)));
  }

  lemma KeySends(g: Gate, digit: int)
    requires OneMode(g)
    ensures var h := g.Keyed(digit);
      if Sent(h) == Sent(g) then h.pad.busy ==> g.pad.busy else Submitted(g, h) && !g.pad.busy
  {
    if g.PadTakesKeys() && 0 <= digit <= 9 {
      var key := ['0' + digit as char];
      var p, c := g.WithPin(g.pad.pin + key), g.WithConfirm(g.pad.confirm + key);
      RefreshedKeepsPad(p);
      RefreshedKeepsPad(c);
      var typed, repeated := p.Refreshed().Applied(), c.Refreshed().Applied();
      assert Sent(typed) == Sent(repeated) == Sent(g);
      RefreshedKeepsOthers(p);
      RefreshedKeepsOthers(c);
      hide Gate.Refreshed, Gate.KnownSubmitted, Gate.NewSubmitted, Submissions;
      if !g.InNewPinStep() {
        KnownSubmittedSends(typed, typed.pad.pin);
      } else if g.pad.step != 0 {
        NewSubmittedSends(repeated, repeated.pad.pin, repeated.pad.confirm);
      }
    }
  }

  lemma SubmitSends(g: Gate)
    requires OneMode(g)
    ensures var h := g.Submitted();
      if Sent(h) == Sent(g) then h.pad.busy ==> g.pad.busy else Submitted(g, h) && !g.pad.busy
  {
    var p := g.Pulled();
    SentQuietly(p.books.log, LinkCalled(g.flow.pendingPin, p.pad.payload, g.flow.pendingDefault, g.flow.phrase));
    hide Gate.KnownSubmitted, Gate.NewSubmitted, Submissions, IsSubmission;
    if g.page.active && !g.pad.biometricFirst {
      if p.InNewPinStep() {
        NewSubmittedSends(p, p.pad.pin, p.pad.confirm);
      } else {
        KnownSubmittedSends(p, p.pad.pin);
      }
    }
  }

  lemma RefreshedKeepsOthers(g: Gate)
    ensures var h := g.Refreshed().pad;
      h.keypad == g.pad.keypad && h.biometricFirst == g.pad.biometricFirst && h.step == g.pad.step
  {
  }

  /** What any event sends: nothing, or a PIN from a gate that was not waiting, which then waits. */
  lemma StepSends(g: Gate, e: Event)
    requires Shape(g)
    ensures var h := Step(g, e);
      if Sent(h) == Sent(g) then h.pad.busy ==> g.pad.busy
      else (e.Key? || e.Submit?) && Submitted(g, h) && !g.pad.busy
  {
    assert OneMode(g);
    hide Shape, OneMode, Step, Submitted, Sent;
    match e
    case Key(digit) => KeySends(g, digit);
    case Submit => SubmitSends(g);
    case Answer(index, ok, dev) => AnswerSends(g, index, ok, dev);
    case ShowError(dev) => ErrorSends(g, dev);
    case ShowIdentityFork => TurnedSends(g, e);
    case ShowChooser => TurnedSends(g, e);
    case ShowUnlock(_) => TurnedSends(g, e);
    case ShowVerify(_, _, _) => TurnedSends(g, e);
    case ShowChange(_, _, _, _) => TurnedSends(g, e);
    case Dismiss => TurnedSends(g, e);
    case IdentityNew => OnboardingSends(g, e);
    case IdentityLink => OnboardingSends(g, e);
    case IdentityPhrase => OnboardingSends(g, e);
    case SetPin(_) => OnboardingSends(g, e);
    case UseDefaultPin => OnboardingSends(g, e);
    case Cancel => OnboardingSends(g, e);
    case Backspace => KeysSend(g, e);
    case KeypadOk => KeysSend(g, e);
    case UseText => KeysSend(g, e);
    case UseKeypad => KeysSend(g, e);
    case _ => SwitchesSend(g, e);
  }

  // ----- A gate that waits -----

  predicate IsInput(e: Event) {
    e.Key? || e.Backspace? || e.KeypadOk? || e.UseText? || e.UseKeypad? || e.Submit? || e.Types?
  }

  lemma InputOnABusyPad(g: Gate, e: Event)
    requires Shape(g) && g.pad.keypad && g.pad.busy && IsInput(e)
    ensures Step(g, e) == g
  {
    PulledKeepsShape(g);
    hide Shape;
  }

  lemma InputStays(g: Gate, e: Event)
    requires Shape(g) && Waits(g) && IsInput(e)
    ensures Still(g, Step(g, e)) && Waits(Step(g, e))
  {
    if g.pad.keypad {
      InputOnABusyPad(g, e);
      hide Shape, Step;
    } else {
      hide Shape, Submissions;
    }
  }

  lemma SwitchesStay(g: Gate, e: Event)
    requires Shape(g) && Waits(g) && !Frees(g, e)
    requires e.SubmitDeclined? || e.SetWaiting? || e.BiometricReset? || e.UsePin? || e.ShowError?
    ensures Still(g, Step(g, e)) && Waits(Step(g, e))
  {
    assert g.page.active;
    PulledKeepsShape(g);
    hide Shape, Submissions;
  }

  lemma PagesStay(g: Gate, e: Event)
    requires Shape(g) && Waits(g) && !Frees(g, e)
    requires e.IdentityNew? || e.IdentityLink? || e.IdentityPhrase? || e.SetPin? || e.UseDefaultPin? || e.Cancel?
    ensures Still(g, Step(g, e)) && Waits(Step(g, e))
  {
    assert !g.page.fork && !g.page.chooser;
    SentQuietly(g.books.log, CancelCalled);
    hide Shape, Submissions, IsSubmission;
  }

  /** Nothing but what frees the gate changes it. */
  lemma WaitingStays(g: Gate, e: Event)
    requires Shape(g) && Waits(g) && !Frees(g, e)
    ensures Still(g, Step(g, e)) && Waits(Step(g, e))
  {
    assert g.page.active;
    hide Shape, Gate.CheckAnswered, Submissions;
    match e
    case Answer(index, ok, dev) => AnswerSends(g, index, ok, dev);
    case SubmitDeclined => SwitchesStay(g, e);
    case SetWaiting(_) => SwitchesStay(g, e);
    case BiometricReset => SwitchesStay(g, e);
    case UsePin => SwitchesStay(g, e);
    case ShowError(_) => SwitchesStay(g, e);
    case IdentityNew => PagesStay(g, e);
    case IdentityLink => PagesStay(g, e);
    case IdentityPhrase => PagesStay(g, e);
    case SetPin(_) => PagesStay(g, e);
    case UseDefaultPin => PagesStay(g, e);
    case Cancel => PagesStay(g, e);
    case _ => InputStays(g, e);
  }

  lemma FreesIndeed(g: Gate, e: Event)
    requires Shape(g) && Waits(g) && Frees(g, e)
    ensures !Step(g, e).pad.busy
  {
    assert g.page.active;
    RefreshedKeepsBusy();
    hide Gate.Refreshed, PadFits, DotsAreExact;
    match e
    case Answer(index, ok, dev) => AnswerSends(g, index, ok, dev);
    case ShowError(_) =>
    case SubmitDeclined =>
    case Cancel =>
    case _ => TurnedSends(g, e);
  }

  // ----- Every run -----

  /** None of the events from number `n` on freed the gate. */
  predicate Unfreed(events: seq<Event>, n: nat) {
    forall i :: n <= i < |events| ==> !Frees(Run(events[..i]), events[i])
  }

  lemma RunFront(events: seq<Event>, n: nat)
    requires n < |events|
    ensures Run(events[..n + 1]) == Step(Run(events[..n]), events[n])
  {
    assert events[..n + 1][..n] == events[..n];
    hide Step;
  }

  lemma UnfreedFront(events: seq<Event>, n: nat)
    requires n < |events|
    ensures var last := |events| - 1;
      Unfreed(events, n) <==> Unfreed(events[..last], n) && !Frees(Run(events[..last]), events[last])
  {
    var front := events[..|events| - 1];
    assert forall i :: 0 <= i < |front| ==> front[..i] == events[..i] && front[i] == events[i];
    hide Run, Frees;
  }

  /** A gate that waits is still as it was until an event frees it; from then on it is not busy or has sent more. */
  lemma {:induction false} WaitsUntilFreed(events: seq<Event>, n: nat)
    requires n <= |events| && Waits(Run(events[..n]))
    ensures Sent(Run(events[..n])) <= Sent(Run(events))
    ensures
      var g, h := Run(events[..n]), Run(events);
      if Unfreed(events, n) then Still(g, h) && Waits(h) else !h.pad.busy || Sent(g) < Sent(h)
  {
    var last := |events| - 1;
    if n == |events| {
      assert events[..n] == events;
      hide Run;
    } else {
      var front, e := events[..last], events[last];
      assert front[..n] == events[..n];
      WaitsUntilFreed(front, n);
      UnfreedFront(events, n);
      RunFront(events, last);
      assert events[..last + 1] == events;
      RunKeepsInvariant(front);
      hide Run, Shape, Ledger, Unfreed, Sent, Step, Frees;
      var g := Run(front);
      StepSends(g, e);
      if Waits(g) {
        if Frees(g, e) { FreesIndeed(g, e); } else { WaitingStays(g, e); }
      }
    }
  }

  /** The settings pages and the pad wait for an answer; the field of unlock and create does not. */
  predicate Awaits(g: Gate) { g.pad.keypad || InSettings(g.page) }

  /**
   * In every run a PIN goes out only by a key or Continue, on a gate that was not busy, and leaves it busy exactly on
   * the pad and on the settings pages.
   */
  lemma ASubmissionMakesBusy(events: seq<Event>, e: Event)
    requires Submits(Run(events), e)
    ensures
      var g, h := Run(events), Step(Run(events), e);
      && (e.Key? || e.Submit?) && !g.pad.busy && Sent(g) < Sent(h)
      && h.page == g.page && h.pad.keypad == g.pad.keypad && (h.pad.busy <==> Awaits(g)) && (Awaits(g) ==> Waits(h))
  {
    RunKeepsInvariant(events);
    hide Run, Shape, Ledger, Step, Sent;
    StepSends(Run(events), e);
  }

  /**
   * From a submission on, page, flow, pad, what is typed on the pad and what was sent stay as they are if and only if
   * no event since freed the gate: the answer to the newest check; an error shown on the pad; a decline of the unlock
   * or create page; another page, a dismissal, or the cancel of a settings flow.
   */
  lemma ASubmissionHoldsUntilFreed(events: seq<Event>, n: nat)
    requires n < |events| && Submits(Run(events[..n]), events[n]) && Awaits(Run(events[..n]))
    ensures Still(Run(events[..n + 1]), Run(events)) <==> Unfreed(events, n + 1)
  {
    ASubmissionMakesBusy(events[..n], events[n]);
    RunFront(events, n);
    WaitsUntilFreed(events, n + 1);
    hide Run, Step, Unfreed;
  }

  lemma SameFront(events: seq<Event>, m: nat)
    requires m <= |events|
    ensures forall i :: 0 <= i < m ==> events[..m][..i] == events[..i] && events[..m][i] == events[i]
  {
  }

  /** Between two submissions, the first one awaited, an event freed the gate. */
  lemma OneSubmissionAtATime(events: seq<Event>, n: nat, m: nat)
    requires n < m < |events| && Submits(Run(events[..n]), events[n]) && Awaits(Run(events[..n]))
    requires Submits(Run(events[..m]), events[m])
    ensures exists i :: n < i < m && Frees(Run(events[..i]), events[i])
  {
    hide Run, Step, Frees, Submits, Sent;
    var front := events[..m];
    SameFront(events, m);
    assert front[..n + 1] == events[..n + 1];
    ASubmissionMakesBusy(events[..n], events[n]);
    RunFront(events, n);
    WaitsUntilFreed(front, n + 1);
    ASubmissionMakesBusy(front, events[m]);
  }

  /** Keys, OK, the pad's switches, Continue and typing have no effect at all while a pad's submission waits. */
  lemma ABusyPadIgnoresInput(events: seq<Event>, n: nat, e: Event)
    requires n < |events| && Submits(Run(events[..n]), events[n]) && Run(events[..n]).pad.keypad
    requires Unfreed(events, n + 1) && IsInput(e)
    ensures Step(Run(events), e) == Run(events)
  {
    hide Run, Step, Shape, Ledger, Unfreed, Submits, Sent;
    ASubmissionMakesBusy(events[..n], events[n]);
    RunFront(events, n);
    WaitsUntilFreed(events, n + 1);
    RunKeepsInvariant(events);
    InputOnABusyPad(Run(events), e);
  }

  const FOUR_DIGITS := Device(true, Some(4), false)

  lemma RunOne(events: seq<Event>, e: Event)
    ensures Run(events + [e]) == Step(Run(events), e)
  {
    assert (events + [e])[..|events|] == events;
    hide Step;
  }

  lemma RunKey(events: seq<Event>, digit: int)
    ensures Run(events + [Key(digit)]) == Run(events).Keyed(digit)
  {
    RunOne(events, Key(digit));
    hide Run, Gate.Keyed;
  }

  lemma RunFour(events: seq<Event>, digit: int)
    ensures Run(events + [Key(digit), Key(digit), Key(digit), Key(digit)]) ==
            Run(events).Keyed(digit).Keyed(digit).Keyed(digit).Keyed(digit)
  {
    hide Run, Gate.Keyed;
    var k := Key(digit);
    RunKey(events, digit);
    RunKey(events + [k], digit);
    RunKey(events + [k] + [k], digit);
    RunKey(events + [k] + [k] + [k], digit);
    assert events + [k, k, k, k] == events + [k] + [k] + [k] + [k];
  }

  /** A verify page whose pad asks for four digits. */
  predicate AsksFour(g: Gate) {
    && g.page == NO_PAGE.(active := true, verify := true) && g.flow.verifyCheck == Some(0)
    && g.pad == NO_PAD.(keypad := true, offered := true, slots := 4) && g.shell == Typed("", "", "")
  }

  lemma OneKey(g: Gate, digit: int)
    requires g.page.active && g.page.verify && !g.InNewPinStep() && g.PadTakesKeys() && 0 <= digit <= 9
    requires |g.pad.pin| < 3 && g.pad.slots == 4 && g.shell == Typed(g.pad.pin, g.pad.confirm, g.pad.payload)
    ensures
      var pin := g.pad.pin + ['0' + digit as char];
      g.Keyed(digit) == g.(pad := g.pad.(pin := pin, filled := |pin|, okShown := false),
                           shell := Typed(pin, g.pad.confirm, g.pad.payload))
  {
    hide Gate.KnownSubmitted;
  }

  lemma FourKeys(g: Gate, digit: int)
    requires AsksFour(g) && 0 <= digit <= 9
    ensures
      var c := '0' + digit as char;
      var check := Check(VerifyPin, 0, [c, c, c, c], g.books.request + 1);
      var h := g.Keyed(digit).Keyed(digit).Keyed(digit).Keyed(digit);
      && h.books == Books(g.books.request + 1, g.books.checks + [check], g.books.flows,
                          g.books.log + [CheckCalled(check)])
      && h.ErrorShown(FOUR_DIGITS) == h.(pad := g.pad, shell := g.shell) && h.page == g.page && h.flow == g.flow
  {
    OneKey(g, digit);
    var one := g.Keyed(digit);
    OneKey(one, digit);
    var two := one.Keyed(digit);
    OneKey(two, digit);
    var three := two.Keyed(digit);
    var c := '0' + digit as char;
    assert three.pad.pin == [c, c, c];
    assert three.pad.pin + [c] == [c, c, c, c];
  }

  /** An error shown while a check runs frees the pad: a second check goes out and neither was answered. */
  lemma AnErrorLetsKeysThrough()
    ensures
      var events := [ShowVerify(true, true, FOUR_DIGITS), Key(1), Key(1), Key(1), Key(1), ShowError(FOUR_DIGITS),
                     Key(2), Key(2), Key(2), Key(2)];
      Run(events).books.log == [Took(0, None), CheckCalled(Check(VerifyPin, 0, "1111", 2)),
                                CheckCalled(Check(VerifyPin, 0, "2222", 3))]
  {
    var start := [ShowVerify(true, true, FOUR_DIGITS)];
    var first := start + [Key(1), Key(1), Key(1), Key(1)];
    var freed := first + [ShowError(FOUR_DIGITS)];
    VerifyShownFirst();
    hide Run, AsksFour, Gate.Keyed, Gate.ErrorShown, Step;
    RunFour(start, 1);
    FourKeys(Run(start), 1);
    RunOne(first, ShowError(FOUR_DIGITS));
    ErrorStep(Run(first));
    AsksFourFrame(Run(start), Run(freed));
    FourKeys(Run(freed), 2);
    RunFour(freed, 2);
    assert freed + [Key(2), Key(2), Key(2), Key(2)] ==
           [ShowVerify(true, true, FOUR_DIGITS), Key(1), Key(1), Key(1), Key(1), ShowError(FOUR_DIGITS),
            Key(2), Key(2), Key(2), Key(2)];
    assert ['1', '1', '1', '1'] == "1111" && ['2', '2', '2', '2'] == "2222";
  }

  lemma VerifyShownFirst()
    ensures var g := Run([ShowVerify(true, true, FOUR_DIGITS)]);
      AsksFour(g) && g.books == Books(1, [], 1, [Took(0, None)])
  {
    RunOne([], ShowVerify(true, true, FOUR_DIGITS));
    assert [] + [ShowVerify(true, true, FOUR_DIGITS)] == [ShowVerify(true, true, FOUR_DIGITS)];
  }

  lemma ErrorStep(g: Gate)
    ensures Step(g, ShowError(FOUR_DIGITS)) == g.ErrorShown(FOUR_DIGITS)
  {
  }

  lemma AsksFourFrame(g: Gate, h: Gate)
    requires AsksFour(g) && h.page == g.page && h.flow == g.flow && h.pad == g.pad && h.shell == g.shell
    ensures AsksFour(h)
  {
  }
}

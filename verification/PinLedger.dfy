/**
 * What the PIN gate may hand over, and when: a justification for every entry of its log, an invariant tying the
 * gate's fields to its log, and the run theorems.
 */
module PinLedger {
  import opened PinGate
  import opened Wrappers

  // ----- Reading a log -----

  /** The settings flow that has the gate, according to the log alone. */
  function Owner(log: seq<Entry>): Option<nat> {
    if log == [] then None
    else
      match log[|log| - 1]
      case Took(flow, _) => Some(flow)
      case Shown => None
      case Gone => None
      case _ => Owner(log[..|log| - 1])
  }

  predicate IsCheck(e: Entry, kind: Kind, f: nat, pin: string) {
    e.CheckCalled? && e.check.kind == kind && e.check.flow == f && e.check.pin == pin
  }

  /** The old PIN is the one flow `f` was opened with, or one its own check accepted. */
  ghost predicate OldPinKnown(log: seq<Entry>, f: nat, pin: string) {
    || Took(f, Some(pin)) in log
    || exists i, j :: 0 <= i < j < |log| && IsCheck(log[i], OldPin, f, pin)
                      && log[j] == Answered(log[i].check.request, true)
  }

  /** The PIN was entered twice and passes the length rule, or is the default PIN and flagged so. */
  predicate ChosenPin(log: seq<Entry>, pin: string, isDefault: bool) {
    if isDefault then pin == DEFAULT_PIN else Entered(pin, pin) in log && PinDigitsOf(pin).Some?
  }

  /** Both entries of `pin` were submitted just now, and it passes the length rule. */
  predicate JustEntered(log: seq<Entry>, pin: string) {
    log != [] && log[|log| - 1] == Entered(pin, pin) && PinDigitsOf(pin).Some?
  }

  predicate IsCheckOf(e: Entry, f: nat) { e.CheckCalled? && e.check.kind == VerifyPin && e.check.flow == f }

  /** The check of flow `f` just accepted, and the gate closed on it. */
  ghost predicate JustVerified(log: seq<Entry>, f: nat) {
    var n := |log|;
    && n >= 2 && log[n - 1] == Gone && log[n - 2].Answered? && log[n - 2].ok
    && Owner(log[..n - 2]) == Some(f)
    && exists i :: 0 <= i < n - 2 && IsCheckOf(log[i], f) && log[i].check.request == log[n - 2].request
  }

  /** Whether entry `e` may follow the log. */
  ghost predicate Justified(log: seq<Entry>, e: Entry) {
    match e
    case Took(flow, _) => forall x :: x in log && x.Took? ==> x.flow < flow
    case CheckCalled(c) =>
      Owner(log) == Some(c.flow) && forall x :: x in log && x.CheckCalled? ==> x.check.request < c.request
    case Answered(r, _) =>
      && (exists x :: x in log && x.CheckCalled? && x.check.request == r)
      && (forall x :: x in log && x.Answered? ==> x.request != r)
    case OnOk(f) => JustVerified(log, f)
    case ChangeCalled(f, current, next) =>
      Owner(log) == Some(f) && OldPinKnown(log, f, current) && JustEntered(log, next)
    case CreateCalled(pin) => JustEntered(log, pin)
    case LinkCalled(pin, payload, isDefault, _) => ChosenPin(log, pin, isDefault) && payload != ""
    case CancelCalled => Owner(log).None?
    case _ => true
  }

  ghost predicate Good(log: seq<Entry>) {
    log == [] || (Good(log[..|log| - 1]) && Justified(log[..|log| - 1], log[|log| - 1]))
  }

  lemma EmitKeepsGood(log: seq<Entry>, e: Entry)
    requires Good(log) && Justified(log, e)
    ensures Good(log + [e]) && (log + [e])[..|log|] == log
  {
  }

  lemma {:induction false} GoodAt(log: seq<Entry>, i: nat)
    requires Good(log) && i < |log|
    ensures Justified(log[..i], log[i])
  {
    if i < |log| - 1 {
      GoodAt(log[..|log| - 1], i);
      assert log[..|log| - 1][..i] == log[..i];
    }
  }

  // ----- The fields and the log agree -----

  /** A stored closure belongs to the flow that has the gate. */
  predicate Stored(closure: Option<nat>, owner: Option<nat>, mode: bool) {
    closure.Some? ==> mode && closure == owner
  }

  predicate Closures(g: Gate) {
    var owner := Owner(g.books.log);
    && (g.page.verify || g.page.change <==> owner.Some?)
    && Stored(g.flow.verifyCheck, owner, g.page.verify) && Stored(g.flow.verifyOnOk, owner, g.page.verify)
    && Stored(g.flow.changeCheck, owner, g.page.change) && Stored(g.flow.changeSubmit, owner, g.page.change)
  }

  predicate Numbers(g: Gate) {
    && (forall x :: x in g.books.log && x.Took? ==> x.flow < g.books.flows)
    && (forall x :: x in g.books.log && x.CheckCalled? ==> x.check.request <= g.books.request)
  }

  /** A check not answered yet: it went out, and only the newest one of the flow that has the gate can act. */
  predicate Waiting(g: Gate, c: Check) {
    && c.request <= g.books.request && CheckCalled(c) in g.books.log
    && (forall x :: x in g.books.log && x.Answered? ==> x.request != c.request)
    && (c.request == g.books.request && g.page.active ==>
      && Owner(g.books.log) == Some(c.flow)
      && match c.kind
         case VerifyPin => g.page.verify
         case OldPin => g.page.change && g.flow.changeStep == 0
         case NewPin => g.page.change && g.flow.changeStep == 1)
  }

  predicate Checks(g: Gate) {
    && (forall c :: c in g.books.checks ==> Waiting(g, c))
    && (forall i, j :: 0 <= i < j < |g.books.checks| ==> g.books.checks[i].request != g.books.checks[j].request)
  }

  ghost predicate Pins(g: Gate) {
    && (g.page.change && g.flow.changeStep == 1 && Owner(g.books.log).Some? ==>
         OldPinKnown(g.books.log, Owner(g.books.log).value, g.flow.oldPin))
    && (g.page.linkPaste ==> ChosenPin(g.books.log, g.flow.pendingPin, g.flow.pendingDefault))
  }

  ghost predicate Ledger(g: Gate) {
    Good(g.books.log) && Closures(g) && Numbers(g) && Checks(g) && Pins(g)
  }

  /** The ledger does not speak of the pad, the fields or the shell's copy. */
  lemma LedgerFrame(g: Gate, h: Gate)
    requires Ledger(g)
    requires h.books == g.books
    requires h.flow.verifyCheck == g.flow.verifyCheck && h.flow.verifyOnOk == g.flow.verifyOnOk
    requires h.flow.changeCheck == g.flow.changeCheck && h.flow.changeSubmit == g.flow.changeSubmit
    requires h.page.active == g.page.active && h.page.verify == g.page.verify && h.page.change == g.page.change
    requires h.flow.changeStep == g.flow.changeStep && h.flow.oldPin == g.flow.oldPin
    requires h.page.linkPaste ==> ChosenPin(g.books.log, h.flow.pendingPin, h.flow.pendingDefault)
    ensures Ledger(h)
  {
    hide Good, OldPinKnown, ChosenPin;
    forall c | c in h.books.checks ensures Waiting(h, c) {
      assert Waiting(g, c);
    }
  }

  lemma PadFrame(g: Gate, h: Gate)
    requires Ledger(g) && h.page == g.page && h.flow == g.flow && h.books == g.books
    ensures Ledger(h)
  {
    LedgerFrame(g, h);
  }

  /** An entry that changes nobody's hold on the gate and is justified. */
  lemma EmitKeepsLedger(g: Gate, e: Entry)
    requires Ledger(g) && Justified(g.books.log, e)
    requires !e.Took? && !e.Shown? && !e.Gone? && !e.CheckCalled? && !e.Answered?
    ensures Ledger(g.Emit(e))
  {
    var h := g.Emit(e);
    EmitKeepsGood(g.books.log, e);
    LogOnlyGrows(g.books.log, e);
    hide Good, OldPinKnown, ChosenPin, Justified;
    forall c | c in h.books.checks ensures Waiting(h, c) {
      assert Waiting(g, c);
    }
  }

  lemma LogOnlyGrows(log: seq<Entry>, e: Entry)
    ensures forall f: nat, pin: string :: OldPinKnown(log, f, pin) ==> OldPinKnown(log + [e], f, pin)
    ensures forall pin: string, d: bool :: ChosenPin(log, pin, d) ==> ChosenPin(log + [e], pin, d)
    ensures !e.Took? && !e.Shown? && !e.Gone? ==> Owner(log + [e]) == Owner(log)
    ensures (e.Shown? || e.Gone? ==> Owner(log + [e]) == None) && (e.Took? ==> Owner(log + [e]) == Some(e.flow))
  {
    var more := log + [e];
    assert more[..|more| - 1] == log;
    assert forall x :: x in log ==> x in more;
    forall f: nat, pin: string | OldPinKnown(log, f, pin) ensures OldPinKnown(more, f, pin) {
      if Took(f, Some(pin)) !in log {
        var i, j :| 0 <= i < j < |log| && IsCheck(log[i], OldPin, f, pin)
                    && log[j] == Answered(log[i].check.request, true);
        assert more[i] == log[i] && more[j] == log[j];
      }
    }
  }

  /** Another page, or none, takes the gate: every check still out becomes void. */
  lemma TakenOver(g: Gate, h: Gate, e: Entry)
    requires Ledger(g) && (e == Shown || e == Gone)
    requires h.books.log == g.books.log + [e] && h.books.checks == g.books.checks
    requires h.books.flows == g.books.flows && h.books.request > g.books.request
    requires h.flow.verifyCheck.None? && h.flow.verifyOnOk.None?
    requires h.flow.changeCheck.None? && h.flow.changeSubmit.None?
    requires !h.page.verify && !h.page.change && !h.page.linkPaste
    ensures Ledger(h)
  {
    EmitKeepsGood(g.books.log, e);
    LogOnlyGrows(g.books.log, e);
    hide Good, OldPinKnown, ChosenPin, Justified;
    forall c | c in h.books.checks ensures Waiting(h, c) {
      assert Waiting(g, c);
    }
  }

  /** A settings flow takes the gate under a fresh name. */
  lemma FlowTakesGate(g: Gate, h: Gate, known: Option<string>)
    requires Ledger(g)
    requires h.books.log == g.books.log + [Took(g.books.flows, known)] && h.books.checks == g.books.checks
    requires h.books.flows == g.books.flows + 1
    requires h.books.request > g.books.request && h.page.verify != h.page.change && !h.page.linkPaste
    requires Stored(h.flow.verifyCheck, Some(g.books.flows), h.page.verify)
    requires Stored(h.flow.verifyOnOk, Some(g.books.flows), h.page.verify)
    requires Stored(h.flow.changeCheck, Some(g.books.flows), h.page.change)
    requires Stored(h.flow.changeSubmit, Some(g.books.flows), h.page.change)
    requires h.page.change && h.flow.changeStep == 1 ==> known == Some(h.flow.oldPin)
    ensures Ledger(h)
  {
    EmitKeepsGood(g.books.log, Took(g.books.flows, known));
    LogOnlyGrows(g.books.log, Took(g.books.flows, known));
    assert Took(g.books.flows, known) in h.books.log;
    hide Good, ChosenPin, Justified;
    forall c | c in h.books.checks ensures Waiting(h, c) {
      assert Waiting(g, c);
    }
  }

  /** Only checks that went out are answered. */
  lemma {:induction false} AnswersHaveChecks(log: seq<Entry>, request: nat)
    requires Good(log)
    requires forall x :: x in log && x.CheckCalled? ==> x.check.request <= request
    ensures forall x :: x in log && x.Answered? ==> x.request <= request
  {
    forall x | x in log && x.Answered? ensures x.request <= request {
      var i :| 0 <= i < |log| && log[i] == x;
      GoodAt(log, i);
      var y :| y in log[..i] && y.CheckCalled? && y.check.request == x.request;
      assert y in log;
    }
  }

  /** A check goes out for the flow that has the gate. */
  lemma AskedKeepsLedger(g: Gate, c: Check)
    requires Ledger(g) && g.page.active && c.request == g.books.request + 1 && Owner(g.books.log) == Some(c.flow)
    requires match c.kind
             case VerifyPin => g.page.verify
             case OldPin => g.page.change && g.flow.changeStep == 0
             case NewPin => g.page.change && g.flow.changeStep == 1
    ensures Ledger(g.Asked(c))
  {
    var h := g.Asked(c);
    AnswersHaveChecks(g.books.log, g.books.request);
    EmitKeepsGood(g.books.log, CheckCalled(c));
    LogOnlyGrows(g.books.log, CheckCalled(c));
    hide Good, OldPinKnown, ChosenPin, Justified;
    assert CheckCalled(c) in h.books.log;
    forall x | x in h.books.checks ensures Waiting(h, x) {
      if x in g.books.checks {
        assert Waiting(g, x);
        assert CheckCalled(x) in h.books.log;
      }
    }
    forall i, j | 0 <= i < j < |h.books.checks| ensures h.books.checks[i].request != h.books.checks[j].request {
      assert Waiting(g, g.books.checks[i]);
    }
    assert Closures(h) && Numbers(h) && Checks(h) && Pins(h);
  }

  // ----- Every event keeps the ledger -----

  lemma KnownSubmittedKeepsLedger(g: Gate, pin: string)
    requires Ledger(g) && g.page.active
    ensures Ledger(g.KnownSubmitted(pin))
  {
    assert g.page.linkPaste ==> ChosenPin(g.books.log, g.flow.pendingPin, g.flow.pendingDefault);
    assert g.flow.verifyCheck.Some? ==> g.flow.verifyCheck == Owner(g.books.log);
    assert g.flow.changeCheck.Some? ==> g.flow.changeCheck == Owner(g.books.log);
    hide Ledger, ChosenPin, Owner;
    if g.page.unlock {
      LedgerFrame(g, g.Busied(g.pad.keypad).Applied());
      EmitKeepsLedger(g.Busied(g.pad.keypad).Applied(), UnlockCalled(pin));
    } else if g.page.verify || (g.page.change && g.flow.changeStep == 0) {
      var check := if g.page.verify then g.flow.verifyCheck else g.flow.changeCheck;
      if check.Some? {
        LedgerFrame(g, g.Busied(true).Applied());
        AskedKeepsLedger(g.Busied(true).Applied(),
                         Check(if g.page.verify then VerifyPin else OldPin, check.value, pin, g.books.request + 1));
      }
    }
  }

  lemma NewSubmittedKeepsLedger(g: Gate, pin: string, confirm: string)
    requires Ledger(g) && g.page.active && g.InNewPinStep() && !g.page.linkPaste
    ensures Ledger(g.NewSubmitted(pin, confirm))
  {
    var h := g.Emit(Entered(pin, confirm));
    EmitKeepsLedger(g, Entered(pin, confirm));
    LogOnlyGrows(g.books.log, Entered(pin, confirm));
    assert g.flow.changeSubmit.Some? ==> g.page.change && g.flow.changeSubmit == Owner(g.books.log);
    assert g.flow.changeSubmit.Some? && g.flow.changeStep == 1 ==>
      OldPinKnown(h.books.log, g.flow.changeSubmit.value, g.flow.oldPin);
    assert Entered(pin, confirm) in h.books.log && h.books.log[|h.books.log| - 1] == Entered(pin, confirm);
    hide Ledger, OldPinKnown, PinDigitsOf, Owner;
    if pin != confirm || PinDigitsOf(pin).None? {
      LedgerFrame(h, g.NewSubmitted(pin, confirm));
    } else if g.page.create {
      if g.flow.link {
        LedgerFrame(h, g.NewSubmitted(pin, confirm));
      } else {
        LedgerFrame(h, h.Busied(g.pad.keypad).Applied());
        EmitKeepsLedger(h.Busied(g.pad.keypad).Applied(), CreateCalled(pin));
      }
    } else if g.flow.changeSubmit.Some? {
      var f := g.flow.changeSubmit.value;
      var b := h.Busied(true).Applied();
      LedgerFrame(h, b);
      EmitKeepsLedger(b, ChangeCalled(f, g.flow.oldPin, pin));
      LogOnlyGrows(b.books.log, ChangeCalled(f, g.flow.oldPin, pin));
      AskedKeepsLedger(b.Emit(ChangeCalled(f, g.flow.oldPin, pin)), Check(NewPin, f, pin, g.books.request + 1));
    }
  }

  lemma SubmittedKeepsLedger(g: Gate)
    requires Shape(g) && Ledger(g)
    ensures Ledger(g.Submitted())
  {
    var h := g.Pulled();
    assert h.page.active && h.InNewPinStep() ==> !h.page.linkPaste;
    hide Shape;
    LedgerFrame(g, h);
    LedgerFrame(g, h.Applied());
    if h.page.active && h.page.linkPaste && h.pad.payload != "" {
      EmitKeepsLedger(h.Applied(), LinkCalled(h.flow.pendingPin, h.pad.payload, h.flow.pendingDefault, h.flow.phrase));
    } else if h.page.active && h.InNewPinStep() {
      NewSubmittedKeepsLedger(h, h.pad.pin, h.pad.confirm);
    } else if h.page.active {
      KnownSubmittedKeepsLedger(h, h.pad.pin);
    }
  }

  lemma KeyedKeepsLedger(g: Gate, digit: int)
    requires Shape(g) && Ledger(g)
    ensures Ledger(g.Keyed(digit))
  {
    if g.PadTakesKeys() && 0 <= digit <= 9 {
      var key := ['0' + digit as char];
      var p := g.WithPin(g.pad.pin + key).Refreshed().Applied();
      var c := g.WithConfirm(g.pad.confirm + key).Refreshed().Applied();
      assert !g.page.linkPaste;
      hide Shape, Ledger, Gate.NewSubmitted, Gate.KnownSubmitted;
      PadFrame(g, p);
      PadFrame(g, c);
      hide Gate.Refreshed;
      if g.InNewPinStep() && g.pad.step != 0 {
        NewSubmittedKeepsLedger(c, c.pad.pin, c.pad.confirm);
      } else if !g.InNewPinStep() {
        KnownSubmittedKeepsLedger(p, p.pad.pin);
      }
    }
  }

  /** Dropping one check: the others stay as they are, and no other had its number. */
  lemma OthersStay(checks: seq<Check>, index: nat) returns (rest: seq<Check>)
    requires index < |checks|
    requires forall i, j :: 0 <= i < j < |checks| ==> checks[i].request != checks[j].request
    ensures rest == checks[..index] + checks[index + 1..]
    ensures forall i, j :: 0 <= i < j < |rest| ==> rest[i].request != rest[j].request
    ensures forall x :: x in rest ==> x in checks && x.request != checks[index].request
  {
    rest := checks[..index] + checks[index + 1..];
    assert forall i :: 0 <= i < |rest| ==> rest[i] == checks[if i < index then i else i + 1];
  }

  /** An answer arrives: its check is out no more. */
  lemma HeardKeepsLedger(g: Gate, index: nat, ok: bool)
    requires Ledger(g) && index < |g.books.checks|
    ensures
      var heard, c := g.Heard(index, ok), g.books.checks[index];
      && Ledger(heard) && Owner(heard.books.log) == Owner(g.books.log)
      && forall x :: x in heard.books.checks ==> x.request != c.request
  {
    var c := g.books.checks[index];
    var e := Answered(c.request, ok);
    var heard := g.Heard(index, ok);
    assert Waiting(g, c);
    EmitKeepsGood(g.books.log, e);
    LogOnlyGrows(g.books.log, e);
    hide Good, OldPinKnown, ChosenPin, Justified;
    var rest := OthersStay(g.books.checks, index);
    assert heard.books.checks == rest && heard.books.log == g.books.log + [e];
    forall x | x in rest ensures Waiting(heard, x) {
      assert Waiting(g, x);
    }
  }

  /** The old PIN was accepted: the flow goes on to the new one, with that PIN as the old one. */
  lemma OldPinAccepted(g: Gate, h: Gate, c: Check)
    requires Ledger(g) && g.page.active && g.page.change && Owner(g.books.log) == Some(c.flow) && c.kind == OldPin
    requires forall x :: x in g.books.checks ==> x.request != g.books.request
    requires OldPinKnown(g.books.log, c.flow, c.pin)
    requires h.books == g.books
    requires h.flow.verifyCheck == g.flow.verifyCheck && h.flow.verifyOnOk == g.flow.verifyOnOk
    requires h.flow.changeCheck == g.flow.changeCheck && h.flow.changeSubmit == g.flow.changeSubmit
    requires h.page.active && h.page.verify == g.page.verify && h.page.change && !h.page.linkPaste
    requires h.flow.changeStep == 1 && h.flow.oldPin == c.pin
    ensures Ledger(h)
  {
    hide Good, OldPinKnown, ChosenPin;
    forall x | x in h.books.checks ensures Waiting(h, x) {
      assert Waiting(g, x);
    }
  }

  lemma CheckThenAnswer(log: seq<Entry>, c: Check, ok: bool)
    requires CheckCalled(c) in log
    ensures c.kind == OldPin && ok ==> OldPinKnown(log + [Answered(c.request, ok)], c.flow, c.pin)
    ensures c.kind == VerifyPin && ok && Owner(log) == Some(c.flow) ==>
      JustVerified(log + [Answered(c.request, ok)] + [Gone], c.flow)
  {
    var i :| 0 <= i < |log| && log[i] == CheckCalled(c);
    var more := log + [Answered(c.request, ok)];
    assert more[i] == log[i] && more[|log|] == Answered(c.request, ok);
    assert IsCheck(more[i], OldPin, c.flow, c.pin) <==> c.kind == OldPin;
    var end := more + [Gone];
    assert end[..|end| - 2] == log && end[|end| - 2] == Answered(c.request, ok);
  }

  /** What the ledger says of the check that is answered, when it is the newest one. */
  lemma NewestCheck(g: Gate, c: Check)
    requires Shape(g) && Ledger(g) && c in g.books.checks
    ensures CheckCalled(c) in g.books.log
    ensures c.request == g.books.request && g.page.active ==>
      && Owner(g.books.log) == Some(c.flow) && !g.page.linkPaste
      && (c.kind == OldPin ==> g.page.change)
      && (g.flow.verifyOnOk.Some? ==> g.flow.verifyOnOk == Some(c.flow))
  {
    assert Waiting(g, c);
  }

  /** The newest check's answer acts on a gate that heard it. */
  lemma AnswerActsKeepsLedger(g: Gate, c: Check, ok: bool, dev: Device)
    requires Ledger(g) && g.page.active && c.request == g.books.request && !g.page.linkPaste
    requires Owner(g.books.log) == Some(c.flow)
    requires c.kind == OldPin ==> g.page.change
    requires forall x :: x in g.books.checks ==> x.request != g.books.request
    requires c.kind == OldPin && ok ==> OldPinKnown(g.books.log, c.flow, c.pin)
    requires c.kind == VerifyPin && ok ==> JustVerified(g.books.log + [Gone], c.flow)
    requires g.flow.verifyOnOk.Some? ==> g.flow.verifyOnOk == Some(c.flow)
    ensures Ledger(g.Acted(c, ok, dev))
  {
    hide Ledger, OldPinKnown, JustVerified, Owner;
    if !ok {
      LedgerFrame(g, g.Acted(c, ok, dev));
    } else if c.kind == OldPin {
      OldPinAccepted(g, g.Acted(c, ok, dev), c);
    } else {
      var h := g.Pulled().Busied(false);
      LedgerFrame(g, h);
      TakenOver(h, h.Closed(), Gone);
      if c.kind == VerifyPin && h.flow.verifyOnOk.Some? {
        EmitKeepsLedger(h.Closed(), OnOk(c.flow));
      }
    }
  }

  lemma CheckAnsweredKeepsLedger(g: Gate, index: nat, ok: bool, dev: Device)
    requires Shape(g) && Ledger(g)
    ensures Ledger(g.CheckAnswered(index, ok, dev))
  {
    if index < |g.books.checks| {
      var c := g.books.checks[index];
      var heard := g.Heard(index, ok);
      HeardKeepsLedger(g, index, ok);
      NewestCheck(g, c);
      CheckThenAnswer(g.books.log, c, ok);
      hide Shape, Ledger, OldPinKnown, JustVerified, Owner;
      if c.request == g.books.request && g.page.active {
        AnswerActsKeepsLedger(heard, c, ok, dev);
        hide Gate.Acted;
      }
    }
  }

  lemma UnlockShownKeepsLedger(g: Gate, dev: Device)
    requires Ledger(g)
    ensures Ledger(g.UnlockShown(dev))
  {
    hide Ledger;
    TakenOver(g, g.UnlockShown(dev), Shown);
  }

  lemma StartedOverKeepsLedger(g: Gate)
    requires Ledger(g)
    ensures Ledger(g.StartedOver())
  {
    hide Ledger, Gate.Refreshed;
    RefreshedKeepsRest();
    PadFrame(g, g.StartedOver());
  }

  lemma ErrorShownKeepsLedger(g: Gate, dev: Device)
    requires Ledger(g)
    ensures Ledger(g.ErrorShown(dev))
  {
    hide Ledger;
    if !g.page.active {
      UnlockShownKeepsLedger(g, dev);
    }
    StartedOverKeepsLedger(if g.page.active then g else g.UnlockShown(dev));
  }

  lemma PagesKeepLedger(g: Gate, link: bool)
    requires Ledger(g)
    ensures Ledger(g.Closed()) && Ledger(g.ForkShown()) && Ledger(g.ChooserShown(link))
  {
    hide Ledger;
    TakenOver(g, g.Closed(), Gone);
    TakenOver(g, g.ForkShown(), Shown);
    TakenOver(g, g.ChooserShown(link), Shown);
  }

  lemma VerifyShownKeepsLedger(g: Gate, hasCheck: bool, hasOnOk: bool, dev: Device)
    requires Ledger(g)
    ensures Ledger(g.VerifyShown(hasCheck, hasOnOk, dev))
  {
    hide Ledger;
    FlowTakesGate(g, g.VerifyShown(hasCheck, hasOnOk, dev), None);
  }

  lemma ChangeShownKeepsLedger(g: Gate, hasCheck: bool, hasChange: bool, current: Option<string>, dev: Device)
    requires Ledger(g)
    ensures Ledger(g.ChangeShown(hasCheck, hasChange, current, dev))
  {
    hide Ledger;
    FlowTakesGate(g, g.ChangeShown(hasCheck, hasChange, current, dev), current);
  }

  lemma DefaultPinUsedKeepsLedger(g: Gate)
    requires Shape(g) && Ledger(g)
    ensures Ledger(g.DefaultPinUsed())
  {
    if g.page.active && g.page.chooser {
      assert !g.page.linkPaste;
      hide Shape, Ledger;
      if g.flow.link {
        LedgerFrame(g, g.DefaultPinUsed());
      } else {
        LedgerFrame(g, g.Pulled().Applied());
        EmitKeepsLedger(g.Pulled().Applied(), DefaultCalled);
      }
    }
  }

  /** Events that only move the pad and the fields. */
  lemma PadEventsKeepLedger(g: Gate, e: Event)
    requires Ledger(g)
    requires e.SubmitDeclined? || e.SetWaiting? || e.BiometricReset? || e.UsePin? || e.Types? || e.Backspace?
             || e.KeypadOk? || e.UseText? || e.UseKeypad?
    ensures Ledger(Step(g, e))
  {
    hide Ledger, Gate.Refreshed;
    RefreshedKeepsRest();
    PadFrame(g, Step(g, e));
  }

  lemma RefreshedKeepsRest()
    ensures forall g: Gate :: var h := g.Refreshed(); h.page == g.page && h.flow == g.flow && h.books == g.books
  {
  }

  lemma SetPinKeepsLedger(g: Gate, dev: Device)
    requires Shape(g) && Ledger(g) && g.page.active && g.page.chooser
    ensures Ledger(g.CreateShown(dev))
  {
    assert !g.page.linkPaste;
    hide Shape;
    hide Ledger, ChosenPin, Gate.Refreshed;
    RefreshedKeepsRest();
    LedgerFrame(g, g.CreateShown(dev));
  }

  lemma PhraseFrame(g: Gate)
    requires Ledger(g)
    ensures Ledger(g.(flow := g.flow.(phrase := true)))
  {
    LedgerFrame(g, g.(flow := g.flow.(phrase := true)));
  }

  lemma PhraseKeepsLedger(g: Gate)
    requires Ledger(g)
    ensures Ledger(Step(g, IdentityPhrase))
  {
    hide Ledger, Gate.ChooserShown;
    PhraseFrame(g);
    PagesKeepLedger(g.(flow := g.flow.(phrase := true)), true);
  }

  lemma CancelledKeepsLedger(g: Gate)
    requires Ledger(g)
    ensures Ledger(g.Cancelled())
  {
    hide Ledger, Gate.Closed, Gate.Emit;
    if g.page.verify || g.page.change {
      PagesKeepLedger(g, false);
    } else {
      CancelCallKeepsLedger(g);
    }
  }

  /** Events that turn the gate to another page. */
  lemma PageEventsKeepLedger(g: Gate, e: Event)
    requires Ledger(g)
    requires e.ShowIdentityFork? || e.ShowChooser? || e.Dismiss? || e.IdentityNew? || e.IdentityLink?
             || e.IdentityPhrase? || e.Cancel?
    ensures Ledger(Step(g, e))
  {
    if e.IdentityPhrase? {
      PhraseKeepsLedger(g);
      hide Ledger, Step;
    } else if e.Cancel? {
      CancelledKeepsLedger(g);
      hide Ledger, Gate.Cancelled;
    } else {
      hide Ledger, Gate.Closed, Gate.ForkShown, Gate.ChooserShown;
      PagesKeepLedger(g, e.IdentityLink?);
    }
  }

  lemma CancelCallKeepsLedger(g: Gate)
    requires Ledger(g) && !g.page.verify && !g.page.change
    ensures Ledger(g.Emit(CancelCalled))
  {
    hide Good;
    EmitKeepsLedger(g, CancelCalled);
  }

  /** Events that open a flow, submit, or answer. */
  lemma FlowEventsKeepLedger(g: Gate, e: Event)
    requires Shape(g) && Ledger(g)
    requires e.ShowUnlock? || e.ShowVerify? || e.ShowChange? || e.ShowError? || e.SetPin? || e.UseDefaultPin?
             || e.Submit? || e.Key? || e.Answer?
    ensures Ledger(Step(g, e))
  {
    hide Shape, Ledger, Gate.Submitted, Gate.Keyed, Gate.CheckAnswered, Gate.ErrorShown, Gate.UnlockShown,
         Gate.VerifyShown, Gate.ChangeShown, Gate.DefaultPinUsed, Gate.CreateShown;
    match e
    case ShowUnlock(dev) => UnlockShownKeepsLedger(g, dev);
    case ShowVerify(hasCheck, hasOnOk, dev) => VerifyShownKeepsLedger(g, hasCheck, hasOnOk, dev);
    case ShowChange(hasCheck, hasChange, current, dev) =>
      ChangeShownKeepsLedger(g, hasCheck, hasChange, current, dev);
    case ShowError(dev) => ErrorShownKeepsLedger(g, dev);
    case UseDefaultPin => DefaultPinUsedKeepsLedger(g);
    case SetPin(dev) => if g.page.active && g.page.chooser { SetPinKeepsLedger(g, dev); }
    case Submit => SubmittedKeepsLedger(g);
    case Key(digit) => KeyedKeepsLedger(g, digit);
    case Answer(index, ok, dev) => CheckAnsweredKeepsLedger(g, index, ok, dev);
  }

  lemma StepKeepsLedger(g: Gate, e: Event)
    requires Shape(g) && Ledger(g)
    ensures Ledger(Step(g, e))
  {
    hide Shape, Ledger, Step;
    match e
    case ShowIdentityFork => PageEventsKeepLedger(g, e);
    case ShowChooser => PageEventsKeepLedger(g, e);
    case Dismiss => PageEventsKeepLedger(g, e);
    case IdentityNew => PageEventsKeepLedger(g, e);
    case IdentityLink => PageEventsKeepLedger(g, e);
    case IdentityPhrase => PageEventsKeepLedger(g, e);
    case Cancel => PageEventsKeepLedger(g, e);
    case SubmitDeclined => PadEventsKeepLedger(g, e);
    case SetWaiting(_) => PadEventsKeepLedger(g, e);
    case BiometricReset => PadEventsKeepLedger(g, e);
    case UsePin => PadEventsKeepLedger(g, e);
    case Types(_) => PadEventsKeepLedger(g, e);
    case Backspace => PadEventsKeepLedger(g, e);
    case KeypadOk => PadEventsKeepLedger(g, e);
    case UseText => PadEventsKeepLedger(g, e);
    case UseKeypad => PadEventsKeepLedger(g, e);
    case _ => FlowEventsKeepLedger(g, e);
  }

  // ----- Every run -----

  lemma StepKeepsInvariant(g: Gate, e: Event)
    requires Shape(g) && Ledger(g)
    ensures Shape(Step(g, e)) && Ledger(Step(g, e))
  {
    forall i | 0 <= i < |g.books.checks| ensures OldPinCheckFits(g, g.books.checks[i]) {
      NewestCheck(g, g.books.checks[i]);
    }
    hide Shape, Ledger, Step;
    StepKeepsShape(g, e);
    StepKeepsLedger(g, e);
  }

  lemma StartHasInvariant()
    ensures Shape(START) && Ledger(START)
  {
    BarePageHasShape(START);
    hide Shape, Modes;
    assert Good(START.books.log) && Closures(START) && Numbers(START) && Checks(START) && Pins(START);
  }

  lemma {:induction false} RunKeepsInvariant(events: seq<Event>)
    ensures Shape(Run(events)) && Ledger(Run(events))
  {
    hide Shape, Ledger, Step;
    if events == [] {
      StartHasInvariant();
    } else {
      RunKeepsInvariant(events[..|events| - 1]);
      StepKeepsInvariant(Run(events[..|events| - 1]), events[|events| - 1]);
    }
  }

  /** In every reachable state one mode is set while the gate is active, and the pad shows what is typed. */
  lemma OneModeAndAnExactPad(events: seq<Event>)
    ensures
      var g := Run(events);
      && Modes(g.page) == Count(g.page.active)
      && (g.pad.keypad ==> WithinLimits(g.pad, g.InNewPinStep()) && DotsAreExact(g.pad, g.InNewPinStep()))
  {
    RunKeepsInvariant(events);
  }

  /** The gate passes to another page or closes. */
  predicate Ends(e: Entry) { e.Took? || e.Shown? || e.Gone? }

  lemma {:induction false} OwnerSince(log: seq<Entry>, f: nat) returns (k: nat)
    requires Owner(log) == Some(f)
    ensures k < |log| && log[k].Took? && log[k].flow == f
    ensures forall m :: k < m < |log| ==> !Ends(log[m])
  {
    var n := |log| - 1;
    if log[n].Took? {
      k := n;
    } else {
      k := OwnerSince(log[..n], f);
      assert forall m :: k < m < n ==> log[m] == log[..n][m];
    }
  }

  /** No flow takes the gate twice. */
  lemma FlowsAreFresh(log: seq<Entry>, i: nat, j: nat)
    requires Good(log) && i < j < |log| && log[i].Took? && log[j].Took?
    ensures log[i].flow < log[j].flow
  {
    GoodAt(log, j);
    assert log[..j][i] == log[i];
  }

  /**
   * A verify's `on_ok` runs at most once, right after its own flow's check was accepted and the gate closed on it;
   * between that flow taking the gate and the answer, the gate never closed and nothing else took it.
   */
  lemma OnOkIsEarned(events: seq<Event>, i: nat)
    requires i < |Run(events).books.log| && Run(events).books.log[i].OnOk?
    ensures
      var log := Run(events).books.log;
      && (exists k, j :: Earned(log, i, k, j))
      && (forall m :: 0 <= m < |log| && m != i ==> log[m] != OnOk(log[i].flow))
  {
    RunKeepsInvariant(events);
    var log := Run(events).books.log;
    hide Run, Good;
    var k, j := OnOkInGoodLog(log, i);
    forall m | 0 <= m < |log| && m != i ensures log[m] != OnOk(log[i].flow) {
      if log[m].OnOk? {
        OnOkOnce(log, if m < i then m else i, if m < i then i else m);
      }
    }
  }

  /** What `OnOk` at place `i` goes back to: the flow took the gate at `k`, its check went out at `j`. */
  ghost predicate Earned(log: seq<Entry>, i: nat, k: nat, j: nat)
    requires i < |log| && log[i].OnOk?
  {
    && k < i - 2 && j < i - 2 && i >= 2 && log[i - 1] == Gone
    && log[k].Took? && log[k].flow == log[i].flow && (forall m :: k < m < i - 1 ==> !Ends(log[m]))
    && IsCheckOf(log[j], log[i].flow) && log[i - 2] == Answered(log[j].check.request, true)
  }

  lemma OnOkInGoodLog(log: seq<Entry>, i: nat) returns (k: nat, j: nat)
    requires Good(log) && i < |log| && log[i].OnOk?
    ensures Earned(log, i, k, j)
  {
    GoodAt(log, i);
    var f := log[i].flow;
    assert JustVerified(log[..i], f);
    assert log[..i][..i - 2] == log[..i - 2];
    hide Good, Justified, Owner;
    k := OwnerSince(log[..i - 2], f);
    assert forall m :: k < m < i - 2 ==> log[m] == log[..i - 2][m];
    j :| 0 <= j < i - 2 && IsCheckOf(log[..i][j], f) && log[..i][j].check.request == log[..i][i - 2].request;
  }

  lemma OnOkOnce(log: seq<Entry>, i: nat, m: nat)
    requires Good(log) && i < m < |log| && log[i].OnOk? && log[m].OnOk?
    ensures log[i].flow != log[m].flow
  {
    var k, _ := OnOkInGoodLog(log, i);
    var k', _ := OnOkInGoodLog(log, m);
    assert Ends(log[i - 1]);
    assert k' >= i - 1;
    FlowsAreFresh(log, k, k');
  }

  /**
   * Every PIN handed over was chosen properly: a created or changed PIN was entered twice just before and passes the
   * length rule, a linked one was entered twice in this run or is the default PIN flagged so; the old PIN given to a
   * change was accepted by that flow's own check or is the one the flow was opened with.
   */
  lemma PinsHandedOverAreChosen(events: seq<Event>, i: nat)
    requires i < |Run(events).books.log|
    ensures
      var log := Run(events).books.log;
      match log[i]
      case CreateCalled(pin) => i > 0 && log[i - 1] == Entered(pin, pin) && PinDigitsOf(pin).Some?
      case LinkCalled(pin, payload, isDefault, _) =>
        && payload != ""
        && if isDefault then pin == DEFAULT_PIN
           else PinDigitsOf(pin).Some? && exists j :: 0 <= j < i && log[j] == Entered(pin, pin)
      case ChangeCalled(f, current, next) =>
        && i > 0 && log[i - 1] == Entered(next, next) && PinDigitsOf(next).Some?
        && Owner(log[..i]) == Some(f) && OldPinKnown(log[..i], f, current)
      case _ => true
  {
    RunKeepsInvariant(events);
    var log := Run(events).books.log;
    hide Run, PinDigitsOf, OldPinKnown;
    GoodAt(log, i);
    if log[i].LinkCalled? && !log[i].isDefault {
      var j :| 0 <= j < i && log[..i][j] == Entered(log[i].pin, log[i].pin);
      assert log[j] == Entered(log[i].pin, log[i].pin);
    }
  }

  /** Cancel goes to the app only while no settings flow has the gate; a settings flow's cancel just closes it. */
  lemma SettingsCancelStaysInside(events: seq<Event>, i: nat)
    requires i < |Run(events).books.log| && Run(events).books.log[i].CancelCalled?
    ensures Owner(Run(events).books.log[..i]).None?
  {
    RunKeepsInvariant(events);
    hide Run, Owner;
    GoodAt(Run(events).books.log, i);
  }
}

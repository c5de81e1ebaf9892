/** The consent wizard: a consent-and-signatories dialog that, once completed, hands
    over to a separate bank-account dialog. */
module ConsentModal {
  import opened Signatories

  /** The steps this wizard records: consent, then bank. */
  datatype Step = Consent | Bank

  /** Everything the wizard holds, as one value. */
  datatype ModalState = ModalState(
    open: bool,
    consent: bool,
    signatories: seq<Signatory>,
    showWarning: bool,
    showBankModal: bool,
    hasStarted: bool,
    currentStep: Step)

  /** The state of a freshly mounted wizard. */
  const Initial: ModalState := ModalState(false, false, [Blank], false, false, false, Consent)

  /** The subscriber has begun: consent is ticked or some signatory row has text. */
  function Started(consent: bool, sigs: seq<Signatory>): (b: bool)
    ensures b <==> consent || exists i :: 0 <= i < |sigs| && (sigs[i].name != "" || sigs[i].title != "")
  {
    consent || AnyFilled(sigs)
  }

  /** What the Begin/Resume button opens. */
  datatype Opened = ConsentDialog | BankDialog

  class ConsentModalComponent {
    var open: bool
    var consent: bool
    var signatories: seq<Signatory>
    var showWarning: bool
    var showBankModal: bool
    var hasStarted: bool
    var currentStep: Step

    /** The fields, gathered into one value. */
    function Snapshot(): ModalState
      reads this
    {
      ModalState(open, consent, signatories, showWarning, showBankModal, hasStarted, currentStep)
    }

    /** At least one signatory row; a started wizard remembers it; the bank dialog is
        only ever shown once the consent step is behind. */
    ghost predicate Valid()
      reads this
    {
      && |signatories| >= 1
      && (Started(consent, signatories) ==> hasStarted)
      && (showBankModal ==> currentStep == Bank)
    }

    constructor ()
      ensures Valid()
      ensures Snapshot() == Initial
    {
      open, consent, signatories := false, false, [Blank];
      showWarning, showBankModal, hasStarted, currentStep := false, false, false, Consent;
      assert !AnyFilled([Blank]);
    }

    /** The effect that marks the wizard as started; it runs after every handler that
        changes the consent flag or the signatories.  It only ever sets the flag. */
    method RefreshStarted()
      modifies this`hasStarted
      ensures hasStarted == (old(hasStarted) || Started(consent, signatories))
    {
      if Started(consent, signatories) {
        hasStarted := true;
      }
    }

    /** The consent checkbox reports its new value. */
    method SetConsent(checked: bool)
      requires Valid()
      modifies this
      ensures Valid()
      ensures Snapshot() == old(Snapshot()).(
                consent := checked,
                hasStarted := old(hasStarted) || Started(checked, old(signatories)))
    {
      consent := checked;
      RefreshStarted();
    }

    /** "Add Signatory": append a blank row. */
    method AddSignatory()
      requires Valid()
      modifies this
      ensures Valid()
      ensures |signatories| == |old(signatories)| + 1
      ensures signatories[..|old(signatories)|] == old(signatories)
      ensures signatories[|old(signatories)|] == Blank
      ensures Snapshot() == old(Snapshot()).(
                signatories := old(signatories) + [Blank],
                hasStarted := old(hasStarted) || Started(old(consent), old(signatories) + [Blank]))
    {
      signatories := signatories + [Blank];
      RefreshStarted();
    }

    /** An edit of column `field` of row `index` in the signatories table. */
    method UpdateSignatory(index: int, field: Field, value: string)
      requires Valid()
      modifies this
      ensures Valid()
      ensures |signatories| == |old(signatories)|
      ensures forall i :: 0 <= i < |signatories| && i != index ==> signatories[i] == old(signatories)[i]
      ensures 0 <= index < |signatories| ==>
                signatories[index] == WithField(old(signatories)[index], field, value)
      ensures Snapshot() == old(Snapshot()).(
                signatories := Updated(old(signatories), index, field, value),
                hasStarted := old(hasStarted) || Started(old(consent), Updated(old(signatories), index, field, value)))
    {
      signatories := Updated(signatories, index, field, value);
      RefreshStarted();
    }

    /** "Submit": refuse, showing the warning, when consent is missing, then when some
        signatory has no name; otherwise close this dialog, record the bank step and
        show the bank dialog. */
    method HandleSubmit()
      requires Valid()
      modifies this
      ensures Valid()
      ensures !old(consent) ==> Snapshot() == old(Snapshot()).(showWarning := true)
      ensures AnyUnnamed(old(signatories)) ==> Snapshot() == old(Snapshot()).(showWarning := true)
      ensures ReadyToSubmit(old(consent), old(signatories)) ==>
                Snapshot() == old(Snapshot()).(
                  open := false, showWarning := false, currentStep := Bank, showBankModal := true)
      ensures currentStep == Bank <==> old(currentStep) == Bank || ReadyToSubmit(old(consent), old(signatories))
    {
      if !consent {
        showWarning := true;
        return;
      }
      if AnyUnnamed(signatories) {
        showWarning := true;
        return;
      }
      open := false;
      showWarning := false;
      currentStep := Bank;
      showBankModal := true;
    }

    /** The dialog reports that it opens or closes; closing also dismisses the warning. */
    method HandleOpenChange(newOpen: bool)
      requires Valid()
      modifies this
      ensures Valid()
      ensures newOpen ==> Snapshot() == old(Snapshot()).(open := true)
      ensures !newOpen ==> Snapshot() == old(Snapshot()).(open := false, showWarning := false)
    {
      open := newOpen;
      if !newOpen {
        showWarning := false;
      }
    }

    /** The "Close" button of the warning. */
    method DismissWarning()
      requires Valid()
      modifies this
      ensures Valid()
      ensures Snapshot() == old(Snapshot()).(showWarning := false)
    {
      showWarning := false;
    }

    /** The bank dialog is closed without completing it. */
    method HandleBankModalClose()
      requires Valid()
      modifies this
      ensures Valid()
      ensures Snapshot() == old(Snapshot()).(showBankModal := false)
    {
      showBankModal := false;
    }

    /** The bank dialog reports that it was completed. */
    method HandleBankComplete()
      requires Valid()
      modifies this
      ensures Valid()
      ensures Snapshot() == old(Snapshot()).(hasStarted := true, showBankModal := false)
    {
      hasStarted := true;
      showBankModal := false;
    }

    /** "Begin"/"Resume": on the bank step show the bank dialog, otherwise open the
        consent dialog.  Returns which of the two it brought up. */
    method HandleBeginResume() returns (shown: Opened)
      requires Valid()
      modifies this
      ensures Valid()
      ensures shown == BankDialog <==> old(currentStep) == Bank
      ensures shown == BankDialog ==> Snapshot() == old(Snapshot()).(showBankModal := true)
      ensures shown == ConsentDialog ==> Snapshot() == old(Snapshot()).(open := true)
    {
      if currentStep == Bank {
        showBankModal := true;
        shown := BankDialog;
      } else {
        open := true;
        shown := ConsentDialog;
      }
    }
  }

  /** Completing consent and then closing the bank dialog leaves the wizard on the bank
      step, so "Resume" brings the bank dialog back rather than the consent form. */
  method ResumeReturnsToBank(name: string) returns (w: ConsentModalComponent, shown: Opened)
    requires name != ""
    ensures fresh(w) && w.Valid()
    ensures shown == BankDialog && w.showBankModal && !w.open && w.currentStep == Bank
  {
    w := new ConsentModalComponent();
    shown := w.HandleBeginResume();
    w.SetConsent(true);
    w.UpdateSignatory(0, Name, name);
    w.HandleSubmit();
    w.HandleBankModalClose();
    shown := w.HandleBeginResume();
  }
}

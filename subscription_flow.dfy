/** The subscription wizard: one dialog that walks the subscriber from the consent
    step through the bank-account step to the accredited-investor step. */
module SubscriptionFlow {
  import opened Signatories
  import opened Accreditation
  import opened BankDetails

  /** The steps the wizard can be on. */
  datatype Step = Consent | Bank | Accredited

  /** The forms the dialog can show. */
  datatype Form = ConsentForm | BankAccountForm | AccreditedForm

  /** The form the dialog shows on each step. */
  function FormFor(step: Step): (f: Form)
    ensures f == ConsentForm <==> step == Consent
    ensures f == BankAccountForm <==> step == Bank
    ensures f == AccreditedForm <==> step == Accredited
  {
    match step
    case Consent => ConsentForm
    case Bank => BankAccountForm
    case Accredited => AccreditedForm
  }

  /** Everything the wizard holds, as one value. */
  datatype FlowState = FlowState(
    open: bool,
    currentStep: Step,
    consent: bool,
    signatories: seq<Signatory>,
    showWarning: bool,
    hasStarted: bool,
    bankFormData: BankForm,
    accreditedStatus: AccreditedStatus)

  /** The state of a freshly mounted wizard. */
  const Initial: FlowState :=
    FlowState(false, Consent, false, [Blank], false, false, EmptyForm, NoneTicked)

  /** The subscriber has begun: consent is ticked, some signatory row has text, or
      some bank input has text. */
  function Started(consent: bool, sigs: seq<Signatory>, bank: BankForm): (b: bool)
    ensures b <==> consent
                   || (exists i :: 0 <= i < |sigs| && (sigs[i].name != "" || sigs[i].title != ""))
                   || (exists f :: Value(bank, f) != "")
  {
    consent || AnyFilled(sigs) || AnyEntered(bank)
  }

  /** The fresh wizard has not started, so its Begin button reads "Begin". */
  lemma InitialNotStarted()
    ensures !Started(Initial.consent, Initial.signatories, Initial.bankFormData)
  {
    assert Value(EmptyForm, BankName) == "";
  }

  class SubscriptionFlowModal {
    var open: bool
    var currentStep: Step
    var consent: bool
    var signatories: seq<Signatory>
    var showWarning: bool
    var hasStarted: bool
    var bankFormData: BankForm
    var accreditedStatus: AccreditedStatus

    /** The fields, gathered into one value. */
    function Snapshot(): FlowState
      reads this
    {
      FlowState(open, currentStep, consent, signatories, showWarning, hasStarted,
                bankFormData, accreditedStatus)
    }

    /** There is always at least one signatory row, and once the subscriber has
        started the wizard remembers it. */
    ghost predicate Valid()
      reads this
    {
      |signatories| >= 1 && (Started(consent, signatories, bankFormData) ==> hasStarted)
    }

    constructor ()
      ensures Valid()
      ensures Snapshot() == Initial
    {
      open, currentStep, consent, signatories := false, Consent, false, [Blank];
      showWarning, hasStarted := false, false;
      bankFormData, accreditedStatus := EmptyForm, NoneTicked;
      InitialNotStarted();
    }

    /** The effect that marks the wizard as started; it runs after every handler that
        changes the consent flag, the signatories or the bank form.  It only ever sets
        the flag. */
    method RefreshStarted()
      modifies this`hasStarted
      ensures hasStarted == (old(hasStarted) || Started(consent, signatories, bankFormData))
    {
      if Started(consent, signatories, bankFormData) {
        hasStarted := true;
      }
    }

    /** The dialog reports that it opens or closes; the Begin/Resume button opens it. */
    method SetOpen(newOpen: bool)
      requires Valid()
      modifies this
      ensures Valid()
      ensures Snapshot() == old(Snapshot()).(open := newOpen)
    {
      open := newOpen;
    }

    /** The consent checkbox reports its new value. */
    method SetConsent(checked: bool)
      requires Valid()
      modifies this
      ensures Valid()
      ensures Snapshot() == old(Snapshot()).(
                consent := checked,
                hasStarted := old(hasStarted) || Started(checked, old(signatories), old(bankFormData)))
    {
      consent := checked;
      RefreshStarted();
    }

    /** "Next" on the consent form: leave for the bank step only when consent is given
        and every signatory is named; otherwise stay and show the warning. */
    method HandleConsentSubmit()
      requires Valid()
      modifies this
      ensures Valid()
      ensures ReadyToSubmit(old(consent), old(signatories)) ==>
                Snapshot() == old(Snapshot()).(showWarning := false, currentStep := Bank)
      ensures !ReadyToSubmit(old(consent), old(signatories)) ==>
                Snapshot() == old(Snapshot()).(showWarning := true)
      ensures old(currentStep) == Consent ==>
                (currentStep == Bank <==> ReadyToSubmit(old(consent), old(signatories)))
    {
      if !consent || AnyUnnamed(signatories) {
        showWarning := true;
        return;
      }
      showWarning := false;
      currentStep := Bank;
    }

    /** "Submit" on the bank form: move to the accredited step, with no check on the
        bank inputs. */
    method HandleBankSubmit()
      requires Valid()
      modifies this
      ensures Valid()
      ensures Snapshot() == old(Snapshot()).(currentStep := Accredited)
    {
      currentStep := Accredited;
    }

    /** "Submit" on the accredited form: close the dialog and keep everything else. */
    method HandleAccreditedSubmit()
      requires Valid()
      modifies this
      ensures Valid()
      ensures Snapshot() == old(Snapshot()).(open := false)
    {
      open := false;
    }

    /** A click on the checkbox of criterion `key`. */
    method HandleAccreditedStatusChange(key: Criterion)
      requires Valid()
      modifies this
      ensures Valid()
      ensures Ticked(accreditedStatus, key) == !Ticked(old(accreditedStatus), key)
      ensures forall j :: j != key ==> Ticked(accreditedStatus, j) == Ticked(old(accreditedStatus), j)
      ensures Snapshot() == old(Snapshot()).(accreditedStatus := Toggled(old(accreditedStatus), key))
    {
      accreditedStatus := Toggled(accreditedStatus, key);
    }

    /** "Add Signatory": append a blank row. */
    method AddSignatory()
      requires Valid()
      modifies this
      ensures Valid()
      ensures |signatories| == |old(signatories)| + 1
      ensures signatories[..|old(signatories)|] == old(signatories)
      ensures signatories[|old(signatories)|] == Blank
      ensures Snapshot() == old(Snapshot()).(
                signatories := old(signatories) + [Blank],
                hasStarted := old(hasStarted) || Started(old(consent), old(signatories) + [Blank], old(bankFormData)))
    {
      signatories := signatories + [Blank];
      RefreshStarted();
    }

    /** An edit of column `field` of row `index` in the signatories table. */
    method UpdateSignatory(index: int, field: Field, value: string)
      requires Valid()
      modifies this
      ensures Valid()
      ensures |signatories| == |old(signatories)|
      ensures forall i :: 0 <= i < |signatories| && i != index ==> signatories[i] == old(signatories)[i]
      ensures 0 <= index < |signatories| ==>
                signatories[index] == WithField(old(signatories)[index], field, value)
      ensures Snapshot() == old(Snapshot()).(
                signatories := Updated(old(signatories), index, field, value),
                hasStarted := old(hasStarted)
                              || Started(old(consent), Updated(old(signatories), index, field, value), old(bankFormData)))
    {
      signatories := Updated(signatories, index, field, value);
      RefreshStarted();
    }

    /** Input `name` of the bank form reports the text `value`. */
    method HandleBankFormChange(name: BankField, value: string)
      requires Valid()
      modifies this
      ensures Valid()
      ensures Value(bankFormData, name) == value
      ensures forall g :: g != name ==> Value(bankFormData, g) == Value(old(bankFormData), g)
      ensures Snapshot() == old(Snapshot()).(
                bankFormData := Changed(old(bankFormData), name, value),
                hasStarted := old(hasStarted)
                              || Started(old(consent), old(signatories), Changed(old(bankFormData), name, value)))
    {
      bankFormData := Changed(bankFormData, name, value);
      RefreshStarted();
    }
  }

  /** The path through the wizard: from a fresh wizard, ticking consent, naming the
      only signatory and pressing Next reaches the bank step; Submit there reaches
      the accredited step; Submit there closes the dialog on that step. */
  method HappyPath(name: string) returns (w: SubscriptionFlowModal)
    requires name != ""
    ensures fresh(w) && w.Valid()
    ensures w.currentStep == Accredited && !w.open && !w.showWarning && w.hasStarted
    ensures w.signatories == [Signatory(name, "")]
  {
    w := new SubscriptionFlowModal();
    w.SetOpen(true);
    w.SetConsent(true);
    w.UpdateSignatory(0, Name, name);
    w.HandleConsentSubmit();
    w.HandleBankSubmit();
    w.HandleAccreditedSubmit();
  }
}

/** The bank-account form of the subscription wizard: four text inputs, each
    identified by its input name. */
module BankDetails {

  /** The four inputs, by the name each carries in the form. */
  datatype BankField = BankName | AccountHolderName | AccountNumber | RoutingNumber

  /** What the subscriber has typed into the four inputs. */
  datatype BankForm = BankForm(
    bankName: string,
    accountHolderName: string,
    accountNumber: string,
    routingNumber: string)

  /** The form as the wizard first shows it: every input empty. */
  const EmptyForm: BankForm := BankForm("", "", "", "")

  /** The text in input `f`. */
  function Value(b: BankForm, f: BankField): string
  {
    match f
    case BankName => b.bankName
    case AccountHolderName => b.accountHolderName
    case AccountNumber => b.accountNumber
    case RoutingNumber => b.routingNumber
  }

  /** The form after input `f` reports the text `v`. */
  function Changed(b: BankForm, f: BankField, v: string): (r: BankForm)
    ensures Value(r, f) == v
    ensures forall g :: g != f ==> Value(r, g) == Value(b, g)
  {
    match f
    case BankName => b.(bankName := v)
    case AccountHolderName => b.(accountHolderName := v)
    case AccountNumber => b.(accountNumber := v)
    case RoutingNumber => b.(routingNumber := v)
  }

  /** Some input holds non-empty text (the values of the form, scanned in order). */
  function AnyEntered(b: BankForm): (r: bool)
    ensures r <==> exists f :: Value(b, f) != ""
  {
    var r := b.bankName != "" || b.accountHolderName != "" || b.accountNumber != "" || b.routingNumber != "";
    assert r ==> Value(b, BankName) != "" || Value(b, AccountHolderName) != ""
                 || Value(b, AccountNumber) != "" || Value(b, RoutingNumber) != "";
    r
  }

  /** Typing non-empty text into any input makes the form count as entered. */
  lemma ChangedNonEmptyEntered(b: BankForm, f: BankField, v: string)
    requires v != ""
    ensures AnyEntered(Changed(b, f, v))
  {
    assert Value(Changed(b, f, v), f) != "";
  }
}

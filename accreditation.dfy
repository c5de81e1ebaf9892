/** The accredited-investor checklist of the subscription wizard: six independent
    yes/no criteria, each flipped by its own checkbox. */
module Accreditation {

  /** The six statutory criteria, in the order the form lists them. */
  datatype Criterion =
    | Income
    | NetWorth
    | SeriesExams
    | BusinessOwner
    | Executive
    | InvestmentProfessional

  /** Which criteria the subscriber has ticked. */
  datatype AccreditedStatus = AccreditedStatus(
    income: bool,
    netWorth: bool,
    seriesExams: bool,
    businessOwner: bool,
    executive: bool,
    investmentProfessional: bool)

  /** The checklist as the wizard first shows it: nothing ticked. */
  const NoneTicked: AccreditedStatus := AccreditedStatus(false, false, false, false, false, false)

  /** Whether criterion `k` is ticked in `a`. */
  function Ticked(a: AccreditedStatus, k: Criterion): bool
  {
    match k
    case Income => a.income
    case NetWorth => a.netWorth
    case SeriesExams => a.seriesExams
    case BusinessOwner => a.businessOwner
    case Executive => a.executive
    case InvestmentProfessional => a.investmentProfessional
  }

  /** Two checklists that agree on every criterion are the same checklist. */
  lemma Extensionality(a: AccreditedStatus, b: AccreditedStatus)
    requires forall k :: Ticked(a, k) == Ticked(b, k)
    ensures a == b
  {
    assert Ticked(a, Income) == Ticked(b, Income);
    assert Ticked(a, NetWorth) == Ticked(b, NetWorth);
    assert Ticked(a, SeriesExams) == Ticked(b, SeriesExams);
    assert Ticked(a, BusinessOwner) == Ticked(b, BusinessOwner);
    assert Ticked(a, Executive) == Ticked(b, Executive);
    assert Ticked(a, InvestmentProfessional) == Ticked(b, InvestmentProfessional);
  }

  /** The checklist after clicking the checkbox of criterion `k`. */
  function Toggled(a: AccreditedStatus, k: Criterion): (r: AccreditedStatus)
    ensures Ticked(r, k) == !Ticked(a, k)
    ensures forall j :: j != k ==> Ticked(r, j) == Ticked(a, j)
  {
    match k
    case Income => a.(income := !a.income)
    case NetWorth => a.(netWorth := !a.netWorth)
    case SeriesExams => a.(seriesExams := !a.seriesExams)
    case BusinessOwner => a.(businessOwner := !a.businessOwner)
    case Executive => a.(executive := !a.executive)
    case InvestmentProfessional => a.(investmentProfessional := !a.investmentProfessional)
  }

  /** Clicking the same checkbox twice restores the checklist. */
  lemma ToggleTwice(a: AccreditedStatus, k: Criterion)
    ensures Toggled(Toggled(a, k), k) == a
  {
    var r := Toggled(Toggled(a, k), k);
    forall j ensures Ticked(r, j) == Ticked(a, j) {
    }
    Extensionality(r, a);
  }
}

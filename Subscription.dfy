/** Subscription plans and the classification of a change from one plan to
    another. Amounts and monthly credits are whole numbers (yuan and
    credits). */
module Subscription {

  datatype PlanChangeType = Upgrade | Downgrade | Switch

  datatype Mode = Recurring | Addon

  /** A plan or a one-off top-up package; `title` is the translated name. */
  datatype PricingPlan = PricingPlan(id: string, title: string, amount: int, mode: Mode, creditPerMonth: int)

  datatype PlanChangeInfo = PlanChangeInfo(
    currentPlan: PricingPlan,
    targetPlan: PricingPlan,
    changeType: PlanChangeType,
    priceDifference: int,
    creditDifference: int,
    effectiveImmediately: bool)

  /** A higher price is an upgrade, a lower one a downgrade, the same price a switch. */
  function CalculatePlanChangeType(currentAmount: int, targetAmount: int): (t: PlanChangeType)
    ensures t == Upgrade <==> targetAmount > currentAmount
    ensures t == Downgrade <==> targetAmount < currentAmount
    ensures t == Switch <==> targetAmount == currentAmount
  {
    if targetAmount > currentAmount then Upgrade
    else if targetAmount < currentAmount then Downgrade
    else Switch
  }

  /** The classification of the reverse change. */
  function Reverse(t: PlanChangeType): PlanChangeType
  {
    match t
    case Upgrade => Downgrade
    case Downgrade => Upgrade
    case Switch => Switch
  }

  /** Going back is the opposite change: swapping the arguments swaps
      Upgrade and Downgrade and keeps Switch. */
  lemma ChangeTypeSwap(currentAmount: int, targetAmount: int)
    ensures CalculatePlanChangeType(targetAmount, currentAmount) == Reverse(CalculatePlanChangeType(currentAmount, targetAmount))
  {
  }

  /** The full description of a change: the two plans unchanged, the signed
      price and credit differences, and whether it applies at once (only
      upgrades do; the others wait for the next billing period). */
  function GetPlanChangeInfo(current: PricingPlan, target: PricingPlan): (info: PlanChangeInfo)
    ensures info.currentPlan == current && info.targetPlan == target
    ensures info.changeType == CalculatePlanChangeType(current.amount, target.amount)
    ensures current.amount + info.priceDifference == target.amount
    ensures current.creditPerMonth + info.creditDifference == target.creditPerMonth
    ensures info.priceDifference > 0 <==> info.changeType == Upgrade
    ensures info.priceDifference == 0 <==> info.changeType == Switch
    ensures info.priceDifference < 0 <==> info.changeType == Downgrade
    ensures info.effectiveImmediately <==> info.changeType == Upgrade
  {
    var changeType := CalculatePlanChangeType(current.amount, target.amount);
    PlanChangeInfo(
      current,
      target,
      changeType,
      target.amount - current.amount,
      target.creditPerMonth - current.creditPerMonth,
      changeType == Upgrade)
  }

  /** The credit difference does not depend on the price classification:
      two targets with the same credits give the same credit difference,
      whatever their prices. */
  lemma CreditDifferenceIndependent(current: PricingPlan, t1: PricingPlan, t2: PricingPlan)
    requires t1.creditPerMonth == t2.creditPerMonth
    ensures GetPlanChangeInfo(current, t1).creditDifference == GetPlanChangeInfo(current, t2).creditDifference
  {
  }
}

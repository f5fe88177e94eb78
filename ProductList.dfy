/** The purchase screen: the shipped price table, the member's active
    plan, the automatic first selection, what pressing the footer button
    does, and which label and visibility the button gets. Translation
    `t(key)` is modelled as returning its key. */
module ProductList {
  import opened Wrappers
  import opened Subscription
  import Strings

  /** The title a plan is displayed with: `t("payment." + id)`. */
  function TitleFor(id: string): (title: string)
    ensures "payment." <= title && title[8..] == id
  {
    "payment." + id
  }

  /** The recurring plans, in display order, with their titles. */
  const Plans: seq<PricingPlan> := [
    PricingPlan("l1_monthly", TitleFor("l1_monthly"), 38, Recurring, 500),
    PricingPlan("l2_monthly", TitleFor("l2_monthly"), 98, Recurring, 1500),
    PricingPlan("l3_monthly", TitleFor("l3_monthly"), 399, Recurring, 7000)
  ]

  /** The one-off top-up packages, in display order, with their titles. */
  const Packages: seq<PricingPlan> := [
    PricingPlan("l1_pkg", TitleFor("l1_pkg"), 48, Addon, 500),
    PricingPlan("l2_pkg", TitleFor("l2_pkg"), 158, Addon, 2000),
    PricingPlan("l3_pkg", TitleFor("l3_pkg"), 358, Addon, 5000),
    PricingPlan("l4_pkg", TitleFor("l4_pkg"), 358, Addon, 5000)
  ]

  /** The member record as fetched; an empty `planId` counts as none. */
  datatype MemberState = MemberState(isActive: bool, planId: Option<string>)

  /** `memberState?.isActive`: false while the record has not arrived. */
  predicate IsMember(ms: Option<MemberState>)
  {
    ms.Some? && ms.value.isActive
  }

  /** `plans.find(p => p.id === id)`. */
  function FindPlan(plans: seq<PricingPlan>, id: string): (r: Option<PricingPlan>)
    ensures r.None? <==> forall i :: 0 <= i < |plans| ==> plans[i].id != id
    ensures r.Some? ==> r.value.id == id && r.value in plans
    ensures r.Some? ==> exists i :: 0 <= i < |plans| && plans[i] == r.value && forall j :: 0 <= j < i ==> plans[j].id != id
  {
    if plans == [] then None
    else if plans[0].id == id then Some(plans[0])
    else
      var r := FindPlan(plans[1..], id);
      if r.Some? then
        var i :| 0 <= i < |plans[1..]| && plans[1..][i] == r.value && forall j :: 0 <= j < i ==> plans[1..][j].id != id;
        assert plans[i + 1] == r.value;
        r
      else r
  }

  /** The plan the member currently holds: none unless the user is a member
      with a (non-empty) plan id, and then the table plan with that id, if any. */
  function ActivePlan(ms: Option<MemberState>): (r: Option<PricingPlan>)
    ensures r.Some? ==> IsMember(ms) && ms.value.planId.Some? && ms.value.planId.value != ""
    ensures r.Some? ==> r.value in Plans && r.value.id == ms.value.planId.value
    ensures IsMember(ms) && ms.value.planId.Some? && (exists i :: 0 <= i < |Plans| && Plans[i].id == ms.value.planId.value) ==> r.Some?
  {
    if !IsMember(ms) || ms.value.planId.None? || ms.value.planId.value == "" then None
    else FindPlan(Plans, ms.value.planId.value)
  }

  /** The pending change: none without an active plan or a selection, or when
      the selection is the active plan itself. */
  function ChangeInfo(active: Option<PricingPlan>, selected: Option<PricingPlan>): (r: Option<PlanChangeInfo>)
    ensures r.None? <==> active.None? || selected.None? || active.value.id == selected.value.id
    ensures r.Some? ==> r.value == GetPlanChangeInfo(active.value, selected.value)
  {
    if active.None? || selected.None? || active.value.id == selected.value.id then None
    else Some(GetPlanChangeInfo(active.value, selected.value))
  }

  /** In the shipped table every later plan costs strictly more. */
  lemma PlansAscending(i: int, j: int)
    requires 0 <= i < j < |Plans|
    ensures Plans[i].amount < Plans[j].amount
  {
  }

  /** So moving from a plan to any later one in the table is an upgrade,
      applied immediately. */
  lemma LaterPlanIsUpgrade(i: int, j: int)
    requires 0 <= i < j < |Plans|
    ensures ChangeInfo(Some(Plans[i]), Some(Plans[j])).Some?
    ensures ChangeInfo(Some(Plans[i]), Some(Plans[j])).value.changeType == Upgrade
    ensures ChangeInfo(Some(Plans[i]), Some(Plans[j])).value.effectiveImmediately
  {
    PlansAscending(i, j);
    assert Plans[i].id != Plans[j].id by {
      assert Plans[i].id[1] != Plans[j].id[1];
    }
  }

  /** What pressing the footer (or top-up) button leads to. */
  datatype SubmitAction =
    | NoAction                     // nothing selected
    | AlertNeedSubscription        // add-on package chosen by a non-member
    | ConfirmChange                // the change-confirmation dialog opens
    | Submit(plan: PricingPlan)    // `onSubmit(plan)` is called

  /** `handleSubmit(item)`: `item || selectedPlan` is what gets bought; the
      change test reads `planChangeInfo`, which is computed from the
      selection. */
  function SubmitDecision(ms: Option<MemberState>, selected: Option<PricingPlan>, item: Option<PricingPlan>): (a: SubmitAction)
    ensures item.None? && selected.None? <==> a == NoAction
    ensures a.Submit? ==> a.plan == (if item.Some? then item.value else selected.value)
    ensures a.Submit? ==> IsMember(ms) || a.plan.mode == Recurring
    ensures a == ConfirmChange ==> IsMember(ms) && ChangeInfo(ActivePlan(ms), selected).Some?
  {
    var plan := if item.Some? then item else selected;
    if plan.None? then NoAction
    else if plan.value.mode == Addon && !IsMember(ms) then AlertNeedSubscription
    else if IsMember(ms) && plan.value.mode == Recurring
            && (ActivePlan(ms).None? || plan.value.id != ActivePlan(ms).value.id)
            && ChangeInfo(ActivePlan(ms), selected).Some? then ConfirmChange
    else
      assert plan.value.mode == Addon ==> IsMember(ms);
      Submit(plan.value)
  }

  /** A non-member buying an add-on package is stopped with an alert. */
  lemma AddonNeedsMembership(ms: Option<MemberState>, selected: Option<PricingPlan>, package: PricingPlan)
    requires package.mode == Addon && !IsMember(ms)
    ensures SubmitDecision(ms, selected, Some(package)) == AlertNeedSubscription
  {
  }

  /** A member who selected a different recurring plan is asked to confirm
      instead of buying straight away. */
  lemma ChangeNeedsConfirmation(ms: Option<MemberState>, selected: PricingPlan)
    requires IsMember(ms) && ActivePlan(ms).Some?
    requires selected.mode == Recurring && selected.id != ActivePlan(ms).value.id
    ensures SubmitDecision(ms, Some(selected), None) == ConfirmChange
  {
  }

  /** The footer button's label. */
  datatype ButtonText =
    | Paying
    | SelectPlan
    | TopUp(title: string, amount: int)
    | SubscribeTo(title: string, amount: int)
    | CurrentPlan(title: string)
    | ChangeTo(upgrade: bool, title: string, amount: int)

  /** `getSubmitButtonText()`. */
  function SubmitButtonText(loading: bool, ms: Option<MemberState>, selected: Option<PricingPlan>): (b: ButtonText)
    ensures b.Paying? <==> loading
    ensures b.SelectPlan? <==> !loading && selected.None?
    ensures b.TopUp? <==> !loading && selected.Some? && selected.value.mode == Addon
    ensures b.TopUp? ==> b == TopUp(selected.value.title, selected.value.amount)
    ensures !loading && selected.Some? && selected.value.mode != Addon && !IsMember(ms) ==>
      b == SubscribeTo(selected.value.title, selected.value.amount)
    ensures b.CurrentPlan? <==>
      !loading && selected.Some? && selected.value.mode != Addon && IsMember(ms)
      && ActivePlan(ms).Some? && selected.value.id == ActivePlan(ms).value.id
    ensures b.CurrentPlan? ==> b == CurrentPlan(selected.value.title)
    ensures b.ChangeTo? <==>
      !loading && selected.Some? && selected.value.mode != Addon && IsMember(ms)
      && !(ActivePlan(ms).Some? && selected.value.id == ActivePlan(ms).value.id)
      && ChangeInfo(ActivePlan(ms), selected).Some?
    ensures b.ChangeTo? ==>
      b == ChangeTo(ChangeInfo(ActivePlan(ms), selected).value.changeType == Upgrade, selected.value.title, selected.value.amount)
    ensures b.SubscribeTo? ==> b == SubscribeTo(selected.value.title, selected.value.amount)
  {
    if loading then Paying
    else if selected.None? then SelectPlan
    else
      var plan := selected.value;
      var active := ActivePlan(ms);
      if plan.mode == Addon then TopUp(plan.title, plan.amount)
      else if !IsMember(ms) then SubscribeTo(plan.title, plan.amount)
      else if active.Some? && plan.id == active.value.id then CurrentPlan(plan.title)
      else
        var info := ChangeInfo(active, selected);
        if info.Some? then ChangeTo(info.value.changeType == Upgrade, plan.title, plan.amount)
        else SubscribeTo(plan.title, plan.amount)
  }

  /** The label as displayed. */
  function Render(b: ButtonText): (text: string)
    ensures b.Paying? ==> text == "payment.paying"
    ensures b.SelectPlan? ==> text == "payment.selectPlan"
    ensures b.CurrentPlan? ==> "payment.currentPlan " <= text && text[20..] == b.title
    ensures b.TopUp? ==> text == "payment.topUp " + b.title + " - ¥" + Strings.IntToString(b.amount)
    ensures b.SubscribeTo? ==> text == "payment.subscribeTo " + b.title + " - ¥" + Strings.IntToString(b.amount)
    ensures b.ChangeTo? ==>
      text == (if b.upgrade then "payment.upgrade " else "payment.switch ") + b.title + " - ¥" + Strings.IntToString(b.amount)
  {
    match b
    case Paying => "payment.paying"
    case SelectPlan => "payment.selectPlan"
    case TopUp(title, amount) => "payment.topUp " + title + " - ¥" + Strings.IntToString(amount)
    case SubscribeTo(title, amount) => "payment.subscribeTo " + title + " - ¥" + Strings.IntToString(amount)
    case CurrentPlan(title) => "payment.currentPlan " + title
    case ChangeTo(upgrade, title, amount) =>
      (if upgrade then "payment.upgrade " else "payment.switch ") + title + " - ¥" + Strings.IntToString(amount)
  }

  /** Every priced label ends with " - ¥" and the amount. */
  lemma PricedLabelEndsWithPrice(b: ButtonText)
    requires b.TopUp? || b.SubscribeTo? || b.ChangeTo?
    ensures var price := " - ¥" + Strings.IntToString(b.amount);
      |price| <= |Render(b)| && Render(b)[|Render(b)| - |price|..] == price
  {
    var price := " - ¥" + Strings.IntToString(b.amount);
    var head := Render(b)[..|Render(b)| - |price|];
    assert Render(b) == head + price;
  }

  /** Downgrades and same-price switches share the "switch" label. */
  lemma ChangeLabelOnlyUpgradeDiffers(ms: Option<MemberState>, selected: PricingPlan)
    requires IsMember(ms) && ActivePlan(ms).Some?
    requires selected.mode == Recurring && selected.id != ActivePlan(ms).value.id
    ensures SubmitButtonText(false, ms, Some(selected)).ChangeTo?
    ensures SubmitButtonText(false, ms, Some(selected)).upgrade <==> selected.amount > ActivePlan(ms).value.amount
  {
  }

  /** `shouldShowSubmitButton`: always for non-members; for members only
      while a different recurring plan is selected. */
  function ShouldShowSubmitButton(ms: Option<MemberState>, selected: Option<PricingPlan>): (show: bool)
    ensures !IsMember(ms) ==> show
    ensures IsMember(ms) ==> (show <==> selected.Some? && selected.value.mode == Recurring &&
                                        (ActivePlan(ms).None? || selected.value.id != ActivePlan(ms).value.id))
  {
    !IsMember(ms) ||
    (selected.Some? && (ActivePlan(ms).None? || selected.value.id != ActivePlan(ms).value.id) && selected.value.mode == Recurring)
  }

  /** The footer button is disabled exactly when the parent disables it,
      nothing is selected, or the selection is the active plan. */
  function FooterDisabled(disabled: bool, ms: Option<MemberState>, selected: Option<PricingPlan>): (d: bool)
    ensures d <==> disabled || selected.None? || (ActivePlan(ms).Some? && selected.value.id == ActivePlan(ms).value.id)
    ensures !d ==> SubmitDecision(ms, selected, None) != NoAction
  {
    disabled || selected.None? || (ActivePlan(ms).Some? && selected.value.id == ActivePlan(ms).value.id)
  }

  /** For a member the footer, when shown, is never disabled by its own
      selection rule: the shown button is pressable unless the parent disables it. */
  lemma ShownFooterEnabled(ms: Option<MemberState>, selected: Option<PricingPlan>)
    requires IsMember(ms) && ShouldShowSubmitButton(ms, selected)
    ensures !FooterDisabled(false, ms, selected)
  {
  }

  /** The top-up sheet's button is enabled only while a package is selected. */
  function TopUpDisabled(disabled: bool, selected: Option<PricingPlan>): (d: bool)
    ensures !d <==> !disabled && selected.Some? && selected.value.mode == Addon
  {
    disabled || selected.None? || selected.value.mode != Addon
  }

  /** The screen's own state. `memberState` is query data and is passed to
      the handlers that read it. */
  class Screen {
    var selectedPlan: Option<PricingPlan>
    var showChangeConfirm: bool
    var showTopUp: bool
    var hasInitialized: bool
    var prevLoading: bool

    constructor (loading: bool)
      ensures selectedPlan.None? && !showChangeConfirm && !showTopUp && !hasInitialized
      ensures prevLoading == loading
    {
      selectedPlan := None;
      showChangeConfirm := false;
      showTopUp := false;
      hasInitialized := false;
      prevLoading := loading;
    }

    /** The mount effect: select the active plan, else the popular plan
        (index 1), and never again afterwards. */
    method AutoSelect(ms: Option<MemberState>)
      modifies this`selectedPlan, this`hasInitialized
      ensures old(hasInitialized) ==> selectedPlan == old(selectedPlan) && hasInitialized
      ensures !old(hasInitialized) ==> hasInitialized
      ensures !old(hasInitialized) ==> selectedPlan == (if ActivePlan(ms).Some? then ActivePlan(ms) else Some(Plans[1]))
    {
      if hasInitialized {
        return;
      }
      var active := ActivePlan(ms);
      if active.Some? {
        selectedPlan := active;
        hasInitialized := true;
      } else if |Plans| > 1 {
        selectedPlan := Some(Plans[1]);
        hasInitialized := true;
      }
    }

    /** The purchase-finished effect: member and credit data are refreshed
        exactly when `loading` goes from true to false. */
    method LoadingChanged(loading: bool) returns (refresh: bool)
      modifies this`prevLoading
      ensures refresh <==> old(prevLoading) && !loading
      ensures prevLoading == loading
    {
      refresh := prevLoading && !loading;
      prevLoading := loading;
    }

    /** Tapping a plan card or a package. */
    method Select(plan: PricingPlan)
      modifies this`selectedPlan
      ensures selectedPlan == Some(plan)
    {
      selectedPlan := Some(plan);
    }

    /** The "add-ons" button selects the first package and opens the sheet. */
    method OpenTopUp()
      modifies this`selectedPlan, this`showTopUp
      ensures selectedPlan == Some(Packages[0]) && showTopUp
    {
      selectedPlan := Some(Packages[0]);
      showTopUp := true;
    }

    method CloseTopUp()
      modifies this`showTopUp
      ensures !showTopUp
    {
      showTopUp := false;
    }

    /** `handleSubmit(item)`: opens the confirmation dialog for a plan
        change and otherwise does what SubmitDecision says. */
    method HandleSubmit(ms: Option<MemberState>, item: Option<PricingPlan>) returns (action: SubmitAction)
      modifies this`showChangeConfirm
      ensures action == SubmitDecision(ms, old(selectedPlan), item)
      ensures showChangeConfirm == (old(showChangeConfirm) || action == ConfirmChange)
    {
      action := SubmitDecision(ms, selectedPlan, item);
      if action == ConfirmChange {
        showChangeConfirm := true;
      }
    }

    /** `confirmPlanChange()`: the dialog closes and the selection is bought. */
    method ConfirmPlanChange() returns (action: SubmitAction)
      modifies this`showChangeConfirm
      ensures !showChangeConfirm
      ensures action == (if selectedPlan.Some? then Submit(selectedPlan.value) else NoAction)
    {
      showChangeConfirm := false;
      if selectedPlan.Some? {
        action := Submit(selectedPlan.value);
      } else {
        action := NoAction;
      }
    }

    method CancelPlanChange()
      modifies this`showChangeConfirm
      ensures !showChangeConfirm
    {
      showChangeConfirm := false;
    }
  }
}

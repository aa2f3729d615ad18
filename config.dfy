/** The subscription panel of the settings page
    (app/dashboard/configuracoes/config-client.tsx): the tenant status with
    its PENDING default, the trial days left, the status badge, the note under
    the plan, and whether the subscribe link or the manage button is shown. */
module Config {
  import opened Base
  import opened Text
  import Clock
  import Trial

  const ActiveBadge: string := "ATIVO"
  const TrialBadge: string := "PERÍODO DE TESTE"
  const PendingBadge: string := "PENDENTE"
  const ExpiredToday: string := "Expirou hoje"
  const UpToDate: string := "Assinatura em dia"

  /** The link to /payment-required, or the button that manages the
      subscription with the payment provider. */
  datatype Action = Subscribe | Manage

  datatype Panel = Panel(status: string, daysLeft: nat, badge: string, note: Option<string>, action: Action)

  /** `session?.user?.tenantStatus || "PENDING"`. */
  function TenantStatus(user: Option<Trial.UserClaims>): (s: string)
    ensures s != ""
    ensures user.Some? && Truthy(user.value.tenantStatus) ==> s == user.value.tenantStatus.value
    ensures !(user.Some? && Truthy(user.value.tenantStatus)) ==> s == "PENDING"
  {
    if user.Some? && Truthy(user.value.tenantStatus) then user.value.tenantStatus.value else "PENDING"
  }

  /** `trialDaysLeft`: 0 without an end date, else whole days left rounded up. */
  function TrialDaysLeft(user: Option<Trial.UserClaims>, now: int): (d: nat)
    ensures d == 0 <==> user.None? || user.value.trialEndsAt.None? || user.value.trialEndsAt.value <= now
    ensures user.Some? && user.value.trialEndsAt.Some? && user.value.trialEndsAt.value > now ==>
      d == Clock.DaysUntil(user.value.trialEndsAt.value, now)
  {
    if user.Some? && user.value.trialEndsAt.Some? then Clock.DaysLeft(user.value.trialEndsAt.value, now) else 0
  }

  /** The badge text: ACTIVE and TRIAL have their own, everything else reads
      as pending. */
  function Badge(status: string): (b: string)
    ensures b == ActiveBadge <==> status == "ACTIVE"
    ensures b == TrialBadge <==> status == "TRIAL"
    ensures b == PendingBadge <==> status != "ACTIVE" && status != "TRIAL"
  {
    if status == "ACTIVE" then ActiveBadge
    else if status == "TRIAL" then TrialBadge
    else PendingBadge
  }

  function DaysRemaining(days: nat): (r: string) {
    Decimal(days) + " dias restantes"
  }

  /** The line under the plan: the days left or "Expirou hoje" for TRIAL,
      "Assinatura em dia" for ACTIVE, nothing otherwise. */
  function Note(status: string, days: nat): (r: Option<string>)
    ensures r.Some? <==> status == "TRIAL" || status == "ACTIVE"
    ensures status == "TRIAL" ==> (r == Some(ExpiredToday) <==> days == 0)
    ensures status == "TRIAL" && days > 0 ==> r == Some(DaysRemaining(days))
    ensures status == "ACTIVE" ==> r == Some(UpToDate)
  {
    if status == "TRIAL" then
      assert '0' <= DaysRemaining(days)[0] <= '9';
      Some(if days > 0 then DaysRemaining(days) else ExpiredToday)
    else if status == "ACTIVE" then Some(UpToDate)
    else None
  }

  /** The subscribe link is offered to TRIAL and PENDING only. */
  function ActionFor(status: string): (a: Action)
    ensures a == Subscribe <==> status == "TRIAL" || status == "PENDING"
  {
    if status == "TRIAL" || status == "PENDING" then Subscribe else Manage
  }

  /** `ConfigClient`, for the session user and the current time. */
  function ShowPanel(user: Option<Trial.UserClaims>, now: int): (p: Panel)
    ensures p.status == TenantStatus(user) && p.daysLeft == TrialDaysLeft(user, now)
    ensures p.badge == Badge(p.status) && p.note == Note(p.status, p.daysLeft) && p.action == ActionFor(p.status)
  {
    var status := TenantStatus(user);
    var days := TrialDaysLeft(user, now);
    Panel(status, days, Badge(status), Note(status, days), ActionFor(status))
  }

  /** Without a session, or without a status claim, the panel reads as
      pending and offers the subscription. */
  lemma MissingStatusOffersSubscription(user: Option<Trial.UserClaims>, now: int)
    requires user.None? || user.value.tenantStatus.None?
    ensures ShowPanel(user, now).badge == PendingBadge && ShowPanel(user, now).action == Subscribe
    ensures ShowPanel(user, now).note.None?
  {
  }

  /** A suspended tenant sees the pending badge but no subscribe link. */
  lemma SuspendedReadsPendingWithoutLink(user: Trial.UserClaims, now: int)
    requires user.tenantStatus == Some("SUSPENDED")
    ensures ShowPanel(Some(user), now).badge == PendingBadge && ShowPanel(Some(user), now).action == Manage
  {
  }

  /** For a trial with an end date, the panel and the banner count the same
      days, and the panel says "Expirou hoje" exactly when the banner says the
      trial is over. */
  lemma AgreesWithBanner(user: Trial.UserClaims, now: int)
    requires user.tenantStatus == Some("TRIAL") && user.trialEndsAt.Some?
    ensures Trial.ShowBanner(Some(user), now).Some?
    ensures ShowPanel(Some(user), now).daysLeft == Trial.ShowBanner(Some(user), now).value.diffDays
    ensures ShowPanel(Some(user), now).note == Some(ExpiredToday)
        <==> Trial.ShowBanner(Some(user), now).value.message == Trial.Ended
  {
  }
}

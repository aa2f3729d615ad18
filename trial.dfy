/** The trial banner (components/ui/trial-banner.tsx): shown only to a
    signed-in user of a TRIAL tenant with a trial end date; it counts the
    whole days left, rounded up and never negative, turns urgent at three
    days or fewer, and says the trial is over once no day is left. */
module Trial {
  import opened Base
  import opened Text
  import Clock

  /** The two claims the banner and the settings page read from
      `session.user`; `None` when the claim is null. */
  datatype UserClaims = UserClaims(tenantStatus: Option<string>, trialEndsAt: Option<int>)

  /** What the banner shows. */
  datatype Banner = Banner(diffDays: int, urgent: bool, message: string)

  const UrgentDays: int := 3
  const Ended: string := "Seu período de teste acabou."

  function Remaining(days: nat): (r: string) {
    "Você tem " + Decimal(days) + " dias restantes no seu teste grátis."
  }

  /** `TrialBanner`: `None` where it renders nothing. */
  function ShowBanner(user: Option<UserClaims>, now: int): (r: Option<Banner>)
    ensures r.Some? <==> user.Some? && user.value.tenantStatus == Some("TRIAL") && user.value.trialEndsAt.Some?
    ensures r.Some? ==>
      var end := user.value.trialEndsAt.value;
      && r.value.diffDays == Clock.DaysLeft(end, now)
      && (r.value.urgent <==> end <= now + UrgentDays * Clock.DayMs)
      && (r.value.message == Ended <==> end <= now)
      && (end > now ==> r.value.message == Remaining(r.value.diffDays))
  {
    if user.None? then None
    else if user.value.tenantStatus != Some("TRIAL") || user.value.trialEndsAt.None? then None
    else
      var end := user.value.trialEndsAt.value;
      var diffTime := if end - now > 0 then end - now else 0;
      var diffDays := Clock.DaysLeft(end, now);
      Clock.DaysAtMost(diffTime, UrgentDays);
      var message := if diffDays > 0 then Remaining(diffDays) else Ended;
      assert diffDays > 0 ==> message[0] == 'V';
      Some(Banner(diffDays, diffDays <= UrgentDays, message))
  }

  /** A trial that has ended is still shown, as urgent, with no day left. */
  lemma EndedTrialIsUrgent(user: UserClaims, now: int)
    requires user.tenantStatus == Some("TRIAL") && user.trialEndsAt.Some? && user.trialEndsAt.value <= now
    ensures ShowBanner(Some(user), now) == Some(Banner(0, true, Ended))
  {
  }

  /** Four days or more ahead is not urgent; the last three days are. */
  lemma UrgencyBoundary(now: int)
    ensures ShowBanner(Some(UserClaims(Some("TRIAL"), Some(now + 3 * Clock.DayMs))), now).value.urgent
    ensures !ShowBanner(Some(UserClaims(Some("TRIAL"), Some(now + 3 * Clock.DayMs + 1))), now).value.urgent
  {
  }

  /** The message tells the day count: two banners saying the same thing
      count the same number of days. */
  lemma MessageTellsDays(a: Banner, b: Banner)
    requires a.diffDays >= 0 && b.diffDays >= 0
    requires a.message == (if a.diffDays > 0 then Remaining(a.diffDays) else Ended)
    requires b.message == (if b.diffDays > 0 then Remaining(b.diffDays) else Ended)
    requires a.message == b.message
    ensures a.diffDays == b.diffDays
  {
    assert a.diffDays > 0 ==> a.message[0] == 'V';
    assert b.diffDays > 0 ==> b.message[0] == 'V';
    if a.diffDays > 0 {
      CancelAround("Você tem ", Decimal(a.diffDays), Decimal(b.diffDays), " dias restantes no seu teste grátis.");
      DecimalInjective(a.diffDays, b.diffDays);
    }
  }
}

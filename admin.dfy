/** The platform owner's overview (app/admin/page.tsx): of all tenants, in
    the order the query returns them (newest first), the ACTIVE ones are
    counted, the PENDING ones listed, and the monthly revenue is the active
    count at R$ 49,90, held here as 4990 cents. */
module Admin {
  import opened Base
  import opened Db

  const PlanPriceCents: int := 4990

  datatype Overview = Overview(mrr: int, activeTenants: nat, pendingTenants: seq<TenantRow>)

  predicate IsActive(t: TenantRow) {
    t.subscriptionStatus == "ACTIVE"
  }

  predicate IsPending(t: TenantRow) {
    t.subscriptionStatus == "PENDING"
  }

  /** `AdminPage` over the query's result. */
  function AdminOverview(tenants: seq<TenantRow>): (v: Overview)
    ensures v.activeTenants == |Filter(tenants, IsActive)|
    ensures v.mrr == v.activeTenants * PlanPriceCents
    ensures forall i :: 0 <= i < |v.pendingTenants| ==> v.pendingTenants[i].subscriptionStatus == "PENDING"
  {
    var active := Filter(tenants, IsActive);
    var pending := Filter(tenants, IsPending);
    Overview(|active| * PlanPriceCents, |active|, pending)
  }

  /** The pending list is exactly the tenants whose status is PENDING, in the
      query's order. */
  lemma PendingListed(tenants: seq<TenantRow>)
    ensures var pending := AdminOverview(tenants).pendingTenants;
      && IsSubsequence(pending, tenants)
      && (forall i :: 0 <= i < |tenants| && tenants[i].subscriptionStatus == "PENDING" ==> tenants[i] in pending)
  {
    FilterMembers(tenants, IsPending);
  }

  /** No tenant is both active and pending, so the two figures together
      never exceed the number of tenants. */
  lemma ActiveAndPendingDisjoint(tenants: seq<TenantRow>)
    ensures AdminOverview(tenants).activeTenants + |AdminOverview(tenants).pendingTenants| <= |tenants|
  {
    FilterDisjointLengths(tenants, IsActive, IsPending);
  }

  /** A new active tenant raises the revenue by one plan price; any other new
      tenant leaves it as it was. */
  lemma RevenuePerActiveTenant(tenants: seq<TenantRow>, t: TenantRow)
    ensures AdminOverview(tenants + [t]).mrr
         == AdminOverview(tenants).mrr + (if IsActive(t) then PlanPriceCents else 0)
  {
    FilterConcat(tenants, [t], IsActive);
  }
}

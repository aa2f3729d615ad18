/** The mock platform-owner screens (components/SaaSAdmin.tsx): active and
    pending tenants, the paying count that leaves out the owner's own account,
    the monthly revenue at R$ 299,90 (29990 cents) per paying tenant, the
    preview of at most four pending requests, the status badge and the row
    actions. */
module SaaSAdmin {
  import opened Base
  import opened Text
  import opened Mock

  const PlanPriceCents: int := 29990
  const OwnerAccountId: string := "admin-saas"
  const PreviewSize: nat := 4

  predicate IsActive(t: Tenant) {
    t.status == Active
  }

  predicate IsPending(t: Tenant) {
    t.status == Pending
  }

  predicate IsPaying(t: Tenant) {
    t.id != OwnerAccountId
  }

  function ActiveTenants(tenants: seq<Tenant>): (r: seq<Tenant>) {
    Filter(tenants, IsActive)
  }

  function PendingTenants(tenants: seq<Tenant>): (r: seq<Tenant>) {
    Filter(tenants, IsPending)
  }

  /** `payingTenantsCount`: the active tenants other than the owner's account. */
  function PayingCount(tenants: seq<Tenant>): (n: nat)
    ensures n <= |ActiveTenants(tenants)|
    ensures n == |ActiveTenants(tenants)| <==> forall i :: 0 <= i < |ActiveTenants(tenants)| ==> IsPaying(ActiveTenants(tenants)[i])
  {
    FilterMembers(ActiveTenants(tenants), IsPaying);
    |Filter(ActiveTenants(tenants), IsPaying)|
  }

  /** `mrr`, in cents. */
  function Mrr(tenants: seq<Tenant>): (m: int)
    ensures m == PayingCount(tenants) * PlanPriceCents
    ensures 0 <= m <= |ActiveTenants(tenants)| * PlanPriceCents
  {
    PayingCount(tenants) * PlanPriceCents
  }

  /** The two lists keep the input's order and hold exactly the tenants of
      their status. */
  lemma StatusLists(tenants: seq<Tenant>, t: Tenant)
    ensures IsSubsequence(ActiveTenants(tenants), tenants) && IsSubsequence(PendingTenants(tenants), tenants)
    ensures t in ActiveTenants(tenants) <==> t in tenants && t.status == Active
    ensures t in PendingTenants(tenants) <==> t in tenants && t.status == Pending
  {
    FilterMembers(tenants, IsActive);
    FilterMembers(tenants, IsPending);
    if t in tenants {
      var i :| 0 <= i < |tenants| && tenants[i] == t;
    }
  }

  /** The owner's account, even when active, earns nothing. */
  lemma OwnerAccountEarnsNothing(tenants: seq<Tenant>, owner: Tenant)
    requires owner.id == OwnerAccountId
    ensures Mrr(tenants + [owner]) == Mrr(tenants)
  {
    FilterConcat(tenants, [owner], IsActive);
    FilterConcat(ActiveTenants(tenants), Filter([owner], IsActive), IsPaying);
    assert Filter(Filter([owner], IsActive), IsPaying) == [];
  }

  /** `pendingTenants.slice(0, 4)`. */
  function Preview(pending: seq<Tenant>): (r: seq<Tenant>)
    ensures |r| == (if |pending| <= PreviewSize then |pending| else PreviewSize)
    ensures r <= pending
  {
    if |pending| <= PreviewSize then pending else pending[..PreviewSize]
  }

  /** The "E mais N solicitações" line, shown only beyond four requests. */
  function MoreNote(pending: seq<Tenant>): (r: Option<string>)
    ensures r.Some? <==> |pending| > PreviewSize
    ensures r.Some? ==> r.value == "E mais " + Decimal(|pending| - PreviewSize) + " solicitações na aba Clínicas..."
  {
    if |pending| > PreviewSize then Some("E mais " + Decimal(|pending| - PreviewSize) + " solicitações na aba Clínicas...")
    else None
  }

  /** The preview and the number the note gives add up to the pending count. */
  lemma PreviewAccountsForAll(pending: seq<Tenant>)
    ensures MoreNote(pending).Some? ==> |Preview(pending)| + (|pending| - PreviewSize) == |pending|
    ensures MoreNote(pending).None? ==> Preview(pending) == pending
  {
  }

  /** The status cell: a label, with the overdue-payment mark for a
      suspended tenant that owes a payment. */
  datatype Badge = Badge(text: string, overdueMark: bool)

  function BadgeOf(t: Tenant): (b: Badge)
    ensures b.overdueMark <==> t.status == Suspended && t.paymentStatus == Some(Overdue)
    ensures b.text == "Ativo" <==> t.status == Active
    ensures b.text == "Pendente" <==> t.status == Pending
    ensures b.text == "Suspenso" <==> t.status == Suspended
  {
    if t.status == Suspended && t.paymentStatus == Some(Overdue) then Badge("Suspenso", true)
    else Badge(if t.status == Active then "Ativo" else if t.status == Pending then "Pendente" else "Suspenso", false)
  }

  /** The row's buttons: approve and reject, or the manage link. */
  datatype RowAction = ApproveOrReject | Manage

  function RowActionOf(t: Tenant): (a: RowAction)
    ensures a == ApproveOrReject <==> t.status == Pending
  {
    if t.status == Pending then ApproveOrReject else Manage
  }

  /** Every previewed request can be approved or rejected from the table too. */
  lemma PreviewRowsActionable(tenants: seq<Tenant>, i: nat)
    requires i < |Preview(PendingTenants(tenants))|
    ensures RowActionOf(Preview(PendingTenants(tenants))[i]) == ApproveOrReject
  {
    assert Preview(PendingTenants(tenants))[i] == PendingTenants(tenants)[i];
  }
}

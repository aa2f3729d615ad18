/** The clinic list of the platform owner (app/admin/clinicas/clinicas-client.tsx):
    a case-insensitive search on the clinic name or on the e-mail address of
    the clinic's first user, the status label, and the row actions. */
module Clinicas {
  import opened Base
  import opened Text

  /** `users: { select: { name, email }, take: 1 }`. */
  datatype UserSummary = UserSummary(name: Option<string>, email: string)

  datatype Clinic = Clinic(
    id: string,
    name: string,
    slug: string,
    subscriptionStatus: string,
    users: seq<UserSummary>,
    productCount: nat)

  /** The name, or the first user's address, holds the term, letter case
      aside; a clinic without users can match on its name only. */
  predicate Matches(t: Clinic, searchTerm: string) {
    Contains(LowerStr(t.name), LowerStr(searchTerm))
    || (|t.users| > 0 && Contains(LowerStr(t.users[0].email), LowerStr(searchTerm)))
  }

  /** `filteredTenants`. */
  function FilteredTenants(tenants: seq<Clinic>, searchTerm: string): (r: seq<Clinic>)
    ensures forall i :: 0 <= i < |r| ==> Matches(r[i], searchTerm)
  {
    Filter(tenants, (t: Clinic) => Matches(t, searchTerm))
  }

  /** The result is the input's matching clinics, in their order. */
  lemma FilterKeepsOrder(tenants: seq<Clinic>, searchTerm: string)
    ensures IsSubsequence(FilteredTenants(tenants, searchTerm), tenants)
    ensures forall i :: 0 <= i < |tenants| && Matches(tenants[i], searchTerm) ==>
      tenants[i] in FilteredTenants(tenants, searchTerm)
    ensures forall i :: 0 <= i < |FilteredTenants(tenants, searchTerm)| ==>
      FilteredTenants(tenants, searchTerm)[i] in tenants
  {
    FilterMembers(tenants, (t: Clinic) => Matches(t, searchTerm));
  }

  /** An empty search box shows every clinic. */
  lemma EmptyTermKeepsAll(tenants: seq<Clinic>)
    ensures FilteredTenants(tenants, "") == tenants
  {
    forall i | 0 <= i < |tenants| ensures Matches(tenants[i], "") {
      ContainsEmpty(LowerStr(tenants[i].name));
    }
    FilterKeepsAll(tenants, (t: Clinic) => Matches(t, ""));
  }

  /** Typing the term in capitals changes nothing. */
  lemma SearchIgnoresCase(t: Clinic, searchTerm: string)
    ensures Matches(t, searchTerm) <==> Matches(t, LowerStr(searchTerm))
  {
    LowerStrIdempotent(searchTerm);
  }

  /** Without users, only the name can match. */
  lemma NoUsersMatchesOnName(t: Clinic, searchTerm: string)
    requires t.users == []
    ensures Matches(t, searchTerm) <==> Contains(LowerStr(t.name), LowerStr(searchTerm))
  {
  }

  /** The status label: anything but ACTIVE and PENDING reads "Suspenso". */
  function StatusLabel(status: string): (l: string)
    ensures l == "Ativo" <==> status == "ACTIVE"
    ensures l == "Pendente" <==> status == "PENDING"
    ensures l == "Suspenso" <==> status != "ACTIVE" && status != "PENDING"
  {
    if status == "ACTIVE" then "Ativo" else if status == "PENDING" then "Pendente" else "Suspenso"
  }

  datatype RowAction = ApproveOrReject | Manage

  function RowActionOf(status: string): (a: RowAction)
    ensures a == ApproveOrReject <==> status == "PENDING"
  {
    if status == "PENDING" then ApproveOrReject else Manage
  }

  /** A clinic in its trial is listed as suspended and can only be managed. */
  lemma TrialListedAsSuspended()
    ensures StatusLabel("TRIAL") == "Suspenso" && RowActionOf("TRIAL") == Manage
  {
  }
}

/** The records of the client-side mock app (types.ts): roles, the tenant
    record the mock admin screens and the mock sign-in work on, and its
    status and payment unions. */
module Mock {
  import opened Base

  datatype Role = SuperAdmin | ClinicAdmin | ClinicStaff

  datatype Status = Active | Pending | Suspended

  datatype PaymentStatus = Paid | Overdue

  /** `password` and `paymentStatus` are optional fields. */
  datatype Tenant = Tenant(
    id: string,
    name: string,
    ownerName: string,
    email: string,
    password: Option<string>,
    plan: string,
    status: Status,
    paymentStatus: Option<PaymentStatus>,
    joinedDate: string)
}

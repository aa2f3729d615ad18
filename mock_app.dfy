/** The state of the mock single-page app (App.tsx) and its handlers: the
    theme, the sidebar, the signed-in tenant and role, the current view, the
    product and tenant lists and the product modal. Approving a tenant maps
    over the list, rejecting filters it after a confirmation, and registering
    appends. The data fetch and the service calls after each handler are not
    part of this model. */
module MockApp {
  import opened Base
  import opened Mock
  import Inventory
  import MockAuth

  datatype Theme = Light | Dark

  datatype ModalType = Add | Edit | Batches

  const DashboardView: string := "dashboard"
  const OwnerView: string := "saas_dashboard"

  function Flipped(t: Theme): (r: Theme) {
    if t == Light then Dark else Light
  }

  /** Two flips restore the theme, and a flip always changes it. */
  lemma FlipInvolutive(t: Theme)
    ensures Flipped(Flipped(t)) == t && Flipped(t) != t
  {
  }

  /** `prev.map((t) => t.id === id ? { ...t, status: "ACTIVE" } : t)`. */
  function Approved(tenants: seq<Tenant>, id: string): (r: seq<Tenant>)
    ensures |r| == |tenants|
  {
    seq(|tenants|, i requires 0 <= i < |tenants| =>
      if tenants[i].id == id then tenants[i].(status := Active) else tenants[i])
  }

  /** `prev.filter((t) => t.id !== id)`. */
  function Rejected(tenants: seq<Tenant>, id: string): (r: seq<Tenant>)
    ensures forall i :: 0 <= i < |r| ==> r[i].id != id
  {
    Filter(tenants, (t: Tenant) => t.id != id)
  }

  /** Approving activates every tenant with that id, changes nothing else
      about them, leaves every other tenant where it was, and a second
      approval changes nothing. */
  lemma ApprovalProperties(tenants: seq<Tenant>, id: string)
    ensures forall i :: 0 <= i < |tenants| && tenants[i].id == id ==>
      Approved(tenants, id)[i].status == Active && Approved(tenants, id)[i].(status := tenants[i].status) == tenants[i]
    ensures forall i :: 0 <= i < |tenants| && tenants[i].id != id ==> Approved(tenants, id)[i] == tenants[i]
    ensures Approved(Approved(tenants, id), id) == Approved(tenants, id)
  {
  }

  /** Rejecting removes every tenant with that id and keeps the others in
      their order; a rejection after an approval ends the same. */
  lemma RejectionProperties(tenants: seq<Tenant>, id: string, t: Tenant)
    ensures IsSubsequence(Rejected(tenants, id), tenants)
    ensures t in Rejected(tenants, id) <==> t in tenants && t.id != id
    ensures Rejected(Approved(tenants, id), id) == Rejected(tenants, id)
  {
    FilterMembers(tenants, (u: Tenant) => u.id != id);
    if t in tenants {
      var i :| 0 <= i < |tenants| && tenants[i] == t;
    }
    RejectAfterApprove(tenants, id);
  }

  lemma {:induction false} RejectAfterApprove(tenants: seq<Tenant>, id: string)
    ensures Rejected(Approved(tenants, id), id) == Rejected(tenants, id)
  {
    if tenants != [] {
      assert Approved(tenants, id)[1..] == Approved(tenants[1..], id);
      RejectAfterApprove(tenants[1..], id);
    }
  }

  /** Every field of the app's state. */
  datatype Snapshot = Snapshot(
    theme: Theme,
    isSidebarCollapsed: bool,
    isAuthenticated: bool,
    currentUser: Option<Tenant>,
    currentView: string,
    userRole: Role,
    products: seq<Inventory.Item>,
    tenants: seq<Tenant>,
    modalOpen: bool,
    modalType: Option<ModalType>,
    selectedProduct: Option<Inventory.Item>)

  class AppState {
    var theme: Theme
    var isSidebarCollapsed: bool
    var isAuthenticated: bool
    var currentUser: Option<Tenant>
    var currentView: string
    var userRole: Role
    var products: seq<Inventory.Item>
    var tenants: seq<Tenant>
    var modalOpen: bool
    var modalType: Option<ModalType>
    var selectedProduct: Option<Inventory.Item>

    function State(): (r: Snapshot)
      reads this
    {
      Snapshot(theme, isSidebarCollapsed, isAuthenticated, currentUser, currentView, userRole,
               products, tenants, modalOpen, modalType, selectedProduct)
    }

    /** The initial values of the `useState` calls. */
    constructor ()
      ensures State() == Snapshot(Light, false, false, None, DashboardView, ClinicAdmin, [], [], false, None, None)
    {
      theme, isSidebarCollapsed, isAuthenticated, currentUser := Light, false, false, None;
      currentView, userRole, products, tenants := DashboardView, ClinicAdmin, [], [];
      modalOpen, modalType, selectedProduct := false, None, None;
    }

    /** `handleAddProduct`. */
    method AddProduct()
      modifies this
      ensures State() == old(State()).(modalOpen := true, modalType := Some(Add), selectedProduct := None)
    {
      selectedProduct := None;
      modalType := Some(Add);
      modalOpen := true;
    }

    /** `handleEditProduct`. */
    method EditProduct(p: Inventory.Item)
      modifies this
      ensures State() == old(State()).(modalOpen := true, modalType := Some(Edit), selectedProduct := Some(p))
    {
      selectedProduct := Some(p);
      modalType := Some(Edit);
      modalOpen := true;
    }

    /** `handleManageBatches`. */
    method ManageBatches(p: Inventory.Item)
      modifies this
      ensures State() == old(State()).(modalOpen := true, modalType := Some(Batches), selectedProduct := Some(p))
    {
      selectedProduct := Some(p);
      modalType := Some(Batches);
      modalOpen := true;
    }

    /** `closeModal`. */
    method CloseModal()
      modifies this
      ensures State() == old(State()).(modalOpen := false, modalType := None, selectedProduct := None)
    {
      modalOpen := false;
      modalType := None;
      selectedProduct := None;
    }

    /** `toggleTheme`. */
    method ToggleTheme()
      modifies this
      ensures State() == old(State()).(theme := Flipped(old(theme)))
    {
      theme := if theme == Light then Dark else Light;
    }

    /** The sidebar's `toggleSidebar`. */
    method ToggleSidebar()
      modifies this
      ensures State() == old(State()).(isSidebarCollapsed := !old(isSidebarCollapsed))
    {
      isSidebarCollapsed := !isSidebarCollapsed;
    }

    /** The sidebar's `setCurrentView`. */
    method SetView(view: string)
      modifies this
      ensures State() == old(State()).(currentView := view)
    {
      currentView := view;
    }

    /** `handleLogin`: the owner's role opens the owner's dashboard, any other
        role the clinic's. */
    method Login(user: Tenant, role: Role)
      modifies this
      ensures State() == old(State()).(currentUser := Some(user), userRole := role, isAuthenticated := true,
                                       currentView := if role == SuperAdmin then OwnerView else DashboardView)
    {
      currentUser := Some(user);
      userRole := role;
      isAuthenticated := true;
      if role == SuperAdmin {
        currentView := OwnerView;
      } else {
        currentView := DashboardView;
      }
    }

    /** `handleRegister`: the tenant, on the PRO plan, goes to the end of the list. */
    method Register(newTenant: Tenant)
      modifies this
      ensures State() == old(State()).(tenants := old(tenants) + [newTenant.(plan := "PRO")])
    {
      tenants := tenants + [newTenant.(plan := "PRO")];
    }

    /** `handleLogout`: the tenant list is kept. */
    method Logout()
      modifies this
      ensures State() == old(State()).(isAuthenticated := false, currentUser := None, userRole := ClinicAdmin, products := [])
    {
      isAuthenticated := false;
      currentUser := None;
      userRole := ClinicAdmin;
      products := [];
    }

    /** `handleApproveTenant`. */
    method ApproveTenant(id: string)
      modifies this
      ensures State() == old(State()).(tenants := Approved(old(tenants), id))
    {
      tenants := Approved(tenants, id);
    }

    /** `handleRejectTenant`, with the answer to the confirmation dialog. */
    method RejectTenant(id: string, confirmed: bool)
      modifies this
      ensures State() == old(State()).(tenants := if confirmed then Rejected(old(tenants), id) else old(tenants))
    {
      if confirmed {
        tenants := Rejected(tenants, id);
      }
    }
  }

  /** Signing in through the form and handing the result to `handleLogin`.
      The form decides on `formTenants`, the list it loaded from the tenant
      service when it was shown (a fresh copy of the fixed mock tenants, with
      the same list as the fallback when the request fails), not on the
      app's own `tenants`. It opens the owner's dashboard exactly for the
      address "admin@saas.com". */
  method SignIn(app: AppState, formTenants: seq<Tenant>, email: string, password: string) returns (r: MockAuth.LoginResult)
    modifies app
    ensures r == MockAuth.Login(formTenants, email, password)
    ensures r.LoginError? ==> app.State() == old(app.State())
    ensures r.LoggedIn? ==> app.isAuthenticated && app.currentUser == Some(r.user)
    ensures r.LoggedIn? ==> (app.currentView == OwnerView <==> r.user.email == MockAuth.OwnerEmail)
    ensures app.tenants == old(app.tenants)
  {
    r := MockAuth.Login(formTenants, email, password);
    if r.LoggedIn? {
      app.Login(r.user, r.role);
    }
  }

  /** Registration reaches only the app's list, which the form never reads:
      an address the form accepts as new is in the app's list afterwards, and
      still active there once the owner approves it, yet the form answers
      "Usuário não encontrado." for it. */
  lemma RegisteredApplicantNotFound(appTenants: seq<Tenant>, formTenants: seq<Tenant>, name: string,
                                    clinicName: string, email: string, password: string, now: nat, today: string)
    requires MockAuth.Register(formTenants, name, clinicName, email, password, now, today).Registered?
    ensures var t := MockAuth.Register(formTenants, name, clinicName, email, password, now, today).tenant;
      var listed := Approved(appTenants + [t.(plan := "PRO")], t.id);
      && listed[|appTenants|] == t.(status := Active)
      && MockAuth.SameEmail(listed[|appTenants|], email)
      && MockAuth.Login(formTenants, email, password) == MockAuth.LoginError(MockAuth.UserNotFound)
  {
  }
}

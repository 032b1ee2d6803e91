/** The administrator's dashboard: the new-vendor form and its validation,
    per-service statistics, deleting vendors and the vendor search. */
module AdminDashboard {
  import opened Records
  import opened Seqs
  import opened Text
  import opened Ledger

  datatype AdminField = NameField | EmailField | PasswordField | ServicesField

  /** The vendor being added in the modal. */
  datatype VendorDraft = VendorDraft(name: string, email: string, password: string, services: seq<Service>)

  const EmptyDraft := VendorDraft("", "", "", [])

  const NameRequired := "Name is required"
  const EmailInvalid := "Valid email is required"
  const PasswordTooShort := "Password must be at least 6 characters"
  const ServicesRequired := "At least one service must be selected"

  /** `validateForm`: one message per failing field; the e-mail must match
      `^[^\s@]+@[^\s@]+\.[^\s@]+$`. */
  function VendorFormErrors(draft: VendorDraft): (errors: map<AdminField, string>)
    ensures NameField in errors <==> IsBlank(draft.name)
    ensures EmailField in errors <==> !MatchesEmailPattern(draft.email)
    ensures PasswordField in errors <==> |draft.password| < 6
    ensures ServicesField in errors <==> draft.services == []
    ensures NameField in errors ==> errors[NameField] == NameRequired
    ensures EmailField in errors ==> errors[EmailField] == EmailInvalid
    ensures PasswordField in errors ==> errors[PasswordField] == PasswordTooShort
    ensures ServicesField in errors ==> errors[ServicesField] == ServicesRequired
  {
    EmailPatternIff(draft.email);
    var e0: map<AdminField, string> := map[];
    var e1 := if Trim(draft.name) == "" then e0[NameField := NameRequired] else e0;
    var e2 := if !ValidEmail(draft.email) then e1[EmailField := EmailInvalid] else e1;
    var e3 := if |draft.password| < 6 then e2[PasswordField := PasswordTooShort] else e2;
    if |draft.services| == 0 then e3[ServicesField := ServicesRequired] else e3
  }

  /** The number of vendors offering a service with this exact name. */
  function CountOffering(vendors: seq<Vendor>, service: string): (n: nat)
    ensures n <= |vendors|
    ensures n == 0 <==> forall i :: 0 <= i < |vendors| ==> !Offers(vendors[i], service)
  {
    var r := Filter(vendors, (v: Vendor) => Offers(v, service));
    assert |r| > 0 ==> Offers(r[0], service);
    |r|
  }

  datatype Stats = Stats(totalVendors: int, services: map<string, int>)

  /** The statistics describe `vendors`: its size and, for each listed
      service type and no other key, how many vendors offer it. */
  predicate StatsDescribe(stats: Stats, vendors: seq<Vendor>, serviceTypes: seq<string>)
  {
    && stats.totalVendors == |vendors|
    && (forall s :: s in stats.services ==> s in serviceTypes)
    && (forall s :: s in serviceTypes ==> s in stats.services)
    && (forall s :: s in stats.services ==> stats.services[s] == CountOffering(vendors, s))
  }

  /** `calculateStats`. */
  method CalculateStats(vendors: seq<Vendor>, serviceTypes: seq<string>) returns (stats: Stats)
    ensures StatsDescribe(stats, vendors, serviceTypes)
  {
    var services: map<string, int> := map[];
    var i := 0;
    while i < |serviceTypes|
      invariant 0 <= i <= |serviceTypes|
      invariant forall s :: s in services <==> s in serviceTypes[..i]
      invariant forall s :: s in services ==> services[s] == CountOffering(vendors, s)
    {
      assert serviceTypes[..i + 1] == serviceTypes[..i] + [serviceTypes[i]];
      services := services[serviceTypes[i] := CountOffering(vendors, serviceTypes[i])];
      i := i + 1;
    }
    assert serviceTypes[..i] == serviceTypes;
    stats := Stats(|vendors|, services);
  }

  /** The draft's services without those named `name`, in order. */
  function WithoutService(services: seq<Service>, name: string): (r: seq<Service>)
    ensures forall i :: 0 <= i < |r| ==> r[i] in services && r[i].name != name
    ensures forall i :: 0 <= i < |services| && services[i].name != name ==> services[i] in r
  {
    Filter(services, (s: Service) => s.name != name)
  }

  /** The order law of `WithoutService`: a service added at the end stays at
      the end exactly when its name differs. */
  lemma WithoutServiceAppend(services: seq<Service>, s: Service, name: string)
    ensures WithoutService([], name) == []
    ensures WithoutService(services + [s], name)
         == WithoutService(services, name) + (if s.name != name then [s] else [])
  {
    FilterAppend(services, [s], (s: Service) => s.name != name);
  }

  /** The vendors without those with this id, in order. */
  function WithoutVendor(vendors: seq<Vendor>, id: int): (r: seq<Vendor>)
    ensures forall i :: 0 <= i < |r| ==> r[i] in vendors && r[i].id != id
    ensures forall i :: 0 <= i < |vendors| && vendors[i].id != id ==> vendors[i] in r
  {
    Filter(vendors, (v: Vendor) => v.id != id)
  }

  /** The order law of `WithoutVendor`: a vendor added at the end stays at
      the end exactly when its id differs. */
  lemma WithoutVendorAppend(vendors: seq<Vendor>, v: Vendor, id: int)
    ensures WithoutVendor([], id) == []
    ensures WithoutVendor(vendors + [v], id)
         == WithoutVendor(vendors, id) + (if v.id != id then [v] else [])
  {
    FilterAppend(vendors, [v], (v: Vendor) => v.id != id);
  }

  /** Name, e-mail or one of the service names includes the term, ignoring case. */
  predicate AdminMatches(v: Vendor, term: string)
  {
    var q := Lower(term);
    || Contains(Lower(v.name), q)
    || Contains(Lower(v.email), q)
    || exists i :: 0 <= i < |v.services| && Contains(Lower(v.services[i].name), q)
  }

  /** `filtered`: the vendors matching the search term, in order. */
  function AdminFiltered(vendors: seq<Vendor>, term: string): (r: seq<Vendor>)
    ensures forall i :: 0 <= i < |r| ==> r[i] in vendors && AdminMatches(r[i], term)
    ensures forall i :: 0 <= i < |vendors| && AdminMatches(vendors[i], term) ==> vendors[i] in r
  {
    Filter(vendors, (v: Vendor) => AdminMatches(v, term))
  }

  /** The order law of `AdminFiltered`: a vendor added at the end is listed
      last exactly when it matches the term. */
  lemma AdminFilteredAppend(vendors: seq<Vendor>, v: Vendor, term: string)
    ensures AdminFiltered([], term) == []
    ensures AdminFiltered(vendors + [v], term)
         == AdminFiltered(vendors, term) + (if AdminMatches(v, term) then [v] else [])
  {
    FilterAppend(vendors, [v], (v: Vendor) => AdminMatches(v, term));
  }

  /** An empty search lists every vendor. */
  lemma AdminFilteredEmptyTerm(vendors: seq<Vendor>)
    ensures AdminFiltered(vendors, "") == vendors
  {
    assert Lower("") == "";
    forall i | 0 <= i < |vendors|
      ensures AdminMatches(vendors[i], "")
    {
      ContainsEmpty(Lower(vendors[i].name));
    }
    FilterAllPass(vendors, (v: Vendor) => AdminMatches(v, ""));
  }

  class AdminDashboardState {
    const serviceTypes: seq<string>
    var vendors: seq<Vendor>
    /** The store's "vendors" key. */
    var storedVendors: seq<Vendor>
    var stats: Stats
    var searchTerm: string
    var formErrors: map<AdminField, string>
    var draft: VendorDraft
    var currentService: string
    var tempPrice: string
    var showAddVendor: bool
    var showServicePrice: bool

    /** The statistics follow the vendor list (the effect on `vendors`). */
    ghost predicate StatsCurrent()
      reads this
    {
      StatsDescribe(stats, vendors, serviceTypes)
    }

    /** Mount: the stored vendors, or the bundled ones when nothing is stored. */
    constructor (saved: Option<seq<Vendor>>, bundled: seq<Vendor>, serviceTypes: seq<string>)
      ensures this.serviceTypes == serviceTypes
      ensures vendors == (if saved.Some? then saved.value else bundled)
      ensures storedVendors == (if saved.Some? then saved.value else [])
      ensures StatsCurrent()
      ensures searchTerm == "" && formErrors == map[] && draft == EmptyDraft
      ensures currentService == "" && tempPrice == "" && !showAddVendor && !showServicePrice
    {
      this.serviceTypes := serviceTypes;
      var loaded := if saved.Some? then saved.value else bundled;
      vendors := loaded;
      storedVendors := if saved.Some? then saved.value else [];
      searchTerm := "";
      formErrors := map[];
      draft := EmptyDraft;
      currentService := "";
      tempPrice := "";
      showAddVendor := false;
      showServicePrice := false;
      var computed := CalculateStats(loaded, serviceTypes);
      stats := computed;
    }

    /** `saveVendors` followed by the statistics effect. */
    method SaveVendors(updated: seq<Vendor>)
      modifies this`vendors, this`storedVendors, this`stats
      ensures vendors == updated && storedVendors == updated && StatsCurrent()
    {
      vendors := updated;
      storedVendors := updated;
      stats := CalculateStats(updated, serviceTypes);
    }

    /** `openAddVendorModal`: an empty form. */
    method OpenAddVendorModal()
      modifies this`draft, this`currentService, this`tempPrice, this`showAddVendor
      ensures draft == EmptyDraft && currentService == "" && tempPrice == "" && showAddVendor
    {
      draft := EmptyDraft;
      currentService := "";
      tempPrice := "";
      showAddVendor := true;
    }

    /** `handleAddService`: ask for the price of `service`. */
    method HandleAddService(service: string)
      modifies this`currentService, this`tempPrice, this`showServicePrice
      ensures currentService == service && tempPrice == "" && showServicePrice
    {
      currentService := service;
      tempPrice := "";
      showServicePrice := true;
    }

    /** `saveServicePrice`, given the parsed price (`None` when the text is
        not a number): a positive price adds the current service to the
        draft; the price dialog closes either way. */
    method SaveServicePrice(price: Option<real>)
      modifies this`draft, this`showServicePrice
      ensures price.Some? && price.value > 0.0 ==>
                draft == old(draft).(services := old(draft).services + [Service(currentService, price.value)])
      ensures !(price.Some? && price.value > 0.0) ==> draft == old(draft)
      ensures !showServicePrice
    {
      if price.Some? && price.value > 0.0 {
        draft := draft.(services := draft.services + [Service(currentService, price.value)]);
      }
      showServicePrice := false;
    }

    /** `removeService`: drop every draft service with this name. */
    method RemoveService(name: string)
      modifies this`draft
      ensures draft == old(draft).(services := WithoutService(old(draft).services, name))
    {
      draft := draft.(services := WithoutService(draft.services, name));
    }

    /** `saveNewVendor`, given the clock's id: an invalid draft only shows its
        errors; a valid one is appended as a vendor with no bookings, stored,
        and the modal closes. */
    method SaveNewVendor(id: int)
      modifies this`formErrors, this`vendors, this`storedVendors, this`stats, this`showAddVendor
      ensures var errors := VendorFormErrors(draft);
        if errors != map[] then
          formErrors == errors && vendors == old(vendors) && storedVendors == old(storedVendors)
          && stats == old(stats) && showAddVendor == old(showAddVendor)
        else
          && vendors == old(vendors) + [Vendor(id, draft.name, draft.email, draft.password, None, None,
                                               draft.services, [], map[], None)]
          && storedVendors == vendors && StatsCurrent() && !showAddVendor && formErrors == map[]
    {
      var errors := VendorFormErrors(draft);
      if errors != map[] {
        formErrors := errors;
        return;
      }
      var added := Vendor(id, draft.name, draft.email, draft.password, None, None, draft.services, [], map[], None);
      SaveVendors(vendors + [added]);
      showAddVendor := false;
      formErrors := map[];
    }

    /** `handleDeleteVendor`, given the user's answer to the confirmation. */
    method DeleteVendor(id: int, confirmed: bool)
      modifies this`vendors, this`storedVendors, this`stats
      ensures !confirmed ==> vendors == old(vendors) && storedVendors == old(storedVendors) && stats == old(stats)
      ensures confirmed ==> vendors == WithoutVendor(old(vendors), id) && storedVendors == vendors && StatsCurrent()
    {
      if !confirmed {
        return;
      }
      SaveVendors(WithoutVendor(vendors, id));
    }
  }
}

/** The dashboard page (src/app/page.tsx): the provider registry with its
    per-provider token memo, and the handlers that fetch the company, the
    directory and an employee's detail into the page's state slots.

    The network is a parameter: each handler receives the already resolved
    response of every request it may send, `Ok(res.data)` or
    `Failed(err.response.data.message)`, and appends the requests it actually
    sends to the `sent` log. Handlers run one after another. */
module Page {
  import opened Wrappers
  import opened Json
  import opened Normalize

  /** One entry of `sandboxProviders`; `title` is the entry's `label` (a Dafny
      keyword), and `token` is `undefined` until fetched. */
  datatype Provider = Provider(value: string, title: string, token: Raw)

  /** The fixed registry the page starts with. */
  const SandboxProviders: seq<Provider> := [
    Provider("gusto", "Gusto", Undefined),
    Provider("bamboohr", "BambooHR", Undefined),
    Provider("justworks", "Justworks", Undefined),
    Provider("paychex_flex", "Paychex Flex", Undefined),
    Provider("workday", "Workday", Undefined)]

  /** The products every sandbox token is requested for. */
  const Products: seq<string> := ["company", "directory", "individual", "employment"]

  const UnsupportedCompanyMessage: string := "This provider does not support the Company API"
  const CompanyErrorMessage: string := "Error fetching provider company"
  const DirectoryErrorMessage: string := "Error fetching provider directory"
  const DetailErrorMessage: string := "Error fetching employee details"

  /** A request the page sends. Every request but the first carries the
      token in its `Authorization: Bearer` header. */
  datatype Request =
    | CreateSandbox(provider: string, products: seq<string>)
    | GetCompany(token: Raw)
    | GetDirectory(token: Raw)
    | PostIndividual(token: Raw, individualIds: seq<string>)

  /** How a request settled: `res.data` on success, and on failure the
      `message` of the error body when there is one. */
  datatype Response = Ok(data: Raw) | Failed(message: Option<string>)

  /** `sandboxProviders.filter(p => p.value === id)[0].token`: the token of
      the first entry for `id`, or `None` when there is no such entry. */
  function TokenOf(reg: seq<Provider>, id: string): (t: Option<Raw>)
    ensures t.Some? <==> exists i :: 0 <= i < |reg| && reg[i].value == id
    ensures t.Some? ==> exists i :: 0 <= i < |reg| && reg[i].value == id && reg[i].token == t.value
  {
    if reg == [] then None
    else if reg[0].value == id then Some(reg[0].token)
    else
      var t := TokenOf(reg[1..], id);
      assert t.Some? ==> exists i :: 0 <= i < |reg| && reg[i].value == id && reg[i].token == t.value by {
        if t.Some? {
          var i :| 0 <= i < |reg[1..]| && reg[1..][i].value == id && reg[1..][i].token == t.value;
          assert reg[i + 1] == reg[1..][i];
        }
      }
      t
  }

  /** The token found is the one of the first entry for `id`: every entry
      before it belongs to another provider. */
  lemma {:induction false} TokenOfFirst(reg: seq<Provider>, id: string, i: int)
    requires 0 <= i < |reg| && reg[i].value == id
    requires forall j :: 0 <= j < i ==> reg[j].value != id
    ensures TokenOf(reg, id) == Some(reg[i].token)
  {
    if i > 0 {
      TokenOfFirst(reg[1..], id, i - 1);
    }
  }

  /** The `sandboxProviders.map` that sets `provider.token` on every entry for
      `id`: same entries in the same order, with only the tokens of `id`'s
      entries replaced. */
  function StoreToken(reg: seq<Provider>, id: string, t: Raw): (r: seq<Provider>)
    ensures |r| == |reg|
    ensures forall i :: 0 <= i < |reg| ==>
      r[i].value == reg[i].value && r[i].title == reg[i].title
      && r[i].token == (if reg[i].value == id then t else reg[i].token)
  {
    if reg == [] then []
    else [if reg[0].value == id then reg[0].(token := t) else reg[0]] + StoreToken(reg[1..], id, t)
  }

  /** After storing, the registry yields the stored token for `id`. */
  lemma {:induction false} StoreThenRead(reg: seq<Provider>, id: string, t: Raw)
    requires TokenOf(reg, id).Some?
    ensures TokenOf(StoreToken(reg, id, t), id) == Some(t)
  {
    if reg[0].value != id {
      StoreThenRead(reg[1..], id, t);
    }
  }

  /** Storing a token for `id` leaves what every other provider yields as it
      was. */
  lemma {:induction false} StoreKeepsOthers(reg: seq<Provider>, id: string, t: Raw, other: string)
    requires other != id
    ensures TokenOf(StoreToken(reg, id, t), other) == TokenOf(reg, other)
  {
    if reg != [] {
      StoreKeepsOthers(reg[1..], id, t, other);
    }
  }

  /** The registry has the five fixed entries, in their order, with their
      labels. */
  ghost predicate SameProviders(reg: seq<Provider>)
  {
    |reg| == |SandboxProviders|
    && forall i :: 0 <= i < |reg| ==>
      reg[i].value == SandboxProviders[i].value && reg[i].title == SandboxProviders[i].title
  }

  /** Every entry's token is still `undefined`, or is a usable (truthy)
      token. */
  ghost predicate Memoized(reg: seq<Provider>)
  {
    forall i :: 0 <= i < |reg| ==> reg[i].token == Undefined || Truthy(reg[i].token)
  }

  /** `res.data && res.data.access_token`: the token a create response
      carries, if any. */
  function IssuedToken(response: Response): (t: Option<Raw>)
    ensures t.Some? <==>
      response.Ok? && Truthy(response.data) && Truthy(Get(response.data, "access_token"))
    ensures t.Some? ==> t.value == Get(response.data, "access_token") && Truthy(t.value)
  {
    if response.Ok? && Truthy(response.data) && Truthy(Get(response.data, "access_token"))
    then Some(Get(response.data, "access_token"))
    else None
  }

  /** What `fetchProviderToken` resolves to, and the registry it leaves. */
  datatype TokenResult = TokenResult(token: Raw, registry: seq<Provider>)

  /** `fetchProviderToken(id)` on registry `reg`, where `response` is what the
      create request would settle to if it is sent. A truthy stored token is
      returned as it is and nothing changes; otherwise a usable issued token is
      stored for `id` and returned; otherwise nothing is stored and the result
      is `undefined`, never `null`. */
  function FetchToken(reg: seq<Provider>, id: string, response: Response): (r: TokenResult)
    requires TokenOf(reg, id).Some? && Memoized(reg)
    ensures Truthy(TokenOf(reg, id).value) ==> r == TokenResult(TokenOf(reg, id).value, reg)
    ensures !Truthy(r.token) ==> r.token == Undefined && r.registry == reg
    ensures Truthy(r.token) ==> TokenOf(r.registry, id) == Some(r.token)
    ensures !Truthy(TokenOf(reg, id).value) && IssuedToken(response).Some? ==>
      r == TokenResult(IssuedToken(response).value, StoreToken(reg, id, IssuedToken(response).value))
    ensures !Truthy(TokenOf(reg, id).value) && IssuedToken(response).None? ==>
      r == TokenResult(Undefined, reg)
  {
    var stored := TokenOf(reg, id).value;
    if Truthy(stored) then TokenResult(stored, reg)
    else
      assert stored == Undefined by {
        var i :| 0 <= i < |reg| && reg[i].value == id && reg[i].token == stored;
      }
      match IssuedToken(response)
      case None => TokenResult(Undefined, reg)
      case Some(t) =>
        StoreThenRead(reg, id, t);
        TokenResult(t, StoreToken(reg, id, t))
  }

  /** Storing a usable token keeps the registry memoised. */
  lemma StoreKeepsMemoized(reg: seq<Provider>, id: string, t: Raw)
    requires Memoized(reg) && Truthy(t)
    ensures Memoized(StoreToken(reg, id, t))
  {
  }

  /** A token fetch keeps the registry's entries, values and titles, keeps it
      memoised, and changes what no other provider yields. */
  lemma FetchTokenKeeps(reg: seq<Provider>, id: string, response: Response)
    requires TokenOf(reg, id).Some? && Memoized(reg)
    ensures var r := FetchToken(reg, id, response).registry;
      Memoized(r) && |r| == |reg|
      && (forall i :: 0 <= i < |reg| ==> r[i].value == reg[i].value && r[i].title == reg[i].title)
      && (forall other :: other != id ==> TokenOf(r, other) == TokenOf(reg, other))
  {
    var r := FetchToken(reg, id, response);
    if r.registry != reg {
      var t := r.token;
      assert r.registry == StoreToken(reg, id, t);
      StoreKeepsMemoized(reg, id, t);
      forall other | other != id ensures TokenOf(r.registry, other) == TokenOf(reg, other) {
        StoreKeepsOthers(reg, id, t, other);
      }
    }
  }

  /** A token fetch keeps a registry fit for the page: the five entries, usable
      tokens only, and the selected provider still registered. */
  lemma FetchTokenValid(reg: seq<Provider>, id: string, response: Response, selected: Option<string>)
    requires TokenOf(reg, id).Some? && Memoized(reg) && SameProviders(reg)
    requires selected.Some? ==> TokenOf(reg, selected.value).Some?
    ensures var r := FetchToken(reg, id, response).registry;
      SameProviders(r) && Memoized(r) && (selected.Some? ==> TokenOf(r, selected.value).Some?)
  {
    FetchTokenKeeps(reg, id, response);
  }

  /** The create request `fetchProviderToken(id)` sends: none when a truthy
      token is stored. */
  function TokenRequests(reg: seq<Provider>, id: string): (sent: seq<Request>)
    requires TokenOf(reg, id).Some?
    ensures sent == [] <==> Truthy(TokenOf(reg, id).value)
    ensures sent != [] ==> sent == [CreateSandbox(id, Products)]
  {
    if Truthy(TokenOf(reg, id).value) then [] else [CreateSandbox(id, Products)]
  }

  /** Token memoisation: once a fetch has yielded a usable token, fetching
      again for the same provider sends no request, returns the same token
      and leaves the registry as it is, whatever the response would be. */
  lemma TokenMemoized(reg: seq<Provider>, id: string, first: Response, second: Response)
    requires TokenOf(reg, id).Some? && Memoized(reg)
    requires Truthy(FetchToken(reg, id, first).token)
    ensures var r := FetchToken(reg, id, first);
      TokenRequests(r.registry, id) == []
      && FetchToken(r.registry, id, second) == r
  {
  }

  /** How the company request settled, as the handler classifies it. */
  datatype CompanyOutcome =
    | Loaded(company: Company)   // a company with a truthy `id`
    | NoCompany                  // a success without one
    | Unsupported                // the error message "Not Implemented"
    | Unclassified               // an error without a message
    | Silent                     // an error with any other message

  function CompanyOutcomeOf(response: Response): (o: CompanyOutcome)
    ensures o.Loaded? <==> response.Ok? && HasCompany(response.data)
    ensures o.Loaded? ==> o.company == NormalizeCompany(response.data)
    ensures o == NoCompany <==> response.Ok? && !HasCompany(response.data)
    ensures o == Unsupported <==> response == Failed(Some("Not Implemented"))
    ensures o == Unclassified <==> response.Failed? && (response.message == None || response.message == Some(""))
    ensures o == Silent <==>
      response.Failed? && response.message.Some?
      && response.message.value != "" && response.message.value != "Not Implemented"
  {
    match response
    case Ok(data) => if HasCompany(data) then Loaded(NormalizeCompany(data)) else NoCompany
    case Failed(message) =>
      if message.Some? && message.value != "" then
        (if message.value == "Not Implemented" then Unsupported else Silent)
      else Unclassified
  }

  /** The company slot after the company request settled. */
  function CompanyAfter(o: CompanyOutcome, previous: Option<Company>): (company: Option<Company>)
    ensures o.Loaded? ==> company == Some(o.company)
    ensures o == Unsupported ==> company == None
    ensures !o.Loaded? && o != Unsupported ==> company == previous
  {
    match o
    case Loaded(c) => Some(c)
    case Unsupported => None
    case _ => previous
  }

  /** The error slot after the company request settled. */
  function ErrorAfterCompany(o: CompanyOutcome, previous: Option<string>): (error: Option<string>)
    ensures o == Unsupported ==> error == Some(UnsupportedCompanyMessage)
    ensures o == Unclassified ==> error == Some(CompanyErrorMessage)
    ensures o != Unsupported && o != Unclassified ==> error == previous
  {
    match o
    case Unsupported => Some(UnsupportedCompanyMessage)
    case Unclassified => Some(CompanyErrorMessage)
    case _ => previous
  }

  /** How the directory request settled. */
  datatype DirectoryOutcome =
    | Listed(rows: seq<DirectoryRow>)   // rows built from a truthy `res.data`
    | NoData                            // a success with a falsy `res.data`
    | DirectoryFailed                   // a failed request, or a row that threw

  function DirectoryOutcomeOf(response: Response): (o: DirectoryOutcome)
    ensures o == DirectoryFailed <==>
      response.Failed? || (Truthy(response.data) && DirectoryRows(response.data).Threw?)
    ensures o == NoData <==> response.Ok? && !Truthy(response.data)
    ensures o.Listed? ==>
      response.Ok? && Truthy(response.data) && DirectoryRows(response.data) == Returned(o.rows)
  {
    match response
    case Failed(_) => DirectoryFailed
    case Ok(data) =>
      if !Truthy(data) then NoData
      else
        match DirectoryRows(data)
        case Threw => DirectoryFailed
        case Returned(rows) => Listed(rows)
  }

  /** The directory slot after the directory request settled. */
  function DirectoryAfter(o: DirectoryOutcome, previous: Option<seq<DirectoryRow>>): (directory: Option<seq<DirectoryRow>>)
    ensures o.Listed? ==> directory == Some(o.rows)
    ensures !o.Listed? ==> directory == previous
  {
    if o.Listed? then Some(o.rows) else previous
  }

  /** The error slot after the directory request settled: the success path
      clears it whatever it held. */
  function ErrorAfterDirectory(o: DirectoryOutcome): (error: Option<string>)
    ensures error == None <==> o != DirectoryFailed
    ensures error != None ==> error == Some(DirectoryErrorMessage)
  {
    if o == DirectoryFailed then Some(DirectoryErrorMessage) else None
  }

  /** How the detail request settled. */
  datatype DetailOutcome =
    | Selected(detail: Detail)   // the first response, normalised
    | NothingSelected            // no first response to use
    | DetailFailed               // a failed request, or a read that threw

  function DetailOutcomeOf(response: Response): (o: DetailOutcome)
    ensures o == DetailFailed <==> response.Failed? || NormalizeDetail(response.data) == Threw
    ensures o == NothingSelected <==> response.Ok? && NormalizeDetail(response.data) == Returned(None)
    ensures o.Selected? ==> response.Ok? && NormalizeDetail(response.data) == Returned(Some(o.detail))
  {
    match response
    case Failed(_) => DetailFailed
    case Ok(data) =>
      match NormalizeDetail(data)
      case Threw => DetailFailed
      case Returned(None) => NothingSelected
      case Returned(Some(d)) => Selected(d)
  }

  /** The selected-employee slot after the detail request settled. */
  function EmployeeAfter(o: DetailOutcome, previous: Option<Detail>): (employee: Option<Detail>)
    ensures o.Selected? ==> employee == Some(o.detail)
    ensures !o.Selected? ==> employee == previous
  {
    if o.Selected? then Some(o.detail) else previous
  }

  /** The error slot after the detail request settled. */
  function ErrorAfterDetail(o: DetailOutcome, previous: Option<string>): (error: Option<string>)
    ensures o == DetailFailed ==> error == Some(DetailErrorMessage)
    ensures o != DetailFailed ==> error == previous
  {
    if o == DetailFailed then Some(DetailErrorMessage) else previous
  }

  /** The company handler's slots, read off the response: a company with a
      truthy `id` is stored and the error slot is kept; "Not Implemented"
      clears the company and sets the tailored error; an error without a
      message sets the generic error; any other message changes neither slot. */
  lemma CompanySlots(response: Response, company: Option<Company>, error: Option<string>)
    ensures response.Ok? && HasCompany(response.data) ==>
      var o := CompanyOutcomeOf(response);
      CompanyAfter(o, company) == Some(NormalizeCompany(response.data)) && ErrorAfterCompany(o, error) == error
    ensures response == Failed(Some("Not Implemented")) ==>
      var o := CompanyOutcomeOf(response);
      CompanyAfter(o, company) == None && ErrorAfterCompany(o, error) == Some(UnsupportedCompanyMessage)
    ensures response == Failed(None) ==>
      var o := CompanyOutcomeOf(response);
      CompanyAfter(o, company) == company && ErrorAfterCompany(o, error) == Some(CompanyErrorMessage)
    ensures response.Failed? && response.message.Some? && response.message.value != ""
            && response.message.value != "Not Implemented" ==>
      var o := CompanyOutcomeOf(response);
      CompanyAfter(o, company) == company && ErrorAfterCompany(o, error) == error
  {
  }

  /** The directory handler's slots, read off the response: a failed request
      keeps the directory and sets the error; a success with no `individuals`
      lists no rows and clears the error. */
  lemma DirectorySlots(response: Response, directory: Option<seq<DirectoryRow>>)
    ensures response.Failed? ==>
      var o := DirectoryOutcomeOf(response);
      DirectoryAfter(o, directory) == directory && ErrorAfterDirectory(o) == Some(DirectoryErrorMessage)
    ensures response.Ok? && Truthy(response.data) && !Truthy(Get(response.data, "individuals")) ==>
      var o := DirectoryOutcomeOf(response);
      DirectoryAfter(o, directory) == Some([]) && ErrorAfterDirectory(o) == None
    ensures response.Ok? && !Truthy(response.data) ==>
      var o := DirectoryOutcomeOf(response);
      DirectoryAfter(o, directory) == directory && ErrorAfterDirectory(o) == None
  {
  }

  /** The detail handler's slots, read off the response: empty or missing
      `responses` leave both slots; a failed request keeps the employee and
      sets the error. */
  lemma DetailSlots(response: Response, employee: Option<Detail>, error: Option<string>)
    ensures response.Ok? && !Nullish(response.data) && !Truthy(Get(response.data, "responses")) ==>
      var o := DetailOutcomeOf(response);
      EmployeeAfter(o, employee) == employee && ErrorAfterDetail(o, error) == error
    ensures response.Failed? ==>
      var o := DetailOutcomeOf(response);
      EmployeeAfter(o, employee) == employee && ErrorAfterDetail(o, error) == Some(DetailErrorMessage)
  {
  }

  /** Selecting "gusto" when the create request issues "tok1" stores that
      token for "gusto" and for no other provider. */
  lemma TokenExample()
    ensures var fetched := FetchToken(SandboxProviders, "gusto", Ok(Obj(map["access_token" := Str("tok1")])));
      fetched.token == Str("tok1") && TokenOf(fetched.registry, "gusto") == Some(Str("tok1"))
      && TokenOf(fetched.registry, "workday") == Some(Undefined)
  {
    var response := Ok(Obj(map["access_token" := Str("tok1")]));
    RegistryLookups();
    assert IssuedToken(response) == Some(Str("tok1")) by {
      assert Get(response.data, "access_token") == Str("tok1");
    }
    StoreKeepsOthers(SandboxProviders, "gusto", Str("tok1"), "workday");
  }

  /** The first and the last provider of the initial registry. */
  lemma RegistryLookups()
    ensures TokenOf(SandboxProviders, "gusto") == Some(Undefined)
    ensures TokenOf(SandboxProviders, "workday") == Some(Undefined)
    ensures Memoized(SandboxProviders)
  {
    var reg := SandboxProviders;
    assert reg[0].value != "workday" && reg[1].value != "workday";
    assert reg[2].value != "workday" && reg[3].value != "workday";
    assert reg[1..][1..][1..][1..] == [reg[4]];
  }

  /** A company `{id: "c1", legal_name: "Acme"}` is loaded with its legal name
      and without an `ein`; a "Not Implemented" error is the tailored one. */
  lemma CompanyExample()
    ensures var o := CompanyOutcomeOf(Ok(Obj(map["id" := Str("c1"), "legal_name" := Str("Acme")])));
      o.Loaded? && o.company.legalName == Some(Str("Acme")) && o.company.ein == None
    ensures CompanyOutcomeOf(Failed(Some("Not Implemented"))) == Unsupported
  {
    var data := Obj(map["id" := Str("c1"), "legal_name" := Str("Acme")]);
    assert Get(data, "id") == Str("c1");
    assert Get(data, "legal_name") == Str("Acme");
    assert Get(data, "ein") == Undefined;
  }

  /** A directory of one active employee "Jo Lee" of department "Eng" gives
      exactly that one row. */
  lemma DirectoryExample()
    ensures var employee := Obj(map["id" := Str("e1"), "first_name" := Str("Jo"), "last_name" := Str("Lee"),
                                    "department" := Obj(map["name" := Str("Eng")]), "is_active" := Bool(true)]);
      DirectoryOutcomeOf(Ok(Obj(map["individuals" := Arr([employee])])))
      == Listed([DirectoryRow(Str("e1"), Str("e1"), Str("e1"), Some(Str("Jo")), Some(Str("Lee")), None,
                              Some(Str("Eng")), Some(Bool(true)))])
  {
  }

  /** `selectedProvider && employeeId`: both are set and non-empty. */
  predicate CanSelect(selectedProvider: Option<string>, employeeId: Option<string>)
  {
    selectedProvider.Some? && selectedProvider.value != "" && employeeId.Some? && employeeId.value != ""
  }

  /** The `Home` component's state slots, plus the log of requests sent. */
  class Home {
    var selectedProvider: Option<string>
    var loading: bool
    var sandboxProviders: seq<Provider>
    var providerCompany: Option<Company>
    var providerDirectory: Option<seq<DirectoryRow>>
    var selectedEmployee: Option<Detail>
    var error: Option<string>
    var showModal: bool
    var sent: seq<Request>

    /** The registry keeps its five entries and holds only usable tokens, and
        a selected provider is one of them. */
    ghost predicate Valid()
      reads this
    {
      SameProviders(sandboxProviders) && Memoized(sandboxProviders)
      && (selectedProvider.Some? ==> TokenOf(sandboxProviders, selectedProvider.value).Some?)
    }

    /** The first render: nothing selected or loaded, no error, no token. */
    constructor ()
      ensures Valid()
      ensures selectedProvider == None && !loading && sandboxProviders == SandboxProviders
      ensures providerCompany == None && providerDirectory == None && selectedEmployee == None
      ensures error == None && !showModal && sent == []
    {
      selectedProvider := None;
      loading := false;
      sandboxProviders := SandboxProviders;
      providerCompany := None;
      providerDirectory := None;
      selectedEmployee := None;
      error := None;
      showModal := false;
      sent := [];
    }

    /** `fetchProviderToken(providerId)`. */
    method FetchProviderToken(providerId: string, response: Response) returns (token: Raw)
      requires Valid() && TokenOf(sandboxProviders, providerId).Some?
      modifies this
      ensures Valid()
      ensures token != Null
      ensures token == FetchToken(old(sandboxProviders), providerId, response).token
      ensures sandboxProviders == FetchToken(old(sandboxProviders), providerId, response).registry
      ensures sent == old(sent) + TokenRequests(old(sandboxProviders), providerId)
      ensures selectedProvider == old(selectedProvider) && loading == old(loading)
      ensures providerCompany == old(providerCompany) && providerDirectory == old(providerDirectory)
      ensures selectedEmployee == old(selectedEmployee) && error == old(error) && showModal == old(showModal)
    {
      var reg := sandboxProviders;
      FetchTokenValid(reg, providerId, response, selectedProvider);
      var stored := TokenOf(reg, providerId).value;
      if Truthy(stored) {
        token := stored;
      } else {
        sent := sent + [CreateSandbox(providerId, Products)];
        match IssuedToken(response)
        case Some(issued) =>
          token := issued;
          sandboxProviders := StoreToken(reg, providerId, issued);
        case None =>
          token := Undefined;
      }
    }

    /** `fetchProviderCompany(providerToken)`. */
    method FetchProviderCompany(providerToken: Raw, response: Response)
      requires Valid()
      modifies this
      ensures Valid()
      ensures sent == old(sent) + [GetCompany(providerToken)]
      ensures loading == (CompanyOutcomeOf(response) == NoCompany)
      ensures providerCompany == CompanyAfter(CompanyOutcomeOf(response), old(providerCompany))
      ensures error == ErrorAfterCompany(CompanyOutcomeOf(response), old(error))
      ensures selectedProvider == old(selectedProvider) && sandboxProviders == old(sandboxProviders)
      ensures providerDirectory == old(providerDirectory)
      ensures selectedEmployee == old(selectedEmployee) && showModal == old(showModal)
    {
      sent := sent + [GetCompany(providerToken)];
      loading := true;
      match response
      case Ok(data) =>
        if HasCompany(data) {
          providerCompany := Some(NormalizeCompany(data));
          loading := false;
        }
      case Failed(message) =>
        loading := false;
        if message.Some? && message.value != "" {
          if message.value == "Not Implemented" {
            error := Some(UnsupportedCompanyMessage);
            providerCompany := None;
          }
        } else {
          error := Some(CompanyErrorMessage);
        }
    }

    /** `fetchProviderDirectory(providerToken)`. */
    method FetchProviderDirectory(providerToken: Raw, response: Response)
      requires Valid()
      modifies this
      ensures Valid()
      ensures sent == old(sent) + [GetDirectory(providerToken)]
      ensures providerDirectory == DirectoryAfter(DirectoryOutcomeOf(response), old(providerDirectory))
      ensures error == ErrorAfterDirectory(DirectoryOutcomeOf(response))
      ensures selectedProvider == old(selectedProvider) && loading == old(loading)
      ensures sandboxProviders == old(sandboxProviders) && providerCompany == old(providerCompany)
      ensures selectedEmployee == old(selectedEmployee) && showModal == old(showModal)
    {
      sent := sent + [GetDirectory(providerToken)];
      match response
      case Ok(data) =>
        if Truthy(data) {
          match DirectoryRows(data)
          case Threw =>
            error := Some(DirectoryErrorMessage);
            return;
          case Returned(rows) =>
            providerDirectory := Some(rows);
        }
        error := None;
      case Failed(_) =>
        error := Some(DirectoryErrorMessage);
    }

    /** `fetchEmployeeDetails(providerToken, employeeId)`. Its promise
        resolves to `undefined` whatever happened. */
    method FetchEmployeeDetails(providerToken: Raw, employeeId: string, response: Response)
      returns (individual: Raw)
      requires Valid()
      modifies this
      ensures Valid()
      ensures individual == Undefined
      ensures sent == old(sent) + [PostIndividual(providerToken, [employeeId])]
      ensures selectedEmployee == EmployeeAfter(DetailOutcomeOf(response), old(selectedEmployee))
      ensures error == ErrorAfterDetail(DetailOutcomeOf(response), old(error))
      ensures selectedProvider == old(selectedProvider) && loading == old(loading)
      ensures sandboxProviders == old(sandboxProviders) && providerCompany == old(providerCompany)
      ensures providerDirectory == old(providerDirectory) && showModal == old(showModal)
    {
      sent := sent + [PostIndividual(providerToken, [employeeId])];
      individual := Undefined;
      match response
      case Ok(data) => {
        match NormalizeDetail(data)
        case Threw =>
          error := Some(DetailErrorMessage);
        case Returned(None) =>
        case Returned(Some(employee)) =>
          selectedEmployee := Some(employee);
      }
      case Failed(_) =>
        error := Some(DetailErrorMessage);
    }

    /** `updateSelectedProvider(providerId)`: record the selection, obtain the
        token, then fetch the company and then the directory. The token guard
        never fails, so both fetches always run, and the directory outcome
        decides the error slot. */
    method UpdateSelectedProvider(providerId: string, tokenResponse: Response,
                                  companyResponse: Response, directoryResponse: Response)
      requires Valid() && TokenOf(sandboxProviders, providerId).Some?
      modifies this
      ensures Valid()
      ensures selectedProvider == Some(providerId)
      ensures sandboxProviders == FetchToken(old(sandboxProviders), providerId, tokenResponse).registry
      ensures var token := FetchToken(old(sandboxProviders), providerId, tokenResponse).token;
        sent == old(sent) + TokenRequests(old(sandboxProviders), providerId)
                + [GetCompany(token), GetDirectory(token)]
      ensures loading == (CompanyOutcomeOf(companyResponse) == NoCompany)
      ensures providerCompany == CompanyAfter(CompanyOutcomeOf(companyResponse), old(providerCompany))
      ensures providerDirectory == DirectoryAfter(DirectoryOutcomeOf(directoryResponse), old(providerDirectory))
      ensures error == ErrorAfterDirectory(DirectoryOutcomeOf(directoryResponse))
      ensures selectedEmployee == old(selectedEmployee) && showModal == old(showModal)
    {
      selectedProvider := Some(providerId);
      var token := FetchProviderToken(providerId, tokenResponse);
      if token != Null {
        FetchProviderCompany(token, companyResponse);
        FetchProviderDirectory(token, directoryResponse);
      } else {
        // The source reports "Error fetching provider token" here; the branch
        // is unreachable because the token is never `null`.
        assert false;
      }
    }

    /** `selectEmployee(employeeId)`: with a provider and an id, obtain the
        token, fetch the detail and open the modal, which opens after every
        detail fetch because the fetch resolves to `undefined`, not `null`;
        otherwise report the error and send nothing. */
    method SelectEmployee(employeeId: Option<string>, tokenResponse: Response, detailResponse: Response)
      requires Valid()
      modifies this
      ensures Valid()
      ensures !CanSelect(old(selectedProvider), employeeId) ==>
        error == Some(DetailErrorMessage) && sent == old(sent) && showModal == old(showModal)
        && sandboxProviders == old(sandboxProviders) && selectedEmployee == old(selectedEmployee)
      ensures CanSelect(old(selectedProvider), employeeId) ==>
        var fetched := FetchToken(old(sandboxProviders), old(selectedProvider).value, tokenResponse);
        sandboxProviders == fetched.registry
        && sent == old(sent) + TokenRequests(old(sandboxProviders), old(selectedProvider).value)
                   + [PostIndividual(fetched.token, [employeeId.value])]
        && selectedEmployee == EmployeeAfter(DetailOutcomeOf(detailResponse), old(selectedEmployee))
        && error == ErrorAfterDetail(DetailOutcomeOf(detailResponse), old(error))
        && showModal
      ensures selectedProvider == old(selectedProvider) && loading == old(loading)
      ensures providerCompany == old(providerCompany) && providerDirectory == old(providerDirectory)
    {
      if CanSelect(selectedProvider, employeeId) {
        var providerToken := FetchProviderToken(selectedProvider.value, tokenResponse);
        var individual := FetchEmployeeDetails(providerToken, employeeId.value, detailResponse);
        if individual != Null {
          showModal := true;
        }
      } else {
        error := Some(DetailErrorMessage);
      }
    }

    /** The modal's `onClose`. */
    method CloseModal()
      modifies this
      ensures !showModal
      ensures selectedProvider == old(selectedProvider) && loading == old(loading)
      ensures sandboxProviders == old(sandboxProviders) && providerCompany == old(providerCompany)
      ensures providerDirectory == old(providerDirectory) && selectedEmployee == old(selectedEmployee)
      ensures error == old(error) && sent == old(sent)
    {
      showModal := false;
    }
  }
}

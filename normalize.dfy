/** The records the dashboard page builds from API responses
    (src/app/page.tsx): the company profile, the directory rows and the
    employee detail. Each nullable field follows one rule: a truthy raw value
    is kept, anything else becomes `null`. */
module Normalize {
  import opened Wrappers
  import opened Json

  /** `entity: { type, subtype }` of a company. */
  datatype Entity = Entity(entityType: Option<Raw>, subtype: Option<Raw>)

  /** `ProviderCompany`. `id` is copied as it is; every other field is
      nullable. */
  datatype Company = Company(
    id: Raw,
    legalName: Option<Raw>,
    ein: Option<Raw>,
    entity: Option<Entity>,
    primaryEmail: Option<Raw>,
    primaryPhoneNumber: Option<Raw>,
    accounts: Option<Raw>,
    departments: Option<Raw>,
    locations: Option<Raw>)

  /** The stored field `f` was made from the raw value `raw` by the
      truthy-or-null rule. */
  predicate Keeps(raw: Raw, f: Option<Raw>)
  {
    (f == None <==> !Truthy(raw)) && (f.Some? ==> f.value == raw)
  }

  /** `res.data && res.data.id`: the company response carries a company. */
  predicate HasCompany(data: Raw)
    ensures HasCompany(data) ==> data.Obj? && "id" in data.props && Truthy(data.props["id"])
  {
    Truthy(data) && Truthy(Get(data, "id"))
  }

  /** The company record built from `res.data`. */
  function NormalizeCompany(c: Raw): (r: Company)
    ensures r.id == Get(c, "id")
    ensures Keeps(Get(c, "legal_name"), r.legalName) && Keeps(Get(c, "ein"), r.ein)
    ensures Keeps(Get(c, "primary_email"), r.primaryEmail)
    ensures Keeps(Get(c, "primary_phone_number"), r.primaryPhoneNumber)
    ensures Keeps(Get(c, "accounts"), r.accounts) && Keeps(Get(c, "departments"), r.departments)
    ensures Keeps(Get(c, "locations"), r.locations)
    ensures r.entity == None <==> !Truthy(Get(c, "entity"))
    ensures r.entity.Some? ==>
      Keeps(Get(Get(c, "entity"), "type"), r.entity.value.entityType)
      && Keeps(Get(Get(c, "entity"), "subtype"), r.entity.value.subtype)
  {
    var entity := Get(c, "entity");
    Company(
      Get(c, "id"),
      OrNull(Get(c, "legal_name")),
      OrNull(Get(c, "ein")),
      if Truthy(entity) then Some(Entity(OrNull(Get(entity, "type")), OrNull(Get(entity, "subtype")))) else None,
      OrNull(Get(c, "primary_email")),
      OrNull(Get(c, "primary_phone_number")),
      OrNull(Get(c, "accounts")),
      OrNull(Get(c, "departments")),
      OrNull(Get(c, "locations")))
  }

  /** Every nullable field of the company is `null` or truthy. */
  ghost predicate CompanyNormal(co: Company)
  {
    Normal(co.legalName) && Normal(co.ein) && Normal(co.primaryEmail)
    && Normal(co.primaryPhoneNumber) && Normal(co.accounts) && Normal(co.departments)
    && Normal(co.locations)
    && (co.entity.Some? ==> Normal(co.entity.value.entityType) && Normal(co.entity.value.subtype))
  }

  /** The company written back out as a JSON object. */
  function CompanyJson(co: Company): Raw
  {
    Obj(map[
      "id" := co.id,
      "legal_name" := ToRaw(co.legalName),
      "ein" := ToRaw(co.ein),
      "entity" := (match co.entity
                   case None => Null
                   case Some(e) => Obj(map["type" := ToRaw(e.entityType), "subtype" := ToRaw(e.subtype)])),
      "primary_email" := ToRaw(co.primaryEmail),
      "primary_phone_number" := ToRaw(co.primaryPhoneNumber),
      "accounts" := ToRaw(co.accounts),
      "departments" := ToRaw(co.departments),
      "locations" := ToRaw(co.locations)])
  }

  /** Reading the fields of the written-out company gives back what was
      written. */
  lemma CompanyJsonReads(co: Company)
    ensures Get(CompanyJson(co), "id") == co.id
    ensures Get(CompanyJson(co), "legal_name") == ToRaw(co.legalName)
    ensures Get(CompanyJson(co), "ein") == ToRaw(co.ein)
    ensures Get(CompanyJson(co), "primary_email") == ToRaw(co.primaryEmail)
    ensures Get(CompanyJson(co), "primary_phone_number") == ToRaw(co.primaryPhoneNumber)
    ensures Get(CompanyJson(co), "accounts") == ToRaw(co.accounts)
    ensures Get(CompanyJson(co), "departments") == ToRaw(co.departments)
    ensures Get(CompanyJson(co), "locations") == ToRaw(co.locations)
    ensures co.entity == None ==> Get(CompanyJson(co), "entity") == Null
    ensures co.entity.Some? ==>
      Get(Get(CompanyJson(co), "entity"), "type") == ToRaw(co.entity.value.entityType)
      && Get(Get(CompanyJson(co), "entity"), "subtype") == ToRaw(co.entity.value.subtype)
  {
  }

  /** Normalisation establishes the sentinel rule, and applying it to its own
      output changes nothing: it is a projection onto normal records. */
  lemma NormalizeCompanyIdempotent(c: Raw)
    ensures CompanyNormal(NormalizeCompany(c))
    ensures NormalizeCompany(CompanyJson(NormalizeCompany(c))) == NormalizeCompany(c)
  {
    CompanyJsonReads(NormalizeCompany(c));
  }

  /** One row of the directory table as the page builds it; `id`, `key` and
      `value` all carry the employee id. */
  datatype DirectoryRow = DirectoryRow(
    id: Raw,
    key: Raw,
    value: Raw,
    firstName: Option<Raw>,
    lastName: Option<Raw>,
    middleName: Option<Raw>,
    department: Option<Raw>,
    isActive: Option<Raw>)

  /** The `individuals.map` callback for one employee. Reading `employee.id`
      of a null employee, or `employee.department.name` of an employee without
      a department, throws. */
  function NormalizeEmployee(e: Raw): (r: Eval<DirectoryRow>)
    ensures r.Threw? <==> Nullish(e) || Nullish(Get(e, "department"))
    ensures r.Returned? ==>
      var row := r.value;
      row.id == Get(e, "id") && row.key == row.id && row.value == row.id
      && Keeps(Get(e, "first_name"), row.firstName)
      && Keeps(Get(e, "last_name"), row.lastName)
      && Keeps(Get(e, "middle_name"), row.middleName)
      && Keeps(Get(Get(e, "department"), "name"), row.department)
      && Keeps(Get(e, "is_active"), row.isActive)
  {
    if Nullish(e) then Threw
    else
      var department := Get(e, "department");
      if Nullish(department) then Threw
      else
        var id := Get(e, "id");
        Returned(DirectoryRow(
          id, id, id,
          OrNull(Get(e, "first_name")),
          OrNull(Get(e, "last_name")),
          OrNull(Get(e, "middle_name")),
          OrNull(Get(department, "name")),
          OrNull(Get(e, "is_active"))))
  }

  /** `employeeArray.map(...)`: one row per employee, in order, unless the
      callback throws for some employee, which aborts the whole map. */
  function NormalizeRows(items: seq<Raw>): (r: Eval<seq<DirectoryRow>>)
    ensures r.Returned? <==> forall i :: 0 <= i < |items| ==> NormalizeEmployee(items[i]).Returned?
    ensures r.Returned? ==>
      |r.value| == |items| && forall i :: 0 <= i < |items| ==> r.value[i] == NormalizeEmployee(items[i]).value
  {
    if items == [] then Returned([])
    else
      match NormalizeEmployee(items[0])
      case Threw => Threw
      case Returned(row) =>
        match NormalizeRows(items[1..])
        case Threw => Threw
        case Returned(rows) => Returned([row] + rows)
  }

  /** The rows built from a truthy `res.data`: `individuals` when truthy, an
      empty list otherwise. A truthy `individuals` that is not an array has no
      `map` method, so calling it throws. */
  function DirectoryRows(data: Raw): (r: Eval<seq<DirectoryRow>>)
    ensures !Truthy(Get(data, "individuals")) ==> r == Returned([])
    ensures Truthy(Get(data, "individuals")) && !Get(data, "individuals").Arr? ==> r == Threw
    ensures Get(data, "individuals").Arr? ==> r == NormalizeRows(Get(data, "individuals").items)
  {
    var individuals := Get(data, "individuals");
    var employees := if Truthy(individuals) then individuals else Arr([]);
    if employees.Arr? then NormalizeRows(employees.items) else Threw
  }

  /** `residence` of an employee detail. */
  datatype Residence = Residence(
    line1: Option<Raw>,
    line2: Option<Raw>,
    city: Option<Raw>,
    state: Option<Raw>,
    postalCode: Option<Raw>,
    country: Option<Raw>)

  /** `IndividualDetail`. */
  datatype Detail = Detail(
    id: Raw,
    firstName: Option<Raw>,
    lastName: Option<Raw>,
    middleName: Option<Raw>,
    preferredName: Option<Raw>,
    emails: Option<Raw>,
    phoneNumbers: Option<Raw>,
    residence: Option<Residence>,
    dob: Option<Raw>,
    gender: Option<Raw>)

  /** `v.length > 0` for the `responses` value: arrays and strings have a
      length; any other value is treated as having none. */
  predicate NonEmpty(v: Raw)
  {
    (v.Arr? && |v.items| > 0) || (v.Str? && |v.s| > 0)
  }

  /** `v[0]` of a value with `NonEmpty(v)`. */
  function Element0(v: Raw): Raw
    requires NonEmpty(v)
  {
    if v.Arr? then v.items[0] else Str([v.s[0]])
  }

  /** The detail record built from `responses[0].individual_id` and a
      non-nullish `responses[0].body`. */
  function DetailOf(id: Raw, body: Raw): (d: Detail)
    ensures d.id == id
    ensures Keeps(Get(body, "first_name"), d.firstName) && Keeps(Get(body, "last_name"), d.lastName)
    ensures Keeps(Get(body, "middle_name"), d.middleName)
    ensures Keeps(Get(body, "preferred_name"), d.preferredName)
    ensures Keeps(Get(body, "emails"), d.emails) && Keeps(Get(body, "phone_numbers"), d.phoneNumbers)
    ensures Keeps(Get(body, "dob"), d.dob) && Keeps(Get(body, "gender"), d.gender)
    ensures d.residence == None <==> !Truthy(Get(body, "residence"))
    ensures d.residence.Some? ==>
      var res, raw := d.residence.value, Get(body, "residence");
      Keeps(Get(raw, "line1"), res.line1) && Keeps(Get(raw, "line2"), res.line2)
      && Keeps(Get(raw, "city"), res.city) && Keeps(Get(raw, "state"), res.state)
      && Keeps(Get(raw, "postal_code"), res.postalCode) && Keeps(Get(raw, "country"), res.country)
  {
    var residence := Get(body, "residence");
    Detail(
      id,
      OrNull(Get(body, "first_name")),
      OrNull(Get(body, "last_name")),
      OrNull(Get(body, "middle_name")),
      OrNull(Get(body, "preferred_name")),
      OrNull(Get(body, "emails")),
      OrNull(Get(body, "phone_numbers")),
      if Truthy(residence) then
        Some(Residence(
          OrNull(Get(residence, "line1")),
          OrNull(Get(residence, "line2")),
          OrNull(Get(residence, "city")),
          OrNull(Get(residence, "state")),
          OrNull(Get(residence, "postal_code")),
          OrNull(Get(residence, "country"))))
      else None,
      OrNull(Get(body, "dob")),
      OrNull(Get(body, "gender")))
  }

  /** The success handler of the detail request: `Returned(None)` when there
      is no first response to use, `Returned(Some(d))` for the first response
      only, and `Threw` when `res.data`, `responses[0]` or its `body` is null
      or undefined. */
  function NormalizeDetail(data: Raw): (r: Eval<Option<Detail>>)
    ensures Nullish(data) ==> r == Threw
    ensures !Nullish(data) && !(Truthy(Get(data, "responses")) && NonEmpty(Get(data, "responses"))) ==>
      r == Returned(None)
    ensures !Nullish(data) && Truthy(Get(data, "responses")) && NonEmpty(Get(data, "responses")) ==>
      var first := Element0(Get(data, "responses"));
      if Nullish(first) || Nullish(Get(first, "body")) then r == Threw
      else r == Returned(Some(DetailOf(Get(first, "individual_id"), Get(first, "body"))))
  {
    if Nullish(data) then Threw
    else
      var responses := Get(data, "responses");
      if !(Truthy(responses) && NonEmpty(responses)) then Returned(None)
      else
        var first := Element0(responses);
        if Nullish(first) then Threw
        else
          var body := Get(first, "body");
          if Nullish(body) then Threw
          else Returned(Some(DetailOf(Get(first, "individual_id"), body)))
  }

  /** Only the first response is used: any responses after it do not change
      the detail. */
  lemma DetailUsesFirstResponseOnly(first: Raw, rest: seq<Raw>, rest': seq<Raw>)
    ensures NormalizeDetail(Obj(map["responses" := Arr([first] + rest)]))
         == NormalizeDetail(Obj(map["responses" := Arr([first] + rest')]))
  {
  }
}

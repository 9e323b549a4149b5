/**
 * The alumni registration form: the batch-year choices, required-field
 * validation, the province → city → barangay cascade, the submit request and
 * its outcome, and the text carried by the member's QR code.
 */
module Registration {
  import opened Wrappers
  import opened Http
  import opened Text

  datatype Province = Province(id: string, name: string, code: string)
  datatype City = City(id: string, province_id: string, name: string, zip_code: string)
  datatype Barangay = Barangay(id: string, city_id: string, name: string)

  /** The batch-year select: "" until a year is picked, then the year as a number. */
  datatype YearChoice = NoYear | Year(year: int)

  /**
   * The form record. `gender` holds the value of the radio group ("" until
   * one is picked); `province` and `city` hold the names shown, `province_id`
   * and `city_id` the selected ids.
   */
  datatype FormData = FormData(
    first_name: string,
    middle_name: string,
    last_name: string,
    email: string,
    mobile_number: string,
    gender: string,
    batch_year: YearChoice,
    province: string,
    province_id: string,
    city: string,
    city_id: string,
    zip_code: string,
    barangay: string,
    birth_date: string,
    occupation: string,
    experience_after: string,
    memories: string,
    acceptConsent: bool)

  /**
   * The keys of the form record, which are also the keys of the error map.
   * `ProvinceName`, `CityName` and `BarangayName` are the keys `province`,
   * `city` and `barangay`.
   */
  datatype Field =
    | FirstName | MiddleName | LastName | Email | MobileNumber | Gender | BatchYear
    | ProvinceName | ProvinceId | CityName | CityId | ZipCode | BarangayName
    | BirthDate | Occupation | ExperienceAfter | Memories | AcceptConsent
  {
    /** The keys whose value is a string. */
    predicate IsText() {
      !(BatchYear? || AcceptConsent?)
    }

    /** The two ids, which only the address selects change. */
    predicate IsAddressId() {
      ProvinceId? || CityId?
    }
  }

  /** The empty form; the birth date starts filled in. */
  const InitialForm := FormData("", "", "", "", "", "", NoYear, "", "", "", "", "", "", "2000-01-01", "", "", "", false)

  /** The value of a string-valued key. */
  function Get(form: FormData, f: Field): string
    requires f.IsText()
  {
    match f
    case FirstName => form.first_name
    case MiddleName => form.middle_name
    case LastName => form.last_name
    case Email => form.email
    case MobileNumber => form.mobile_number
    case Gender => form.gender
    case ProvinceName => form.province
    case ProvinceId => form.province_id
    case CityName => form.city
    case CityId => form.city_id
    case ZipCode => form.zip_code
    case BarangayName => form.barangay
    case BirthDate => form.birth_date
    case Occupation => form.occupation
    case ExperienceAfter => form.experience_after
    case Memories => form.memories
  }

  /** `{ ...prev, [field]: value }` for a string-valued key: that key changes and no other. */
  function SetText(form: FormData, field: Field, value: string): (r: FormData)
    requires field.IsText()
    ensures forall g: Field :: g.IsText() ==> Get(r, g) == (if g == field then value else Get(form, g))
    ensures r.batch_year == form.batch_year && r.acceptConsent == form.acceptConsent
  {
    match field
    case FirstName => form.(first_name := value)
    case MiddleName => form.(middle_name := value)
    case LastName => form.(last_name := value)
    case Email => form.(email := value)
    case MobileNumber => form.(mobile_number := value)
    case Gender => form.(gender := value)
    case ProvinceName => form.(province := value)
    case ProvinceId => form.(province_id := value)
    case CityName => form.(city := value)
    case CityId => form.(city_id := value)
    case ZipCode => form.(zip_code := value)
    case BarangayName => form.(barangay := value)
    case BirthDate => form.(birth_date := value)
    case Occupation => form.(occupation := value)
    case ExperienceAfter => form.(experience_after := value)
    case Memories => form.(memories := value)
  }

  // ---------------------------------------------------------------------
  // Batch years and the address lists
  // ---------------------------------------------------------------------

  /**
   * The batch-year choices for the current calendar year: every year from
   * 1973 up to the current one, ascending (an empty list before 1973).
   */
  function BatchYears(currentYear: int): (r: seq<int>)
    ensures |r| == if currentYear < 1973 then 0 else currentYear - 1972
    ensures forall y :: y in r <==> 1973 <= y <= currentYear
    ensures forall i, j :: 0 <= i < j < |r| ==> r[i] < r[j]
  {
    var n := if currentYear < 1973 then 0 else currentYear - 1972;
    var r := seq(n, i requires 0 <= i < n => 1973 + i);
    assert forall y :: 1973 <= y <= currentYear ==> y in r by {
      forall y | 1973 <= y <= currentYear ensures y in r {
        assert r[y - 1973] == y;
      }
    }
    r
  }

  /** The cities of one province, in list order. */
  function FilterCities(cities: seq<City>, provinceId: string): (r: seq<City>)
    ensures |r| <= |cities|
    ensures forall c :: c in r <==> c in cities && c.province_id == provinceId
  {
    if cities == [] then []
    else (if cities[0].province_id == provinceId then [cities[0]] else []) + FilterCities(cities[1..], provinceId)
  }

  /** The barangays of one city, in list order. */
  function FilterBarangays(barangays: seq<Barangay>, cityId: string): (r: seq<Barangay>)
    ensures |r| <= |barangays|
    ensures forall b :: b in r <==> b in barangays && b.city_id == cityId
  {
    if barangays == [] then []
    else (if barangays[0].city_id == cityId then [barangays[0]] else []) + FilterBarangays(barangays[1..], cityId)
  }

  /** `provinces.find(p => p.id === id)`: the first province with that id. */
  function FindProvince(provinces: seq<Province>, id: string): (r: Option<Province>)
    ensures r.None? <==> forall p :: p in provinces ==> p.id != id
    ensures r.Some? ==>
      exists i :: 0 <= i < |provinces| && provinces[i] == r.value && r.value.id == id
        && forall j :: 0 <= j < i ==> provinces[j].id != id
  {
    if provinces == [] then None
    else if provinces[0].id == id then Some(provinces[0])
    else
      var r := FindProvince(provinces[1..], id);
      if r.Some? then
        var i :| 0 <= i < |provinces[1..]| && provinces[1..][i] == r.value && r.value.id == id
          && forall j :: 0 <= j < i ==> provinces[1..][j].id != id;
        assert provinces[i + 1] == r.value;
        assert forall j :: 0 <= j < i + 1 ==> provinces[j].id != id by {
          forall j | 0 < j < i + 1 ensures provinces[j].id != id {
            assert provinces[j] == provinces[1..][j - 1];
          }
        }
        r
      else
        r
  }

  /** `cities.find(c => c.id === id)`: the first city with that id. */
  function FindCity(cities: seq<City>, id: string): (r: Option<City>)
    ensures r.None? <==> forall c :: c in cities ==> c.id != id
    ensures r.Some? ==>
      exists i :: 0 <= i < |cities| && cities[i] == r.value && r.value.id == id
        && forall j :: 0 <= j < i ==> cities[j].id != id
  {
    if cities == [] then None
    else if cities[0].id == id then Some(cities[0])
    else
      var r := FindCity(cities[1..], id);
      if r.Some? then
        var i :| 0 <= i < |cities[1..]| && cities[1..][i] == r.value && r.value.id == id
          && forall j :: 0 <= j < i ==> cities[1..][j].id != id;
        assert cities[i + 1] == r.value;
        assert forall j :: 0 <= j < i + 1 ==> cities[j].id != id by {
          forall j | 0 < j < i + 1 ensures cities[j].id != id {
            assert cities[j] == cities[1..][j - 1];
          }
        }
        r
      else
        r
  }

  /** The name stored for a selected province id; an unknown id stores nothing (""). */
  function ProvinceLabel(provinces: seq<Province>, id: string): (r: string)
    ensures (exists p :: p in provinces && p.id == id && p.name == r) || (r == "" && forall p :: p in provinces ==> p.id != id)
  {
    match FindProvince(provinces, id)
    case Some(p) => p.name
    case None => ""
  }

  /** The name stored for a selected city id, looked up among all cities. */
  function CityLabel(cities: seq<City>, id: string): (r: string)
    ensures (exists c :: c in cities && c.id == id && c.name == r) || (r == "" && forall c :: c in cities ==> c.id != id)
  {
    match FindCity(cities, id)
    case Some(c) => c.name
    case None => ""
  }

  // ---------------------------------------------------------------------
  // Errors and validation
  // ---------------------------------------------------------------------

  /** An error message is displayed for `f` when the map holds a non-empty one. */
  predicate Shown(errors: map<Field, string>, f: Field) {
    f in errors && errors[f] != ""
  }

  /** `if (errors[f]) errors = { ...errors, [f]: "" }`. */
  function ClearError(errors: map<Field, string>, f: Field): (r: map<Field, string>)
    ensures r.Keys == errors.Keys
    ensures !Shown(r, f)
    ensures forall g :: g in errors && g != f ==> r[g] == errors[g]
  {
    if Shown(errors, f) then errors[f := ""] else errors
  }

  /**
   * What the address selects clear as written: only the id key (`province_id`
   * or `city_id`), whereas the message is stored and displayed under the name
   * key (`province` or `city`).
   */
  function ClearAddressErrorAsWritten(errors: map<Field, string>, idKey: Field, nameKey: Field): (r: map<Field, string>)
    ensures r.Keys == errors.Keys
    ensures !Shown(r, idKey)
    ensures nameKey != idKey && nameKey in errors ==> r[nameKey] == errors[nameKey]
    ensures forall g :: g in errors && g != idKey ==> r[g] == errors[g]
  {
    ClearError(errors, idKey)
  }

  /** As written, a "Province is required" message survives choosing a province. */
  lemma AddressErrorPersistsAsWritten(errors: map<Field, string>)
    requires Shown(errors, ProvinceName)
    ensures Shown(ClearAddressErrorAsWritten(errors, ProvinceId, ProvinceName), ProvinceName)
  {
  }

  /** The corrected clearing: both the id key and the displayed name key. */
  function ClearAddressError(errors: map<Field, string>, idKey: Field, nameKey: Field): (r: map<Field, string>)
    ensures r.Keys == errors.Keys
    ensures !Shown(r, idKey) && !Shown(r, nameKey)
    ensures forall g :: g in errors && g != idKey && g != nameKey ==> r[g] == errors[g]
  {
    ClearError(ClearError(errors, idKey), nameKey)
  }

  /** The keys validation may report. */
  const RequiredFields: set<Field> := {FirstName, LastName, Gender, BatchYear, ProvinceName, CityName, BarangayName, BirthDate}

  function Message(f: Field): string {
    match f
    case FirstName => "First name is required"
    case LastName => "Last name is required"
    case Gender => "Gender is required"
    case BatchYear => "Batch year is required"
    case ProvinceName => "Province is required"
    case CityName => "City is required"
    case BarangayName => "Barangay is required"
    case BirthDate => "Birth date is required"
    case _ => ""
  }

  /**
   * The rule for one required key: names must have a non-white-space
   * character, the batch year must be a non-zero year, the other keys
   * must be non-empty.
   */
  predicate Missing(form: FormData, f: Field) {
    match f
    case FirstName => Trim(form.first_name) == []
    case LastName => Trim(form.last_name) == []
    case Gender => form.gender == ""
    case BatchYear => form.batch_year == NoYear || form.batch_year == Year(0)
    case ProvinceName => form.province == ""
    case CityName => form.city == ""
    case BarangayName => form.barangay == ""
    case BirthDate => form.birth_date == ""
    case _ => false
  }

  /**
   * The error map `validateForm` collects: each failed check adds its key
   * with its message, so the map holds exactly the missing required keys.
   */
  function RequiredErrors(form: FormData): map<Field, string> {
    map f | f in RequiredFields && Missing(form, f) :: Message(f)
  }

  /** A form that validation accepts. */
  predicate FormValid(form: FormData) {
    && !IsBlank(form.first_name)
    && !IsBlank(form.last_name)
    && form.gender != ""
    && form.batch_year.Year? && form.batch_year.year != 0
    && form.province != ""
    && form.city != ""
    && form.barangay != ""
    && form.birth_date != ""
  }

  /**
   * A name is reported exactly when it is empty or white space only (so
   * "   " is rejected), with its message.
   */
  lemma NameErrors(form: FormData)
    ensures FirstName in RequiredErrors(form) <==> IsBlank(form.first_name)
    ensures LastName in RequiredErrors(form) <==> IsBlank(form.last_name)
    ensures FirstName in RequiredErrors(form) ==> RequiredErrors(form)[FirstName] == "First name is required"
    ensures LastName in RequiredErrors(form) ==> RequiredErrors(form)[LastName] == "Last name is required"
  {
    TrimEmptyIffBlank(form.first_name);
    TrimEmptyIffBlank(form.last_name);
  }

  /** Validation passes exactly when no required key is missing. */
  lemma {:induction false} ValidIffNoErrors(form: FormData)
    ensures RequiredErrors(form) == map[] <==> FormValid(form)
  {
    var e := RequiredErrors(form);
    NameErrors(form);
    if !FormValid(form) {
      if IsBlank(form.first_name) {
        assert FirstName in e;
      } else if IsBlank(form.last_name) {
        assert LastName in e;
      } else if form.gender == "" {
        assert Gender in e;
      } else if !(form.batch_year.Year? && form.batch_year.year != 0) {
        assert BatchYear in e;
      } else if form.province == "" {
        assert ProvinceName in e;
      } else if form.city == "" {
        assert CityName in e;
      } else if form.barangay == "" {
        assert BarangayName in e;
      } else {
        assert BirthDate in e;
      }
    } else {
      forall f | f in RequiredFields ensures !Missing(form, f) { }
      assert e.Keys == {};
    }
  }

  /** The empty form lacks every required entry except the prefilled birth date. */
  lemma InitialFormErrors()
    ensures RequiredErrors(InitialForm).Keys == RequiredFields - {BirthDate}
  {
  }

  // ---------------------------------------------------------------------
  // Submission and the QR payload
  // ---------------------------------------------------------------------

  /**
   * The request body: the form's entries, the names and zip code of the
   * selected province and city (absent when the id matches none; the
   * form's own `zip_code` is overridden by `zip_code` here) and status
   * "active".
   */
  datatype Params = Params(form: FormData, province_name: Option<string>, city_name: Option<string>, zip_code: Option<string>, status: string)

  function BuildParams(form: FormData, provinces: seq<Province>, cities: seq<City>): (r: Params)
    ensures r.form == form && r.status == "active"
    ensures r.province_name.Some? <==> exists p :: p in provinces && p.id == form.province_id
    ensures r.province_name.Some? ==> exists p :: p in provinces && p.id == form.province_id && p.name == r.province_name.value
    ensures r.city_name.Some? <==> exists c :: c in cities && c.id == form.city_id
    ensures r.zip_code.Some? <==> r.city_name.Some?
    ensures r.city_name.Some? ==>
      exists c :: c in cities && c.id == form.city_id
        && c.name == r.city_name.value && c.zip_code == r.zip_code.value
  {
    var p := FindProvince(provinces, form.province_id);
    var c := FindCity(cities, form.city_id);
    Params(form,
      if p.Some? then Some(p.value.name) else None,
      if c.Some? then Some(c.value.name) else None,
      if c.Some? then Some(c.value.zip_code) else None,
      "active")
  }

  /** The member record the server answers with. */
  datatype MemberQRData = MemberQRData(id: int, slug: string)

  /** The text encoded in the member's QR code: `${id}_cnhs_alumni_${year}_${time}`. */
  function QrPayload(id: int, year: int, time: int): (r: string)
    ensures |IntToString(id)| < |r|
    ensures r[..|IntToString(id)|] == IntToString(id) && r[|IntToString(id)|] == '_'
  {
    IntToString(id) + "_cnhs_alumni_" + IntToString(year) + "_" + IntToString(time)
  }

  datatype MessageColor = ErrorColor | WarningColor | SuccessColor
  datatype ResponseMessage = ResponseMessage(color: MessageColor, message: string, success: bool)

  const SuccessMessage := ResponseMessage(SuccessColor, "Registration submitted successfully!", true)
  const FailureMessage := ResponseMessage(WarningColor, "Something went wrong. Please try again.", false)

  // ---------------------------------------------------------------------
  // The component
  // ---------------------------------------------------------------------

  class RegistrationForm {
    var provinces: seq<Province>
    var cities: seq<City>
    var barangays: seq<Barangay>
    var form: FormData
    var filteredCities: seq<City>
    var filteredBarangays: seq<Barangay>
    var errors: map<Field, string>
    var submitMessage: ResponseMessage
    var loading: bool
    var memberData: Option<MemberQRData>

    constructor ()
      ensures provinces == [] && cities == [] && barangays == []
      ensures form == InitialForm && filteredCities == [] && filteredBarangays == []
      ensures errors == map[] && !loading && memberData == None
      ensures submitMessage == ResponseMessage(SuccessColor, "Registration submitted successfully!", false)
    {
      provinces := [];
      cities := [];
      barangays := [];
      form := InitialForm;
      filteredCities := [];
      filteredBarangays := [];
      errors := map[];
      submitMessage := ResponseMessage(SuccessColor, "Registration submitted successfully!", false);
      loading := false;
      memberData := None;
    }

    /** `fetchAddress` once all three lists have arrived. */
    method LoadAddress(ps: seq<Province>, cs: seq<City>, bs: seq<Barangay>)
      modifies this`provinces, this`cities, this`barangays
      ensures provinces == ps && cities == cs && barangays == bs
    {
      provinces := ps;
      cities := cs;
      barangays := bs;
    }

    /** The effect on `province_id`: list its cities and clear the dependent names. */
    method ProvinceEffect()
      modifies this`form, this`filteredCities, this`filteredBarangays
      ensures filteredBarangays == []
      ensures old(form.province_id) != "" ==>
        filteredCities == FilterCities(cities, old(form.province_id)) && form == old(form).(city := "", barangay := "")
      ensures old(form.province_id) == "" ==> filteredCities == [] && form == old(form)
    {
      if form.province_id != "" {
        filteredCities := FilterCities(cities, form.province_id);
        form := form.(city := "", barangay := "");
        filteredBarangays := [];
      } else {
        filteredCities := [];
        filteredBarangays := [];
      }
    }

    /** The effect on `city_id`: list its barangays and clear the barangay name. */
    method CityEffect()
      modifies this`form, this`filteredBarangays
      ensures old(form.city_id) != "" ==>
        filteredBarangays == FilterBarangays(barangays, old(form.city_id)) && form == old(form).(barangay := "")
      ensures old(form.city_id) == "" ==> filteredBarangays == [] && form == old(form)
    {
      if form.city_id != "" {
        filteredBarangays := FilterBarangays(barangays, form.city_id);
        form := form.(barangay := "");
      } else {
        filteredBarangays := [];
      }
    }

    /**
     * `handleInputChange(field)` for a text entry: the entry takes the value
     * and a displayed error for it is blanked; nothing else changes.
     */
    method HandleInputChange(field: Field, value: string)
      requires field.IsText() && !field.IsAddressId()
      modifies this`form, this`errors
      ensures form == SetText(old(form), field, value)
      ensures errors == ClearError(old(errors), field)
    {
      form := SetText(form, field, value);
      errors := ClearError(errors, field);
    }

    /** `handleInputChange("batch_year")` with the chosen year. */
    method HandleBatchYearChange(year: int)
      modifies this`form, this`errors
      ensures form == old(form).(batch_year := Year(year))
      ensures errors == ClearError(old(errors), BatchYear)
    {
      form := form.(batch_year := Year(year));
      errors := ClearError(errors, BatchYear);
    }

    /** The consent checkbox. */
    method HandleConsentChange(checked: bool)
      modifies this`form
      ensures form == old(form).(acceptConsent := checked)
    {
      form := form.(acceptConsent := checked);
    }

    /**
     * `handleInputAddress("province_id", "province")`, followed by the
     * effect on `province_id` when the id changed. `city_id` is not reset.
     */
    method SelectProvince(id: string)
      modifies this`form, this`errors, this`filteredCities, this`filteredBarangays
      ensures errors == ClearAddressError(old(errors), ProvinceId, ProvinceName)
      ensures id == old(form.province_id) ==>
        && form == old(form).(province := ProvinceLabel(provinces, id))
        && filteredCities == old(filteredCities) && filteredBarangays == old(filteredBarangays)
      ensures id != old(form.province_id) && id != "" ==>
        && form == old(form).(province_id := id, province := ProvinceLabel(provinces, id), city := "", barangay := "")
        && filteredCities == FilterCities(cities, id) && filteredBarangays == []
      ensures id != old(form.province_id) && id == "" ==>
        && form == old(form).(province_id := id, province := ProvinceLabel(provinces, id))
        && filteredCities == [] && filteredBarangays == []
    {
      var previous := form.province_id;
      form := form.(province_id := id, province := ProvinceLabel(provinces, id));
      errors := ClearAddressError(errors, ProvinceId, ProvinceName);
      if id != previous {
        ProvinceEffect();
      }
    }

    /**
     * `handleInputAddress("city_id", "city")`, followed by the effect on
     * `city_id` when the id changed. The name is looked up among all cities.
     */
    method SelectCity(id: string)
      modifies this`form, this`errors, this`filteredBarangays
      ensures errors == ClearAddressError(old(errors), CityId, CityName)
      ensures filteredCities == old(filteredCities)
      ensures id == old(form.city_id) ==>
        form == old(form).(city := CityLabel(cities, id)) && filteredBarangays == old(filteredBarangays)
      ensures id != old(form.city_id) && id != "" ==>
        && form == old(form).(city_id := id, city := CityLabel(cities, id), barangay := "")
        && filteredBarangays == FilterBarangays(barangays, id)
      ensures id != old(form.city_id) && id == "" ==>
        form == old(form).(city_id := id, city := CityLabel(cities, id)) && filteredBarangays == []
    {
      var previous := form.city_id;
      form := form.(city_id := id, city := CityLabel(cities, id));
      errors := ClearAddressError(errors, CityId, CityName);
      if id != previous {
        CityEffect();
      }
    }

    /** `validateForm`: stores the error map and reports whether it is empty. */
    method ValidateForm() returns (ok: bool)
      modifies this`errors
      ensures errors == RequiredErrors(form)
      ensures ok <==> FormValid(form)
    {
      errors := RequiredErrors(form);
      ValidIffNoErrors(form);
      ok := |errors| == 0;
      assert ok <==> errors == map[] by {
        if errors != map[] {
          var k :| k in errors;
        }
      }
    }

    /**
     * `handleSubmit` up to the request: `loading` is raised and the form
     * validated; a valid form yields the request body and `loading` stays
     * raised until the answer, an invalid one yields no request and
     * `loading` falls again.
     */
    method Submit() returns (request: Option<Params>)
      modifies this`loading, this`errors
      ensures errors == RequiredErrors(form)
      ensures FormValid(form) ==> loading && request == Some(BuildParams(form, provinces, cities))
      ensures !FormValid(form) ==> !loading && request == None
    {
      loading := true;
      var ok := ValidateForm();
      if ok {
        request := Some(BuildParams(form, provinces, cities));
      } else {
        request := None;
        loading := false;
      }
    }

    /**
     * `handleSubmit` after the request. Success stores the member, shows the
     * thank-you message and resets the form, whose emptied ids then run the
     * address effects; any failure shows the warning. `loading` ends false.
     */
    method Settle(response: Response<MemberQRData>)
      modifies this`memberData, this`submitMessage, this`form, this`filteredCities, this`filteredBarangays, this`loading
      ensures !loading
      ensures response.Ok? ==>
        && memberData == Some(response.data) && submitMessage == SuccessMessage && form == InitialForm
        && filteredCities == (if old(form.province_id) != "" then [] else old(filteredCities))
        && filteredBarangays == (if old(form.province_id) != "" || old(form.city_id) != "" then [] else old(filteredBarangays))
      ensures !response.Ok? ==>
        && memberData == old(memberData) && submitMessage == FailureMessage && form == old(form)
        && filteredCities == old(filteredCities) && filteredBarangays == old(filteredBarangays)
    {
      if response.Ok? {
        memberData := Some(response.data);
        submitMessage := SuccessMessage;
        var previousProvince := form.province_id;
        var previousCity := form.city_id;
        form := InitialForm;
        if previousProvince != "" {
          ProvinceEffect();
        }
        if previousCity != "" {
          CityEffect();
        }
      } else {
        submitMessage := FailureMessage;
      }
      loading := false;
    }
  }
}

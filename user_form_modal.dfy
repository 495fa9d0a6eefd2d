/**
 * The create/edit dialog of src/components/UserFormModal.js: the form values,
 * the per-field validation rules of its schema, and how the values are filled
 * from an existing record or reset for a new one when the dialog opens.
 *
 * The schema library's e-mail and URL syntax checks are not modelled; they
 * are the parameters `isEmail` and `isUrl`. As the form library does before
 * validating, an empty field counts as absent: a required field fails on it,
 * an optional one passes.
 */
module UserFormModal {
  import opened Wrappers
  import opened Ascii
  import opened Records

  datatype AddressValues = AddressValues(street: string, city: string)

  /** The values the form edits; company is a plain name here, not an object. */
  datatype FormValues = FormValues(
    name: string,
    email: string,
    phone: string,
    username: string,
    address: AddressValues,
    company: string,
    website: string)

  /** The form's initial values: every field empty. */
  const InitialValues := FormValues("", "", "", "", AddressValues("", ""), "", "")

  /** The username a new record's form starts with. */
  const NewUsernamePrefix := "USER-"

  // ---------------------------------------------------------------------
  // Field rules and their messages
  // ---------------------------------------------------------------------

  const NameRequired := "Name is required."
  const NameTooShort := "Name must be at least 3 characters."
  const EmailRequired := "Email is required."
  const EmailInvalid := "Invalid email format."
  const PhoneRequired := "Phone number is required."
  const PhoneInvalid := "Phone number is not valid."
  const UsernameRequired := "Username is required."
  const UsernameTooShort := "Username must be at least 3 characters."
  const StreetRequired := "Street is required."
  const CityRequired := "City is required."
  const CompanyTooShort := "Company name must be at least 3 characters."
  const WebsiteInvalid := "Website must be a valid URL."

  /** A character of the phone pattern `[0-9\-+\s()]`. */
  predicate IsPhoneChar(c: char) {
    '0' <= c <= '9' || c == '-' || c == '+' || IsWhitespace(c) || c == '(' || c == ')'
  }

  /** The phone pattern `^[0-9\-+\s()]*$`, which also accepts the empty string. */
  predicate MatchesPhonePattern(s: string) {
    forall i :: 0 <= i < |s| ==> IsPhoneChar(s[i])
  }

  /** A required string with a minimum length: the first failing rule's message, if any. */
  function RequiredMinError(s: string, required: string, tooShort: string): (e: Option<string>)
    ensures e.None? <==> |s| >= 3
    ensures e == Some(required) || e == Some(tooShort) || e.None?
    ensures s == "" ==> e == Some(required)
    ensures 0 < |s| < 3 ==> e == Some(tooShort)
  {
    if s == "" then Some(required) else if |s| < 3 then Some(tooShort) else None
  }

  function NameError(name: string): (e: Option<string>)
    ensures e.None? <==> |name| >= 3
    ensures name == "" ==> e == Some(NameRequired)
    ensures 0 < |name| < 3 ==> e == Some(NameTooShort)
  {
    RequiredMinError(name, NameRequired, NameTooShort)
  }

  function EmailError(email: string, isEmail: string -> bool): (e: Option<string>)
    ensures e.None? <==> email != "" && isEmail(email)
    ensures email == "" ==> e == Some(EmailRequired)
    ensures email != "" && !isEmail(email) ==> e == Some(EmailInvalid)
  {
    if email == "" then Some(EmailRequired)
    else if !isEmail(email) then Some(EmailInvalid)
    else None
  }

  function PhoneError(phone: string): (e: Option<string>)
    ensures e.None? <==> phone != "" && forall i :: 0 <= i < |phone| ==> IsPhoneChar(phone[i])
    ensures phone == "" ==> e == Some(PhoneRequired)
    ensures phone != "" && !MatchesPhonePattern(phone) ==> e == Some(PhoneInvalid)
  {
    if phone == "" then Some(PhoneRequired)
    else if !MatchesPhonePattern(phone) then Some(PhoneInvalid)
    else None
  }

  function UsernameError(username: string): (e: Option<string>)
    ensures e.None? <==> |username| >= 3
    ensures username == "" ==> e == Some(UsernameRequired)
    ensures 0 < |username| < 3 ==> e == Some(UsernameTooShort)
  {
    RequiredMinError(username, UsernameRequired, UsernameTooShort)
  }

  function StreetError(street: string): (e: Option<string>)
    ensures e.None? <==> street != ""
    ensures e.Some? ==> e.value == StreetRequired
  {
    if street == "" then Some(StreetRequired) else None
  }

  function CityError(city: string): (e: Option<string>)
    ensures e.None? <==> city != ""
    ensures e.Some? ==> e.value == CityRequired
  {
    if city == "" then Some(CityRequired) else None
  }

  /** Company is optional (an empty value is absent and passes); when given it needs three characters. */
  function CompanyError(company: string): (e: Option<string>)
    ensures e.None? <==> company == "" || |company| >= 3
    ensures e.Some? ==> e.value == CompanyTooShort
  {
    if company != "" && |company| < 3 then Some(CompanyTooShort) else None
  }

  /** Website is optional (an empty value is absent and passes); when given it must be a URL. */
  function WebsiteError(website: string, isUrl: string -> bool): (e: Option<string>)
    ensures e.None? <==> website == "" || isUrl(website)
    ensures e.Some? ==> e.value == WebsiteInvalid
  {
    if website != "" && !isUrl(website) then Some(WebsiteInvalid) else None
  }

  /** One message (or none) per field, as the form shows them. */
  datatype FormErrors = FormErrors(
    name: Option<string>,
    email: Option<string>,
    phone: Option<string>,
    username: Option<string>,
    street: Option<string>,
    city: Option<string>,
    company: Option<string>,
    website: Option<string>)
  {
    predicate IsEmpty() {
      && name.None? && email.None? && phone.None? && username.None?
      && street.None? && city.None? && company.None? && website.None?
    }
  }

  /** Every field checked against its rule. */
  function Validate(v: FormValues, isEmail: string -> bool, isUrl: string -> bool): (errs: FormErrors)
    ensures errs.name == NameError(v.name)
    ensures errs.email == EmailError(v.email, isEmail)
    ensures errs.phone == PhoneError(v.phone)
    ensures errs.username == UsernameError(v.username)
    ensures errs.street == StreetError(v.address.street)
    ensures errs.city == CityError(v.address.city)
    ensures errs.company == CompanyError(v.company)
    ensures errs.website == WebsiteError(v.website, isUrl)
  {
    FormErrors(
      NameError(v.name),
      EmailError(v.email, isEmail),
      PhoneError(v.phone),
      UsernameError(v.username),
      StreetError(v.address.street),
      CityError(v.address.city),
      CompanyError(v.company),
      WebsiteError(v.website, isUrl))
  }

  /**
   * The form may be submitted exactly when no field has an error, that is,
   * when every field rule holds.
   */
  predicate IsValid(v: FormValues, isEmail: string -> bool, isUrl: string -> bool)
  {
    Validate(v, isEmail, isUrl).IsEmpty()
  }

  /** Validity is the conjunction of the field rules, written out. */
  lemma ValidIffAllRules(v: FormValues, isEmail: string -> bool, isUrl: string -> bool)
    ensures IsValid(v, isEmail, isUrl) <==>
      && |v.name| >= 3
      && v.email != "" && isEmail(v.email)
      && v.phone != "" && MatchesPhonePattern(v.phone)
      && |v.username| >= 3
      && v.address.street != "" && v.address.city != ""
      && (v.company == "" || |v.company| >= 3)
      && (v.website == "" || isUrl(v.website))
  {
  }

  /** An empty or too short name blocks submission, whatever the other fields hold. */
  lemma ShortNameRejected(v: FormValues, isEmail: string -> bool, isUrl: string -> bool)
    requires |v.name| < 3
    ensures !IsValid(v, isEmail, isUrl)
    ensures v.name == "" ==> Validate(v, isEmail, isUrl).name == Some(NameRequired)
  {
  }

  /** A missing street or city blocks submission of the whole form. */
  lemma MissingAddressRejected(v: FormValues, isEmail: string -> bool, isUrl: string -> bool)
    requires v.address.street == "" || v.address.city == ""
    ensures !IsValid(v, isEmail, isUrl)
  {
  }

  // ---------------------------------------------------------------------
  // Filling the form when the dialog opens
  // ---------------------------------------------------------------------

  /** JavaScript's `x || ''` on an optional string. */
  function OrEmpty(s: Option<string>): (r: string)
    ensures s.None? ==> r == ""
    ensures s.Some? ==> r == s.value
  {
    match s
    case None => ""
    case Some(x) => x
  }

  /** The values shown when an existing record is edited; absent fields show as empty. */
  function Prefill(u: User): (v: FormValues)
    ensures v.name == OrEmpty(u.name) && v.email == OrEmpty(u.email)
    ensures v.phone == OrEmpty(u.phone) && v.username == OrEmpty(u.username)
    ensures v.website == OrEmpty(u.website)
    ensures u.address.None? ==> v.address == AddressValues("", "")
    ensures u.address.Some? ==> v.address == AddressValues(u.address.value.street, u.address.value.city)
    ensures u.company.None? ==> v.company == ""
    ensures u.company.Some? ==> v.company == u.company.value.name
  {
    FormValues(
      OrEmpty(u.name),
      OrEmpty(u.email),
      OrEmpty(u.phone),
      OrEmpty(u.username),
      AddressValues(
        if u.address.Some? then u.address.value.street else "",
        if u.address.Some? then u.address.value.city else ""),
      if u.company.Some? then u.company.value.name else "",
      OrEmpty(u.website))
  }

  /** The values of a new record's form: all empty except the username prefix. */
  function NewRecordValues(): (v: FormValues)
    ensures v.username == NewUsernamePrefix
    ensures v.(username := "") == InitialValues
  {
    InitialValues.(username := NewUsernamePrefix)
  }

  /**
   * A new record's form cannot be submitted untouched: name, e-mail, phone,
   * street and city report "required", while the prefilled username and the
   * optional company and website pass.
   */
  lemma NewRecordValuesRejected(isEmail: string -> bool, isUrl: string -> bool)
    ensures !IsValid(NewRecordValues(), isEmail, isUrl)
    ensures Validate(NewRecordValues(), isEmail, isUrl) ==
      FormErrors(Some(NameRequired), Some(EmailRequired), Some(PhoneRequired), None,
                 Some(StreetRequired), Some(CityRequired), None, None)
  {
  }

  /** The state of the dialog's form: the values being edited. */
  class UserForm {
    var values: FormValues

    constructor ()
      ensures values == InitialValues
    {
      values := InitialValues;
    }

    /** The form library's `resetForm`: back to the initial values. */
    method ResetForm()
      modifies this
      ensures values == InitialValues
    {
      values := InitialValues;
    }

    /** The form library's `setValues`. */
    method SetValues(v: FormValues)
      modifies this
      ensures values == v
    {
      values := v;
    }

    /** The form library's `setFieldValue('username', s)`: only the username changes. */
    method SetUsername(s: string)
      modifies this
      ensures values == old(values).(username := s)
    {
      values := values.(username := s);
    }

    /**
     * The effect run when the dialog opens: fill the form from the record
     * being edited, or reset it and put the username prefix in.
     */
    method Populate(user: Option<User>)
      modifies this
      ensures user.Some? ==> values == Prefill(user.value)
      ensures user.None? ==> values == NewRecordValues()
    {
      match user
      case Some(u) =>
        SetValues(Prefill(u));
      case None =>
        ResetForm();
        SetUsername(NewUsernamePrefix);
    }

    /** The messages the form shows for its current values. */
    function Errors(isEmail: string -> bool, isUrl: string -> bool): (errs: FormErrors)
      reads this
      ensures errs.IsEmpty() <==> IsValid(values, isEmail, isUrl)
      ensures errs == Validate(values, isEmail, isUrl)
    {
      Validate(values, isEmail, isUrl)
    }
  }

  /**
   * Opening the dialog on a fresh form: the values it shows. For a new record
   * every field is empty except the username, which is "USER-".
   */
  method Open(user: Option<User>) returns (v: FormValues)
    ensures user.None? ==>
      && v.username == NewUsernamePrefix
      && v.name == "" && v.email == "" && v.phone == "" && v.website == "" && v.company == ""
      && v.address == AddressValues("", "")
    ensures user.Some? ==> v == Prefill(user.value)
  {
    var form := new UserForm();
    form.Populate(user);
    v := form.values;
  }
}

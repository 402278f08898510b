/**
  `src/components/JobForm.tsx`: the form that adds a job by hand. Its
  state is the entered data and a map from field name to error message;
  `validateForm` rebuilds the map, `handleSubmit` hands the data on only
  when the map is empty, and `handleChange` stores one field and clears
  its message.

  Whether a string is a URL (`new URL(s)` not throwing, the URL parser of
  the WHATWG URL Standard, section 4.4) is the parameter `parses`.
 */
module JobForm {
  import opened Common
  import Server
  import Records

  /** The form's three inputs, by their `name` attribute. */
  datatype Field = TitleField | CompanyField | UrlField

  datatype FormData = FormData(title: string, company: string, url: string)

  const TitleRequired := "Job title is required"
  const CompanyRequired := "Company name is required"
  const UrlRequired := "Job URL is required"
  const InvalidUrl := "Please enter a valid URL"

  function Get(data: FormData, field: Field): string {
    match field
    case TitleField => data.title
    case CompanyField => data.company
    case UrlField => data.url
  }

  /** `{ ...prev, [name]: value }`: the named field takes the value and the
      others keep theirs. */
  function Update(data: FormData, field: Field, value: string): (r: FormData)
    ensures forall f :: Get(r, f) == (if f == field then value else Get(data, f))
  {
    match field
    case TitleField => data.(title := value)
    case CompanyField => data.(company := value)
    case UrlField => data.(url := value)
  }

  /** The messages `validateForm` produces for `data`: each blank field is
      required, and a URL that is not blank but does not parse is invalid;
      fields without a problem have no entry. */
  function FormErrors(data: FormData, parses: string -> bool): (e: map<Field, string>)
    ensures TitleField in e <==> IsBlank(data.title)
    ensures CompanyField in e <==> IsBlank(data.company)
    ensures UrlField in e <==> IsBlank(data.url) || !parses(data.url)
    ensures TitleField in e ==> e[TitleField] == TitleRequired
    ensures CompanyField in e ==> e[CompanyField] == CompanyRequired
    ensures UrlField in e ==> e[UrlField] == (if IsBlank(data.url) then UrlRequired else InvalidUrl)
  {
    var e := RequiredErrors(Trim(data.title) == "", Trim(data.company) == "");
    if Trim(data.url) == "" then e[UrlField := UrlRequired]
    else if !parses(data.url) then e[UrlField := InvalidUrl]
    else e
  }

  /** The messages for a blank title and a blank company. */
  function RequiredErrors(titleBlank: bool, companyBlank: bool): (e: map<Field, string>)
    ensures TitleField in e <==> titleBlank
    ensures CompanyField in e <==> companyBlank
    ensures UrlField !in e
    ensures TitleField in e ==> e[TitleField] == TitleRequired
    ensures CompanyField in e ==> e[CompanyField] == CompanyRequired
  {
    var e: map<Field, string> := if titleBlank then map[TitleField := TitleRequired] else map[];
    if companyBlank then e[CompanyField := CompanyRequired] else e
  }

  /** The form passes exactly when no field is blank and the URL parses. */
  lemma PassesIff(data: FormData, parses: string -> bool)
    ensures FormErrors(data, parses) == map[] <==>
      !IsBlank(data.title) && !IsBlank(data.company) && !IsBlank(data.url) && parses(data.url)
  {
    var e := FormErrors(data, parses);
    if e != map[] {
      var f :| f in e;
    }
  }

  /** Whatever the form lets through, the server accepts: a field whose
      trimmed text is not empty is not empty. */
  lemma FormPassesServer(data: FormData, parses: string -> bool, jobs: seq<Records.Job>, id: string, now: string)
    ensures FormErrors(data, parses) == map[] ==>
      Server.AddJobOutcome(jobs, Server.AddJobRequest(Some(data.title), Some(data.company), Some(data.url)), id, now).response.Ok?
  {
    if FormErrors(data, parses) == map[] {
      PassesIff(data, parses);
      assert data.title != [] && data.company != [] && data.url != [];
      assert Server.Complete(Server.AddJobRequest(Some(data.title), Some(data.company), Some(data.url)));
    }
  }

  /** The server is laxer than the form: a title of spaces is refused by
      the form and stored by the server. */
  lemma ServerLaxerThanForm(company: string, url: string, parses: string -> bool, jobs: seq<Records.Job>, id: string, now: string)
    requires company != "" && url != ""
    ensures TitleField in FormErrors(FormData("  ", company, url), parses)
    ensures Server.AddJobOutcome(jobs, Server.AddJobRequest(Some("  "), Some(company), Some(url)), id, now).response.Ok?
  {
    var blank := "  ";
    assert IsBlank(blank) by {
      assert forall i :: 0 <= i < |blank| ==> blank[i] == ' ';
    }
    var body := Server.AddJobRequest(Some(blank), Some(company), Some(url));
    assert Server.Complete(body);
  }

  /** The error map after a change of `field`: a truthy message for that
      field becomes "", every other entry stays. */
  function Cleared(errors: map<Field, string>, field: Field): (r: map<Field, string>)
    ensures r.Keys == errors.Keys
    ensures forall f :: f in r ==> r[f] == (if f == field then "" else errors[f])
  {
    if field in errors && Truthy(errors[field]) then errors[field := ""] else errors
  }

  /** The form's state. */
  class Form {
    var data: FormData
    var errors: map<Field, string>

    /** The form starts empty, without messages. */
    constructor ()
      ensures data == FormData("", "", "") && errors == map[]
    {
      data := FormData("", "", "");
      errors := map[];
    }

    /** `validateForm`: stores the messages for the current data and tells
        whether there are none. */
    method ValidateForm(parses: string -> bool) returns (valid: bool)
      modifies this
      ensures data == old(data)
      ensures errors == FormErrors(data, parses)
      ensures valid <==> errors == map[]
    {
      var newErrors: map<Field, string> := map[];
      if Trim(data.title) == "" {
        newErrors := newErrors[TitleField := TitleRequired];
      }
      if Trim(data.company) == "" {
        newErrors := newErrors[CompanyField := CompanyRequired];
      }
      ghost var required := RequiredErrors(Trim(data.title) == "", Trim(data.company) == "");
      assert newErrors == required;
      if Trim(data.url) == "" {
        newErrors := newErrors[UrlField := UrlRequired];
        assert newErrors == required[UrlField := UrlRequired];
      } else if !parses(data.url) {
        newErrors := newErrors[UrlField := InvalidUrl];
        assert newErrors == required[UrlField := InvalidUrl];
      }
      errors := newErrors;
      valid := |newErrors| == 0;
    }

    /** `handleSubmit`: the data handed to `onSubmit`, present only when the
        form passes validation. */
    method HandleSubmit(parses: string -> bool) returns (submitted: Option<FormData>)
      modifies this
      ensures data == old(data)
      ensures errors == FormErrors(data, parses)
      ensures submitted == (if errors == map[] then Some(data) else None)
    {
      var valid := ValidateForm(parses);
      if valid {
        submitted := Some(data);
      } else {
        submitted := None;
      }
    }

    /** `handleChange`: stores the typed value and clears that field's
        message. */
    method HandleChange(field: Field, value: string)
      modifies this
      ensures data == Update(old(data), field, value)
      ensures errors == Cleared(old(errors), field)
    {
      data := Update(data, field, value);
      if field in errors && Truthy(errors[field]) {
        errors := errors[field := ""];
      }
    }
  }
}

/**
 * The shaping of the contact form's fields into the payload that the email
 * relay renders with its template (the `templateParams` object built by the
 * contact page's submit handler).
 */
module ContactPayload {
  import opened Wrappers

  /** What the browser's form data holds for the submitted form: the value of
      every named control in it. A name that is not in the map reads as `null`. */
  type FormFields = map<string, string>

  /** Looking a control up by name: its value, or `null` when it is not in the form. */
  function FormValue(form: FormFields, name: string): Option<string>
  {
    if name in form then Some(form[name]) else None
  }

  /** JavaScript's `v ?? fallback`: only a missing value is replaced. */
  function Coalesce(v: Option<string>, fallback: string): string
  {
    match v
    case Some(s) => s
    case None => fallback
  }

  /** JavaScript's `v || fallback` on a string that may be `null`: both `null`
      and the empty string are falsy and are replaced. */
  function FalsyOr(v: Option<string>, fallback: string): string
  {
    if v.Some? && v.value != "" then v.value else fallback
  }

  /** The values the interest selector offers, in the order it lists them. */
  const InterestOptions: seq<string> := ["taster", "7-11", "12-16", "school", "other"]

  /** The six logical fields of one message. */
  datatype TemplateParams = TemplateParams(
    firstName: string,
    lastName: string,
    email: string,
    phone: string,
    interest: string,
    message: string)

  /** The payload of one submission. The five text controls are read with `??`,
      so a control that is present keeps its value even when it is empty; the
      interest is the selector's value if that is non-empty, else the form's own
      `interest` control if that is non-empty, else the empty string. */
  function BuildTemplateParams(form: FormFields, selected: string): TemplateParams
  {
    TemplateParams(
      firstName := Coalesce(FormValue(form, "firstName"), ""),
      lastName := Coalesce(FormValue(form, "lastName"), ""),
      email := Coalesce(FormValue(form, "email"), ""),
      phone := Coalesce(FormValue(form, "phone"), ""),
      interest := FalsyOr(Some(selected), FalsyOr(FormValue(form, "interest"), "")),
      message := Coalesce(FormValue(form, "message"), ""))
  }

  /** The template variable names the relay's template reads, in payload order. */
  const TemplateVariableNames: seq<string> :=
    ["first_name", "last_name", "email", "phone", "interest", "message"]

  /** Each text control of the form paired with the template variable it fills. */
  const ControlToVariable: seq<(string, string)> := [
    ("firstName", "first_name"),
    ("lastName", "last_name"),
    ("email", "email"),
    ("phone", "phone"),
    ("message", "message")
  ]

  /** The payload as the relay receives it: template variable name to value. */
  function ToTemplateVariables(p: TemplateParams): (m: map<string, string>)
    ensures m.Keys == set n | n in TemplateVariableNames
  {
    map[
      "first_name" := p.firstName,
      "last_name" := p.lastName,
      "email" := p.email,
      "phone" := p.phone,
      "interest" := p.interest,
      "message" := p.message]
  }

  /** Reads a payload back from template variables; `None` unless all six are there. */
  function FromTemplateVariables(m: map<string, string>): Option<TemplateParams>
  {
    if && "first_name" in m && "last_name" in m && "email" in m
       && "phone" in m && "interest" in m && "message" in m
    then
      Some(TemplateParams(m["first_name"], m["last_name"], m["email"],
                          m["phone"], m["interest"], m["message"]))
    else
      None
  }

  /** No field is lost or renamed on the way to the relay. */
  lemma TemplateVariablesRoundTrip(p: TemplateParams)
    ensures FromTemplateVariables(ToTemplateVariables(p)) == Some(p)
  {
  }

  /** Each of the five text variables is the form's value for its control when
      that control is present (even if empty), and the empty string otherwise. */
  lemma PayloadCopiesTextControls(form: FormFields, selected: string)
    ensures forall i | 0 <= i < |ControlToVariable| ::
      var (control, variable) := ControlToVariable[i];
      ToTemplateVariables(BuildTemplateParams(form, selected))[variable]
        == (if control in form then form[control] else "")
  {
  }

  /** The interest precedence: a non-empty selection wins; an empty selection
      falls through to the form's `interest` control, and then to "". */
  lemma InterestPrecedence(form: FormFields, selected: string)
    ensures selected != "" ==> BuildTemplateParams(form, selected).interest == selected
    ensures selected == "" ==>
      BuildTemplateParams(form, selected).interest
        == (if "interest" in form then form["interest"] else "")
  {
  }

  /** Whatever the form holds, choosing any option of the selector puts exactly
      that option into the payload. */
  lemma SelectedOptionWins(form: FormFields, option: string)
    requires option in InterestOptions
    ensures BuildTemplateParams(form, option).interest == option
  {
  }
}

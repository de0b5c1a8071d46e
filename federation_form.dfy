/** The federation form (`src/components/forms/AddFederationForm.jsx`): its initial state, the
    field and logo handlers, and the submit that runs three checks in order before handing the
    form to the page. */
module FederationForm {
  import opened Js
  import opened Email

  const RequiredText := "Please fill in all required fields"
  const WebsiteText := "Website URL must start with http:// or https://"
  const BadEmailText := "Please enter a valid email address"
  /** The message of the `TypeError` that `website.startsWith` raises on a truthy non-string. */
  const StartsWithTypeErrorText := "formData.website.startsWith is not a function"

  /** The state used when no `initialData` is given. It has no `website` and no `loginEmail`. */
  function DefaultForm(): Record {
    map["name" := Str(""), "acronym" := Str(""), "yearFounded" := Str(""),
        "legalRepresentative" := Str(""), "address" := Str("")]
  }

  /** `initialData || { ...defaults }`; `None` stands for an absent or falsy `initialData`. */
  function InitialForm(initialData: Option<Record>): (r: Record)
    ensures initialData.Some? ==> r == initialData.value
    ensures initialData.None? ==> r.Keys == {"name", "acronym", "yearFounded", "legalRepresentative", "address"}
                                  && forall k :: k in r ==> r[k] == Str("")
  {
    if initialData.Some? then initialData.value else DefaultForm()
  }

  /** The required-field check: name, acronym and founding year all truthy. */
  predicate HasRequired(form: Record) {
    Truthy(Get(form, "name")) && Truthy(Get(form, "acronym")) && Truthy(Get(form, "yearFounded"))
  }

  /** The website check: `website && !website.startsWith('http')`. `None` passes; a truthy
      non-string makes the call itself throw. */
  function WebsiteError(website: Value): (r: Option<string>)
    ensures r.None? <==> !Truthy(website) || (website.Str? && StartsWith(website.s, "http"))
    ensures r.Some? ==> r.value == WebsiteText || r.value == StartsWithTypeErrorText
    ensures r == Some(WebsiteText) <==> website.Str? && website.s != "" && !StartsWith(website.s, "http")
  {
    if !Truthy(website) then None
    else if !website.Str? then Some(StartsWithTypeErrorText)
    else if !StartsWith(website.s, "http") then Some(WebsiteText)
    else None
  }

  /** The three checks of `handleSubmit` in order; the first failure's message is the result. */
  function ValidateFederation(form: Record): (r: Option<string>)
    ensures !HasRequired(form) ==> r == Some(RequiredText)
    ensures HasRequired(form) && WebsiteError(Get(form, "website")).Some? ==> r == WebsiteError(Get(form, "website"))
    ensures HasRequired(form) && WebsiteError(Get(form, "website")).None? && !MatchesRegex(ToStr(Get(form, "loginEmail")))
            ==> r == Some(BadEmailText)
    ensures r.None? <==> HasRequired(form) && WebsiteError(Get(form, "website")).None?
                         && MatchesRegex(ToStr(Get(form, "loginEmail")))
  {
    IsEmailIffRegex(ToStr(Get(form, "loginEmail")));
    if !HasRequired(form) then Some(RequiredText)
    else if WebsiteError(Get(form, "website")).Some? then WebsiteError(Get(form, "website"))
    else if !IsEmail(ToStr(Get(form, "loginEmail"))) then Some(BadEmailText)
    else None
  }

  /** An empty or absent website passes its check, and so does any string starting with "http". */
  lemma WebsitePasses(w: Value)
    requires w == Undefined || w == Str("") || (w.Str? && StartsWith(w.s, "http"))
    ensures WebsiteError(w) == None
  {
  }

  /** A form that filled in the required fields, but never touched the login e-mail, is rejected at
      the e-mail check, because `String(undefined)` is not an address. */
  lemma UntouchedEmailRejected(form: Record)
    requires HasRequired(form) && "loginEmail" !in form && WebsiteError(Get(form, "website")).None?
    ensures ValidateFederation(form) == Some(BadEmailText)
  {
    UndefinedIsNotEmail();
  }

  /** The untouched default form is rejected, and a default form with only the required fields
      filled in is still rejected, at the e-mail check. */
  lemma DefaultFormRejected(name: string, acronym: string, year: string)
    requires name != "" && acronym != "" && year != ""
    ensures ValidateFederation(InitialForm(None)) == Some(RequiredText)
    ensures ValidateFederation(DefaultForm()["name" := Str(name)]["acronym" := Str(acronym)]["yearFounded" := Str(year)])
            == Some(BadEmailText)
  {
    var f := DefaultForm()["name" := Str(name)]["acronym" := Str(acronym)]["yearFounded" := Str(year)];
    assert "website" !in f;
    UntouchedEmailRejected(f);
  }

  /** What a submit does: calls `onSubmit` with the form, or shows the failed check's message. */
  datatype SubmitOutcome = Submitted(data: Record) | Toast(message: string)

  class FederationFormState {
    var formData: Record

    constructor (initialData: Option<Record>)
      ensures formData == InitialForm(initialData)
    {
      if initialData.Some? {
        formData := initialData.value;
      } else {
        formData := map["name" := Str(""), "acronym" := Str(""), "yearFounded" := Str(""),
                        "legalRepresentative" := Str(""), "address" := Str("")];
      }
    }

    /** `handleChange`: the input's value goes under its name; the other fields stay. */
    method HandleChange(e: InputEvent)
      modifies this
      ensures Assigned(formData, old(formData), e.name, Str(e.value))
    {
      formData := formData[e.name := Str(e.value)];
    }

    /** `handleFileChange`: the first selected file becomes the `logo`; with no file nothing changes. */
    method HandleFileChange(files: seq<nat>)
      modifies this
      ensures files != [] ==> Assigned(formData, old(formData), "logo", File(files[0]))
      ensures files == [] ==> formData == old(formData)
    {
      if |files| > 0 {
        formData := formData["logo" := File(files[0])];
      }
    }

    /** `handleSubmit`: the form goes to `onSubmit` exactly when all three checks pass; otherwise the
        first failed check's message goes to the toast. The form itself is not changed. */
    method HandleSubmit() returns (outcome: SubmitOutcome)
      ensures outcome.Submitted? <==> ValidateFederation(formData).None?
      ensures outcome.Submitted? ==> outcome.data == formData
      ensures outcome.Toast? ==> outcome.message == ValidateFederation(formData).value
    {
      if !HasRequired(formData) {
        return Toast(RequiredText);
      }
      var website := Get(formData, "website");
      if Truthy(website) {
        if !website.Str? {
          return Toast(StartsWithTypeErrorText);
        }
        if !StartsWith(website.s, "http") {
          return Toast(WebsiteText);
        }
      }
      if !IsEmail(ToStr(Get(formData, "loginEmail"))) {
        return Toast(BadEmailText);
      }
      outcome := Submitted(formData);
    }
  }
}

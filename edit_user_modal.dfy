/** The user editor dialog (`src/components/EditUserModal.jsx`): a four-field form filled from the
    selected user, the list of groups fetched when the dialog opens, and a submit that validates the
    form before sending it to the server. */
module EditUser {
  import opened Js
  import opened Http
  import opened Email

  const FillAllText := "Please fill out all fields"
  const BadEmailText := "Please enter a valid email address"
  const UpdateFailedText := "Failed to update user"
  const GroupsFailedText := "Failed to fetch groups"

  /** The four fields every submit needs, all truthy. */
  predicate AllFilled(form: Record) {
    Truthy(Get(form, "name")) && Truthy(Get(form, "email")) && Truthy(Get(form, "group")) && Truthy(Get(form, "status"))
  }

  /** The checks of `handleSubmit` in order: the required fields first, then the e-mail pattern,
      applied to `String(formData.email)` as `RegExp.prototype.test` does. `None` lets the request go. */
  function ValidateUser(form: Record): (r: Option<string>)
    ensures r.None? <==> AllFilled(form) && MatchesRegex(ToStr(Get(form, "email")))
    ensures r == Some(FillAllText) <==> !AllFilled(form)
    ensures r == Some(BadEmailText) <==> AllFilled(form) && !MatchesRegex(ToStr(Get(form, "email")))
  {
    IsEmailIffRegex(ToStr(Get(form, "email")));
    if !AllFilled(form) then Some(FillAllText)
    else if !IsEmail(ToStr(Get(form, "email"))) then Some(BadEmailText)
    else None
  }

  /** The form the dialog shows for `userData`: its name, e-mail, group and status, and nothing else. */
  function PopulatedForm(user: Record): (r: Record)
    ensures r.Keys == {"name", "email", "group", "status"}
    ensures forall k :: k in r ==> r[k] == Get(user, k)
  {
    map["name" := Get(user, "name"), "email" := Get(user, "email"),
        "group" := Get(user, "group"), "status" := Get(user, "status")]
  }

  /** A form copied from a user whose four fields are filled and whose address is valid passes. */
  lemma PopulatedFormPasses(user: Record)
    requires AllFilled(user) && IsEmail(ToStr(Get(user, "email")))
    ensures ValidateUser(PopulatedForm(user)) == None
  {
    var f := PopulatedForm(user);
    assert Get(f, "email") == Get(user, "email");
    IsEmailIffRegex(ToStr(Get(user, "email")));
  }

  /** The request `axiosInstance.put(path, body)`. */
  datatype Put = Put(path: string, body: Record)

  /** How a submit ends: a validation toast, `onEdit` called with the server's record (after which
      the dialog closes), or the error shown in the dialog. */
  datatype SubmitOutcome = Invalid(message: string) | Edited(data: Value) | Failed(message: string)

  class EditUserModal {
    var formData: Record
    var loading: bool
    var loadingGroups: bool
    var error: string
    var groups: Value

    /** The state on first render. */
    constructor ()
      ensures formData == map["name" := Str(""), "email" := Str(""), "group" := Str(""), "status" := Str("")]
      ensures !loading && loadingGroups && error == "" && groups == Obj(map[])
    {
      formData := map["name" := Str(""), "email" := Str(""), "group" := Str(""), "status" := Str("")];
      loading, loadingGroups := false, true;
      error := "";
      groups := Obj(map[]);
    }

    /** The effect that runs when the dialog opens: the form is filled from `userData` when there is
        one, and the groups request either fills `groups` or sets the error. */
    method Open(userData: Option<Record>, groupsReply: Reply<Value>)
      modifies this
      ensures formData == if userData.Some? then PopulatedForm(userData.value) else old(formData)
      ensures groupsReply.Ok? ==> groups == groupsReply.data && error == old(error)
      ensures groupsReply.Fail? ==> groups == old(groups) && error == FailureText(groupsReply.failure, GroupsFailedText)
      ensures !loadingGroups && loading == old(loading)
    {
      if userData.Some? {
        var u := userData.value;
        formData := map["name" := Get(u, "name"), "email" := Get(u, "email"),
                        "group" := Get(u, "group"), "status" := Get(u, "status")];
      }
      loadingGroups := true;
      match groupsReply {
        case Ok(data) => groups := data;
        case Fail(f) => error := ErrorText(HttpError(f), GroupsFailedText);
      }
      loadingGroups := false;
    }

    /** `handleChange`: the input's value goes under its name; the other fields stay. */
    method HandleChange(e: InputEvent)
      modifies this`formData
      ensures Assigned(formData, old(formData), e.name, Str(e.value))
    {
      formData := formData[e.name := Str(e.value)];
    }

    /** `handleSubmit`. A form that fails validation sends nothing. A valid form is sent to
        `/users/<id>`, unless there is no `userData`, in which case reading its `id` throws before the
        request. The form itself never changes, and `loading` is false on every path. */
    method HandleSubmit(userData: Option<Record>, reply: Reply<Value>) returns (put: Option<Put>, outcome: SubmitOutcome)
      modifies this`loading, this`error
      ensures !loading
      ensures ValidateUser(formData).Some? ==>
                put == None && outcome == Invalid(ValidateUser(formData).value) && error == ""
      ensures ValidateUser(formData).None? && userData.None? ==>
                put == None && outcome == Failed(UpdateFailedText) && error == UpdateFailedText
      ensures ValidateUser(formData).None? && userData.Some? ==>
                && put == Some(Put("/users/" + ToStr(Get(userData.value, "id")), formData))
                && (reply.Ok? ==> outcome == Edited(reply.data) && error == "")
                && (reply.Fail? ==> outcome == Failed(FailureText(reply.failure, UpdateFailedText))
                                    && error == FailureText(reply.failure, UpdateFailedText))
    {
      loading := true;
      error := "";
      if !AllFilled(formData) {
        loading := false;
        return None, Invalid(FillAllText);
      }
      if !IsEmail(ToStr(Get(formData, "email"))) {
        loading := false;
        return None, Invalid(BadEmailText);
      }
      if userData.None? {
        put := None;
        error := UpdateFailedText;
        outcome := Failed(UpdateFailedText);
      } else {
        put := Some(Put("/users/" + ToStr(Get(userData.value, "id")), formData));
        match reply {
          case Ok(data) =>
            outcome := Edited(data);
          case Fail(f) =>
            var text := ErrorText(HttpError(f), UpdateFailedText);
            error := text;
            outcome := Failed(text);
        }
      }
      loading := false;
    }
  }
}

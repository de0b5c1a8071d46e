/** The player and staff form (`src/components/forms/AddPlayerStaffForm.jsx`): a record of
    twenty-one flat fields and two nested sections, `location` and `joinDate`, filled from
    `initialData` where it has truthy values, updated one field or one nested subfield at a time,
    and handed to the page unchanged on submit. */
module PlayerStaffForm {
  import opened Js

  /** The flat fields. */
  const FlatKeys: set<string> := {
    "type", "idType", "idNumber", "passportPicture", "firstName", "lastName", "dateOfBirth",
    "gender", "maritalStatus", "placeOfResidence", "discipline", "nationality", "otherNationality",
    "positionInClub", "federation", "currentClub", "originClub", "placeOfBirth", "fitnessStatus",
    "educationLevel", "cv"}

  /** The subfields of `location`. */
  const LocationKeys: set<string> := {"province", "district", "sector", "cell", "village"}

  /** The subfields of `joinDate`. */
  const JoinDateKeys: set<string> := {"month", "year"}

  /** `{ k: source?.k || '' }` for every `k` of `keys`. */
  function Defaulted(source: Value, keys: set<string>): (r: Record)
    ensures r.Keys == keys
    ensures forall k :: k in keys && Truthy(Prop(source, k)) ==> r[k] == Prop(source, k)
    ensures forall k :: k in keys && !Truthy(Prop(source, k)) ==> r[k] == Str("")
  {
    map k | k in keys :: Or(Prop(source, k), Str(""))
  }

  /** The two sections are not flat fields. */
  lemma SectionsNotFlat()
    ensures "location" !in FlatKeys && "joinDate" !in FlatKeys
  {
  }

  /** The initial state: each flat field and each nested subfield takes its value from `initialData`
      when that is truthy and is the empty string otherwise, each on its own. */
  function InitialForm(initialData: Value): (r: Record)
    ensures r.Keys == FlatKeys + {"location", "joinDate"}
    ensures forall k :: k in FlatKeys ==> r[k] == Defaulted(initialData, FlatKeys)[k]
    ensures r["location"] == Obj(Defaulted(Prop(initialData, "location"), LocationKeys))
    ensures r["joinDate"] == Obj(Defaulted(Prop(initialData, "joinDate"), JoinDateKeys))
  {
    SectionsNotFlat();
    Defaulted(initialData, FlatKeys)
      ["location" := Obj(Defaulted(Prop(initialData, "location"), LocationKeys))]
      ["joinDate" := Obj(Defaulted(Prop(initialData, "joinDate"), JoinDateKeys))]
  }

  /** Defaulting a record that already holds the defaulted values changes nothing. */
  lemma DefaultedAgain(source: Value, keys: set<string>, f: Record)
    requires forall k :: k in keys ==> k in f && f[k] == Defaulted(source, keys)[k]
    ensures Defaulted(Obj(f), keys) == Defaulted(source, keys)
  {
    var once := Defaulted(source, keys);
    var twice := Defaulted(Obj(f), keys);
    forall k | k in keys ensures twice[k] == once[k] {
      assert Prop(Obj(f), k) == once[k];
    }
  }

  /** Opening the form on data the form itself produced gives the same form back. */
  lemma InitialFormIdempotent(initialData: Value)
    ensures InitialForm(Obj(InitialForm(initialData))) == InitialForm(initialData)
  {
    var f := InitialForm(initialData);
    var loc := Defaulted(Prop(initialData, "location"), LocationKeys);
    var join := Defaulted(Prop(initialData, "joinDate"), JoinDateKeys);
    DefaultedAgain(initialData, FlatKeys, f);
    assert Prop(Obj(f), "location") == Obj(loc);
    DefaultedAgain(Prop(initialData, "location"), LocationKeys, loc);
    assert Prop(Obj(f), "joinDate") == Obj(join);
    DefaultedAgain(Prop(initialData, "joinDate"), JoinDateKeys, join);
  }

  /** The text before the first dot of a dotted name: `name.split('.')[0]`. */
  function Section(name: string): (r: string)
    requires IndexOf(name, '.').Some?
    ensures '.' !in r && r + "." <= name
  {
    name[..IndexOf(name, '.').value]
  }

  /** The text between the first dot and the next one (or the end): `name.split('.')[1]`. */
  function Field(name: string): (r: string)
    requires IndexOf(name, '.').Some?
    ensures '.' !in r && Section(name) + "." + r <= name
    ensures Section(name) + "." + r == name || Section(name) + "." + r + "." <= name
  {
    var rest := name[IndexOf(name, '.').value + 1..];
    match IndexOf(rest, '.')
    case None => rest
    case Some(j) => rest[..j]
  }

  /** A name with a single dot is exactly its section, the dot and its field. */
  lemma SplitSingleDot(section: string, field: string)
    requires '.' !in section && '.' !in field
    ensures IndexOf(section + "." + field, '.') == Some(|section|)
    ensures Section(section + "." + field) == section && Field(section + "." + field) == field
  {
    var n := section + "." + field;
    IndexOfConcat(section, '.', field);
    assert n[..|section|] == section;
    assert n[|section| + 1..] == field;
    IndexOfAbsent(field, '.');
  }

  /** What a file input stores: `files[0]`, which is `undefined` when nothing was chosen. */
  function FirstFile(files: seq<nat>): Value {
    if files == [] then Undefined else File(files[0])
  }

  /** `handleChange`. A name with a dot rewrites one subfield of one section, whatever the input's
      type; otherwise a file input stores its first file, and any other input its value. */
  function ApplyChange(form: Record, e: InputEvent): (r: Record)
    ensures IndexOf(e.name, '.').Some? ==>
              var section := Section(e.name);
              && section in r && r[section].Obj?
              && Assigned(r, form, section, r[section])
              && Assigned(r[section].fields, Fields(Get(form, section)), Field(e.name), Str(e.value))
    ensures IndexOf(e.name, '.').None? && e.kind == "file" ==> Assigned(r, form, e.name, FirstFile(e.files))
    ensures IndexOf(e.name, '.').None? && e.kind != "file" ==> Assigned(r, form, e.name, Str(e.value))
  {
    if IndexOf(e.name, '.').Some? then
      var section := Section(e.name);
      var inner := Fields(Get(form, section));
      AssignedByUpdate(inner, Field(e.name), Str(e.value));
      var v := Obj(inner[Field(e.name) := Str(e.value)]);
      AssignedByUpdate(form, section, v);
      form[section := v]
    else
      var v := if e.kind == "file" then FirstFile(e.files) else Str(e.value);
      AssignedByUpdate(form, e.name, v);
      form[e.name := v]
  }

  /** A change to `section.field` sets that one subfield: every other subfield of the section and
      every other top-level field keep their values. */
  lemma DottedChange(form: Record, section: string, field: string, e: InputEvent)
    requires '.' !in section && '.' !in field && e.name == section + "." + field
    ensures var after := ApplyChange(form, e);
            && Get(after, section) == Obj(Fields(Get(form, section))[field := Str(e.value)])
            && forall k :: k in form && k != section ==> k in after && after[k] == form[k]
  {
    SplitSingleDot(section, field);
  }

  class PlayerStaffFormState {
    var formData: Record

    constructor (initialData: Value)
      ensures formData == InitialForm(initialData)
    {
      formData := InitialForm(initialData);
    }

    method HandleChange(e: InputEvent)
      modifies this
      ensures formData == ApplyChange(old(formData), e)
    {
      if IndexOf(e.name, '.').Some? {
        var section, field := Section(e.name), Field(e.name);
        var inner := if section in formData && formData[section].Obj? then formData[section].fields else map[];
        formData := formData[section := Obj(inner[field := Str(e.value)])];
      } else if e.kind == "file" {
        formData := formData[e.name := if |e.files| > 0 then File(e.files[0]) else Undefined];
      } else {
        formData := formData[e.name := Str(e.value)];
      }
    }

    /** `handleSubmit`: the form goes to `onSubmit` as it is, with no checks. */
    method HandleSubmit() returns (submitted: Record)
      ensures submitted == formData
    {
      submitted := formData;
    }
  }
}

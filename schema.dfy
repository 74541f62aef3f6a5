/**
 * The form schema of an ingestion task: every field is required, the name has at
 * least two characters and the ingest type is one of four values.
 */
module TaskSchema {
  import opened Options
  import opened Seqs
  import opened Tasks

  /** Raw form values as the schema sees them; `None` is a missing value. */
  datatype FormInput = FormInput(
    name: Option<string>,
    sqlQuery: Option<string>,
    injestType: Option<string>,
    enabled: Option<bool>,
    createdTimestamp: Option<string>
  )

  datatype Field = Name | SqlQuery | InjestType | Enabled | CreatedTimestamp

  /** The schema's fields in declaration order. */
  const AllFields: seq<Field> := [Name, SqlQuery, InjestType, Enabled, CreatedTimestamp]

  const InjestTypes: seq<string> := ["batch", "streaming", "incremental", "full"]

  /** `string().required()`: present and not the empty string. */
  predicate Required(o: Option<string>)
  {
    o.Some? && o.value != ""
  }

  /** The field has a value; for a string field, a non-empty one. */
  predicate Present(f: FormInput, x: Field)
  {
    match x
    case Name => Required(f.name)
    case SqlQuery => Required(f.sqlQuery)
    case InjestType => Required(f.injestType)
    case Enabled => f.enabled.Some?
    case CreatedTimestamp => Required(f.createdTimestamp)
  }

  /** The rule of one field; every field is required. */
  predicate FieldValid(f: FormInput, x: Field)
    ensures FieldValid(f, x) ==> Present(f, x)
    ensures x == InjestType && FieldValid(f, x) ==> f.injestType.value in InjestTypes
  {
    match x
    case Name => Required(f.name) && |f.name.value| >= 2
    case SqlQuery => Required(f.sqlQuery)
    case InjestType => Required(f.injestType) && f.injestType.value in InjestTypes
    case Enabled => f.enabled.Some?
    case CreatedTimestamp => Required(f.createdTimestamp)
  }

  datatype Validated = Valid(form: TaskForm) | Invalid(fields: seq<Field>)

  /** Validate raw form values: the typed form when every field passes, else the failing fields in schema order. */
  function Validate(f: FormInput): (r: Validated)
    ensures r.Valid? <==> forall x :: FieldValid(f, x)
    ensures r.Valid? ==> PatchOf(r.form) == TaskPatch(f.name, f.sqlQuery, f.injestType, f.enabled, f.createdTimestamp)
    ensures r.Invalid? ==> r.fields != [] && forall x :: x in r.fields <==> !FieldValid(f, x)
  {
    var failing := Select(AllFields, x => !FieldValid(f, x));
    SelectKeepsAll(AllFields, x => !FieldValid(f, x));
    forall x ensures x in failing <==> !FieldValid(f, x) {
      SelectMembership(AllFields, x => !FieldValid(f, x), x);
    }
    if failing == [] then
      Valid(TaskForm(f.name.value, f.sqlQuery.value, f.injestType.value, f.enabled.value, f.createdTimestamp.value))
    else
      Invalid(failing)
  }

  function InputOf(d: TaskForm): FormInput
  {
    FormInput(Some(d.name), Some(d.sqlQuery), Some(d.injestType), Some(d.enabled), Some(d.createdTimestamp))
  }

  predicate ValidForm(d: TaskForm)
  {
    Validate(InputOf(d)).Valid?
  }

  /** A typed form passes exactly when its values meet the rules, and then validation returns it unchanged. */
  lemma ValidFormRules(d: TaskForm)
    ensures ValidForm(d) <==>
      |d.name| >= 2 && d.sqlQuery != "" && d.injestType in InjestTypes && d.createdTimestamp != ""
    ensures ValidForm(d) ==> Validate(InputOf(d)) == Valid(d)
  {
  }
}

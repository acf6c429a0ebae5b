/** The declarative form schema of the vendor portal and the dynamically
    typed values its widgets produce (streamlit_app.py). */
module FormSchema {
  import opened Wrappers

  /** A Python value as it reaches the form code: `None`, a `str`, a `list`
      of `str` (multiselect), an `int` (slider) or a `date` (kept opaque as
      its `YYYY-MM-DD` text). */
  datatype Value =
    | Missing
    | Text(s: string)
    | Choices(items: seq<string>)
    | Number(n: int)
    | Date(iso: string)

  /** Python truthiness: `None`, `""`, `[]` and `0` are false; a `date` is
      always true. */
  predicate Truthy(v: Value) {
    match v
    case Missing => false
    case Text(s) => s != ""
    case Choices(xs) => xs != []
    case Number(n) => n != 0
    case Date(_) => true
  }

  /** Python `len(v)`; `None` where `len` raises `TypeError`. */
  function Len(v: Value): (r: Option<nat>)
    ensures r.Some? <==> v.Text? || v.Choices?
  {
    match v
    case Text(s) => Some(|s|)
    case Choices(xs) => Some(|xs|)
    case _ => None
  }

  /** The six widget kinds, each carrying the constraints the validator and
      the renderer read. A missing `min_length` is 0; a missing `max_length`
      (the `float('inf')` default) is `None`. */
  datatype FieldKind =
    | TextInput(minLength: nat, maxLength: Option<nat>)
    | Select(options: seq<string>)
    | MultiSelect(options: seq<string>, minSelections: nat)
    | Slider(lo: int, hi: int, default: int)
    | DateInput
    | TextArea(minLength: nat, maxLength: Option<nat>)
  {
    /** The kinds whose length `validate_form` bounds ("text", "textarea"). */
    predicate IsText() {
      TextInput? || TextArea?
    }
  }

  /** One schema entry: its dictionary key, label (`caption`), `required` flag, kind and
      `validation.message`. */
  datatype Field = Field(key: string, caption: string, required: bool, kind: FieldKind, message: string)

  /** The exception a form operation raises, with the key being processed:
      `KeyError` for a key the dictionary lacks, `TypeError` and
      `AttributeError` for an operation applied to a value of the wrong
      Python type. */
  datatype Fault = KeyError(key: string) | TypeError(key: string) | AttributeError(key: string)

  /** Python dict keys are distinct. */
  predicate DistinctKeys(schema: seq<Field>) {
    forall i, j :: 0 <= i < j < |schema| ==> schema[i].key != schema[j].key
  }

  /** `schema[key]`; `None` is the `KeyError`. */
  function Lookup(schema: seq<Field>, key: string): (r: Option<Field>)
    ensures r.Some? ==> r.value in schema && r.value.key == key
    ensures r.None? <==> forall i :: 0 <= i < |schema| ==> schema[i].key != key
  {
    if schema == [] then None
    else if schema[0].key == key then Some(schema[0])
    else Lookup(schema[1..], key)
  }

  /** In a schema with distinct keys, looking up the key of entry `i` finds
      entry `i`. */
  lemma {:induction false} LookupOwnKey(schema: seq<Field>, i: nat)
    requires DistinctKeys(schema) && i < |schema|
    ensures Lookup(schema, schema[i].key) == Some(schema[i])
  {
    if i > 0 {
      assert schema[1..][i - 1] == schema[i];
      LookupOwnKey(schema[1..], i - 1);
    }
  }

  const BusinessTypes: seq<string> :=
    ["Manufacturer", "Distributor", "Wholesaler", "Retailer", "Service Provider"]

  const Products: seq<string> := ["Electronics", "Apparel", "Groceries", "Software", "Other"]

  const CompanyName := Field("company_name", "Company Name", true, TextInput(2, Some(100)),
                             "Company name must be between 2 and 100 characters.")
  const BusinessType := Field("business_type", "Business Type", true, Select(BusinessTypes),
                              "Please select a business type.")
  const ProductsOffered := Field("products", "Products Offered", true, MultiSelect(Products, 1),
                                 "Please select at least one product.")
  const YearsInBusiness := Field("years_in_business", "Years in Business", true, Slider(0, 50, 5),
                                 "Years in business must be between 0 and 50.")
  const OnboardingDate := Field("onboarding_date", "Onboarding Date", true, DateInput,
                                "Please select a valid onboarding date.")
  const AdditionalInfo := Field("additional_info", "Additional Notes", false, TextArea(0, Some(500)),
                                "Additional notes cannot exceed 500 characters.")

  /** `form_schema`, in its dictionary order. */
  const Schema: seq<Field> :=
    [CompanyName, BusinessType, ProductsOffered, YearsInBusiness, OnboardingDate, AdditionalInfo]

  lemma SchemaKeysDistinct()
    ensures DistinctKeys(Schema)
  {
  }

  /** Each vendor field is what its own key looks up. */
  lemma SchemaLookup(i: nat)
    requires i < |Schema|
    ensures Lookup(Schema, Schema[i].key) == Some(Schema[i])
  {
    SchemaKeysDistinct();
    LookupOwnKey(Schema, i);
  }
}

/** `validate_form` (streamlit_app.py:139-155): the submitted form values,
    in dictionary order, checked against the schema. */
module Validation {
  import opened Wrappers
  import opened FormSchema

  type Errors = Result<seq<string>, Fault>

  /** The ordered entries of the `form_data` dictionary. */
  type FormData = seq<(string, Value)>

  /** The message for a missing required value, built from the label. */
  function RequiredMessage(f: Field): string {
    f.caption + " is required."
  }

  /** Within `min_length` (default 0) and `max_length` (default unbounded). */
  predicate InBounds(n: nat, kind: FieldKind)
    requires kind.IsText()
  {
    kind.minLength <= n && (kind.maxLength.None? || n <= kind.maxLength.value)
  }

  /** Error lists are appended in order; the first exception wins. */
  function Then(a: Errors, b: Errors): (r: Errors)
    ensures a.Err? ==> r == a
    ensures a.Ok? && b.Err? ==> r == b
    ensures a.Ok? && b.Ok? ==> r == Ok(a.value + b.value)
    ensures b == Ok([]) ==> r == a
    ensures a == Ok([]) ==> r == b
  {
    match a
    case Err(_) => a
    case Ok(x) =>
      match b
      case Err(_) => b
      case Ok(y) =>
        assert y == [] ==> x + y == x;
        assert x == [] ==> x + y == y;
        Ok(x + y)
  }

  /** The `required` branch of the loop body. */
  function RequiredCheck(f: Field, v: Value): (r: Errors)
    ensures !f.required ==> r == Ok([])
    ensures f.required && !Truthy(v) ==> r == Ok([RequiredMessage(f)])
    ensures r.Err? <==> f.required && Truthy(v) && f.kind.MultiSelect? && Len(v).None?
    ensures r.Ok? && r.value != [] ==>
              r.value == [RequiredMessage(f)] ||
              (r.value == [f.message] && f.kind.MultiSelect? && Truthy(v) &&
               Len(v).value < f.kind.minSelections)
  {
    if !f.required then Ok([])
    else if !Truthy(v) then Ok([RequiredMessage(f)])
    else if f.kind.MultiSelect? then
      match Len(v)
      case None => Err(TypeError(f.key))
      case Some(n) => Ok(if n < f.kind.minSelections then [f.message] else [])
    else Ok([])
  }

  /** The length branch of the loop body, for a truthy text value. */
  function LengthCheck(f: Field, v: Value): (r: Errors)
    ensures !(Truthy(v) && f.kind.IsText()) ==> r == Ok([])
    ensures r.Err? <==> Truthy(v) && f.kind.IsText() && Len(v).None?
    ensures r == Ok([f.message]) <==>
              Truthy(v) && f.kind.IsText() && Len(v).Some? && !InBounds(Len(v).value, f.kind)
    ensures r.Ok? ==> r.value == [] || r.value == [f.message]
  {
    if Truthy(v) && f.kind.IsText() then
      match Len(v)
      case None => Err(TypeError(f.key))
      case Some(n) => Ok(if InBounds(n, f.kind) then [] else [f.message])
    else Ok([])
  }

  /** The errors one form entry contributes: never more than one. */
  function FieldErrors(f: Field, v: Value): (r: Errors)
    ensures r.Ok? ==> |r.value| <= 1
  {
    Then(RequiredCheck(f, v), LengthCheck(f, v))
  }

  /** One entry, with `schema[field]` raising `KeyError` for an unknown key. */
  function EntryErrors(entry: (string, Value), schema: seq<Field>): (r: Errors)
    ensures r.Ok? ==> |r.value| <= 1
    ensures Lookup(schema, entry.0).None? ==> r == Err(KeyError(entry.0))
  {
    match Lookup(schema, entry.0)
    case None => Err(KeyError(entry.0))
    case Some(f) => FieldErrors(f, entry.1)
  }

  /** The result of `validate_form(form_data, schema)`: the entries' errors in
      dictionary order, or the first exception the loop raises. */
  function Validate(formData: FormData, schema: seq<Field>): (r: Errors)
    ensures r.Ok? ==> |r.value| <= |formData|
    decreases |formData|
  {
    if formData == [] then Ok([])
    else Then(Validate(formData[..|formData| - 1], schema), EntryErrors(formData[|formData| - 1], schema))
  }

  /** The loop of `validate_form`, appending to `errors` as it goes. */
  method ValidateForm(formData: FormData, schema: seq<Field>) returns (r: Errors)
    ensures r == Validate(formData, schema)
  {
    var errors: seq<string> := [];
    var i := 0;
    while i < |formData|
      invariant 0 <= i <= |formData|
      invariant Validate(formData[..i], schema) == Ok(errors)
    {
      var (key, value) := formData[i];
      assert formData[..i + 1][..i] == formData[..i];
      var found := Lookup(schema, key);
      if found.None? {
        FaultStops(formData, i, schema);
        return Err(KeyError(key));
      }
      var f := found.value;
      if f.required {
        if !Truthy(value) {
          errors := errors + [RequiredMessage(f)];
        } else if f.kind.MultiSelect? {
          var n := Len(value);
          if n.None? {
            FaultStops(formData, i, schema);
            return Err(TypeError(key));
          }
          if n.value < f.kind.minSelections {
            errors := errors + [f.message];
          }
        }
      }
      if Truthy(value) && f.kind.IsText() {
        var n := Len(value);
        if n.None? {
          FaultStops(formData, i, schema);
          return Err(TypeError(key));
        }
        if !InBounds(n.value, f.kind) {
          errors := errors + [f.message];
        }
      }
      i := i + 1;
    }
    assert formData[..i] == formData;
    return Ok(errors);
  }

  /** Once entry `i` raises, the whole call raises the same exception. */
  lemma FaultStops(formData: FormData, i: nat, schema: seq<Field>)
    requires i < |formData| && Validate(formData[..i], schema).Ok?
    requires EntryErrors(formData[i], schema).Err?
    ensures Validate(formData, schema) == EntryErrors(formData[i], schema)
  {
    ValidateStep(formData, i, schema);
    ValidateAppend(formData[..i + 1], formData[i + 1..], schema);
    assert formData[..i + 1] + formData[i + 1..] == formData;
  }

  /** One more entry: the prefix's errors, then the entry's. */
  lemma ValidateStep(formData: FormData, i: nat, schema: seq<Field>)
    requires i < |formData|
    ensures Validate(formData[..i + 1], schema) ==
            Then(Validate(formData[..i], schema), EntryErrors(formData[i], schema))
  {
    assert formData[..i + 1][..i] == formData[..i];
    assert formData[..i + 1][i] == formData[i];
  }

  /** Validation distributes over concatenation of the form entries: errors
      come out in entry order. */
  lemma {:induction false} ValidateAppend(a: FormData, b: FormData, schema: seq<Field>)
    ensures Validate(a + b, schema) == Then(Validate(a, schema), Validate(b, schema))
    decreases |b|
  {
    if b == [] {
      assert a + b == a;
    } else {
      var b' := b[..|b| - 1];
      assert (a + b)[..|a + b| - 1] == a + b';
      assert (a + b)[|a + b| - 1] == b[|b| - 1];
      ValidateAppend(a, b', schema);
      ThenAssoc(Validate(a, schema), Validate(b', schema), EntryErrors(b[|b| - 1], schema));
    }
  }

  lemma ThenAssoc(a: Errors, b: Errors, c: Errors)
    ensures Then(Then(a, b), c) == Then(a, Then(b, c))
  {
    if a.Ok? && b.Ok? && c.Ok? {
      assert (a.value + b.value) + c.value == a.value + (b.value + c.value);
    }
  }

  /** The concatenation of per-entry error lists, in entry order. */
  function Flatten(ess: seq<seq<string>>): seq<string> {
    if ess == [] then [] else Flatten(ess[..|ess| - 1]) + ess[|ess| - 1]
  }

  /** The error list is the entries' own errors concatenated in the order of
      the form's keys. */
  lemma {:induction false} ValidateInOrder(formData: FormData, schema: seq<Field>, ess: seq<seq<string>>)
    requires |ess| == |formData|
    requires forall i :: 0 <= i < |formData| ==> EntryErrors(formData[i], schema) == Ok(ess[i])
    ensures Validate(formData, schema) == Ok(Flatten(ess))
    decreases |formData|
  {
    if formData != [] {
      var n := |formData| - 1;
      forall i | 0 <= i < n ensures EntryErrors(formData[..n][i], schema) == Ok(ess[..n][i]) {
        assert formData[..n][i] == formData[i];
      }
      ValidateInOrder(formData[..n], schema, ess[..n]);
    }
  }

  /** The errors of the whole form are those before entry `i`, then entry
      `i`'s own, then those after it. */
  lemma ValidateAround(formData: FormData, i: nat, schema: seq<Field>)
    requires i < |formData|
    ensures Validate(formData, schema) ==
            Then(Then(Validate(formData[..i], schema), EntryErrors(formData[i], schema)),
                 Validate(formData[i + 1..], schema))
  {
    ValidateStep(formData, i, schema);
    ValidateAppend(formData[..i + 1], formData[i + 1..], schema);
    assert formData[..i + 1] + formData[i + 1..] == formData;
  }

  /** A required entry whose value is falsy (`""`, `[]`, `0`, `None`)
      contributes exactly `"<label> is required."`, at its own place in the
      list, and nothing else (no length error). */
  lemma RequiredMissingReported(formData: FormData, i: nat, schema: seq<Field>, f: Field, es: seq<string>)
    requires i < |formData| && Lookup(schema, formData[i].0) == Some(f)
    requires f.required && !Truthy(formData[i].1)
    requires Validate(formData, schema) == Ok(es)
    ensures Validate(formData[..i], schema).Ok? && Validate(formData[i + 1..], schema).Ok?
    ensures es == Validate(formData[..i], schema).value + [RequiredMessage(f)]
                  + Validate(formData[i + 1..], schema).value
  {
    ValidateAround(formData, i, schema);
    assert EntryErrors(formData[i], schema) == Ok([RequiredMessage(f)]);
  }

  /** The call raises exactly when some entry raises: in particular a key that
      is not in the schema is a `KeyError`, never skipped. */
  lemma {:induction false} ValidateFaultsIff(formData: FormData, schema: seq<Field>)
    ensures Validate(formData, schema).Err? <==>
            exists i :: 0 <= i < |formData| && EntryErrors(formData[i], schema).Err?
    decreases |formData|
  {
    if formData != [] {
      var n := |formData| - 1;
      var front := formData[..n];
      ValidateFaultsIff(front, schema);
      if Validate(front, schema).Err? {
        var i :| 0 <= i < |front| && EntryErrors(front[i], schema).Err?;
        assert formData[i] == front[i];
      }
      if exists i :: 0 <= i < |formData| && EntryErrors(formData[i], schema).Err? {
        var i :| 0 <= i < |formData| && EntryErrors(formData[i], schema).Err?;
        if i < n {
          assert front[i] == formData[i];
        }
      }
    }
  }

  lemma UnknownKeyRaises(formData: FormData, i: nat, schema: seq<Field>)
    requires i < |formData| && Lookup(schema, formData[i].0).None?
    ensures Validate(formData, schema).Err?
  {
    ValidateFaultsIff(formData, schema);
  }

  /** What an entry must satisfy to draw no error, stated declaratively. */
  predicate Acceptable(f: Field, v: Value) {
    (f.required ==> Truthy(v))
    && (f.required && f.kind.MultiSelect? && Truthy(v) ==>
          Len(v).Some? && Len(v).value >= f.kind.minSelections)
    && (Truthy(v) && f.kind.IsText() ==> Len(v).Some? && InBounds(Len(v).value, f.kind))
  }

  predicate EntryAcceptable(entry: (string, Value), schema: seq<Field>) {
    Lookup(schema, entry.0).Some? && Acceptable(Lookup(schema, entry.0).value, entry.1)
  }

  lemma FieldErrorsEmptyIff(f: Field, v: Value)
    ensures FieldErrors(f, v) == Ok([]) <==> Acceptable(f, v)
  {
  }

  /** A form passes (an empty error list) exactly when every entry is in the
      schema and acceptable. */
  lemma {:induction false} ValidateEmptyIff(formData: FormData, schema: seq<Field>)
    ensures Validate(formData, schema) == Ok([]) <==>
            forall i :: 0 <= i < |formData| ==> EntryAcceptable(formData[i], schema)
    decreases |formData|
  {
    if formData != [] {
      var n := |formData| - 1;
      var front := formData[..n];
      ValidateEmptyIff(front, schema);
      var e := formData[n];
      if Lookup(schema, e.0).Some? {
        FieldErrorsEmptyIff(Lookup(schema, e.0).value, e.1);
      }
      if forall i :: 0 <= i < |formData| ==> EntryAcceptable(formData[i], schema) {
        forall i | 0 <= i < |front| ensures EntryAcceptable(front[i], schema) {
          assert front[i] == formData[i];
        }
      }
      if Validate(formData, schema) == Ok([]) {
        forall i | 0 <= i < |formData| ensures EntryAcceptable(formData[i], schema) {
          if i < n {
            assert front[i] == formData[i];
          }
        }
      }
    }
  }

  /** A required multiselect with a non-empty selection below the minimum
      draws its configured message; one at or above it draws nothing. */
  lemma MultiSelectMinimum(f: Field, xs: seq<string>)
    requires f.required && f.kind.MultiSelect? && xs != []
    ensures FieldErrors(f, Choices(xs)) ==
            Ok(if |xs| < f.kind.minSelections then [f.message] else [])
  {
  }

  /** A non-empty text value draws the configured message exactly when its
      length is out of bounds. */
  lemma TextLength(f: Field, s: string)
    requires f.kind.IsText() && s != ""
    ensures FieldErrors(f, Text(s)) == Ok(if InBounds(|s|, f.kind) then [] else [f.message])
  {
  }

  /** A field that is not required and is left empty draws nothing. */
  lemma OptionalEmpty(f: Field, v: Value)
    requires !f.required && !Truthy(v)
    ensures FieldErrors(f, v) == Ok([])
  {
  }

  /** Company Name of length 1 or 101 errs; lengths 2 to 100 do not. */
  lemma CompanyNameBounds(s: string)
    requires s != ""
    ensures FieldErrors(CompanyName, Text(s)) == Ok([]) <==> 2 <= |s| <= 100
    ensures !(2 <= |s| <= 100) ==>
            FieldErrors(CompanyName, Text(s)) == Ok(["Company name must be between 2 and 100 characters."])
  {
  }

  /** Additional Notes may be left empty; up to 500 characters pass and
      longer text draws its message. */
  lemma AdditionalNotesBounds(s: string)
    ensures FieldErrors(AdditionalInfo, Text(s)) ==
            Ok(if |s| <= 500 then [] else ["Additional notes cannot exceed 500 characters."])
  {
  }

  /** With a minimum of one selection, the "at least one product" message can
      never be produced: an empty selection is reported as missing instead. */
  lemma ProductsMessageUnreachable(v: Value)
    requires FieldErrors(ProductsOffered, v).Ok?
    ensures "Please select at least one product." !in FieldErrors(ProductsOffered, v).value
  {
  }

  /** The slider's own minimum, 0, is falsy and so reported as missing. */
  lemma ZeroYearsIsMissing()
    ensures FieldErrors(YearsInBusiness, Number(0)) == Ok(["Years in Business is required."])
  {
    assert RequiredMessage(YearsInBusiness) == "Years in Business is required.";
  }

  /** Empty company name and product list: both reported by their labels. */
  lemma EmptyCompanyAndProducts()
    ensures Validate([("company_name", Text("")), ("products", Choices([]))], Schema) ==
            Ok(["Company Name is required.", "Products Offered is required."])
  {
    var fd := [("company_name", Text("")), ("products", Choices([]))];
    var ess := [["Company Name is required."], ["Products Offered is required."]];
    SchemaEntry(fd[0], 0);
    SchemaEntry(fd[1], 2);
    EmptyCompanyAndProductsFields();
    ValidateInOrder(fd, Schema, ess);
    assert ess[..1][..0] == [];
    assert Flatten(ess[..1]) == ess[0];
    assert Flatten(ess) == ess[0] + ess[1];
    assert ess[0] + ess[1] == ["Company Name is required.", "Products Offered is required."];
  }

  lemma EmptyCompanyAndProductsFields()
    ensures FieldErrors(CompanyName, Text("")) == Ok(["Company Name is required."])
    ensures FieldErrors(ProductsOffered, Choices([])) == Ok(["Products Offered is required."])
  {
    assert RequiredMessage(CompanyName) == "Company Name is required.";
    assert RequiredMessage(ProductsOffered) == "Products Offered is required.";
  }

  /** An entry keyed by a vendor field is checked against that field. */
  lemma SchemaEntry(entry: (string, Value), i: nat)
    requires i < |Schema| && entry.0 == Schema[i].key
    ensures EntryErrors(entry, Schema) == FieldErrors(Schema[i], entry.1)
  {
    SchemaLookup(i);
  }
}

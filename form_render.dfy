/** `render_form` (streamlit_app.py:108-137) and the row built from a
    submitted form (streamlit_app.py:177-184, repeated at 207-214).

    A widget returns whatever the user enters; what the code decides is the
    value each widget starts from. `RenderDefaults` is that starting form:
    the form data submitted when the user changes nothing. */
module Render {
  import opened Wrappers
  import opened FormSchema
  import opened Search
  import opened Multiselect
  import opened Validation

  /** `existing_data.get(field) if existing_data else None`. */
  function Stored(existing: map<string, Value>, key: string): (r: Value)
    ensures existing == map[] ==> r == Missing
    ensures key in existing ==> r == existing[key]
    ensures key !in existing ==> r == Missing
  {
    if key in existing then existing[key] else Missing
  }

  /** `options.index(value) if value in options else 0`. */
  function SelectIndex(options: seq<string>, v: Value): (r: nat)
    ensures options != [] ==> r < |options|
    ensures v.Text? && v.s in options ==>
              options[r] == v.s && forall j :: 0 <= j < r ==> options[j] != v.s
    ensures !(v.Text? && v.s in options) ==> r == 0
  {
    if v.Text? && v.s in options then FirstIndex(options, v.s).value else 0
  }

  /** `value.split(", ") if value else []`; a truthy value that is not a
      `str` has no `split`. */
  function SelectionsDefault(key: string, v: Value): (r: Result<seq<string>, Fault>)
    ensures !Truthy(v) ==> r == Ok([])
    ensures v.Text? && v.s != "" ==> r == Ok(Split(v.s))
    ensures r.Err? <==> Truthy(v) && !v.Text?
  {
    if !Truthy(v) then Ok([])
    else if v.Text? then Ok(Split(v.s))
    else Err(AttributeError(key))
  }

  /** `value or properties["default"]`. */
  function SliderDefault(v: Value, default: int): (r: Value)
    ensures Truthy(v) ==> r == v
    ensures !Truthy(v) ==> r == Number(default)
  {
    if Truthy(v) then v else Number(default)
  }

  /** The starting value of the widget for field `f`, given the stored value
      `v`; `today` stands in for `datetime.today()`. */
  function DefaultValue(f: Field, v: Value, today: string): (r: Result<Value, Fault>)
    ensures f.kind.IsText() ==> r == Ok(if Truthy(v) then v else Text(""))
    ensures f.kind.Select? && f.kind.options == [] ==> r == Ok(Missing)
    ensures f.kind.Select? && f.kind.options != [] ==>
              r == Ok(Text(f.kind.options[SelectIndex(f.kind.options, v)]))
    ensures f.kind.MultiSelect? && SelectionsDefault(f.key, v).Ok? ==>
              r == Ok(Choices(SelectionsDefault(f.key, v).value))
    ensures f.kind.Slider? ==> r == Ok(SliderDefault(v, f.kind.default))
    ensures f.kind.DateInput? && !Truthy(v) ==> r == Ok(Date(today))
    ensures f.kind.DateInput? && v.Text? && v.s != "" ==> r == Ok(Date(v.s))
    ensures r.Err? <==> (f.kind.MultiSelect? || f.kind.DateInput?) && Truthy(v) && !v.Text?
  {
    match f.kind
    case TextInput(_, _) => Ok(if Truthy(v) then v else Text(""))
    case Select(options) =>
      // st.selectbox over no options yields None
      if options == [] then Ok(Missing) else Ok(Text(options[SelectIndex(options, v)]))
    case MultiSelect(_, _) =>
      (match SelectionsDefault(f.key, v)
       case Err(e) => Err(e)
       case Ok(xs) => Ok(Choices(xs)))
    case Slider(_, _, default) => Ok(SliderDefault(v, default))
    case DateInput =>
      // datetime.strptime(value, "%Y-%m-%d") needs a str
      if !Truthy(v) then Ok(Date(today))
      else if v.Text? then Ok(Date(v.s))
      else Err(TypeError(f.key))
    case TextArea(_, _) => Ok(if Truthy(v) then v else Text(""))
  }

  /** The form data `render_form` returns when no widget is changed: one entry
      per schema field, in schema order, or the first exception raised. */
  function RenderDefaults(schema: seq<Field>, existing: map<string, Value>, today: string): (r: Result<FormData, Fault>)
    ensures r.Ok? ==> |r.value| == |schema|
    decreases |schema|
  {
    if schema == [] then Ok([])
    else
      var n := |schema| - 1;
      match RenderDefaults(schema[..n], existing, today)
      case Err(e) => Err(e)
      case Ok(front) =>
        match DefaultValue(schema[n], Stored(existing, schema[n].key), today)
        case Err(e) => Err(e)
        case Ok(v) => Ok(front + [(schema[n].key, v)])
  }

  /** The loop of `render_form`, filling `form_data` field by field. */
  method RenderForm(schema: seq<Field>, existing: map<string, Value>, today: string)
    returns (r: Result<FormData, Fault>)
    ensures r == RenderDefaults(schema, existing, today)
  {
    var formData: FormData := [];
    var i := 0;
    while i < |schema|
      invariant 0 <= i <= |schema|
      invariant RenderDefaults(schema[..i], existing, today) == Ok(formData)
    {
      assert schema[..i + 1][..i] == schema[..i];
      var f := schema[i];
      var value := Stored(existing, f.key);
      var shown := DefaultValue(f, value, today);
      if shown.Err? {
        RenderFaultStops(schema, i, existing, today);
        return Err(shown.error);
      }
      formData := formData + [(f.key, shown.value)];
      i := i + 1;
    }
    assert schema[..i] == schema;
    return Ok(formData);
  }

  /** A raise at field `i` ends `render_form` with that exception. */
  lemma {:induction false} RenderFaultStops(schema: seq<Field>, i: nat, existing: map<string, Value>, today: string)
    requires i < |schema| && RenderDefaults(schema[..i], existing, today).Ok?
    requires DefaultValue(schema[i], Stored(existing, schema[i].key), today).Err?
    ensures RenderDefaults(schema, existing, today) ==
            Err(DefaultValue(schema[i], Stored(existing, schema[i].key), today).error)
    decreases |schema|
  {
    var n := |schema| - 1;
    if i < n {
      assert schema[..n][..i] == schema[..i];
      assert schema[..n][i] == schema[i];
      RenderFaultStops(schema[..n], i, existing, today);
    } else {
      assert schema[..n] == schema[..i];
    }
  }

  /** The rendered form has the schema's keys, in the schema's order, each
      holding its field's starting value. */
  lemma {:induction false} RenderedKeysFollowSchema(schema: seq<Field>, existing: map<string, Value>, today: string)
    requires RenderDefaults(schema, existing, today).Ok?
    ensures forall i :: 0 <= i < |schema| ==>
              RenderDefaults(schema, existing, today).value[i].0 == schema[i].key &&
              DefaultValue(schema[i], Stored(existing, schema[i].key), today) ==
                Ok(RenderDefaults(schema, existing, today).value[i].1)
    decreases |schema|
  {
    if schema != [] {
      var n := |schema| - 1;
      RenderedKeysFollowSchema(schema[..n], existing, today);
      forall i | 0 <= i < n ensures schema[..n][i] == schema[i] { }
    }
  }

  /** The starting value of a blank field never raises in validation, and
      draws an error exactly when the field is required and starts falsy:
      then the error is the label message. */
  lemma FreshEntryValidates(f: Field, today: string)
    requires DefaultValue(f, Missing, today).Ok?
    ensures var start := DefaultValue(f, Missing, today).value;
            FieldErrors(f, start) ==
            Ok(if f.required && !Truthy(start) then [RequiredMessage(f)] else [])
  {
  }

  /** A blank form rendered from any schema with distinct keys validates
      without raising: every key is found and every length is defined. */
  lemma FreshFormNeverRaises(schema: seq<Field>, today: string)
    requires DistinctKeys(schema)
    ensures RenderDefaults(schema, map[], today).Ok?
    ensures Validate(RenderDefaults(schema, map[], today).value, schema).Ok?
  {
    BlankRenders(schema, today);
    var fd := RenderDefaults(schema, map[], today).value;
    RenderedKeysFollowSchema(schema, map[], today);
    forall i | 0 <= i < |fd| ensures EntryErrors(fd[i], schema).Ok? {
      LookupOwnKey(schema, i);
      FreshEntryValidates(schema[i], today);
    }
    ValidateFaultsIff(fd, schema);
  }

  /** Without stored data no field raises while rendering. */
  lemma {:induction false} BlankRenders(schema: seq<Field>, today: string)
    ensures RenderDefaults(schema, map[], today).Ok?
    decreases |schema|
  {
    if schema != [] {
      BlankRenders(schema[..|schema| - 1], today);
    }
  }

  /** The blank vendor form: every field at its starting value. */
  lemma BlankVendorForm(today: string)
    ensures RenderDefaults(Schema, map[], today) ==
            Ok([("company_name", Text("")), ("business_type", Text("Manufacturer")),
                ("products", Choices([])), ("years_in_business", Number(5)),
                ("onboarding_date", Date(today)), ("additional_info", Text(""))])
  {
    BlankRenders(Schema, today);
    var fd := RenderDefaults(Schema, map[], today).value;
    RenderedKeysFollowSchema(Schema, map[], today);
    var expected := [("company_name", Text("")), ("business_type", Text("Manufacturer")),
                     ("products", Choices([])), ("years_in_business", Number(5)),
                     ("onboarding_date", Date(today)), ("additional_info", Text(""))];
    forall i | 0 <= i < 6 ensures fd[i] == expected[i] {
      assert Stored(map[], Schema[i].key) == Missing;
    }
    assert fd == expected;
  }

  /** Submitted blank, the vendor form reports the empty company name and the
      empty product selection, by their labels, and nothing else: business
      type, years and date start valid. */
  lemma BlankVendorFormErrors(today: string)
    ensures RenderDefaults(Schema, map[], today).Ok?
    ensures Validate(RenderDefaults(Schema, map[], today).value, Schema) ==
            Ok(["Company Name is required.", "Products Offered is required."])
  {
    BlankVendorForm(today);
    var fd := RenderDefaults(Schema, map[], today).value;
    RenderedKeysFollowSchema(Schema, map[], today);
    var ess: seq<seq<string>> := [["Company Name is required."], [], ["Products Offered is required."], [], [], []];
    BlankEntryErrors(fd, today, ess);
    ValidateInOrder(fd, Schema, ess);
    FlattenBlankErrors(ess);
  }

  lemma BlankEntryErrors(fd: FormData, today: string, ess: seq<seq<string>>)
    requires |fd| == 6 && forall i :: 0 <= i < 6 ==> fd[i].0 == Schema[i].key
    requires fd[0].1 == Text("") && fd[1].1 == Text("Manufacturer") && fd[2].1 == Choices([])
    requires fd[3].1 == Number(5) && fd[4].1 == Date(today) && fd[5].1 == Text("")
    requires ess == [["Company Name is required."], [], ["Products Offered is required."], [], [], []]
    ensures forall i :: 0 <= i < 6 ==> EntryErrors(fd[i], Schema) == Ok(ess[i])
  {
    forall i | 0 <= i < 6 ensures EntryErrors(fd[i], Schema) == Ok(ess[i]) {
      SchemaLookup(i);
      assert EntryErrors(fd[i], Schema) == FieldErrors(Schema[i], fd[i].1);
      BlankFieldErrorsAt(i, fd[i].1, today, ess);
    }
  }

  lemma BlankFieldErrorsAt(i: nat, v: Value, today: string, ess: seq<seq<string>>)
    requires i < 6
    requires i == 0 ==> v == Text("")
    requires i == 1 ==> v == Text("Manufacturer")
    requires i == 2 ==> v == Choices([])
    requires i == 3 ==> v == Number(5)
    requires i == 4 ==> v == Date(today)
    requires i == 5 ==> v == Text("")
    requires ess == [["Company Name is required."], [], ["Products Offered is required."], [], [], []]
    ensures FieldErrors(Schema[i], v) == Ok(ess[i])
  {
    BlankFieldErrors(today);
  }

  lemma BlankFieldErrors(today: string)
    ensures FieldErrors(CompanyName, Text("")) == Ok(["Company Name is required."])
    ensures FieldErrors(BusinessType, Text("Manufacturer")) == Ok([])
    ensures FieldErrors(ProductsOffered, Choices([])) == Ok(["Products Offered is required."])
    ensures FieldErrors(YearsInBusiness, Number(5)) == Ok([])
    ensures FieldErrors(OnboardingDate, Date(today)) == Ok([])
    ensures FieldErrors(AdditionalInfo, Text("")) == Ok([])
  {
    assert RequiredMessage(CompanyName) == "Company Name is required.";
    assert RequiredMessage(ProductsOffered) == "Products Offered is required.";
  }

  lemma FlattenBlankErrors(ess: seq<seq<string>>)
    requires ess == [["Company Name is required."], [], ["Products Offered is required."], [], [], []]
    ensures Flatten(ess) == ["Company Name is required.", "Products Offered is required."]
  {
    assert ess[..1][..0] == [];
    assert Flatten(ess[..1]) == ess[0];
    assert ess[..2][..1] == ess[..1];
    assert Flatten(ess[..2]) == ess[0];
    assert ess[..3][..2] == ess[..2];
    assert Flatten(ess[..3]) == ess[0] + ess[2];
    assert ess[..4][..3] == ess[..3];
    assert Flatten(ess[..4]) == ess[0] + ess[2];
    assert ess[..5][..4] == ess[..4];
    assert Flatten(ess[..5]) == ess[0] + ess[2];
    assert Flatten(ess) == ess[0] + ess[2];
  }

  /** A stored 0 years in business starts the slider at the schema default 5. */
  lemma StoredZeroYearsShowsDefault(today: string)
    ensures DefaultValue(YearsInBusiness, Number(0), today) == Ok(Number(5))
  {
  }

  /** Products joined for the sheet and split again as the widget default
      give back the same selection, the empty one included. */
  lemma ProductsRoundTrip(xs: seq<string>, today: string)
    requires forall i :: 0 <= i < |xs| ==> xs[i] in Products
    ensures DefaultValue(ProductsOffered, Text(Join(xs)), today) == Ok(Choices(xs))
  {
    forall i | 0 <= i < |xs| ensures NoSeparator(xs[i]) && xs[i] != "" {
      ProductHasNoSeparator(xs[i]);
    }
    if xs != [] {
      JoinEmpty(xs);
      SplitJoin(xs);
    }
  }

  lemma ProductHasNoSeparator(p: string)
    requires p in Products
    ensures NoSeparator(p) && p != ""
  {
    assert p == Products[0] || p == Products[1] || p == Products[2] || p == Products[3] || p == Products[4];
  }

  /** A vendor row: one cell per column, as sent to `append_row`. */
  type Row = seq<Value>

  /** `form_data[key]` over the dictionary's entries. */
  function FormGet(formData: FormData, key: string): (r: Option<Value>)
    ensures r.None? <==> forall i :: 0 <= i < |formData| ==> formData[i].0 != key
    ensures r.Some? ==> exists i :: 0 <= i < |formData| && formData[i] == (key, r.value)
  {
    if formData == [] then None
    else if formData[0].0 == key then Some(formData[0].1)
    else
      var r := FormGet(formData[1..], key);
      assert r.Some? ==> exists i :: 0 <= i < |formData[1..]| && formData[1..][i] == (key, r.value);
      r
  }

  /** `", ".join(v)`: a list of strings is joined; a `str` is joined one
      character at a time; anything else raises `TypeError`. */
  function JoinedCell(key: string, v: Value): (r: Result<Value, Fault>)
    ensures v.Choices? ==> r == Ok(Text(Join(v.items)))
    ensures r.Err? <==> !(v.Choices? || v.Text?)
  {
    match v
    case Choices(xs) => Ok(Text(Join(xs)))
    case Text(s) => Ok(Text(Join(seq(|s|, i requires 0 <= i < |s| => [s[i]]))))
    case _ => Err(TypeError(key))
  }

  /** `v.strftime("%Y-%m-%d")`: only a date has it. */
  function DateCell(key: string, v: Value): (r: Result<Value, Fault>)
    ensures r.Ok? <==> v.Date?
    ensures v.Date? ==> r == Ok(Text(v.iso))
  {
    if v.Date? then Ok(Text(v.iso)) else Err(AttributeError(key))
  }

  /** The cell that column `f` of the row holds for form value `v`, by the
      field's kind. */
  function CellFor(f: Field, v: Value): Result<Value, Fault> {
    if f.kind.MultiSelect? then JoinedCell(f.key, v)
    else if f.kind.DateInput? then DateCell(f.key, v)
    else Ok(v)
  }

  /** How a column is derived from its form entry. */
  datatype Conversion = AsIs | Joined | Formatted

  /** One element of the row literal: `form_data[key]`, converted. */
  function Cell(formData: FormData, key: string, c: Conversion): (r: Result<Value, Fault>)
    ensures FormGet(formData, key).None? ==> r == Err(KeyError(key))
  {
    match FormGet(formData, key)
    case None => Err(KeyError(key))
    case Some(v) =>
      match c
      case AsIs => Ok(v)
      case Joined => JoinedCell(key, v)
      case Formatted => DateCell(key, v)
  }

  /** The elements of a list literal, evaluated left to right: the first
      exception wins. */
  function Collect(cells: seq<Result<Value, Fault>>): (r: Result<Row, Fault>)
    ensures r.Ok? <==> forall i :: 0 <= i < |cells| ==> cells[i].Ok?
    ensures r.Ok? ==> |r.value| == |cells| && forall i :: 0 <= i < |cells| ==> r.value[i] == cells[i].value
  {
    if cells == [] then Ok([])
    else
      match cells[0]
      case Err(e) => Err(e)
      case Ok(v) =>
        match Collect(cells[1..])
        case Err(e) => Err(e)
        case Ok(rest) => Ok([v] + rest)
  }

  /** The six-column row built from the submitted form. */
  function BuildRow(formData: FormData): (r: Result<Row, Fault>)
    ensures r.Ok? ==> |r.value| == 6
  {
    Collect(RowCells(formData))
  }

  /** The row's columns are the schema's fields in schema order, each cell
      converted as its field's kind demands; and the row is built exactly
      when every field is present and converts. */
  lemma RowFollowsSchema(formData: FormData)
    ensures BuildRow(formData).Ok? <==>
            forall i :: 0 <= i < |Schema| ==>
              FormGet(formData, Schema[i].key).Some? && CellFor(Schema[i], FormGet(formData, Schema[i].key).value).Ok?
    ensures BuildRow(formData).Ok? ==>
            forall i :: 0 <= i < |Schema| ==>
              CellFor(Schema[i], FormGet(formData, Schema[i].key).value) == Ok(BuildRow(formData).value[i])
  {
    var cells := RowCells(formData);
    assert BuildRow(formData) == Collect(cells);
    forall i | 0 <= i < 6 ensures cells[i] == ColumnOf(formData, Schema[i]) {
      CellIsColumn(formData, i);
    }
  }

  /** The elements of the row literal. */
  function RowCells(formData: FormData): seq<Result<Value, Fault>> {
    [Cell(formData, "company_name", AsIs),
     Cell(formData, "business_type", AsIs),
     Cell(formData, "products", Joined),
     Cell(formData, "years_in_business", AsIs),
     Cell(formData, "onboarding_date", Formatted),
     Cell(formData, "additional_info", AsIs)]
  }

  lemma CellIsColumn(formData: FormData, i: nat)
    requires i < 6
    ensures RowCells(formData)[i] == ColumnOf(formData, Schema[i])
  {
  }

  /** Column `f` of the row: `form_data[f.key]`, converted by kind. */
  function ColumnOf(formData: FormData, f: Field): Result<Value, Fault> {
    match FormGet(formData, f.key)
    case None => Err(KeyError(f.key))
    case Some(v) => CellFor(f, v)
  }

  /** A vendor form as rendered, with no widget changed, always yields a
      row. */
  lemma RenderedFormBuildsRow(existing: map<string, Value>, today: string)
    requires RenderDefaults(Schema, existing, today).Ok?
    ensures BuildRow(RenderDefaults(Schema, existing, today).value).Ok?
  {
    var fd := RenderDefaults(Schema, existing, today).value;
    RenderedKeysFollowSchema(Schema, existing, today);
    forall i | 0 <= i < 6
      ensures FormGet(fd, Schema[i].key) == Some(fd[i].1)
    {
      assert fd[i].0 == Schema[i].key;
      SchemaKeysDistinct();
      FormGetAt(fd, i);
    }
    RowFollowsSchema(fd);
  }

  /** In entries with distinct keys, entry `i` is what its key finds. */
  lemma {:induction false} FormGetAt(formData: FormData, i: nat)
    requires i < |formData|
    requires forall j :: 0 <= j < i ==> formData[j].0 != formData[i].0
    ensures FormGet(formData, formData[i].0) == Some(formData[i].1)
  {
    if i > 0 {
      assert formData[1..][i - 1] == formData[i];
      FormGetAt(formData[1..], i - 1);
    }
  }
}

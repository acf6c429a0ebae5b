# Vendor portal: form validation, row store and sheet fetch

A Dafny model of the logic of a small vendor-management portal that keeps
its records in a spreadsheet. The model covers three parts:

- **The schema-driven form** (`streamlit_app.py`). A fixed schema of six
  fields drives three things. `validate_form` checks the submitted values.
  `render_form` picks each widget's starting value. The vendor row is built
  from the submitted values.
- **The positional row store.** `add_data`, `update_data` and `delete_data`
  are modelled over a worksheet whose first row is the header.
- **The header/data split of `GoogleSheetsService.fetch_vendors`**
  (`src/services/sheets_service.py`).

Files and modules:

- `wrappers.dfy` (`Wrappers`): `Option` and `Result`. They stand for Python's
  `None` and for a raised exception.
- `search.dfy` (`Search`): first-match search. It is shared by
  `list.index` and by `df[df[col] == x].index[0]`.
- `form_schema.dfy` (`FormSchema`): Python values and their truthiness
  (`None`, `""`, `[]` and `0` are false). Also the field kinds as a tagged
  variant, the exceptions the form code can raise, and the concrete
  `form_schema`.
- `validation.dfy` (`Validation`): `validate_form`. `Validate` is the
  specification function. `ValidateForm` is the loop that appends to
  `errors`, proved equal to `Validate`.
- `multiselect.dfy` (`Multiselect`): `", ".join` and `str.split(", ")`,
  with the split-of-join round trip.
- `form_render.dfy` (`Render`): the default-value expressions of
  `render_form`, the field-by-field loop (`RenderForm`, proved against
  `RenderDefaults`) and the six-column row.
- `vendor_store.dfy` (`VendorStore`): class `Sheet` with a `rows: seq<Row>`
  field. Sheet row `k` is `rows[k - 1]` and data row `i` is sheet row
  `i + 2`. `UpdateData` is `delete_rows(i + 2)` followed by
  `insert_row(row, i + 2)`. Also the Company Name column and the vendor
  lookup.
- `sheets_service.dfy` (`SheetsService`): `fetch_vendors` as a pure function
  of what the API call did.

Inputs that come from outside the code become parameters:

- the values a user types into the widgets;
- today's date (`datetime.today()`);
- the API call's outcome: it raised, or it returned a response with or
  without `values`.

Date parsing and formatting are opaque: a date is carried as its
`YYYY-MM-DD` text.

How the model reads the libraries' behaviour:

- A pandas frame is built from a list of rows with `columns=values[0]`.
  The rows are padded with `None` to the widest row. That width must
  equal the number of columns, or pandas raises `ValueError`, which
  `fetch_vendors` turns into `None`.
- `dropna(how='all')` drops exactly the rows with no present cell. In
  the values API these are the empty rows. The surviving rows keep their
  index labels.

## Behaviour of the code worth noting

- A required field whose value is falsy gets `"<label> is required."`,
  built from the label. Each field's configured `validation.message` is
  used only for the length and minimum-selection checks. So an empty
  company name and an empty product list give
  `["Company Name is required.", "Products Offered is required."]`
  (`Validation.EmptyCompanyAndProducts`). The configured messages do not
  appear.
- With `min_selections` 1, the message `"Please select at least one
  product."` can never be produced, although the schema configures it.
  An empty selection is falsy and is
  reported as missing instead (`Validation.ProductsMessageUnreachable`).
- `validate_form` walks the submitted dictionary, not the schema. A
  submitted key the schema lacks raises `KeyError` rather than being
  ignored (`Validation.UnknownKeyRaises`). A schema field missing from the
  submission is not checked at all.
- The slider's minimum, 0 years in business, is falsy. So it is reported
  as missing (`Validation.ZeroYearsIsMissing`). A stored 0 is also shown
  as the default 5 (`Render.StoredZeroYearsShowsDefault`).
- On any failure `fetch_vendors` returns `None`. It never returns an empty
  sequence instead, and it never lets an exception escape.
- A sheet holding only its header reads as a frame with no columns at all.
  So looking up the Company Name column raises `KeyError`, and the update
  and delete pages fail instead of offering an empty vendor list
  (`VendorStore.Column`).

## Model

| member | source | states |
|---|---|---|
| `Search.FirstIndex` | streamlit_app.py:194 | The first position holding the value, with no earlier match. `None` exactly when the value is absent, where `.index[0]` raises. The same lookup serves line 228. |
| `FormSchema.Len` | streamlit_app.py:146 | `len` is defined exactly for strings and lists. |
| `FormSchema.Lookup` | streamlit_app.py:142 | `schema[field]` returns a field under that key. `None` (`KeyError`) exactly when no field has the key. |
| `FormSchema.LookupOwnKey` | streamlit_app.py:27-85 | When keys are distinct, a field's own key finds that field. |
| `FormSchema.SchemaLookup` | streamlit_app.py:27-85 | Each of the six vendor fields is found under its own key. |
| `Validation.RequiredCheck` | streamlit_app.py:143-147 | An optional field draws nothing. A required falsy value draws exactly the label message. The branch raises (`len` of a non-sized value) exactly for a required, truthy multiselect value that is neither a string nor a list. Any other error is the configured message, for a selection shorter than `min_selections`. |
| `Validation.LengthCheck` | streamlit_app.py:149-153 | Only truthy text and textarea values are measured. The check raises exactly when `len` is undefined. It draws the configured message exactly when the length is out of bounds. |
| `Validation.FieldErrors` | streamlit_app.py:143-153 | One form entry contributes at most one error. |
| `Validation.EntryErrors` | streamlit_app.py:142 | An entry whose key is not in the schema raises `KeyError`. Otherwise it contributes at most one error. |
| `Validation.Validate` | streamlit_app.py:139-155 | The error list is never longer than the number of submitted entries. |
| `Validation.ValidateForm` | streamlit_app.py:139-155 | The loop returns exactly `Validate` of its inputs, so equal inputs give equal results. |
| `Validation.ValidateStep` | streamlit_app.py:141-153 | One more entry appends that entry's errors, or its exception. |
| `Validation.FaultStops` | streamlit_app.py:142-153 | An exception at entry `i`, after clean earlier entries, is the result of the whole call. |
| `Validation.ValidateAppend` | streamlit_app.py:141 | The errors of concatenated entries are the parts' errors concatenated in order. The first exception wins. |
| `Validation.ValidateInOrder` | streamlit_app.py:141-155 | The error list is the entries' own errors, concatenated in the order of the dictionary's keys. |
| `Validation.ValidateAround` | streamlit_app.py:141-155 | The errors are those before entry `i`, then entry `i`'s, then those after it. |
| `Validation.RequiredMissingReported` | streamlit_app.py:143-149 | A required entry with a falsy value (`""`, `[]`, `0`, `None`) contributes exactly `"<label> is required."`, at its own position, and no length error. |
| `Validation.ValidateFaultsIff` | streamlit_app.py:139-153 | The call raises if and only if some entry raises. |
| `Validation.UnknownKeyRaises` | streamlit_app.py:142 | A submitted key that is absent from the schema makes the call raise. It is never skipped. |
| `Validation.FieldErrorsEmptyIff` | streamlit_app.py:143-153 | An entry draws no error if and only if it meets the declarative `Acceptable` predicate. |
| `Validation.ValidateEmptyIff` | streamlit_app.py:139-155 | A form passes if and only if every entry is in the schema and acceptable. |
| `Validation.MultiSelectMinimum` | streamlit_app.py:146-147 | A required non-empty multiselect below `min_selections` draws its configured message. At or above the minimum it draws nothing. |
| `Validation.TextLength` | streamlit_app.py:149-153 | A non-empty text or textarea value draws its message exactly when its length is outside `min_length`..`max_length`. |
| `Validation.OptionalEmpty` | streamlit_app.py:143-149 | A field that is not required and is left empty draws nothing. |
| `Validation.CompanyNameBounds` | streamlit_app.py:28-36 | A non-empty Company Name passes if and only if its length is 2..100. Otherwise it draws the configured message. |
| `Validation.AdditionalNotesBounds` | streamlit_app.py:76-84 | Additional Notes may be empty. Up to 500 characters pass. Longer text draws its message. |
| `Validation.ProductsMessageUnreachable` | streamlit_app.py:47-56 | The products field never produces "Please select at least one product.". |
| `Validation.ZeroYearsIsMissing` | streamlit_app.py:57-67 | 0 years in business gives "Years in Business is required.". |
| `Validation.EmptyCompanyAndProducts` | streamlit_app.py:139-155 | An empty company name and an empty product list give the two label-based messages, in key order. |
| `Multiselect.Join` | streamlit_app.py:180 | No pieces join to `""`, and one piece joins to itself. With more pieces, the join starts with the first piece followed by `", "`. `Multiselect.SplitJoin` is its partner. |
| `Multiselect.Split` | streamlit_app.py:124 | `str.split(", ")` never returns an empty list. |
| `Multiselect.SplitWhole` | streamlit_app.py:124 | A text without `", "` splits to itself. |
| `Multiselect.SplitAfterPiece` | streamlit_app.py:124 | Splitting stops at the first separator after a piece that holds none. |
| `Multiselect.SplitJoin` | streamlit_app.py:124 | Splitting the `", "` join of non-empty, separator-free pieces gives the pieces back. |
| `Multiselect.JoinEmpty` | streamlit_app.py:180 | The join is `""` only for no pieces or one empty piece. |
| `Render.Stored` | streamlit_app.py:114 | Without stored data every field reads `None`. A stored key gives its value, and an absent key gives `None`. |
| `Render.SelectIndex` | streamlit_app.py:120 | The index is within the options. It points at the first occurrence of `value` when `value` is one of them, and is 0 otherwise. |
| `Render.SelectionsDefault` | streamlit_app.py:124 | A falsy value gives `[]` and a string gives its split. Any other truthy value raises, because it has no `split`. |
| `Render.SliderDefault` | streamlit_app.py:130 | A falsy value, including 0, is replaced by the schema default. A truthy value is kept. |
| `Render.DefaultValue` | streamlit_app.py:114-135 | Gives each kind's starting value: the text or `""`, the selected option (`None` when there are no options), the split selections, the slider value or default, and the stored date or today. It raises exactly for a truthy non-string stored value of a multiselect or date field. |
| `Render.RenderDefaults` | streamlit_app.py:108-137 | The rendered form has one entry per schema field. |
| `Render.RenderForm` | streamlit_app.py:108-137 | The loop filling `form_data` returns exactly `RenderDefaults`. |
| `Render.RenderFaultStops` | streamlit_app.py:111-135 | An exception at field `i` ends `render_form` with that exception. |
| `Render.RenderedKeysFollowSchema` | streamlit_app.py:111-135 | The rendered keys are the schema's keys, in schema order, each holding that field's starting value. |
| `Render.FreshEntryValidates` | streamlit_app.py:143-153 | A blank field's starting value never makes validation raise. It draws exactly the label message when the field is required and starts falsy, and nothing otherwise. |
| `Render.BlankRenders` | streamlit_app.py:168 | Rendering without stored data never raises. |
| `Render.FreshFormNeverRaises` | streamlit_app.py:168-172 | For any schema with distinct keys, a blank form renders and validates without raising. |
| `Render.BlankVendorForm` | streamlit_app.py:168 | The blank vendor form, field by field: `""`, "Manufacturer", `[]`, 5, today and `""`. |
| `Render.BlankVendorFormErrors` | streamlit_app.py:168-172 | The blank vendor form reports only the missing company name and the missing products. |
| `Render.StoredZeroYearsShowsDefault` | streamlit_app.py:126-130 | A stored 0 years starts the slider at 5. |
| `Render.ProductsRoundTrip` | streamlit_app.py:122-125 | Any list of products, the empty one included, joined as at line 180 and re-derived by the split-or-`[]` rule, is returned unchanged. |
| `Render.FormGet` | streamlit_app.py:178-183 | `form_data[key]` is `None` (`KeyError`) exactly when no entry has the key. Otherwise it is some entry's value. |
| `Render.JoinedCell` | streamlit_app.py:180 | A list is joined with `", "`. Only lists and strings can be joined. |
| `Render.DateCell` | streamlit_app.py:182 | Only a date has `strftime`. It gives its `YYYY-MM-DD` text. |
| `Render.Cell` | streamlit_app.py:178-183 | A missing key raises `KeyError`. |
| `Render.Collect` | streamlit_app.py:177-184 | The list literal succeeds if and only if every element does. Then it holds those elements in order. |
| `Render.BuildRow` | streamlit_app.py:177-184 | A built row has six cells. |
| `Render.CellIsColumn` | streamlit_app.py:177-184 | Each element of the row literal is the column of the schema field at the same position. |
| `Render.RowFollowsSchema` | streamlit_app.py:177-184 | The row is built if and only if every schema field is present and converts. Column `i` is schema field `i`, converted by its kind. |
| `Render.RenderedFormBuildsRow` | streamlit_app.py:198-214 | A vendor form rendered from the schema always yields a row. |
| `VendorStore.DeleteRowAt` | streamlit_app.py:106 | Deleting sheet row `n` keeps the rows before it and shifts the rows after it up by one. |
| `VendorStore.InsertRowAt` | streamlit_app.py:103 | The inserted row becomes sheet row `n`. Earlier rows stay and later rows move down by one. |
| `VendorStore.DeleteThenInsert` | streamlit_app.py:101-103 | Deleting a row and inserting at the same position replaces that row. |
| `VendorStore.Sheet.DataRows` | streamlit_app.py:102 | Data row `i` is sheet row `i + 2`, after the header. |
| `VendorStore.Sheet.ReadData` | streamlit_app.py:90-96 | The records read are exactly the data rows, in sheet order. |
| `VendorStore.Sheet.AddData` | streamlit_app.py:98-99 | The row is appended after the last data row. The header and the earlier rows are unchanged. |
| `VendorStore.Sheet.UpdateData` | streamlit_app.py:101-103 | For a position below the row count, data row `index` becomes `row`. The header, the count and every other row are unchanged. Other positions fail and change nothing. |
| `VendorStore.Sheet.DeleteData` | streamlit_app.py:105-106 | For a position below the row count, exactly data row `index` is removed and the rest keep their order. Other positions fail and change nothing. |
| `VendorStore.Column` | streamlit_app.py:191 | `df["Company Name"]` of the frame built at lines 91-92 is the cells under the first header cell of that name, `""` for short rows. `None` (`KeyError`) exactly when there are no data rows, so the frame has no columns, or when the header lacks the name. |
| `VendorStore.VendorIndex` | streamlit_app.py:194 | The position of the first data row whose Company Name is the vendor. `None` exactly when there is none. |
| `VendorStore.PickedVendorFound` | streamlit_app.py:190-194 | A vendor picked from the column is always found, at a position where update and delete succeed. |
| `SheetsService.MaxWidth` | src/services/sheets_service.py:37 | The width of the widest row. |
| `SheetsService.Pad` | src/services/sheets_service.py:37 | A short row is filled with missing cells up to the header's width. |
| `SheetsService.ToFrame` | src/services/sheets_service.py:37 | The frame's columns are the header. Record `i` is data row `i`, padded. Construction fails exactly when there are data rows and the widest is not as wide as the header. |
| `SheetsService.PadAllMissing` | src/services/sheets_service.py:37-38 | A padded row has no present cell if and only if the original row is empty. |
| `SheetsService.DropAllMissing` | src/services/sheets_service.py:38 | Only records with a present cell survive, and none is added. |
| `SheetsService.DropKeeps` | src/services/sheets_service.py:38 | Every record with a present cell survives. |
| `SheetsService.DropKeepsOrder` | src/services/sheets_service.py:38 | The surviving records keep their order. |
| `SheetsService.FetchVendors` | src/services/sheets_service.py:21-42 | `None` exactly when the call raised, `values` is empty or absent, or the rows do not fit the header. No exception escapes. On success the columns are `values[0]`. |
| `SheetsService.FetchShape` | src/services/sheets_service.py:33-38 | On success the columns are exactly `values[0]`. The records are data rows `values[1:]`, padded and in their original order, at most `len(values) - 1` of them. |
| `SheetsService.FetchKeepsNonEmptyRows` | src/services/sheets_service.py:37-38 | A data row is kept if and only if it is non-empty. |
| `SheetsService.KeptIff` | src/services/sheets_service.py:38 | In a fresh frame, label `i` survives if and only if record `i` has a present cell. |
| `SheetsService.EmptyRowDropped` | src/services/sheets_service.py:37-38 | The row `["A", "x", "...", "Active"]` followed by an empty row reads as that one record. |

## Left out

- The Streamlit page is not modelled: the title, the action menu, the widget calls themselves, and the success and error display (streamlit_app.py:157-230, apart from the row building and the vendor lookup). `ui_components.py` and `src/app.py` are left out too. This is presentation only. The values a user types are not modelled either: `RenderDefaults` is the form submitted when nothing is changed.
- Authentication and connection setup are left out: `connect_to_gsheet`, the module-level `sheet`, the service-account credentials, `build(...)` and `st.connection`. They are foreign library calls and network I/O.
- `gsheets_service.py` and `gsheets_connector.py` are left out. They are thin wrappers around a library read with a time-to-live cache and `dropna`. The cache belongs to the library.
- The `int64` conversion in `read_data` is left out, and so is `get_all_records`' conversion of numeric text. Both are library details.
- The message `fetch_vendors` prints on an exception is left out. It is output only.
- `float('inf')` as the default `max_length` becomes an absent bound.
- Date parsing by `strptime` is opaque: a malformed stored date, which raises `ValueError` there, is not modelled.
- `st.multiselect` rejects a default that is not among its options. This widget check is not modelled.
- `VendorStore.Sheet.UpdateData`: the sheet holds exactly the header and the data rows. A position past the last data row fails and changes nothing. A real worksheet may instead have spare blank rows that `delete_rows` removes silently.
- `VendorStore.Sheet.UpdateData`: a failure between its delete and its insert is not modelled, because in the model the insert cannot fail. So the risk that a failed update loses the row is not captured.
- Concurrent sessions acting on stale row positions are not modelled. Concurrency lies outside the code.
- A schema entry lacking `label` or `min_selections` would raise `KeyError`. The tagged field kinds always carry these, so the case cannot arise in the model.
- `get_all_records` on a header with duplicate names is not modelled. `VendorStore.Column` takes the first such column.
- `config.py` and `src/config.py` hold only constants. The ones the core needs are inlined.

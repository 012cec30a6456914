# Paradigm table builders

A Dafny model of the paradigm table builders of the Pali inflection
generators. Each builder takes a pattern and a stem. It asks the data host
for the values of the grammatical dimensions (case, gender, number). It
walks their cross product in a fixed nesting order and looks up the
inflected forms of each cell. Then it packages the rows, together with the
"in compounds" forms and, for ordinary declension, one gender-existence flag
per gender, into the view model that a template is rendered from.

There are three variants, one module each:

- `Declension` (`generators/declension.rs`): case × gender × number, gender
  outermost within a row, plus per-gender existence flags and the
  "in compounds" lookup.
- `DeclensionPronX` (`generators/declension_pron_x.rs`): case × number, every
  lookup keyed by the caller's fixed pronoun class. Its "in compounds" list
  is always empty.
- `DeclensionPronDual` (`generators/declension_pron_dual.rs`): one cell per
  case, the lookup under class "dual" and number "sg", plus the
  "in compounds" lookup.

The module `Inflections` holds what they share:

- the host interface (`Host`), a record of total functions: batched value
  queries, per-gender count queries, cell lookups, abbreviations,
  transliteration and the pattern-to-table mapping;
- the datatypes that stand for the SQL text (`Statement`, `GenderCount`,
  `CellKey`);
- `Flatten`, the row-by-row concatenation of a result set;
- `LookupAll`, the innermost loop over the number values.

Every `create_case_view_models` is a method whose loops build the rows as
the source does. It is proved equal to a specification function
(`CaseViewModels`). Lemmas then state that function's properties: the row
count, the row names, the cell count, which lookup each cell holds, the
filters, and error propagation. Every `create_html_body` is a method proved
equal to `HtmlBody`. `HtmlBody` renders the view model given by
`TemplateViewModelFor`, whose contract states each field and the order in
which failures win.

The host's capabilities are uninterpreted. Every property therefore holds
for every possible host answer. Nothing is cached or random, so two builds
against the same host give the same result.

Where the intended behaviour one might expect and the code differ, the model follows the code:

- A cell lookup cannot fail (`get_inflections` returns a plain list). The
  only failures are the value query, the gender count queries, abbreviation
  loading, transliteration and rendering.
- The ordinary declension view model carries the stem as given, not
  transliterated (`declension.rs:49`). Only the two pronoun variants
  transliterate it.
- The classed-pronoun variant makes no "in compounds" lookup. It always
  passes an empty list.
- The classed-pronoun variant reads the number result set only inside the
  loop over the cases. Its precondition therefore asks for a second result
  set only when the first yields at least one case.

## Model

| member | source | states |
|---|---|---|
| `Inflections.FlattenAppend` | pls_core/src/inflections/generators/declension.rs:77-79 | flattening result sets distributes over their concatenation: values keep the host's row order, none sorted or dropped |
| `Inflections.FlattenAt` | pls_core/src/inflections/generators/declension.rs:77-79 | field j of row i lands at index (number of fields in rows before i) + j of the flattened list: the order is exactly the host's |
| `Inflections.FlattenMember` | pls_core/src/inflections/generators/declension_pron_x.rs:75-77 | a value is in the flattened list iff some row of the result set holds it |
| `Inflections.FlattenHonoursFilter` | pls_core/src/inflections/generators/declension.rs:69-73 | if the host honours a statement's `name <> ..` filters, no excluded name appears among that statement's flattened values |
| `Inflections.LookupAll` | pls_core/src/inflections/generators/declension.rs:105-112 | the inner `for n` loop yields one cell per number value, and cell j is the lookup for (case, middle value, number j) |
| `Declension.QueryParameterValues` | pls_core/src/inflections/generators/declension.rs:68-81 | fails iff the value batch fails, with its error unchanged; otherwise the case, gender and number lists are result sets 0, 1 and 2 flattened |
| `Declension.ParameterValuesFiltered` | pls_core/src/inflections/generators/declension.rs:69-79 | if the host honours the filters, no case, gender or number value is "" and no number value is "dual" |
| `Declension.GValuesExist` | pls_core/src/inflections/generators/declension.rs:90-99 | on success there is exactly one flag per gender value |
| `Declension.GValuesExistSucceeds` | pls_core/src/inflections/generators/declension.rs:90-99 | the flags exist iff every gender's count query succeeds, and then flag i is the negation of "no results" for gender i |
| `Declension.GValuesExistFails` | pls_core/src/inflections/generators/declension.rs:91-98 | if count query k is the first to fail, its error is the result, unchanged |
| `Declension.QueryGValuesExist` | pls_core/src/inflections/generators/declension.rs:90-99 | the flag loop returns exactly the specified flags, or the first failing count query's error |
| `Declension.CaseCellsLength` | pls_core/src/inflections/generators/declension.rs:103-113 | a row has (number of gender values) × (number of number values) cells |
| `Declension.CaseCellsAt` | pls_core/src/inflections/generators/declension.rs:104-112 | cell i × N + j of a row, N being the number of number values, is the lookup for (that case, g_values[i], n_values[j]): gender is the outer loop, number the inner |
| `Declension.CreateCaseRows` | pls_core/src/inflections/generators/declension.rs:101-120 | the nested case/gender/number loops build exactly the specified rows |
| `Declension.CreateCaseViewModels` | pls_core/src/inflections/generators/declension.rs:83-123 | the builder returns exactly the specified result: the value batch's error, else the first count query's error, else the rows and flags |
| `Declension.CaseViewModelsShape` | pls_core/src/inflections/generators/declension.rs:101-122 | a built table has one row per case value, in order and named by it, one flag per gender value, one cell per gender and number in each row, and cell i × N + j (N the number of number values) is the lookup for (case, g[i], n[j]) |
| `Declension.CaseViewModelsErrors` | pls_core/src/inflections/generators/declension.rs:88-98 | a failed value batch is returned unchanged; otherwise the build succeeds iff every count query succeeds, and the first failing one's error is returned unchanged |
| `Declension.InCompsKeyIsNotACell` | pls_core/src/inflections/generators/declension.rs:125-136 | if the host honours the filters, the all-empty "in compounds" lookup is not the lookup of any cell in the table |
| `Declension.ExampleRow` | pls_core/src/inflections/generators/declension.rs:103-113 | with genders [m, f] and numbers [sg, pl], one case's row is exactly the four lookups m/sg, m/pl, f/sg, f/pl, in that order |
| `Declension.ExampleTable` | pls_core/src/inflections/generators/declension.rs:88-122 | cases [nom, acc], genders [m, f] and numbers [sg, pl] give two rows of cells m/sg, m/pl, f/sg, f/pl, and flags [true, false] when only "f" has no forms |
| `Declension.TemplateViewModelFor` | pls_core/src/inflections/generators/declension.rs:42-54 | the build error wins, then the abbreviation error. On success the view model holds the pattern, the stem untransliterated, the built rows and flags, the abbreviation map, and the lookup for case "", gender "" and number "" |
| `Declension.HtmlBody` | pls_core/src/inflections/generators/declension.rs:37-60 | a failed value batch is the body's result, unchanged; so is any failure of the view model (count query, then abbreviations, in the order `TemplateViewModelFor` states); a packaged view model is rendered with template "declension" |
| `Declension.CreateHtmlBody` | pls_core/src/inflections/generators/declension.rs:37-60 | the straight-line body returns exactly the specified result |
| `DeclensionPronX.CaseViewModelsShape` | pls_core/src/inflections/generators/declension_pron_x.rs:73-93 | a failed value batch is returned unchanged; otherwise there is one row per case value, in order and named by it, and each row has one cell per number value, the lookup for (case, class `pron_type`, number) |
| `DeclensionPronX.CaseViewModelsFiltered` | pls_core/src/inflections/generators/declension_pron_x.rs:69-72 | if the host honours the filters, no row is named "" or "voc" and no number value is "" or "dual" |
| `DeclensionPronX.CreateCaseViewModels` | pls_core/src/inflections/generators/declension_pron_x.rs:63-94 | the case/number loops return exactly the specified rows, or the value batch's error |
| `DeclensionPronX.TemplateViewModelFor` | pls_core/src/inflections/generators/declension_pron_x.rs:43-55 | the build error wins, then the abbreviation error, then the transliteration error. On success the stem is `transliterate(stem)`, the "in compounds" list is empty, and the rows, class, pattern and abbreviations are carried over |
| `DeclensionPronX.HtmlBody` | pls_core/src/inflections/generators/declension_pron_x.rs:37-61 | a failed value batch is the body's result, unchanged; so is any failure of the view model (abbreviations, then transliteration, in the order `TemplateViewModelFor` states); a packaged view model is rendered with template "declension_pron_x" |
| `DeclensionPronX.CreateHtmlBody` | pls_core/src/inflections/generators/declension_pron_x.rs:37-61 | the straight-line body returns exactly the specified result |
| `DeclensionPronDual.CaseViewModelsShape` | pls_core/src/inflections/generators/declension_pron_dual.rs:63-80 | a failed value query is returned unchanged; otherwise there is one row per case value, in order and named by it, each holding the lookup for (case, class "dual", number "sg") |
| `DeclensionPronDual.CaseViewModelsFiltered` | pls_core/src/inflections/generators/declension_pron_dual.rs:63-66 | if the host honours the filter, no row is named "" or "voc" |
| `DeclensionPronDual.CreateCaseViewModels` | pls_core/src/inflections/generators/declension_pron_dual.rs:57-81 | the case loop returns exactly the specified rows, or the value query's error |
| `DeclensionPronDual.TemplateViewModelFor` | pls_core/src/inflections/generators/declension_pron_dual.rs:39-49 | the build error wins, then the transliteration error. On success the stem is `transliterate(stem)`, the "in compounds" list is the lookup for case "", class "" and number "", and the rows and pattern are carried over |
| `DeclensionPronDual.HtmlBody` | pls_core/src/inflections/generators/declension_pron_dual.rs:33-55 | a failed value query is the body's result, unchanged; so is a failure of the view model (transliteration, after the build); a packaged view model is rendered with template "declension_pron_dual" |
| `DeclensionPronDual.CreateHtmlBody` | pls_core/src/inflections/generators/declension_pron_dual.rs:33-55 | the straight-line body returns exactly the specified result |

## Left out

- Template registration, `lazy_static`, autoescaping and rendering are not modelled. Rendering is a `render` parameter that returns the body or an error. `Context::from_serialize` is folded into it.
- serde serialization is not modelled; view models are plain datatypes.
- SQL text and its string interpolation are not modelled. Queries are the datatypes `Statement`, `GenderCount` and `CellKey`, so quoting and injection are out of reach.
- `get_inflections`, `query_has_no_results`, `get_abbreviations_for_locale`, `get_table_name_from_pattern` and `localise_abbrev` are not part of this model. They are uninterpreted fields of `Host` (`inflections`, `hasNoResults`, `abbreviations`, `tableName`); `localise_abbrev` only runs inside templates.
- Transliteration of individual forms inside a cell lookup is not modelled; it is part of the uninterpreted `inflections`.
- The browser data-access shim (`js_lib/pkg/pali_language_services_dal.js`) is not modelled. It answers a batch with one result set per statement, the first half of `Honours`.
- `Honours`, and so every filter lemma, assumes that each `_*_values` table holds only its `name` column: the SQL filters `name` alone, but `select *` and the flattening collect every column.
- The dual-pronoun source receives `transliterate` and the query object as separate arguments. The model gives all three variants the same `Host` record; this does not change behaviour.
- An out-of-range index into the host's result sets panics in the source. The model states this as a precondition (`AnswersValueQuery`) instead of an error value.
- A gender's existence flag is sometimes described as true iff some cell of that gender is non-empty; this is not proved. The flag comes from a separate count query over the whole table, and the host is uninterpreted, so the source does not guarantee it.
- Declension.GValuesExist: its contract states only the flag count. The meaning of each flag and the error cases are stated by `GValuesExistSucceeds` and `GValuesExistFails`.

/**
 * The dual pronoun table (`generators/declension_pron_dual.rs`): one row per
 * case other than the vocative, each row a single list of forms, the lookup
 * under pronoun class "dual" and number "sg"; plus the "in compounds" forms.
 * There is no inner dimension loop and no abbreviation map.
 */
module DeclensionPronDual {
  import opened Inflections

  /** The template the view model is rendered with. */
  const TemplateName := "declension_pron_dual"

  /** The value query: case names other than "voc". */
  const ValuesBatch: seq<Statement> := [SelectNames("_case_values", ["", "voc"])]

  /** One row of the table: a case and its forms. */
  datatype CaseViewModel = CaseViewModel(name: string, inflections: seq<string>)

  /** What the template is rendered from. */
  datatype TemplateViewModel = TemplateViewModel(
    pattern: string,
    stem: string,
    viewModels: seq<CaseViewModel>,
    inCompsInflections: seq<string>)

  /** The source indexes result set 0 of the answer: a successful answer must hold one. */
  predicate AnswersValueQuery(host: Host) {
    host.exec(ValuesBatch).Success? ==> |host.exec(ValuesBatch).value| >= 1
  }

  /** The one lookup of a row: the case, pronoun class "dual", number "sg". */
  function DualKey(table: string, c: string): CellKey
  {
    CellKey(table, c, PronClass("dual"), "sg")
  }

  /** The rows for the given cases, one lookup each. */
  function CaseRows(host: Host, table: string, stem: string, cases: seq<string>): seq<CaseViewModel>
  {
    seq(|cases|, k requires 0 <= k < |cases| =>
      CaseViewModel(cases[k], host.inflections(stem, DualKey(table, cases[k]))))
  }

  /**
   * The specification of `create_case_view_models`: the value query, then one
   * row per flattened case value.
   */
  function CaseViewModels(table: string, stem: string, host: Host): Result<seq<CaseViewModel>>
    requires AnswersValueQuery(host)
  {
    var values :- host.exec(ValuesBatch);
    Success(CaseRows(host, table, stem, Flatten(values[0])))
  }

  /**
   * A failing value query is the builder's result, unchanged; otherwise one
   * row per case value, in order and named by it, holding the forms under
   * (case, "dual", "sg").
   */
  lemma CaseViewModelsShape(table: string, stem: string, host: Host)
    requires AnswersValueQuery(host)
    ensures host.exec(ValuesBatch).Failure? ==>
      CaseViewModels(table, stem, host) == Failure(host.exec(ValuesBatch).error)
    ensures host.exec(ValuesBatch).Success? ==>
      var cases := Flatten(host.exec(ValuesBatch).value[0]);
      var rows := CaseViewModels(table, stem, host);
      && rows.Success?
      && |rows.value| == |cases|
      && forall k :: 0 <= k < |cases| ==>
           rows.value[k] == CaseViewModel(cases[k], host.inflections(stem, CellKey(table, cases[k], PronClass("dual"), "sg")))
  {
    if host.exec(ValuesBatch).Success? {
      var cases := Flatten(host.exec(ValuesBatch).value[0]);
      forall k | 0 <= k < |cases|
        ensures DualKey(table, cases[k]) == CellKey(table, cases[k], PronClass("dual"), "sg")
      {
      }
    }
  }

  /** When the host honours the query's filter, no row is the placeholder or the vocative. */
  lemma CaseViewModelsFiltered(table: string, stem: string, host: Host)
    requires AnswersValueQuery(host)
    requires host.exec(ValuesBatch).Success? ==> Honours(ValuesBatch, host.exec(ValuesBatch).value)
    ensures CaseViewModels(table, stem, host).Success? ==>
      forall row :: row in CaseViewModels(table, stem, host).value ==>
        row.name != "" && row.name != "voc"
  {
    if host.exec(ValuesBatch).Success? {
      var sets := host.exec(ValuesBatch).value;
      FlattenHonoursFilter(ValuesBatch, sets, 0, "");
      FlattenHonoursFilter(ValuesBatch, sets, 0, "voc");
    }
  }

  /** `create_case_view_models`: the value query, then one lookup per flattened case. */
  method CreateCaseViewModels(table: string, stem: string, host: Host) returns (r: Result<seq<CaseViewModel>>)
    requires AnswersValueQuery(host)
    ensures r == CaseViewModels(table, stem, host)
  {
    var values :- host.exec(ValuesBatch);
    var cases := Flatten(values[0]);
    var viewModels: seq<CaseViewModel> := [];
    for ci := 0 to |cases|
      invariant |viewModels| == ci
      invariant forall k :: 0 <= k < ci ==>
        viewModels[k] == CaseViewModel(cases[k], host.inflections(stem, DualKey(table, cases[k])))
    {
      var inflections := host.inflections(stem, DualKey(table, cases[ci]));
      viewModels := viewModels + [CaseViewModel(cases[ci], inflections)];
    }
    assert viewModels == CaseRows(host, table, stem, cases);
    r := Success(viewModels);
  }

  /** The "in compounds" lookup: case, pronoun class and number all the empty placeholder. */
  function InCompsKey(table: string): CellKey
  {
    CellKey(table, "", PronClass(""), "")
  }

  /**
   * The view model: the rows, the "in compounds" forms and the transliterated
   * stem. The builder's error comes first, then transliteration's.
   */
  function TemplateViewModelFor(pattern: string, stem: string, host: Host): (r: Result<TemplateViewModel>)
    requires AnswersValueQuery(host)
    ensures
      var built := CaseViewModels(host.tableName(pattern), stem, host);
      && (built.Failure? ==> r == Failure(built.error))
      && (built.Success? && host.transliterate(stem).Failure? ==> r == Failure(host.transliterate(stem).error))
      && (r.Success? <==> built.Success? && host.transliterate(stem).Success?)
      && (r.Success? ==>
            && r.value.pattern == pattern
            && host.transliterate(stem) == Success(r.value.stem)
            && built == Success(r.value.viewModels)
            && r.value.inCompsInflections == host.inflections(stem, CellKey(host.tableName(pattern), "", PronClass(""), "")))
  {
    var table := host.tableName(pattern);
    var viewModels :- CaseViewModels(table, stem, host);
    var inComps := host.inflections(stem, InCompsKey(table));
    var displayStem :- host.transliterate(stem);
    Success(TemplateViewModel(pattern, displayStem, viewModels, inComps))
  }

  /**
   * The rendered body: every failure of the view model, in the order
   * `TemplateViewModelFor` states, is the result unchanged; otherwise the view
   * model through the "declension_pron_dual" template.
   */
  function HtmlBody(pattern: string, stem: string, host: Host, render: (string, TemplateViewModel) -> Result<string>): (r: Result<string>)
    requires AnswersValueQuery(host)
    ensures host.exec(ValuesBatch).Failure? ==> r == Failure(host.exec(ValuesBatch).error)
    ensures TemplateViewModelFor(pattern, stem, host).Failure? ==>
      r == Failure(TemplateViewModelFor(pattern, stem, host).error)
    ensures TemplateViewModelFor(pattern, stem, host).Success? ==>
      r == render(TemplateName, TemplateViewModelFor(pattern, stem, host).value)
  {
    var vm :- TemplateViewModelFor(pattern, stem, host);
    render(TemplateName, vm)
  }

  /**
   * `create_html_body`: build the rows, look up the "in compounds" forms,
   * transliterate the stem, then render; the first failure is the result.
   */
  method CreateHtmlBody(pattern: string, stem: string, host: Host, render: (string, TemplateViewModel) -> Result<string>) returns (r: Result<string>)
    requires AnswersValueQuery(host)
    ensures r == HtmlBody(pattern, stem, host, render)
  {
    var table := host.tableName(pattern);
    var viewModels :- CreateCaseViewModels(table, stem, host);
    var inComps := host.inflections(stem, InCompsKey(table));
    var displayStem :- host.transliterate(stem);
    var vm := TemplateViewModel(pattern, displayStem, viewModels, inComps);
    r := render(TemplateName, vm);
  }
}

/**
 * The classed pronoun table (`generators/declension_pron_x.rs`): one row per
 * case other than the vocative, and in each row one cell per number, every
 * lookup keyed by the caller's fixed pronoun class. There is no gender
 * dimension, no gender-existence flag and no "in compounds" lookup.
 */
module DeclensionPronX {
  import opened Inflections

  /** The template the view model is rendered with. */
  const TemplateName := "declension_pron_x"

  /** The value batch: case names other than "voc", number names other than "dual". */
  const ValuesBatch: seq<Statement> := [
    SelectNames("_case_values", ["", "voc"]),
    SelectNames("_number_values", ["", "dual"])
  ]

  /** One row of the table: a case and one cell per number. */
  datatype CaseViewModel = CaseViewModel(name: string, inflectionsList: seq<seq<string>>)

  /** What the template is rendered from. */
  datatype TemplateViewModel = TemplateViewModel(
    pattern: string,
    pronType: string,
    stem: string,
    viewModels: seq<CaseViewModel>,
    inCompsInflections: seq<string>,
    abbrevMap: map<string, string>)

  /**
   * The source indexes result set 0 of the batch's answer at once, and result
   * set 1 only inside the loop over the cases: a successful answer must hold
   * one result set, and a second one whenever the first yields a case.
   */
  predicate AnswersValueQuery(host: Host) {
    host.exec(ValuesBatch).Success? ==>
      var sets := host.exec(ValuesBatch).value;
      |sets| >= 1 && (Flatten(sets[0]) != [] ==> |sets| >= 2)
  }

  /** The rows for the given cases and numbers, every lookup in class `pronType`. */
  function CaseRows(host: Host, pronType: string, table: string, stem: string, cases: seq<string>, numbers: seq<string>): seq<CaseViewModel>
  {
    seq(|cases|, k requires 0 <= k < |cases| =>
      CaseViewModel(cases[k], LookupAll(host, stem, table, cases[k], PronClass(pronType), numbers)))
  }

  /**
   * The specification of `create_case_view_models`: the value batch, then one
   * row per flattened case value. With no case, the number result set is
   * never read.
   */
  function CaseViewModels(pronType: string, table: string, stem: string, host: Host): Result<seq<CaseViewModel>>
    requires AnswersValueQuery(host)
  {
    var values :- host.exec(ValuesBatch);
    var cases := Flatten(values[0]);
    if cases == [] then Success([])
    else Success(CaseRows(host, pronType, table, stem, cases, Flatten(values[1])))
  }

  /**
   * A failing value batch is the builder's result, unchanged; otherwise the
   * builder succeeds with one row per case value, in order and named by it,
   * each holding one cell per number value, the lookup for (case,
   * `pronType`, number).
   */
  lemma CaseViewModelsShape(pronType: string, table: string, stem: string, host: Host)
    requires AnswersValueQuery(host)
    ensures host.exec(ValuesBatch).Failure? ==>
      CaseViewModels(pronType, table, stem, host) == Failure(host.exec(ValuesBatch).error)
    ensures host.exec(ValuesBatch).Success? ==>
      var sets := host.exec(ValuesBatch).value;
      var cases := Flatten(sets[0]);
      var rows := CaseViewModels(pronType, table, stem, host);
      && rows.Success?
      && |rows.value| == |cases|
      && forall k :: 0 <= k < |cases| ==>
           && rows.value[k].name == cases[k]
           && |rows.value[k].inflectionsList| == |Flatten(sets[1])|
           && forall j :: 0 <= j < |Flatten(sets[1])| ==>
                rows.value[k].inflectionsList[j]
                == host.inflections(stem, CellKey(table, cases[k], PronClass(pronType), Flatten(sets[1])[j]))
  {
  }

  /**
   * When the host honours the batch's filters, no row is the placeholder or
   * the vocative, and no number value is the placeholder or "dual".
   */
  lemma CaseViewModelsFiltered(pronType: string, table: string, stem: string, host: Host)
    requires AnswersValueQuery(host)
    requires host.exec(ValuesBatch).Success? ==> Honours(ValuesBatch, host.exec(ValuesBatch).value)
    ensures host.exec(ValuesBatch).Success? ==>
      var numbers := Flatten(host.exec(ValuesBatch).value[1]);
      "" !in numbers && "dual" !in numbers
    ensures CaseViewModels(pronType, table, stem, host).Success? ==>
      forall row :: row in CaseViewModels(pronType, table, stem, host).value ==>
        row.name != "" && row.name != "voc"
  {
    if host.exec(ValuesBatch).Success? {
      var sets := host.exec(ValuesBatch).value;
      FlattenHonoursFilter(ValuesBatch, sets, 0, "");
      FlattenHonoursFilter(ValuesBatch, sets, 0, "voc");
      FlattenHonoursFilter(ValuesBatch, sets, 1, "");
      FlattenHonoursFilter(ValuesBatch, sets, 1, "dual");
    }
  }

  /**
   * `create_case_view_models`: the value batch, then nested loops over the
   * flattened cases and, inside each, the flattened numbers.
   */
  method CreateCaseViewModels(pronType: string, table: string, stem: string, host: Host) returns (r: Result<seq<CaseViewModel>>)
    requires AnswersValueQuery(host)
    ensures r == CaseViewModels(pronType, table, stem, host)
  {
    var values :- host.exec(ValuesBatch);
    var cases := Flatten(values[0]);
    var viewModels: seq<CaseViewModel> := [];
    for ci := 0 to |cases|
      invariant |viewModels| == ci
      invariant forall k :: 0 <= k < ci ==>
        viewModels[k] == CaseViewModel(cases[k], LookupAll(host, stem, table, cases[k], PronClass(pronType), Flatten(values[1])))
    {
      var numbers := Flatten(values[1]);
      var inflectionsList: seq<seq<string>> := [];
      for ni := 0 to |numbers|
        invariant inflectionsList == LookupAll(host, stem, table, cases[ci], PronClass(pronType), numbers[..ni])
      {
        assert numbers[..ni + 1][..ni] == numbers[..ni];
        inflectionsList := inflectionsList + [host.inflections(stem, CellKey(table, cases[ci], PronClass(pronType), numbers[ni]))];
      }
      assert numbers[..|numbers|] == numbers;
      viewModels := viewModels + [CaseViewModel(cases[ci], inflectionsList)];
    }
    if cases != [] {
      assert viewModels == CaseRows(host, pronType, table, stem, cases, Flatten(values[1]));
    }
    r := Success(viewModels);
  }

  /**
   * The view model: the rows, an always-empty "in compounds" list, the
   * locale's abbreviations and the transliterated stem. The builder's error
   * comes first, then the abbreviation map's, then transliteration's.
   */
  function TemplateViewModelFor(pronType: string, pattern: string, stem: string, host: Host): (r: Result<TemplateViewModel>)
    requires AnswersValueQuery(host)
    ensures
      var built := CaseViewModels(pronType, host.tableName(pattern), stem, host);
      && (built.Failure? ==> r == Failure(built.error))
      && (built.Success? && host.abbreviations.Failure? ==> r == Failure(host.abbreviations.error))
      && (built.Success? && host.abbreviations.Success? && host.transliterate(stem).Failure? ==>
            r == Failure(host.transliterate(stem).error))
      && (r.Success? <==> built.Success? && host.abbreviations.Success? && host.transliterate(stem).Success?)
      && (r.Success? ==>
            && r.value.pattern == pattern
            && r.value.pronType == pronType
            && host.transliterate(stem) == Success(r.value.stem)
            && built == Success(r.value.viewModels)
            && r.value.inCompsInflections == []
            && r.value.abbrevMap == host.abbreviations.value)
  {
    var table := host.tableName(pattern);
    var viewModels :- CaseViewModels(pronType, table, stem, host);
    var abbrevMap :- host.abbreviations;
    var displayStem :- host.transliterate(stem);
    Success(TemplateViewModel(pattern, pronType, displayStem, viewModels, [], abbrevMap))
  }

  /**
   * The rendered body: every failure of the view model, in the order
   * `TemplateViewModelFor` states, is the result unchanged; otherwise the view
   * model through the "declension_pron_x" template.
   */
  function HtmlBody(pronType: string, pattern: string, stem: string, host: Host, render: (string, TemplateViewModel) -> Result<string>): (r: Result<string>)
    requires AnswersValueQuery(host)
    ensures host.exec(ValuesBatch).Failure? ==> r == Failure(host.exec(ValuesBatch).error)
    ensures TemplateViewModelFor(pronType, pattern, stem, host).Failure? ==>
      r == Failure(TemplateViewModelFor(pronType, pattern, stem, host).error)
    ensures TemplateViewModelFor(pronType, pattern, stem, host).Success? ==>
      r == render(TemplateName, TemplateViewModelFor(pronType, pattern, stem, host).value)
  {
    var vm :- TemplateViewModelFor(pronType, pattern, stem, host);
    render(TemplateName, vm)
  }

  /**
   * `create_html_body`: build the rows, load the abbreviations, transliterate
   * the stem, then render; the first failure is the result.
   */
  method CreateHtmlBody(pronType: string, pattern: string, stem: string, host: Host, render: (string, TemplateViewModel) -> Result<string>) returns (r: Result<string>)
    requires AnswersValueQuery(host)
    ensures r == HtmlBody(pronType, pattern, stem, host, render)
  {
    var table := host.tableName(pattern);
    var viewModels :- CreateCaseViewModels(pronType, table, stem, host);
    var inCompsInflections: seq<string> := [];
    var abbrevMap :- host.abbreviations;
    var displayStem :- host.transliterate(stem);
    var vm := TemplateViewModel(pattern, pronType, displayStem, viewModels, inCompsInflections, abbrevMap);
    r := render(TemplateName, vm);
  }
}

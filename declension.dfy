/**
 * The ordinary declension table (`generators/declension.rs`): one row per
 * case, and in each row one cell per gender and number, gender outermost.
 * Beside the rows it reports, per gender, whether the pattern's table holds
 * any form of that gender, and it adds the "in compounds" forms.
 */
module Declension {
  import opened Inflections

  /** The template the view model is rendered with. */
  const TemplateName := "declension"

  /** The value batch: case names, gender names, and number names other than "dual". */
  const ValuesBatch: seq<Statement> := [
    SelectNames("_case_values", [""]),
    SelectNames("_gender_values", [""]),
    SelectNames("_number_values", ["", "dual"])
  ]

  datatype ParameterValues = ParameterValues(cValues: seq<string>, gValues: seq<string>, nValues: seq<string>)

  /** One row of the table: a case and its cells, each cell a list of forms. */
  datatype CaseViewModel = CaseViewModel(name: string, inflectionsList: seq<seq<string>>)

  /** What the template is rendered from. */
  datatype TemplateViewModel = TemplateViewModel(
    pattern: string,
    stem: string,
    gValuesExist: seq<bool>,
    viewModels: seq<CaseViewModel>,
    inCompsInflections: seq<string>,
    abbrevMap: map<string, string>)

  /**
   * The source indexes result sets 0, 1 and 2 of the batch's answer without a
   * check, so a successful answer must hold at least three of them.
   */
  predicate AnswersValueQuery(host: Host) {
    host.exec(ValuesBatch).Success? ==> |host.exec(ValuesBatch).value| >= 3
  }

  /**
   * The dimension values: result sets 0, 1 and 2 flattened in order. A failure
   * of the batch is returned as it is.
   */
  function QueryParameterValues(host: Host): (r: Result<ParameterValues>)
    requires AnswersValueQuery(host)
    ensures r.Failure? <==> host.exec(ValuesBatch).Failure?
    ensures r.Failure? ==> r.error == host.exec(ValuesBatch).error
    ensures r.Success? ==>
      var sets := host.exec(ValuesBatch).value;
      r.value == ParameterValues(Flatten(sets[0]), Flatten(sets[1]), Flatten(sets[2]))
  {
    var values :- host.exec(ValuesBatch);
    Success(ParameterValues(Flatten(values[0]), Flatten(values[1]), Flatten(values[2])))
  }

  /**
   * When the host honours the batch's filters, no dimension value is the
   * empty placeholder and no number value is "dual".
   */
  lemma ParameterValuesFiltered(host: Host)
    requires AnswersValueQuery(host)
    requires host.exec(ValuesBatch).Success? ==> Honours(ValuesBatch, host.exec(ValuesBatch).value)
    ensures QueryParameterValues(host).Success? ==>
      var pvs := QueryParameterValues(host).value;
      "" !in pvs.cValues && "" !in pvs.gValues && "" !in pvs.nValues && "dual" !in pvs.nValues
  {
    if host.exec(ValuesBatch).Success? {
      var sets := host.exec(ValuesBatch).value;
      FlattenHonoursFilter(ValuesBatch, sets, 0, "");
      FlattenHonoursFilter(ValuesBatch, sets, 1, "");
      FlattenHonoursFilter(ValuesBatch, sets, 2, "");
      FlattenHonoursFilter(ValuesBatch, sets, 2, "dual");
    }
  }

  /**
   * The gender-existence flags: for each gender in order, the negation of the
   * host's "no results" answer to that gender's count query; the first failing
   * count query's error otherwise.
   */
  function GValuesExist(host: Host, table: string, gs: seq<string>): (r: Result<seq<bool>>)
    ensures r.Success? ==> |r.value| == |gs|
  {
    if gs == [] then Success([])
    else
      var noResults :- host.hasNoResults(GenderCount(table, gs[0]));
      var rest :- GValuesExist(host, table, gs[1..]);
      Success([!noResults] + rest)
  }

  /** The flags are produced iff every count query succeeds, and then flag i is "gender i has forms". */
  lemma {:induction false} GValuesExistSucceeds(host: Host, table: string, gs: seq<string>)
    ensures GValuesExist(host, table, gs).Success? <==>
      forall i :: 0 <= i < |gs| ==> host.hasNoResults(GenderCount(table, gs[i])).Success?
    ensures GValuesExist(host, table, gs).Success? ==>
      forall i :: 0 <= i < |gs| ==>
        GValuesExist(host, table, gs).value[i] == !host.hasNoResults(GenderCount(table, gs[i])).value
  {
    if gs != [] {
      GValuesExistSucceeds(host, table, gs[1..]);
      assert forall i :: 1 <= i < |gs| ==> gs[i] == gs[1..][i - 1];
    }
  }

  /** The first failing count query decides the error. */
  lemma {:induction false} GValuesExistFails(host: Host, table: string, gs: seq<string>, k: nat)
    requires k < |gs|
    requires forall i :: 0 <= i < k ==> host.hasNoResults(GenderCount(table, gs[i])).Success?
    requires host.hasNoResults(GenderCount(table, gs[k])).Failure?
    ensures GValuesExist(host, table, gs) == Failure(host.hasNoResults(GenderCount(table, gs[k])).error)
  {
    if k > 0 {
      assert forall i :: 0 <= i < k - 1 ==> gs[1..][i] == gs[i + 1];
      GValuesExistFails(host, table, gs[1..], k - 1);
    }
  }

  /**
   * The cells of one case row: for each gender (outer) and each number
   * (inner), the forms stored under (case, gender, number).
   */
  function CaseCells(host: Host, stem: string, table: string, c: string, gs: seq<string>, ns: seq<string>): seq<seq<string>>
  {
    if gs == [] then []
    else CaseCells(host, stem, table, c, gs[..|gs| - 1], ns)
         + LookupAll(host, stem, table, c, Gender(gs[|gs| - 1]), ns)
  }

  /** A row has one cell per gender and number. */
  lemma {:induction false} CaseCellsLength(host: Host, stem: string, table: string, c: string, gs: seq<string>, ns: seq<string>)
    ensures |CaseCells(host, stem, table, c, gs, ns)| == |gs| * |ns|
  {
    if gs != [] {
      CaseCellsLength(host, stem, table, c, gs[..|gs| - 1], ns);
      assert (|gs| - 1) * |ns| + |ns| == |gs| * |ns|;
    }
  }

  /** Cell `i * |ns| + j` of a row is the lookup for gender i and number j. */
  lemma {:induction false} CaseCellsAt(host: Host, stem: string, table: string, c: string, gs: seq<string>, ns: seq<string>, i: nat, j: nat)
    requires i < |gs| && j < |ns|
    ensures i * |ns| + j < |CaseCells(host, stem, table, c, gs, ns)|
    ensures CaseCells(host, stem, table, c, gs, ns)[i * |ns| + j]
            == host.inflections(stem, CellKey(table, c, Gender(gs[i]), ns[j]))
  {
    var last := |gs| - 1;
    var prefix := gs[..last];
    CaseCellsLength(host, stem, table, c, gs, ns);
    CaseCellsLength(host, stem, table, c, prefix, ns);
    if i < last {
      CaseCellsAt(host, stem, table, c, prefix, ns, i, j);
      assert prefix[i] == gs[i];
    } else {
      assert i * |ns| + j == last * |ns| + j;
    }
  }

  /** The rows: one per case value, in order, named by it. */
  function CaseRows(host: Host, stem: string, table: string, pvs: ParameterValues): seq<CaseViewModel>
  {
    seq(|pvs.cValues|, i requires 0 <= i < |pvs.cValues| =>
      CaseViewModel(pvs.cValues[i], CaseCells(host, stem, table, pvs.cValues[i], pvs.gValues, pvs.nValues)))
  }

  /**
   * The specification of `create_case_view_models`: the value batch, then the
   * gender-existence flags, then the rows; the first failure is the result.
   */
  function CaseViewModels(host: Host, table: string, stem: string): Result<(seq<CaseViewModel>, seq<bool>)>
    requires AnswersValueQuery(host)
  {
    var pvs :- QueryParameterValues(host);
    var flags :- GValuesExist(host, table, pvs.gValues);
    Success((CaseRows(host, stem, table, pvs), flags))
  }

  /**
   * The shape of a built table: one row per case value in order, named by
   * it; |g_values| * |n_values| cells per row, gender outermost; one flag
   * per gender value.
   */
  lemma CaseViewModelsShape(host: Host, table: string, stem: string, k: nat, i: nat, j: nat)
    requires AnswersValueQuery(host)
    requires CaseViewModels(host, table, stem).Success?
    ensures QueryParameterValues(host).Success?
    ensures
      var pvs := QueryParameterValues(host).value;
      var rows := CaseViewModels(host, table, stem).value.0;
      var flags := CaseViewModels(host, table, stem).value.1;
      && |rows| == |pvs.cValues|
      && |flags| == |pvs.gValues|
      && (k < |rows| ==>
            && rows[k].name == pvs.cValues[k]
            && |rows[k].inflectionsList| == |pvs.gValues| * |pvs.nValues|
            && (i < |pvs.gValues| && j < |pvs.nValues| ==>
                  && i * |pvs.nValues| + j < |rows[k].inflectionsList|
                  && rows[k].inflectionsList[i * |pvs.nValues| + j]
                     == host.inflections(stem, CellKey(table, pvs.cValues[k], Gender(pvs.gValues[i]), pvs.nValues[j]))))
  {
    var pvs := QueryParameterValues(host).value;
    if k < |pvs.cValues| {
      CaseCellsLength(host, stem, table, pvs.cValues[k], pvs.gValues, pvs.nValues);
    }
    if k < |pvs.cValues| && i < |pvs.gValues| && j < |pvs.nValues| {
      CaseCellsAt(host, stem, table, pvs.cValues[k], pvs.gValues, pvs.nValues, i, j);
    }
  }

  /**
   * The builder fails iff the value batch fails or some gender's count query
   * fails; the batch's error, or else the first failing count query's error,
   * is returned unchanged.
   */
  lemma CaseViewModelsErrors(host: Host, table: string, stem: string)
    requires AnswersValueQuery(host)
    ensures host.exec(ValuesBatch).Failure? ==>
      CaseViewModels(host, table, stem) == Failure(host.exec(ValuesBatch).error)
    ensures host.exec(ValuesBatch).Success? ==>
      var gs := QueryParameterValues(host).value.gValues;
      && (CaseViewModels(host, table, stem).Success? <==>
            forall i :: 0 <= i < |gs| ==> host.hasNoResults(GenderCount(table, gs[i])).Success?)
      && (forall k :: (0 <= k < |gs| && host.hasNoResults(GenderCount(table, gs[k])).Failure?
                        && forall i :: 0 <= i < k ==> host.hasNoResults(GenderCount(table, gs[i])).Success?) ==>
            CaseViewModels(host, table, stem) == Failure(host.hasNoResults(GenderCount(table, gs[k])).error))
  {
    if host.exec(ValuesBatch).Success? {
      var gs := QueryParameterValues(host).value.gValues;
      GValuesExistSucceeds(host, table, gs);
      forall k | 0 <= k < |gs| && host.hasNoResults(GenderCount(table, gs[k])).Failure?
        && (forall i :: 0 <= i < k ==> host.hasNoResults(GenderCount(table, gs[i])).Success?)
        ensures CaseViewModels(host, table, stem) == Failure(host.hasNoResults(GenderCount(table, gs[k])).error)
      {
        GValuesExistFails(host, table, gs, k);
      }
    }
  }

  /**
   * The first loop of `create_case_view_models`: one count query per gender,
   * in order, stopping at the first failure.
   */
  method QueryGValuesExist(table: string, gs: seq<string>, host: Host) returns (r: Result<seq<bool>>)
    ensures r == GValuesExist(host, table, gs)
  {
    var gValuesExist: seq<bool> := [];
    for gi := 0 to |gs|
      invariant |gValuesExist| == gi
      invariant forall i :: 0 <= i < gi ==>
        host.hasNoResults(GenderCount(table, gs[i])).Success?
        && gValuesExist[i] == !host.hasNoResults(GenderCount(table, gs[i])).value
    {
      var noResults := host.hasNoResults(GenderCount(table, gs[gi]));
      if noResults.Failure? {
        GValuesExistFails(host, table, gs, gi);
        return Failure(noResults.error);
      }
      gValuesExist := gValuesExist + [!noResults.value];
    }
    GValuesExistSucceeds(host, table, gs);
    assert GValuesExist(host, table, gs).value == gValuesExist;
    r := Success(gValuesExist);
  }

  /**
   * The nested loops of `create_case_view_models`: for each case a row, and
   * in it a cell for each gender and, inside that, each number.
   */
  method CreateCaseRows(table: string, stem: string, host: Host, pvs: ParameterValues) returns (viewModels: seq<CaseViewModel>)
    ensures viewModels == CaseRows(host, stem, table, pvs)
  {
    var gs, ns := pvs.gValues, pvs.nValues;
    viewModels := [];
    for ci := 0 to |pvs.cValues|
      invariant |viewModels| == ci
      invariant forall k :: 0 <= k < ci ==>
        viewModels[k] == CaseViewModel(pvs.cValues[k], CaseCells(host, stem, table, pvs.cValues[k], gs, ns))
    {
      var c := pvs.cValues[ci];
      var inflectionsList: seq<seq<string>> := [];
      for gi := 0 to |gs|
        invariant inflectionsList == CaseCells(host, stem, table, c, gs[..gi], ns)
      {
        for ni := 0 to |ns|
          invariant inflectionsList == CaseCells(host, stem, table, c, gs[..gi], ns)
                                       + LookupAll(host, stem, table, c, Gender(gs[gi]), ns[..ni])
        {
          assert ns[..ni + 1][..ni] == ns[..ni];
          inflectionsList := inflectionsList + [host.inflections(stem, CellKey(table, c, Gender(gs[gi]), ns[ni]))];
        }
        assert ns[..|ns|] == ns;
        assert gs[..gi + 1][..gi] == gs[..gi];
      }
      assert gs[..|gs|] == gs;
      viewModels := viewModels + [CaseViewModel(c, inflectionsList)];
    }
  }

  /**
   * `create_case_view_models`: the value batch, the gender flags, then the
   * rows; the first failure is the result.
   */
  method CreateCaseViewModels(table: string, stem: string, host: Host) returns (r: Result<(seq<CaseViewModel>, seq<bool>)>)
    requires AnswersValueQuery(host)
    ensures r == CaseViewModels(host, table, stem)
  {
    var pvs :- QueryParameterValues(host);
    var gValuesExist :- QueryGValuesExist(table, pvs.gValues, host);
    var viewModels := CreateCaseRows(table, stem, host, pvs);
    r := Success((viewModels, gValuesExist));
  }

  /** The "in compounds" lookup: case, gender and number all the empty placeholder. */
  function InCompsKey(table: string): CellKey
  {
    CellKey(table, "", Gender(""), "")
  }

  /**
   * When the host honours the batch's filters, the "in compounds" lookup is
   * none of the table's cells: no case value is the placeholder.
   */
  lemma InCompsKeyIsNotACell(host: Host, table: string, c: string, g: string, n: string)
    requires AnswersValueQuery(host)
    requires host.exec(ValuesBatch).Success? ==> Honours(ValuesBatch, host.exec(ValuesBatch).value)
    requires QueryParameterValues(host).Success? && c in QueryParameterValues(host).value.cValues
    ensures CellKey(table, c, Gender(g), n) != InCompsKey(table)
  {
    ParameterValuesFiltered(host);
  }

  /**
   * The view model: the table and flags, the locale's abbreviations, the
   * "in compounds" forms, and the stem as given (this variant does not
   * transliterate it). The builder's error comes first, then the
   * abbreviation map's.
   */
  function TemplateViewModelFor(pattern: string, stem: string, host: Host): (r: Result<TemplateViewModel>)
    requires AnswersValueQuery(host)
    ensures
      var built := CaseViewModels(host, host.tableName(pattern), stem);
      && (built.Failure? ==> r == Failure(built.error))
      && (built.Success? && host.abbreviations.Failure? ==> r == Failure(host.abbreviations.error))
      && (r.Success? <==> built.Success? && host.abbreviations.Success?)
      && (r.Success? ==>
            && r.value.pattern == pattern
            && r.value.stem == stem
            && built.value == (r.value.viewModels, r.value.gValuesExist)
            && r.value.abbrevMap == host.abbreviations.value
            && r.value.inCompsInflections == host.inflections(stem, CellKey(host.tableName(pattern), "", Gender(""), "")))
  {
    var table := host.tableName(pattern);
    var built :- CaseViewModels(host, table, stem);
    var abbrevMap :- host.abbreviations;
    var inComps := host.inflections(stem, InCompsKey(table));
    Success(TemplateViewModel(pattern, stem, built.1, built.0, inComps, abbrevMap))
  }

  /**
   * The rendered body: every failure of the view model, in the order
   * `TemplateViewModelFor` states, is the result unchanged; otherwise the view
   * model through the "declension" template.
   */
  function HtmlBody(pattern: string, stem: string, host: Host, render: (string, TemplateViewModel) -> Result<string>): (r: Result<string>)
    requires AnswersValueQuery(host)
    ensures host.exec(ValuesBatch).Failure? ==> r == Failure(host.exec(ValuesBatch).error)
    ensures TemplateViewModelFor(pattern, stem, host).Failure? ==>
      r == Failure(TemplateViewModelFor(pattern, stem, host).error)
    ensures TemplateViewModelFor(pattern, stem, host).Success? ==>
      r == render(TemplateName, TemplateViewModelFor(pattern, stem, host).value)
  {
    var vm :- TemplateViewModelFor(pattern, stem, host);
    render(TemplateName, vm)
  }

  /** One row of the worked example below: genders [m, f] outside, numbers [sg, pl] inside. */
  lemma ExampleRow(host: Host, table: string, stem: string, c: string)
    ensures CaseCells(host, stem, table, c, ["m", "f"], ["sg", "pl"]) == [
      host.inflections(stem, CellKey(table, c, Gender("m"), "sg")), host.inflections(stem, CellKey(table, c, Gender("m"), "pl")),
      host.inflections(stem, CellKey(table, c, Gender("f"), "sg")), host.inflections(stem, CellKey(table, c, Gender("f"), "pl"))]
  {
    var gs, ns := ["m", "f"], ["sg", "pl"];
    CaseCellsLength(host, stem, table, c, gs, ns);
    CaseCellsAt(host, stem, table, c, gs, ns, 0, 0);
    CaseCellsAt(host, stem, table, c, gs, ns, 0, 1);
    CaseCellsAt(host, stem, table, c, gs, ns, 1, 0);
    CaseCellsAt(host, stem, table, c, gs, ns, 1, 1);
  }

  /**
   * A worked example: cases [nom, acc], genders [m, f] and numbers [sg, pl]
   * (the two numbers as fields of one row) give two rows of four cells each,
   * in the order m/sg, m/pl, f/sg, f/pl, and the flags [true, false] when
   * only the feminine count query finds nothing.
   */
  lemma ExampleTable(host: Host, table: string, stem: string)
    requires host.exec(ValuesBatch) == Success([[["nom"], ["acc"]], [["m"], ["f"]], [["sg", "pl"]]])
    requires host.hasNoResults(GenderCount(table, "m")) == Success(false)
    requires host.hasNoResults(GenderCount(table, "f")) == Success(true)
    ensures AnswersValueQuery(host)
    ensures CaseViewModels(host, table, stem) == Success(([
        CaseViewModel("nom", CaseCells(host, stem, table, "nom", ["m", "f"], ["sg", "pl"])),
        CaseViewModel("acc", CaseCells(host, stem, table, "acc", ["m", "f"], ["sg", "pl"]))
      ], [true, false]))
    ensures CaseViewModels(host, table, stem).value.0[1].inflectionsList == [
      host.inflections(stem, CellKey(table, "acc", Gender("m"), "sg")), host.inflections(stem, CellKey(table, "acc", Gender("m"), "pl")),
      host.inflections(stem, CellKey(table, "acc", Gender("f"), "sg")), host.inflections(stem, CellKey(table, "acc", Gender("f"), "pl"))]
  {
    var sets := host.exec(ValuesBatch).value;
    assert Flatten(sets[0]) == ["nom", "acc"] by {
      assert sets[0][1..] == [["acc"]];
    }
    assert Flatten(sets[1]) == ["m", "f"] by {
      assert sets[1][1..] == [["f"]];
    }
    assert Flatten(sets[2]) == ["sg", "pl"];
    var pvs := ParameterValues(["nom", "acc"], ["m", "f"], ["sg", "pl"]);
    assert QueryParameterValues(host) == Success(pvs);
    GValuesExistSucceeds(host, table, pvs.gValues);
    assert GValuesExist(host, table, pvs.gValues).value == [true, false];
    var rows := CaseRows(host, stem, table, pvs);
    assert |rows| == 2;
    assert rows[0] == CaseViewModel("nom", CaseCells(host, stem, table, "nom", pvs.gValues, pvs.nValues));
    assert rows[1] == CaseViewModel("acc", CaseCells(host, stem, table, "acc", pvs.gValues, pvs.nValues));
    assert rows == [rows[0], rows[1]];
    assert CaseViewModels(host, table, stem) == Success((rows, [true, false]));
    ExampleRow(host, table, stem, "acc");
  }

  /**
   * `create_html_body`: build the table, load the abbreviations, look up the
   * "in compounds" forms, then render; the first failure is the result.
   */
  method CreateHtmlBody(pattern: string, stem: string, host: Host, render: (string, TemplateViewModel) -> Result<string>) returns (r: Result<string>)
    requires AnswersValueQuery(host)
    ensures r == HtmlBody(pattern, stem, host, render)
  {
    var table := host.tableName(pattern);
    var built :- CreateCaseViewModels(table, stem, host);
    var abbrevMap :- host.abbreviations;
    var inComps := host.inflections(stem, InCompsKey(table));
    var vm := TemplateViewModel(pattern, stem, built.1, built.0, inComps, abbrevMap);
    r := render(TemplateName, vm);
  }
}

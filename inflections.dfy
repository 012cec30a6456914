/**
 * The interface the paradigm table builders use: the data host (batched
 * value queries, per-gender count queries, cell lookups, the locale's
 * abbreviations, transliteration) and the result sets it answers with.
 * The host's own logic is not part of this model: every capability is an
 * uninterpreted total function, so every property proved here holds for
 * whatever the host returns.
 */
module Inflections {

  /** The source's `Result<T, String>`: every failure is an opaque message. */
  datatype Result<+T> = Success(value: T) | Failure(error: string) {
    predicate IsFailure() {
      Failure?
    }

    function PropagateFailure<U>(): Result<U>
      requires Failure?
    {
      Failure(error)
    }

    function Extract(): T
      requires Success?
    {
      value
    }
  }

  /** One result set: an ordered list of rows, each an ordered list of fields. */
  type ResultSet = seq<seq<string>>

  /**
   * One statement of a value batch: `select * from <table> where name <> e1
   * and name <> e2 ...`, i.e. every name of a dimension table except the
   * excluded ones.
   */
  datatype Statement = SelectNames(table: string, excluded: seq<string>)

  /** The per-gender count query `select count(*) from <table> where gender = <gender>`. */
  datatype GenderCount = GenderCount(table: string, gender: string)

  /**
   * The middle column of a cell lookup: ordinary declension tables are keyed
   * by gender, pronoun tables by `special_pron_class`.
   */
  datatype Middle = Gender(gender: string) | PronClass(pronClass: string)

  /** The lookup `SELECT inflections FROM <table> WHERE "case" = .. AND <middle> = .. AND "number" = ..`. */
  datatype CellKey = CellKey(table: string, caseName: string, middle: Middle, number: string)

  /**
   * The capabilities the builders call.
   * - exec: runs a batch and answers with one result set per statement, or fails;
   * - hasNoResults: whether a count query found nothing, or a failure;
   * - inflections: the forms stored under a cell for a stem (cannot fail);
   * - abbreviations: the locale's abbreviation map, or a failure;
   * - transliterate: text into the display script, or a failure;
   * - tableName: the table that backs a pattern.
   */
  datatype Host = Host(
    exec: seq<Statement> -> Result<seq<ResultSet>>,
    hasNoResults: GenderCount -> Result<bool>,
    inflections: (string, CellKey) -> seq<string>,
    abbreviations: Result<map<string, string>>,
    transliterate: string -> Result<string>,
    tableName: string -> string)

  /**
   * The values of one result set, row after row, field after field: the
   * source's `iter().flatten()` over the rows. Nothing is sorted or dropped.
   */
  function Flatten(rs: ResultSet): seq<string>
  {
    if rs == [] then [] else rs[0] + Flatten(rs[1..])
  }

  /** Flattening distributes over concatenation of result sets. */
  lemma {:induction false} FlattenAppend(a: ResultSet, b: ResultSet)
    ensures Flatten(a + b) == Flatten(a) + Flatten(b)
  {
    if a == [] {
      assert a + b == b;
    } else {
      assert (a + b)[1..] == a[1..] + b;
      FlattenAppend(a[1..], b);
    }
  }

  /**
   * Order is kept exactly: field `j` of row `i` sits right after all the
   * fields of the rows before it.
   */
  lemma FlattenAt(rs: ResultSet, i: nat, j: nat)
    requires i < |rs| && j < |rs[i]|
    ensures |Flatten(rs[..i])| + j < |Flatten(rs)|
    ensures Flatten(rs)[|Flatten(rs[..i])| + j] == rs[i][j]
  {
    assert rs == rs[..i] + ([rs[i]] + rs[i + 1..]);
    FlattenAppend(rs[..i], [rs[i]] + rs[i + 1..]);
    FlattenAppend([rs[i]], rs[i + 1..]);
  }

  /** A value is in the flattened list iff some row holds it. */
  lemma {:induction false} FlattenMember(rs: ResultSet, x: string)
    ensures x in Flatten(rs) <==> exists i :: 0 <= i < |rs| && x in rs[i]
  {
    if rs != [] {
      FlattenMember(rs[1..], x);
      if x in Flatten(rs[1..]) {
        var i :| 0 <= i < |rs[1..]| && x in rs[1..][i];
        assert x in rs[i + 1];
      }
      if exists i :: 0 <= i < |rs| && x in rs[i] {
        var i :| 0 <= i < |rs| && x in rs[i];
        if i > 0 {
          assert x in rs[1..][i - 1];
        }
      }
    }
  }

  /**
   * The host answers a batch faithfully: one result set per statement, and
   * no field of a statement's result set is one of that statement's
   * excluded names. The SQL filters only the `name` column while `select *`
   * returns every column and the builders flatten them all, so this holds
   * only if each `_*_values` table has the `name` column alone; that is an
   * assumption about the data, not something the source checks.
   */
  ghost predicate Honours(batch: seq<Statement>, sets: seq<ResultSet>) {
    && |sets| == |batch|
    && forall i, row :: 0 <= i < |batch| && row in sets[i] ==>
         forall x :: x in row ==> x !in batch[i].excluded
  }

  /** What an honoured filter buys: the flattened values omit the excluded names. */
  lemma FlattenHonoursFilter(batch: seq<Statement>, sets: seq<ResultSet>, i: nat, x: string)
    requires Honours(batch, sets) && i < |batch|
    requires x in batch[i].excluded
    ensures x !in Flatten(sets[i])
  {
    forall k | 0 <= k < |sets[i]|
      ensures x !in sets[i][k]
    {
      assert sets[i][k] in sets[i];
    }
    FlattenMember(sets[i], x);
  }

  /**
   * The lookups for one case and one middle value across a list of number
   * values, in that list's order: the body of an innermost `for n` loop.
   */
  function LookupAll(host: Host, stem: string, table: string, caseName: string, middle: Middle, ns: seq<string>): (r: seq<seq<string>>)
    ensures |r| == |ns|
    ensures forall j :: 0 <= j < |ns| ==> r[j] == host.inflections(stem, CellKey(table, caseName, middle, ns[j]))
  {
    if ns == [] then []
    else LookupAll(host, stem, table, caseName, middle, ns[..|ns| - 1])
         + [host.inflections(stem, CellKey(table, caseName, middle, ns[|ns| - 1]))]
  }
}

/**
 * The flat where-lists of the chained builders (seal/db/_base_chained_query.py,
 * seal/db/_base_chained_update.py, seal/db/base_chained_query.py and
 * seal/db/base_chained_update.py): `(column, value, operator)` triples joined by `and`,
 * seeded with the not-deleted predicate, plus the positional row mapping of their fetchers.
 */
module WhereLists {
  import opened Wrappers
  import opened Errors
  import opened Text
  import opened Values
  import opened Conditions
  import opened OrderedMaps
  import opened Lists
  import SqlBuilder

  /** `[(logic_delete_col if logic_delete_col is not None else 'deleted', 0, '=')]` */
  function Seed(logicDeleteCol: Option<string>): (w: seq<Condition>)
    ensures |w| == 1 && w[0] == Condition(logicDeleteCol.GetOr("deleted"), Int(0), "=")
  {
    [Condition(logicDeleteCol.GetOr("deleted"), Int(0), "=")]
  }

  /** `f'{cond[0]} {cond[2]} {placeholder}'` for each triple. */
  function Rendered(w: seq<Condition>, placeholder: string): (r: seq<string>)
    ensures |r| == |w|
    ensures forall i | 0 <= i < |w| :: r[i] == w[i].field + " " + w[i].operator + " " + placeholder
  {
    seq(|w|, i requires 0 <= i < |w| => w[i].field + " " + w[i].operator + " " + placeholder)
  }

  /** `build_where`: empty for no triples, else `where ` and the triples joined by ` and `. */
  function BuildWhere(w: seq<Condition>, placeholder: string): (s: string)
    ensures s == "" <==> |w| == 0
    ensures |w| > 0 ==> StartsWith(s, "where ")
  {
    if |w| == 0 then ""
    else
      var s := "where " + Join(Rendered(w, placeholder), " and ");
      assert s[..6] == "where ";
      s
  }

  /** `build_args`: the values, in the same order as the rendered triples. */
  function BuildArgs(w: seq<Condition>): (a: seq<Value>)
    ensures |a| == |w| && forall i | 0 <= i < |w| :: a[i] == w[i].value
  {
    seq(|w|, i requires 0 <= i < |w| => w[i].value)
  }

  /**
   * A builder's where-list starts with the seed, so its WHERE text is never empty, begins
   * with the not-deleted predicate, and its first argument is 0.
   */
  lemma SeededWhere(logicDeleteCol: Option<string>, more: seq<Condition>, placeholder: string)
    ensures var w := Seed(logicDeleteCol) + more;
            && BuildWhere(w, placeholder) != ""
            && StartsWith(BuildWhere(w, placeholder), "where " + logicDeleteCol.GetOr("deleted") + " = " + placeholder)
            && BuildArgs(w)[0] == Int(0)
  {
    var w := Seed(logicDeleteCol) + more;
    var first := logicDeleteCol.GetOr("deleted") + " = " + placeholder;
    var joined := Join(Rendered(w, placeholder), " and ");
    assert Rendered(w, placeholder)[0] == first;
    JoinStartsWithFirst(Rendered(w, placeholder), " and ");
    assert BuildWhere(w, placeholder) == "where " + joined;
    StartsWithPrepend("where ", joined, first);
  }

  /** No `?` in any column or operator text. */
  predicate NoMarks(w: seq<Condition>)
  {
    forall i | 0 <= i < |w| :: Occurrences(w[i].field, '?') == 0 && Occurrences(w[i].operator, '?') == 0
  }

  /** With `?` as the placeholder, the WHERE text has one `?` per argument. */
  lemma WherePlaceholders(w: seq<Condition>)
    requires NoMarks(w)
    ensures Occurrences(BuildWhere(w, "?"), '?') == |BuildArgs(w)|
  {
    if |w| > 0 {
      RenderedMarks(w);
      NoOccurrence(" and ", '?');
      JoinOccurrences(Rendered(w, "?"), " and ", '?');
      NoOccurrence("where ", '?');
      OccurrencesAppend("where ", Join(Rendered(w, "?"), " and "), '?');
    }
  }

  lemma {:induction false} RenderedMarks(w: seq<Condition>)
    requires NoMarks(w)
    ensures TotalOccurrences(Rendered(w, "?"), '?') == |w|
  {
    if |w| > 0 {
      var c := w[0];
      RenderedMarks(w[1..]);
      assert Rendered(w, "?")[1..] == Rendered(w[1..], "?");
      NoOccurrence(" ", '?');
      assert " ?"[1..] == "?" && "?"[1..] == "";
      OccurrencesAppend(c.field, " ", '?');
      OccurrencesAppend(c.field + " ", c.operator, '?');
      OccurrencesAppend(c.field + " " + c.operator, " ", '?');
      OccurrencesAppend(c.field + " " + c.operator + " ", "?", '?');
    }
  }

  /** A fetched row: a tuple of column values, or a dict from a dict cursor. */
  datatype Row = TupleRow(values: seq<Value>) | DictRow(fields: Pairs<string, Value>)

  /** What a fetcher hands back for one row: the keyword mapping itself, or the model built from it. */
  datatype Fetched<B> = AsDict(fields: Pairs<string, Value>) | AsObject(obj: B)

  /**
   * A row's keyword mapping as a fetcher returns it: the mapping itself when a dict is
   * wanted, else `clz(**mapping)`, the model class applied to it.
   */
  function Materialise<B>(m: Pairs<string, Value>, toDict: bool, clz: Pairs<string, Value> -> B): (f: Fetched<B>)
    ensures f.AsDict? <==> toDict
    ensures f.AsDict? ==> f.fields == m
    ensures f.AsObject? ==> f.obj == clz(m)
  {
    if toDict then AsDict(m) else AsObject(clz(m))
  }

  /**
   * `{col: row[i] for i, col in enumerate(names)}`: each name paired with the value at its
   * position; a row shorter than the names raises, extra row values are ignored, and a
   * repeated name keeps its first position with its last value.
   */
  function Mapping(names: seq<string>, row: seq<Value>): (r: Result<Pairs<string, Value>, Error>)
    ensures r.Ok? <==> |row| >= |names|
    ensures r.Err? ==> r.error == RowTooShort
    ensures r.Ok? ==> DistinctKeys(r.value) && forall k :: k in Keys(r.value) <==> k in names
  {
    if |row| < |names| then Err(RowTooShort)
    else
      ZipKeys(names, row[..|names|]);
      Ok(Zip(names, row[..|names|]))
  }

  /** The dict comprehension, one insertion at a time. */
  function Zip(names: seq<string>, values: seq<Value>): Pairs<string, Value>
    requires |values| == |names|
    decreases |names|
  {
    if |names| == 0 then []
    else Put(Zip(names[..|names| - 1], values[..|values| - 1]), names[|names| - 1], values[|values| - 1])
  }

  /** The comprehension's keys are distinct and are exactly the names. */
  lemma ZipKeys(names: seq<string>, values: seq<Value>)
    requires |values| == |names|
    ensures DistinctKeys(Zip(names, values)) && forall k :: k in Keys(Zip(names, values)) <==> k in names
  {
    ZipDistinct(names, values);
    forall k
      ensures k in Keys(Zip(names, values)) <==> k in names
    {
      ZipHas(names, values, k);
    }
  }

  lemma {:induction false} ZipDistinct(names: seq<string>, values: seq<Value>)
    requires |values| == |names|
    ensures DistinctKeys(Zip(names, values))
    decreases |names|
  {
    if |names| > 0 {
      ZipDistinct(names[..|names| - 1], values[..|names| - 1]);
      ZipDistinctStep(names, values);
    }
  }

  /** One insertion keeps the keys distinct. */
  lemma ZipDistinctStep(names: seq<string>, values: seq<Value>)
    requires |values| == |names| > 0
    requires DistinctKeys(Zip(names[..|names| - 1], values[..|names| - 1]))
    ensures DistinctKeys(Zip(names, values))
  {
    var n := |names| - 1;
    var m := Zip(names[..n], values[..n]);
    PutGet(m, names[n], values[n], names[n]);
    assert Zip(names, values) == Put(m, names[n], values[n]);
  }

  lemma {:induction false} ZipHas(names: seq<string>, values: seq<Value>, k: string)
    requires |values| == |names|
    ensures k in Keys(Zip(names, values)) <==> k in names
    decreases |names|
  {
    if |names| > 0 {
      ZipHas(names[..|names| - 1], values[..|names| - 1], k);
      ZipHasStep(names, values, k);
    }
  }

  /** One insertion adds exactly its name to the keys. */
  lemma ZipHasStep(names: seq<string>, values: seq<Value>, k: string)
    requires |values| == |names| > 0
    requires k in Keys(Zip(names[..|names| - 1], values[..|names| - 1])) <==> k in names[..|names| - 1]
    ensures k in Keys(Zip(names, values)) <==> k in names
  {
    var n := |names| - 1;
    var m := Zip(names[..n], values[..n]);
    assert Zip(names, values) == Put(m, names[n], values[n]);
    PutKeys(m, names[n], values[n], k);
    InLast(names, k);
  }

  /** Membership in a non-empty sequence splits into its front and its last element. */
  lemma InLast(names: seq<string>, k: string)
    requires |names| > 0
    ensures k in names <==> k in names[..|names| - 1] || k == names[|names| - 1]
  {
    assert names == names[..|names| - 1] + [names[|names| - 1]];
  }

  /** With distinct names, the value under each name is the one at its position. */
  lemma {:induction false} ZipGet(names: seq<string>, values: seq<Value>, i: nat)
    requires |values| == |names| && i < |names|
    requires forall a, b | 0 <= a < b < |names| :: names[a] != names[b]
    ensures Get(Zip(names, values), names[i]) == Some(values[i])
    decreases |names|
  {
    var n := |names| - 1;
    ZipDistinct(names[..n], values[..n]);
    if i < n {
      DistinctPrefix(names, n);
      ZipGet(names[..n], values[..n], i);
    }
    ZipGetStep(names, values, i);
  }

  /** A prefix of distinct names is distinct. */
  lemma DistinctPrefix(names: seq<string>, n: nat)
    requires n <= |names|
    requires forall a, b | 0 <= a < b < |names| :: names[a] != names[b]
    ensures forall a, b | 0 <= a < b < n :: names[..n][a] != names[..n][b]
  {
  }

  /** The last insertion decides the last name and leaves the earlier, different names alone. */
  lemma ZipGetStep(names: seq<string>, values: seq<Value>, i: nat)
    requires |values| == |names| && i < |names|
    requires forall a, b | 0 <= a < b < |names| :: names[a] != names[b]
    requires DistinctKeys(Zip(names[..|names| - 1], values[..|names| - 1]))
    requires i < |names| - 1 ==> Get(Zip(names[..|names| - 1], values[..|names| - 1]), names[i]) == Some(values[i])
    ensures Get(Zip(names, values), names[i]) == Some(values[i])
  {
    var n := |names| - 1;
    var m := Zip(names[..n], values[..n]);
    PutGet(m, names[n], values[n], names[i]);
    assert Zip(names, values) == Put(m, names[n], values[n]);
    if i < n {
      assert names[i] != names[n];
    }
  }

  /** `f'{col} = {placeholder}'` for each column. */
  function Assignments(cols: seq<string>, placeholder: string): (r: seq<string>)
    ensures |r| == |cols| && forall i | 0 <= i < |cols| :: r[i] == cols[i] + " = " + placeholder
  {
    seq(|cols|, i requires 0 <= i < |cols| => cols[i] + " = " + placeholder)
  }

  /** The columns an entity statement writes: `columns(exclude=["id"])`. */
  function NonIdColumns(modelColumns: seq<string>): (r: seq<string>)
    ensures "id" !in r && Subsequence(r, modelColumns)
    ensures forall c :: c in r <==> c in modelColumns && c != "id"
  {
    Without(modelColumns, ["id"])
  }

  /** `update_statement`'s stamping of the sets: `update_by` only for a user id that is not None, `update_at` always. */
  function StampedSets(sets: Pairs<string, Value>, uid: Value, now: Value): Pairs<string, Value>
  {
    Put(if uid != Null then Put(sets, "update_by", uid) else sets, "update_at", now)
  }

  /**
   * `update_statement` of both chained update builders: the sets (after stamping) and the
   * where-list, or the first of the two guards that fails. The new sets come back with it.
   */
  function UpdateStatement(table: string, sets: Pairs<string, Value>, w: seq<Condition>, placeholder: string, uid: Value, now: Value)
    : (r: Result<(SqlBuilder.Statement, Pairs<string, Value>), Error>)
    ensures |sets| == 0 ==> r == Err(UpdateSetRequired)
    ensures |sets| > 0 && |w| == 0 ==> r == Err(ConditionsRequired)
    ensures |sets| > 0 && |w| > 0 ==> r.Ok? && r.value.1 == StampedSets(sets, uid, now)
    ensures r.Ok? ==> r.value.0.args == OrderedMaps.Values(r.value.1) + BuildArgs(w)
    ensures r.Ok? ==> r.value.0.sql == "UPDATE " + table + " SET " + Join(Assignments(Keys(r.value.1), placeholder), ", ") + " " + BuildWhere(w, placeholder)
  {
    if |sets| == 0 then Err(UpdateSetRequired)
    else if BuildWhere(w, placeholder) == "" then Err(ConditionsRequired)
    else
      var stamped := StampedSets(sets, uid, now);
      Ok((SqlBuilder.Statement("UPDATE " + table + " SET " + Join(Assignments(Keys(stamped), placeholder), ", ") + " " + BuildWhere(w, placeholder),
                               OrderedMaps.Values(stamped) + BuildArgs(w)), stamped))
  }

  /**
   * What stamping does to the sets: earlier keys keep their order and, apart from the two
   * stamp columns, their values; `update_at` holds the time; `update_by` holds the user id
   * when there is one and is left alone otherwise.
   */
  lemma Stamping(sets: Pairs<string, Value>, uid: Value, now: Value, k: string)
    requires DistinctKeys(sets)
    ensures var r := StampedSets(sets, uid, now);
            && DistinctKeys(r)
            && Keys(r)[..|sets|] == Keys(sets)
            && Get(r, "update_at") == Some(now)
            && (uid != Null ==> Get(r, "update_by") == Some(uid))
            && (uid == Null ==> Get(r, "update_by") == Get(sets, "update_by"))
            && (k != "update_at" && k != "update_by" ==> Get(r, k) == Get(sets, k))
  {
    var m := if uid != Null then Put(sets, "update_by", uid) else sets;
    assert "update_at"[7] != "update_by"[7];
    StampByUser(sets, uid, k);
    StampByUser(sets, uid, "update_by");
    StampByUser(sets, uid, "update_at");
    PutGet(m, "update_at", now, k);
    PutGet(m, "update_at", now, "update_at");
    PutGet(m, "update_at", now, "update_by");
    StampedKeys(sets, uid, now);
  }

  /** Stamping keeps the keys distinct. */
  lemma StampedDistinct(sets: Pairs<string, Value>, uid: Value, now: Value)
    requires DistinctKeys(sets)
    ensures DistinctKeys(StampedSets(sets, uid, now))
  {
    Stamping(sets, uid, now, "");
  }

  lemma StampedKeys(sets: Pairs<string, Value>, uid: Value, now: Value)
    ensures Keys(StampedSets(sets, uid, now))[..|sets|] == Keys(sets)
  {
    var m := if uid != Null then Put(sets, "update_by", uid) else sets;
    if uid != Null {
      PutKeysPrefix(sets, "update_by", uid);
    }
    PutKeysPrefix(m, "update_at", now);
    var km, kr := Keys(m), Keys(Put(m, "update_at", now));
    assert kr[..|sets|] == kr[..|m|][..|sets|];
  }

  lemma StampByUser(sets: Pairs<string, Value>, uid: Value, k: string)
    requires DistinctKeys(sets)
    ensures var m := if uid != Null then Put(sets, "update_by", uid) else sets;
            && DistinctKeys(m)
            && Get(m, k) == if uid != Null && k == "update_by" then Some(uid) else Get(sets, k)
  {
    if uid != Null {
      PutGet(sets, "update_by", uid, k);
    }
  }

  lemma PutKeysPrefix(m: Pairs<string, Value>, k: string, v: Value)
    ensures |Put(m, k, v)| >= |m| && Keys(Put(m, k, v))[..|m|] == Keys(m)
  {
    var r := Put(m, k, v);
    assert |Keys(r)| >= |Keys(m)|;
  }

  /** The INSERT text of the chained update builders, with the upsert tail as intended. */
  function InsertText(table: string, cols: seq<string>, placeholder: string, ignore: bool, dupUpdate: bool): string
  {
    SqlBuilder.InsertHead(ignore) + table + ValuesText(cols, placeholder) + UpsertText(cols, placeholder, dupUpdate)
  }

  /** ` (a, b) VALUES (p, p)` */
  function ValuesText(cols: seq<string>, placeholder: string): string
  {
    " (" + Join(cols, ", ") + ") VALUES (" + Join(Repeat(placeholder, |cols|), ", ") + ")"
  }

  /** ` ON DUPLICATE KEY UPDATE a = p, b = p` under upsert, nothing otherwise. */
  function UpsertText(cols: seq<string>, placeholder: string, dupUpdate: bool): string
  {
    if dupUpdate then " ON DUPLICATE KEY UPDATE " + Join(Assignments(cols, placeholder), ", ") else ""
  }

  /** With `?` as the placeholder, the INSERT text has one `?` per argument of the record. */
  lemma InsertTextPlaceholders(table: string, cols: seq<string>, ignore: bool, dupUpdate: bool)
    requires Occurrences(table, '?') == 0 && TotalOccurrences(cols, '?') == 0
    ensures Occurrences(InsertText(table, cols, "?", ignore, dupUpdate), '?') == if dupUpdate then 2 * |cols| else |cols|
  {
    var head := SqlBuilder.InsertHead(ignore);
    var mid := ValuesText(cols, "?");
    var tail := UpsertText(cols, "?", dupUpdate);
    SqlBuilder.InsertHeadMarks(ignore);
    ValuesTextMarks(cols);
    UpsertTextMarks(cols, dupUpdate);
    OccurrencesAppend(head, table, '?');
    OccurrencesAppend(head + table, mid, '?');
    OccurrencesAppend(head + table + mid, tail, '?');
  }

  /** The INSERT text over a model's non-id columns: one `?` per column, twice that under upsert. */
  lemma InsertTextMarks(table: string, modelColumns: seq<string>, ignore: bool, dupUpdate: bool)
    ensures Occurrences(table, '?') == 0 && (forall c | c in modelColumns :: Occurrences(c, '?') == 0) ==>
      var n := |NonIdColumns(modelColumns)|;
      Occurrences(InsertText(table, NonIdColumns(modelColumns), "?", ignore, dupUpdate), '?') == if dupUpdate then 2 * n else n
  {
    if Occurrences(table, '?') == 0 && (forall c | c in modelColumns :: Occurrences(c, '?') == 0) {
      NoneInParts(NonIdColumns(modelColumns), '?');
      InsertTextPlaceholders(table, NonIdColumns(modelColumns), ignore, dupUpdate);
    }
  }

  lemma ValuesTextMarks(cols: seq<string>)
    requires TotalOccurrences(cols, '?') == 0
    ensures Occurrences(ValuesText(cols, "?"), '?') == |cols|
  {
    SqlBuilder.OpenParenFree(); SqlBuilder.ValuesWordFree(); SqlBuilder.CloseParenFree(); SqlBuilder.MarkCounts();
    CommaFree();
    var names := Join(cols, ", ");
    var phs := Join(Repeat("?", |cols|), ", ");
    JoinOccurrences(cols, ", ", '?');
    JoinOccurrences(Repeat("?", |cols|), ", ", '?');
    RepeatOccurrences("?", |cols|, '?');
    OccurrencesAppend(" (", names, '?');
    OccurrencesAppend(" (" + names, ") VALUES (", '?');
    OccurrencesAppend(" (" + names + ") VALUES (", phs, '?');
    OccurrencesAppend(" (" + names + ") VALUES (" + phs, ")", '?');
  }

  lemma UpsertTextMarks(cols: seq<string>, dupUpdate: bool)
    requires TotalOccurrences(cols, '?') == 0
    ensures Occurrences(UpsertText(cols, "?", dupUpdate), '?') == if dupUpdate then |cols| else 0
  {
    if dupUpdate {
      var sets := Join(Assignments(cols, "?"), ", ");
      AssignmentListMarks(cols);
      SqlBuilder.UpsertWordFree();
      OccurrencesAppend(" ON DUPLICATE KEY UPDATE ", sets, '?');
    }
  }

  /** `a = ?, b = ?` has one `?` per column. */
  lemma AssignmentListMarks(cols: seq<string>)
    requires TotalOccurrences(cols, '?') == 0
    ensures Occurrences(Join(Assignments(cols, "?"), ", "), '?') == |cols|
  {
    AssignmentMarks(cols);
    CommaFree();
    JoinOccurrences(Assignments(cols, "?"), ", ", '?');
  }

  lemma {:induction false} AssignmentMarks(cols: seq<string>)
    requires TotalOccurrences(cols, '?') == 0
    ensures TotalOccurrences(Assignments(cols, "?"), '?') == |cols|
  {
    if |cols| > 0 {
      AssignmentMarks(cols[1..]);
      assert Assignments(cols, "?")[1..] == Assignments(cols[1..], "?");
      EqualsFree();
      SqlBuilder.MarkCounts();
      OccurrencesAppend(cols[0], " = ", '?');
      OccurrencesAppend(cols[0] + " = ", "?", '?');
    }
  }

  lemma CommaFree()
    ensures Occurrences(", ", '?') == 0
  {
    NoOccurrence(", ", '?');
  }

  lemma EqualsFree()
    ensures Occurrences(" = ", '?') == 0
  {
    NoOccurrence(" = ", '?');
  }

  /**
   * With `?` as the placeholder and no `?` in the names, the UPDATE text of the chained
   * builders has exactly one `?` per argument.
   */
  lemma UpdatePlaceholders(table: string, sets: Pairs<string, Value>, w: seq<Condition>, uid: Value, now: Value)
    requires Occurrences(table, '?') == 0 && NoMarks(w)
    requires TotalOccurrences(Keys(sets), '?') == 0
    requires UpdateStatement(table, sets, w, "?", uid, now).Ok?
    ensures var st := UpdateStatement(table, sets, w, "?", uid, now).value.0;
            Occurrences(st.sql, '?') == |st.args|
  {
    var stamped := StampedSets(sets, uid, now);
    StampedKeysMarks(sets, uid, now);
    var head := "UPDATE " + table + " SET ";
    var list := Join(Assignments(Keys(stamped), "?"), ", ");
    AssignmentListMarks(Keys(stamped));
    WherePlaceholders(w);
    UpdateWordsFree();
    OccurrencesAppend("UPDATE ", table, '?');
    OccurrencesAppend("UPDATE " + table, " SET ", '?');
    OccurrencesAppend(head, list, '?');
    OccurrencesAppend(head + list, " ", '?');
    OccurrencesAppend(head + list + " ", BuildWhere(w, "?"), '?');
    assert |OrderedMaps.Values(stamped)| == |Keys(stamped)|;
  }

  lemma UpdateWordsFree()
    ensures Occurrences("UPDATE ", '?') == 0 && Occurrences(" SET ", '?') == 0 && Occurrences(" ", '?') == 0
  {
    NoOccurrence("UPDATE ", '?');
    NoOccurrence(" SET ", '?');
    NoOccurrence(" ", '?');
  }

  /** Stamping adds only the stamp columns, which hold no `?`. */
  lemma StampedKeysMarks(sets: Pairs<string, Value>, uid: Value, now: Value)
    requires TotalOccurrences(Keys(sets), '?') == 0
    ensures TotalOccurrences(Keys(StampedSets(sets, uid, now)), '?') == 0
  {
    NoOccurrence("update_by", '?');
    NoOccurrence("update_at", '?');
    var m := if uid != Null then Put(sets, "update_by", uid) else sets;
    if uid != Null {
      PutKeysMarks(sets, "update_by", uid);
    }
    PutKeysMarks(m, "update_at", now);
  }

  lemma PutKeysMarks(m: Pairs<string, Value>, k: string, v: Value)
    requires TotalOccurrences(Keys(m), '?') == 0 && Occurrences(k, '?') == 0
    ensures TotalOccurrences(Keys(Put(m, k, v)), '?') == 0
  {
    if k !in Keys(m) {
      TotalOccurrencesAppend(Keys(m), [k], '?');
      assert [k][1..] == [];
    }
  }
}

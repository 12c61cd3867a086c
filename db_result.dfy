/**
 * seal/db/result.py: `Result` and `Results`, the holders of one fetched row or of a list of
 * rows together with the type that materialises them. `model(**row)` is the function
 * `model` applied to the row.
 */
module DbResults {
  import W = Wrappers
  import opened Errors
  import opened Values
  import opened OrderedMaps

  /** A fetched row: column names and values in the driver's order. */
  type Row = Pairs<string, Value>

  datatype Result<B> = Result(row: W.Option<Row>, model: W.Option<Row -> B>) {
    /** Whether a row is set (this `Result` has no `is_present` of its own). */
    predicate HasRow()
    {
      row.Some?
    }

    /**
     * `get`: None without a row, whether or not a type is set; "no type specified" with a row
     * but no type; otherwise the row materialised by the type.
     */
    function Get(): (r: W.Result<W.Option<B>, Error>)
      ensures r.Err? <==> HasRow() && model.None?
      ensures r.Err? ==> r.error == NoTypeSpecified
      ensures r == W.Ok(W.None) <==> !HasRow()
      ensures r.Ok? && HasRow() ==> r.value == W.Some(model.value(row.value))
    {
      match row
      case None => W.Ok(W.None)
      case Some(values) =>
        match model
        case None => W.Err(NoTypeSpecified)
        case Some(make) => W.Ok(W.Some(make(values)))
    }

    /** `as_dict`: the row as it was fetched, or None. */
    function AsDict(): (r: W.Option<Row>)
      ensures r.Some? <==> HasRow()
      ensures HasRow() ==> r.value == row.value
    {
      row
    }
  }

  /** `Result.empty` */
  function Empty<B>(): (r: Result<B>)
    ensures !r.HasRow() && r.model.None?
  {
    Result(W.None, W.None)
  }

  datatype Results<B> = Results(rows: W.Option<seq<Row>>, model: W.Option<Row -> B>) {
    /** `is_present`: there are rows and at least one of them. */
    predicate IsPresent()
    {
      rows.Some? && |rows.value| > 0
    }

    /**
     * `get`: `[]` without rows; "no type specified" with rows, even an empty list, but no type;
     * otherwise one object per row, in row order.
     */
    function Get(): (r: W.Result<seq<B>, Error>)
      ensures r.Err? <==> rows.Some? && model.None?
      ensures r.Err? ==> r.error == NoTypeSpecified
      ensures rows.None? ==> r == W.Ok([])
      ensures r.Ok? ==> |r.value| == |AsDict()|
      ensures r.Ok? && rows.Some? ==>
        forall i | 0 <= i < |r.value| :: r.value[i] == model.value(rows.value[i])
    {
      match rows
      case None => W.Ok([])
      case Some(rs) =>
        match model
        case None => W.Err(NoTypeSpecified)
        case Some(make) => W.Ok(seq(|rs|, i requires 0 <= i < |rs| => make(rs[i])))
    }

    /** `as_dict`: the rows as they were fetched, or `[]`. */
    function AsDict(): (r: seq<Row>)
      ensures rows.Some? ==> r == rows.value
      ensures rows.None? ==> r == []
      ensures |r| > 0 <==> IsPresent()
    {
      rows.GetOr([])
    }
  }

  /** `Results.empty` */
  function EmptyList<B>(): (r: Results<B>)
    ensures !r.IsPresent() && r.AsDict() == [] && r.Get() == W.Ok([])
  {
    Results(W.None, W.None)
  }
}

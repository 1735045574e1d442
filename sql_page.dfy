/** PostgreSQL's `OFFSET skip LIMIT limit`, as the backend's list
    endpoints apply it to a query's rows. */
module SqlPage {
  import opened Wrappers
  import opened Text

  /** The server's refusal of a negative bound; the offset is checked
      first. */
  function BoundError(skip: int, limit: int): string
  {
    if skip < 0 then "OFFSET must not be negative" else "LIMIT must not be negative"
  }

  /** The rows after the first `skip`, at most `limit` of them; a negative
      offset or limit makes the query raise SQLAlchemy's `DataError`. */
  function Page<T>(rows: seq<T>, skip: int, limit: int): (r: Result<seq<T>>)
    ensures r.Err? <==> skip < 0 || limit < 0
    ensures r.Err? ==> r.error == Error("DataError", BoundError(skip, limit))
    ensures r.Ok? ==> |r.value| <= |rows| && forall x | x in r.value :: x in rows
  {
    if skip < 0 || limit < 0 then Err(Error("DataError", BoundError(skip, limit)))
    else
      var from := if skip > |rows| then |rows| else skip;
      var rest := rows[from..];
      Ok(if limit >= |rest| then rest else rest[..limit])
  }

  /** A page holds the `limit` rows after the first `skip`, in query order,
      or all that remain. */
  lemma PageContents<T>(rows: seq<T>, skip: nat, limit: nat)
    ensures Page(rows, skip, limit).Ok?
    ensures var r := Page(rows, skip, limit).value;
      |r| == (if skip >= |rows| then 0 else Min(limit, |rows| - skip)) &&
      forall i | 0 <= i < |r| :: r[i] == rows[skip + i]
  {
  }
}

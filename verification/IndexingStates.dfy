/** The per-record indexing rows: the stored table, and the in-memory instances that stamp it. */
module IndexingStates {
  import opened Prelude
  import opened ContentRefs

  datatype Reason = ContentMissing | PlanningRaised | SaveRaised | DeleteRaised

  datatype Row = Row(
    lastIndexedAt: Option<int>,
    removedAt: Option<int>,
    objectIds: seq<string>,
    lastFailureAt: Option<int>,
    failureReason: Option<Reason>)

  const EMPTY_ROW := Row(None, None, [], None, None)

  type Rows = map<ContentRef, Row>

  function StampIndexed(row: Row, ids: seq<string>, at: int): Row {
    Row(Some(at), None, ids, None, None)
  }

  function StampFailed(row: Row, reason: Reason, at: int): Row {
    row.(lastFailureAt := Some(at), failureReason := Some(reason))
  }

  function StampRemoved(row: Row, at: int): Row {
    row.(removedAt := Some(at))
  }

  /** Never indexed, or edited since. */
  function IsStale(row: Row, modified: int): bool {
    match row.lastIndexedAt
    case None => true
    case Some(at) => modified > at
  }

  /** Indexed at least once, and neither failed nor removed since its last successful run. */
  predicate Clean(row: Row) {
    row.lastIndexedAt.Some? && row.removedAt.None? && row.lastFailureAt.None?
  }

  /** Only a successful run makes a row clean; the other two stamps leave it, or make it, unclean. */
  lemma OnlyIndexingCleans(row: Row, ids: seq<string>, reason: Reason, at: int)
    ensures Clean(StampIndexed(row, ids, at)) && !IsStale(StampIndexed(row, ids, at), at)
    ensures !Clean(StampFailed(row, reason, at)) && !Clean(StampRemoved(row, at))
    ensures forall modified :: IsStale(StampFailed(row, reason, at), modified) == IsStale(row, modified)
    ensures forall modified :: IsStale(StampRemoved(row, at), modified) == IsStale(row, modified)
    ensures StampFailed(row, reason, at).objectIds == StampRemoved(row, at).objectIds == row.objectIds
  {
  }

  class StateTable {
    var rows: Rows

    constructor (rows: Rows)
      ensures this.rows == rows
    {
      this.rows := rows;
    }

    /** `get_or_create`: an existing row is left alone, a missing one starts empty. */
    method GetOrCreate(ref: ContentRef) returns (state: IndexingState)
      modifies this
      ensures fresh(state) && state.ref == ref
      ensures rows == WithRow(old(rows), ref)
      ensures state.Value() == rows[ref]
    {
      if ref !in rows {
        rows := rows[ref := EMPTY_ROW];
      }
      state := new IndexingState(ref, rows[ref]);
    }
  }

  function WithRow(rows: Rows, ref: ContentRef): (r: Rows)
    ensures ref in r && r[ref] == RowOrEmpty(rows, ref)
    ensures forall other | other != ref :: other in r <==> other in rows
    ensures forall other | other != ref && other in rows :: r[other] == rows[other]
  {
    if ref in rows then rows else rows[ref := EMPTY_ROW]
  }

  function RowOrEmpty(rows: Rows, ref: ContentRef): Row {
    if ref in rows then rows[ref] else EMPTY_ROW
  }

  /**
   One loaded copy of a row. Each stamp assigns the copy's fields first and then saves only the fields it
   names; when the save raises, the copy has changed and the table has not.
   */
  class IndexingState {
    const ref: ContentRef
    var lastIndexedAt: Option<int>
    var removedAt: Option<int>
    var objectIds: seq<string>
    var lastFailureAt: Option<int>
    var failureReason: Option<Reason>

    function Value(): Row
      reads this
    {
      Row(lastIndexedAt, removedAt, objectIds, lastFailureAt, failureReason)
    }

    constructor (ref: ContentRef, row: Row)
      ensures this.ref == ref && Value() == row
    {
      this.ref := ref;
      lastIndexedAt, removedAt, objectIds := row.lastIndexedAt, row.removedAt, row.objectIds;
      lastFailureAt, failureReason := row.lastFailureAt, row.failureReason;
    }

    method MarkAsIndexed(table: StateTable, ids: Option<seq<string>>, at: int, saveRaises: bool) returns (raised: bool)
      requires ref in table.rows
      modifies this, table
      ensures raised == saveRaises
      ensures Value() == StampIndexed(old(Value()), if ids.Some? then ids.value else old(objectIds), at)
      ensures table.rows == if raised then old(table.rows) else old(table.rows)[ref := Value()]
    {
      lastIndexedAt := Some(at);
      if ids.Some? {
        objectIds := ids.value;
      }
      lastFailureAt, failureReason, removedAt := None, None, None;
      if saveRaises {
        return true;
      }
      table.rows := table.rows[ref := Row(lastIndexedAt, removedAt, objectIds, lastFailureAt, failureReason)];
      return false;
    }

    method MarkAsFailed(table: StateTable, reason: Reason, at: int, saveRaises: bool) returns (raised: bool)
      requires ref in table.rows
      modifies this, table
      ensures raised == saveRaises
      ensures Value() == StampFailed(old(Value()), reason, at)
      ensures table.rows == if raised then old(table.rows)
                            else old(table.rows)[ref := StampFailed(old(table.rows)[ref], reason, at)]
    {
      lastFailureAt, failureReason := Some(at), Some(reason);
      if saveRaises {
        return true;
      }
      table.rows := table.rows[ref := table.rows[ref].(lastFailureAt := lastFailureAt, failureReason := failureReason)];
      return false;
    }

    method MarkAsRemoved(table: StateTable, at: int, saveRaises: bool) returns (raised: bool)
      requires ref in table.rows
      modifies this, table
      ensures raised == saveRaises
      ensures Value() == StampRemoved(old(Value()), at)
      ensures table.rows == if raised then old(table.rows)
                            else old(table.rows)[ref := StampRemoved(old(table.rows)[ref], at)]
    {
      removedAt := Some(at);
      if saveRaises {
        return true;
      }
      table.rows := table.rows[ref := table.rows[ref].(removedAt := removedAt)];
      return false;
    }
  }
}

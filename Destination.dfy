/**
 * The PostgreSQL connection as the migration driver uses it: autocommit is
 * off, so executed INSERTs stay pending in one open transaction until a
 * commit makes them durable or a rollback discards them.
 */
module Destination {
  import opened RowTransform

  /** How the database answers one `INSERT ... ON CONFLICT DO NOTHING`:
      the row is written, it collides with an existing key and nothing is
      written, or the statement raises. */
  datatype InsertOutcome = Written | Conflict | Failed

  class Connection {
    /** Rows made durable by commits, in order. */
    var committed: seq<Insert>
    /** Rows written by the open transaction, in order. */
    var pending: seq<Insert>

    constructor ()
      ensures committed == [] && pending == []
    {
      committed, pending := [], [];
    }

    /** Execute one INSERT; `ok` is false when the statement raised. */
    method Execute(ins: Insert, outcome: InsertOutcome) returns (ok: bool)
      modifies this
      ensures ok <==> outcome != Failed
      ensures pending == if outcome == Written then old(pending) + [ins] else old(pending)
      ensures committed == old(committed)
    {
      ok := outcome != Failed;
      if outcome == Written {
        pending := pending + [ins];
      }
    }

    /** Discard everything written since the last commit. */
    method Rollback()
      modifies this
      ensures pending == [] && committed == old(committed)
    {
      pending := [];
    }

    /** Make the open transaction's rows durable. */
    method Commit()
      modifies this
      ensures committed == old(committed) + old(pending) && pending == []
    {
      committed, pending := committed + pending, [];
    }
  }
}

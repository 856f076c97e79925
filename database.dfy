/** The `request_logs` table: one row per request, appended and never changed. */
module Database {

  /** The columns the request handler fills in. */
  datatype LogEntry = LogEntry(
    promptText: string,
    difficultyLevel: string,
    modelUsed: string,
    tokenCount: int,
    actualCost: real,
    hypotheticalCostGpt4: real,
    moneySaved: real)

  /** A stored row: the store adds the primary key and the insertion time. */
  datatype RequestLog = RequestLog(id: nat, timestamp: int, entry: LogEntry)

  /** A session on the table. Rows are only ever appended; ids come from an
      auto-increment counter. */
  class Session {
    var rows: seq<RequestLog>
    var nextId: nat

    /** Ids increase along the table and stay below the counter. */
    ghost predicate Valid()
      reads this
    {
      (forall i, j | 0 <= i < j < |rows| :: rows[i].id < rows[j].id) &&
      (forall i | 0 <= i < |rows| :: rows[i].id < nextId)
    }

    constructor ()
      ensures Valid() && rows == []
    {
      rows := [];
      nextId := 1;
    }

    /** `db.add(row); db.commit()`. `commitSucceeds` is whether the store
        accepts the write; when it does not, nothing is stored. */
    method AddAndCommit(entry: LogEntry, now: int, commitSucceeds: bool) returns (committed: bool)
      requires Valid()
      modifies this
      ensures Valid()
      ensures committed == commitSucceeds
      ensures committed ==> rows == old(rows) + [RequestLog(old(nextId), now, entry)]
      ensures committed ==> forall i | 0 <= i < |old(rows)| :: old(rows)[i].id != rows[|rows| - 1].id
      ensures !committed ==> rows == old(rows) && nextId == old(nextId)
    {
      committed := commitSucceeds;
      if committed {
        rows := rows + [RequestLog(nextId, now, entry)];
        nextId := nextId + 1;
      }
    }
  }
}

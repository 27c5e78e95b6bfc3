/** The database driver, reduced to what the eager loader asks of it: the rows of one table
    that satisfy a query's predicates, in any order, or a failure. */
module Drivers {
  import opened Wrappers
  import opened Schema
  import opened Relational

  class Driver {
    const tables: Tables
    var queries: nat   // statements issued so far
    var failures: nat  // those that failed

    constructor (tables: Tables)
      ensures this.tables == tables && queries == 0 && failures == 0
    {
      this.tables := tables;
      queries, failures := 0, 0;
    }

    /** Counts a statement; the database may refuse it. */
    method Issue() returns (ok: bool)
      modifies this
      ensures queries == old(queries) + 1
      ensures failures == old(failures) + OneIf(!ok)
    {
      queries := queries + 1;
      ok := *;
      failures := failures + OneIf(!ok);
    }

    method QueryAccounts(ps: seq<AccountPred>) returns (ok: bool, rows: seq<AccountRow>)
      modifies this
      ensures queries == old(queries) + 1
      ensures failures == old(failures) + OneIf(!ok)
      ensures ok ==> Enumerates(rows, MatchingAccounts(ps, tables))
    {
      rows := Enumerate(MatchingAccounts(ps, tables));
      ok := Issue();
    }

    method QueryLeaves(rows: set<LeafRow>, ps: seq<LeafPred>) returns (ok: bool, found: seq<LeafRow>)
      modifies this
      ensures queries == old(queries) + 1
      ensures failures == old(failures) + OneIf(!ok)
      ensures ok ==> Enumerates(found, set r | r in rows && LeafMatch(ps, r))
    {
      found := Enumerate(set r | r in rows && LeafMatch(ps, r));
      ok := Issue();
    }

    /** The matching rows in some order, cut at the limit if there is one. */
    method QueryLogs(ps: seq<LogPred>, limit: nat) returns (ok: bool, rows: seq<LogRow>, ghost all: seq<LogRow>)
      modifies this
      ensures queries == old(queries) + 1
      ensures failures == old(failures) + OneIf(!ok)
      ensures ok ==> Enumerates(all, set r | r in tables.logs && LogMatch(ps, r)) && rows == Cut(all, limit)
    {
      rows := Enumerate(set r | r in tables.logs && LogMatch(ps, r));
      all := rows;
      rows := Cut(rows, limit);
      ok := Issue();
    }

    method QueryJoins(ps: seq<JoinPred>) returns (ok: bool, rows: seq<JoinRow>)
      modifies this
      ensures queries == old(queries) + 1
      ensures failures == old(failures) + OneIf(!ok)
      ensures ok ==> Enumerates(rows, MatchingJoins(ps, tables))
    {
      rows := Enumerate(MatchingJoins(ps, tables));
      ok := Issue();
    }

    /** The groups table joined with the join table, restricted to some accounts. The join
        disables DISTINCT, so nothing is promised about repeated rows. */
    method QueryJoinedGroups(ps: seq<LeafPred>, accountIDs: seq<int>) returns (ok: bool, rows: seq<(int, LeafRow)>)
      modifies this
      ensures queries == old(queries) + 1
      ensures failures == old(failures) + OneIf(!ok)
      ensures ok ==> JoinedRows(rows, ps, tables, accountIDs)
    {
      var pairs := set j, g | j in tables.joins && g in tables.groups && j.accountID in accountIDs
                              && j.groupID == g.id && LeafMatch(ps, g) :: (j.accountID, g);
      rows := Enumerate(pairs);
      assert forall i | 0 <= i < |rows| :: rows[i] in pairs;
      ok := Issue();
    }
  }
}

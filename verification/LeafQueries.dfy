/** Queries for the entities at the ends of edges. GroupQuery, ProxyQuery and UserQuery come
    from one template, UsageLogQuery differs only in its row type. */
module LeafQueries {
  import opened Wrappers
  import opened Schema
  import opened Relational
  import opened Entities
  import opened Drivers

  datatype LeafTable = Groups | Proxies | Users {
    function In(db: Tables): set<LeafRow> {
      match this
      case Groups => db.groups
      case Proxies => db.proxies
      case Users => db.users
    }
  }

  /** The neighbours are exactly the wanted rows, and lookups of single ids find the same. */
  ghost predicate LeafAnswers(neighbors: seq<Leaf>, t: LeafTree, table: set<LeafRow>, ids: seq<int>) {
    && (forall nb | nb in neighbors :: nb.row.id in ids && NaiveLeaf(Some(t), table, Some(nb.row.id)) == Some(nb.row))
    && (forall id | id in ids && NaiveLeaf(Some(t), table, Some(id)).Some? :: exists nb :: nb in neighbors && nb.row.id == id)
    && (forall i, j | 0 <= i < j < |neighbors| :: neighbors[i].row.id != neighbors[j].row.id)
  }

  class LeafQuery {
    const table: LeafTable
    ghost const tree: LeafTree   // the predicates and fields it was configured with
    var predicates: seq<LeafPred>
    var fields: seq<Column>

    constructor (table: LeafTable, predicates: seq<LeafPred>, fields: seq<Column>)
      ensures this.table == table && tree == LeafTree(predicates, fields) && AsConfigured()
    {
      this.table, this.predicates, this.fields := table, predicates, fields;
      tree := LeafTree(predicates, fields);
    }

    /** Not restricted to a parent's nodes yet. */
    ghost predicate AsConfigured()
      reads this
    {
      predicates == tree.preds && fields == tree.fields
    }

    method Where(p: LeafPred)
      modifies this`predicates
      ensures predicates == old(predicates) + [p]
    {
      predicates := predicates + [p];
    }

    /** Wraps rows as nodes. */
    method Nodes(rows: seq<LeafRow>) returns (nodes: seq<Leaf>)
      ensures |nodes| == |rows| && NoDup(nodes)
      ensures forall i | 0 <= i < |rows| :: nodes[i].row == ProjectLeaf(rows[i], fields)
    {
      nodes := [];
      for i := 0 to |rows|
        invariant |nodes| == i && NoDup(nodes)
        invariant forall k | 0 <= k < i :: nodes[k].row == ProjectLeaf(rows[k], fields)
      {
        var node := new Leaf(ProjectLeaf(rows[i], fields));
        nodes := nodes + [node];
      }
    }

    /** The second half of an M2O load: restrict the query to the ids and run it. */
    method AllByID(ids: seq<int>, db: Driver) returns (ok: bool, nodes: seq<Leaf>)
      requires AsConfigured()
      requires UniqueLeaves(table.In(db.tables))
      modifies this`predicates, db
      ensures predicates == old(predicates) + [LeafIDIn(ids)]
      ensures db.queries == old(db.queries) + 1
      ensures db.failures == old(db.failures) + OneIf(!ok)
      ensures ok ==> LeafAnswers(nodes, tree, table.In(db.tables), ids)
    {
      Where(LeafIDIn(ids));
      var rows: seq<LeafRow>;
      ok, rows := db.QueryLeaves(table.In(db.tables), predicates);
      nodes := Nodes(rows);
      if ok {
        LeafBatchAnswers(nodes, rows, tree, table.In(db.tables), ids);
      }
    }
  }

  lemma {:induction false} LeafBatchAnswers(nodes: seq<Leaf>, rows: seq<LeafRow>, t: LeafTree, table: set<LeafRow>,
                                            ids: seq<int>)
    requires UniqueLeaves(table)
    requires Enumerates(rows, set r | r in table && LeafMatch(t.preds + [LeafIDIn(ids)], r))
    requires |nodes| == |rows| && forall i | 0 <= i < |rows| :: nodes[i].row == ProjectLeaf(rows[i], t.fields)
    ensures LeafAnswers(nodes, t, table, ids)
  {
    forall nb | nb in nodes
      ensures nb.row.id in ids && NaiveLeaf(Some(t), table, Some(nb.row.id)) == Some(nb.row)
    {
      var j :| 0 <= j < |nodes| && nodes[j] == nb;
      assert rows[j] in rows;
      LeafMatchAnd(t.preds, LeafIDIn(ids), rows[j]);
      FindLeafIs(table, rows[j]);
    }
    forall id | id in ids && NaiveLeaf(Some(t), table, Some(id)).Some?
      ensures exists nb :: nb in nodes && nb.row.id == id
    {
      var r := FindLeaf(table, id).value;
      LeafMatchAnd(t.preds, LeafIDIn(ids), r);
      assert r in rows;
      var j :| 0 <= j < |rows| && rows[j] == r;
      assert nodes[j] in nodes;
    }
    forall i, j | 0 <= i < j < |nodes| ensures nodes[i].row.id != nodes[j].row.id {
      assert rows[i] in rows && rows[j] in rows && !SameLeafID(rows[i], rows[j]);
    }
  }

  class UsageLogQuery {
    ghost const tree: LogTree
    const limit: nat   // 0 when no limit was set
    var predicates: seq<LogPred>
    var fields: seq<Column>

    constructor (predicates: seq<LogPred>, fields: seq<Column>, limit: nat)
      ensures tree == LogTree(predicates, fields) && this.limit == limit && AsConfigured()
    {
      this.predicates, this.fields, this.limit := predicates, fields, limit;
      tree := LogTree(predicates, fields);
    }

    ghost predicate AsConfigured()
      reads this
    {
      predicates == tree.preds && fields == tree.fields
    }

    /** The middle of the O2M load of usage logs: ask for the foreign key, restrict, run. The limit
        counts over all accounts together. */
    method AllByAccount(fks: seq<int>, db: Driver)
      returns (ok: bool, nodes: seq<UsageLog>, ghost rows: seq<LogRow>, ghost all: seq<LogRow>)
      modifies this, db
      ensures predicates == old(predicates) + [LogAccountIn(fks)] && fields == WithForeignKey(old(fields), AccountID)
      ensures db.queries == old(db.queries) + 1
      ensures db.failures == old(db.failures) + OneIf(!ok)
      ensures ok ==> Enumerates(all, set r | r in db.tables.logs && LogMatch(old(predicates) + [LogAccountIn(fks)], r))
      ensures ok ==> rows == Cut(all, limit)
      ensures ok ==> |nodes| == |rows| && NoDup(nodes) && forall i | 0 <= i < |nodes| ::
        nodes[i].row == ProjectLog(rows[i], WithForeignKey(old(fields), AccountID))
    {
      if |fields| > 0 {
        fields := AppendOnce(fields, AccountID);
      }
      predicates := predicates + [LogAccountIn(fks)];
      var found: seq<LogRow>;
      ok, found, all := db.QueryLogs(predicates, limit);
      rows := found;
      nodes := [];
      label Queried:
      for i := 0 to |found|
        invariant unchanged@Queried(db) && unchanged@Queried(this)
        invariant |nodes| == i && NoDup(nodes)
        invariant forall k | 0 <= k < i :: nodes[k].row == ProjectLog(rows[k], fields)
      {
        var node := new UsageLog(ProjectLog(found[i], fields));
        nodes := nodes + [node];
      }
    }
  }
}

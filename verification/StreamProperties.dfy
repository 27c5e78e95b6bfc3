/** What handing out a stream of rows by key does to order and to counts. */
module StreamProperties {
  import opened Wrappers
  import opened Schema
  import opened Relational
  import opened Entities
  import opened Agreement
  import opened EagerLoading

  // ----- O2M: the lists partition the stream, in order -----

  ghost function Total<T>(s: seq<T>, key: T -> Option<int>, ids: seq<int>): nat {
    if ids == [] then 0 else Total(s, key, ids[..|ids| - 1]) + |With(s, key, ids[|ids| - 1])|
  }

  lemma {:induction false} TotalAppend<T>(s: seq<T>, x: T, key: T -> Option<int>, ids: seq<int>)
    requires NoDup(ids)
    ensures Total(s + [x], key, ids) == Total(s, key, ids) + (if key(x).Some? && key(x).value in ids then 1 else 0)
  {
    hide With;
    if ids != [] {
      var rest, id := ids[..|ids| - 1], ids[|ids| - 1];
      TotalAppend(s, x, key, rest);
      WithAppend(s, x, key, id);
      assert ids == rest + [id] && id !in rest;
    }
  }

  lemma {:induction false} TotalNothing<T>(key: T -> Option<int>, ids: seq<int>)
    ensures Total([], key, ids) == 0
  {
    if ids != [] {
      TotalNothing(key, ids[..|ids| - 1]);
    }
  }

  /** No neighbour is lost and none is handed out twice. */
  lemma {:induction false} Partition<T>(s: seq<T>, key: T -> Option<int>, ids: seq<int>)
    requires NoDup(ids) && forall x | x in s :: key(x).Some? && key(x).value in ids
    ensures Total(s, key, ids) == |s|
  {
    hide Total, NoDup;
    if s == [] {
      TotalNothing(key, ids);
    } else {
      var rest, x := s[..|s| - 1], s[|s| - 1];
      Partition(rest, key, ids);
      TotalAppend(rest, x, key, ids);
      assert s == rest + [x];
    }
  }

  lemma {:induction false} Associative<T>(a: seq<T>, b: seq<T>, c: seq<T>)
    ensures (a + b) + c == a + (b + c)
  {
  }

  /** Handing out respects concatenation, so every list is in the order of the stream. */
  lemma {:induction false} WithConcat<T>(s: seq<T>, t: seq<T>, key: T -> Option<int>, k: int)
    ensures With(s + t, key, k) == With(s, key, k) + With(t, key, k)
  {
    hide With;
    if t == [] {
      assert s + t == s;
      WithNothing(key);
      assert With(s, key, k) + [] == With(s, key, k);
    } else {
      var rest, x := t[..|t| - 1], t[|t| - 1];
      WithConcat(s, rest, key, k);
      WithAppend(s + rest, x, key, k);
      WithAppend(rest, x, key, k);
      assert s + t == (s + rest) + [x] && t == rest + [x];
      Associative(With(s, key, k), With(rest, key, k), if key(x) == Some(k) then [x] else []);
    }
  }

  ghost function SumOfLengths<T>(lists: seq<seq<T>>): nat {
    if lists == [] then 0 else SumOfLengths(lists[..|lists| - 1]) + |lists[|lists| - 1]|
  }

  /** One list per node, handed out by key: their lengths add up to the number of neighbours. */
  lemma {:induction false} ListsPartition<T>(nodes: seq<Account>, lists: seq<seq<T>>, stream: seq<T>,
                                             key: T -> Option<int>)
    requires OnePerID(nodes) && |lists| == |nodes|
    requires forall i | 0 <= i < |nodes| :: lists[i] == With(stream, key, nodes[i].origin.id)
    requires forall x | x in stream :: key(x).Some? && key(x).value in NodeIDs(nodes)
    ensures SumOfLengths(lists) == |stream|
  {
    hide With;
    var ids := seq(|nodes|, i requires 0 <= i < |nodes| => nodes[i].origin.id);
    forall x | x in stream ensures key(x).value in ids {
      var k := key(x).value;
      var n :| n in nodes && n.origin.id == k;
      var i :| 0 <= i < |nodes| && nodes[i] == n;
      assert ids[i] == k;
    }
    SumIsTotal(lists, stream, key, ids);
    Partition(stream, key, ids);
  }

  lemma {:induction false} SumIsTotal<T>(lists: seq<seq<T>>, stream: seq<T>, key: T -> Option<int>, ids: seq<int>)
    requires |ids| == |lists| && forall i | 0 <= i < |ids| :: lists[i] == With(stream, key, ids[i])
    ensures SumOfLengths(lists) == Total(stream, key, ids)
  {
    hide With;
    if lists != [] {
      var m := |lists| - 1;
      SumIsTotal(lists[..m], stream, key, ids[..m]);
    }
  }

  ghost function LogLists(nodes: seq<Account>): (r: seq<seq<UsageLog>>)
    reads nodes
    ensures |r| == |nodes| && forall i | 0 <= i < |nodes| :: r[i] == nodes[i].usageLogs
  {
    if nodes == [] then [] else LogLists(nodes[..|nodes| - 1]) + [nodes[|nodes| - 1].usageLogs]
  }

  ghost function ChildLists(nodes: seq<Account>): (r: seq<seq<Account>>)
    reads nodes
    ensures |r| == |nodes| && forall i | 0 <= i < |nodes| :: r[i] == nodes[i].children
  {
    if nodes == [] then [] else ChildLists(nodes[..|nodes| - 1]) + [nodes[|nodes| - 1].children]
  }

  ghost function JoinLists(nodes: seq<Account>): (r: seq<seq<AccountGroup>>)
    reads nodes
    ensures |r| == |nodes| && forall i | 0 <= i < |nodes| :: r[i] == nodes[i].accountGroups
  {
    if nodes == [] then [] else JoinLists(nodes[..|nodes| - 1]) + [nodes[|nodes| - 1].accountGroups]
  }

  /** What loadUsageLogs leaves behind: no neighbour is missing from the lists or twice in them. */
  lemma {:induction false} LoadedLogsPartition(nodes: seq<Account>, stream: seq<UsageLog>)
    requires OnePerID(nodes)
    requires forall n | n in nodes :: n.usageLogs == With(stream, LogKey, n.origin.id)
    requires forall l | l in stream :: l.row.accountID in NodeIDs(nodes)
    ensures SumOfLengths(LogLists(nodes)) == |stream|
  {
    ListsPartition(nodes, LogLists(nodes), stream, LogKey);
  }

  /** The same after loadChildren. */
  lemma {:induction false} LoadedChildrenPartition(nodes: seq<Account>, stream: seq<Account>)
    requires OnePerID(nodes)
    requires forall n | n in nodes :: n.children == With(stream, ParentKey, n.origin.id)
    requires forall c | c in stream :: ParentKey(c).Some? && ParentKey(c).value in NodeIDs(nodes)
    ensures SumOfLengths(ChildLists(nodes)) == |stream|
  {
    ListsPartition(nodes, ChildLists(nodes), stream, ParentKey);
  }

  /** And after loadAccountGroups. */
  lemma {:induction false} LoadedJoinsPartition(nodes: seq<Account>, stream: seq<AccountGroup>)
    requires OnePerID(nodes)
    requires forall n | n in nodes :: n.accountGroups == With(stream, JoinAccountKey, n.origin.id)
    requires forall j | j in stream :: j.origin.accountID in NodeIDs(nodes)
    ensures SumOfLengths(JoinLists(nodes)) == |stream|
  {
    ListsPartition(nodes, JoinLists(nodes), stream, JoinAccountKey);
  }

  // ----- a LIMIT on an O2M sub-query -----

  ghost predicate OneKey<T>(s: seq<T>, key: T -> Option<int>) {
    forall i, j | 0 <= i < j < |s| :: key(s[i]) == key(s[j])
  }

  lemma {:induction false} WithAll<T>(s: seq<T>, key: T -> Option<int>, k: int)
    ensures |With(s, key, k)| <= |s|
    ensures (forall i | 0 <= i < |s| :: key(s[i]) == Some(k)) ==> With(s, key, k) == s
    ensures (forall i | 0 <= i < |s| :: key(s[i]) != Some(k)) ==> With(s, key, k) == []
    ensures |With(s, key, k)| == |s| ==> forall i | 0 <= i < |s| :: key(s[i]) == Some(k)
  {
    if s != [] {
      WithAll(s[..|s| - 1], key, k);
      assert s == s[..|s| - 1] + [s[|s| - 1]];
    }
  }

  /** A limit set on a sub-query counts over the whole batch. It gives every parent what a limited
      lookup for it alone would give exactly when it cuts nothing or only one parent has neighbours. */
  lemma {:induction false} LimitedBatch<T>(s: seq<T>, key: T -> Option<int>, k: nat)
    requires forall x | x in s :: key(x).Some?
    ensures (forall id :: With(Cut(s, k), key, id) == Cut(With(s, key, id), k)) <==> k == 0 || |s| <= k || OneKey(s, key)
  {
    if k == 0 || |s| <= k || OneKey(s, key) {
      forall id ensures With(Cut(s, k), key, id) == Cut(With(s, key, id), k) {
        LimitHarmless(s, key, k, id);
      }
    } else {
      var id := LimitHarms(s, key, k);
    }
  }

  lemma {:induction false} LimitHarmless<T>(s: seq<T>, key: T -> Option<int>, k: nat, id: int)
    requires k == 0 || |s| <= k || OneKey(s, key)
    ensures With(Cut(s, k), key, id) == Cut(With(s, key, id), k)
  {
    WithAll(s, key, id);
    WithAll(Cut(s, k), key, id);
    if k > 0 && |s| > k {
      assert forall i | 0 < i < |s| :: key(s[i]) == key(s[0]);
    }
  }

  lemma {:induction false} LimitHarms<T>(s: seq<T>, key: T -> Option<int>, k: nat) returns (id: int)
    requires 0 < k < |s| && !OneKey(s, key) && forall x | x in s :: key(x).Some?
    ensures With(Cut(s, k), key, id) != Cut(With(s, key, id), k)
  {
    id := key(s[k]).value;
    if With(Cut(s, k), key, id) == Cut(With(s, key, id), k) {
      CutByLimit(s, key, k);
      var i, j :| 0 <= i < j < |s| && key(s[i]) != key(s[j]);
      var o := if key(s[i]) == Some(id) then j else i;
      id := key(s[o]).value;
      OtherKeyCut(s, key, k, o);
    }
  }

  lemma {:induction false} OtherKeyCut<T>(s: seq<T>, key: T -> Option<int>, k: nat, o: nat)
    requires 0 < k < |s| && o < |s| && key(s[o]).Some?
    requires forall i | 0 <= i < k :: key(s[i]) != key(s[o])
    ensures With(s[..k], key, key(s[o]).value) != Cut(With(s, key, key(s[o]).value), k)
  {
    WithAll(s[..k], key, key(s[o]).value);
    assert s[o] in s && s[o] in With(s, key, key(s[o]).value);
  }

  /** The first element cut off is missed, unless its own key alone fills the limit. */
  lemma {:induction false} CutByLimit<T>(s: seq<T>, key: T -> Option<int>, k: nat)
    requires k < |s| && key(s[k]).Some?
    requires With(s[..k], key, key(s[k]).value) == Cut(With(s, key, key(s[k]).value), k)
    ensures forall i | 0 <= i < k :: key(s[i]) == key(s[k])
  {
    hide With;
    var a := key(s[k]).value;
    var front, back := s[..k], s[k..];
    assert s == front + back && back[0] == s[k];
    WithConcat(front, back, key, a);
    FirstKept(back, key, a);
    WithAll(front, key, a);
  }

  lemma {:induction false} FirstKept<T>(s: seq<T>, key: T -> Option<int>, k: int)
    requires s != [] && key(s[0]) == Some(k)
    ensures With(s, key, k) != []
  {
    assert s[0] in s && s[0] in With(s, key, k);
  }

  // ----- and what it does to loaded nodes -----

  function RowKey(r: LogRow): Option<int> { Some(r.accountID) }

  function Projected(all: seq<LogRow>, fields: seq<Column>): (r: seq<LogRow>)
    ensures |r| == |all| && forall i | 0 <= i < |r| :: r[i] == ProjectLog(all[i], fields)
  {
    seq(|all|, i requires 0 <= i < |all| => ProjectLog(all[i], fields))
  }

  ghost function RowsOf(logs: seq<UsageLog>): (r: seq<LogRow>)
    ensures |r| == |logs| && forall i | 0 <= i < |r| :: r[i] == logs[i].row
  {
    seq(|logs|, i requires 0 <= i < |logs| => logs[i].row)
  }

  lemma {:induction false} RowsWith(logs: seq<UsageLog>, id: int)
    ensures RowsOf(With(logs, LogKey, id)) == With(RowsOf(logs), RowKey, id)
  {
    hide With;
    if logs == [] {
      WithNothing(LogKey);
      WithNothing(RowKey);
      assert RowsOf(logs) == [];
    } else {
      var rest, last := logs[..|logs| - 1], logs[|logs| - 1];
      RowsWith(rest, id);
      WithAppend(rest, last, LogKey, id);
      WithAppend(RowsOf(rest), last.row, RowKey, id);
      assert logs == rest + [last] && RowsOf(logs) == RowsOf(rest) + [last.row];
    }
  }

  /** The whole batch, cut at no limit, would give each node its own lookup's result. */
  lemma {:induction false} WholeBatch(nodes: seq<Account>, all: seq<LogRow>, t: LogTree, db: Tables, id: int)
    requires WantedLogs(all, nodes, t, db.logs) && UniqueLogs(db.logs) && id in NodeIDs(nodes)
    ensures var mine := With(Projected(all, WithForeignKey(t.fields, AccountID)), RowKey, id);
            Enumerates(mine, NaiveLogs(Some(t), db, id))
  {
    var fields := WithForeignKey(t.fields, AccountID);
    var whole := Projected(all, fields);
    var mine, naive := With(whole, RowKey, id), NaiveLogs(Some(t), db, id);
    ProjectedOnce(all, fields, db.logs);
    forall v | v in mine ensures v in naive {
      var j :| 0 <= j < |whole| && whole[j] == v;
      assert all[j] in all;
    }
    forall v | v in naive ensures v in mine {
      var r :| r in db.logs && LogMatch(t.preds, r) && r.accountID == id && v == ProjectLog(r, fields);
      assert r in all;
      var j :| 0 <= j < |all| && all[j] == r;
      assert whole[j] == v;
    }
  }

  lemma {:induction false} ProjectedOnce(all: seq<LogRow>, fields: seq<Column>, table: set<LogRow>)
    requires UniqueLogs(table) && NoDup(all) && forall r | r in all :: r in table
    ensures NoDup(Projected(all, fields))
  {
    forall i, j | 0 <= i < j < |all| ensures Projected(all, fields)[i] != Projected(all, fields)[j] {
      assert all[i] in all && all[j] in all && all[i] != all[j];
      assert !SameLogID(all[i], all[j]);
    }
  }

  function Limited(count: nat, limit: nat): nat {
    if limit == 0 || count <= limit then count else limit
  }

  /** At most one of the nodes has logs. */
  ghost predicate OneHasLogs(nodes: seq<Account>, t: LogTree, db: Tables) {
    forall i, j | 0 <= i < j < |nodes| ::
      NaiveLogs(Some(t), db, nodes[i].origin.id) == {} || NaiveLogs(Some(t), db, nodes[j].origin.id) == {}
  }

  /** After loadUsageLogs with a limited sub-query, every log a node has is one of its own; it has as
      many as a limited lookup for it alone would return exactly when the limit cuts nothing or only
      one node has any. */
  lemma {:induction false} LimitedLogs(nodes: seq<Account>, stream: seq<UsageLog>, all: seq<LogRow>, t: LogTree,
                                       limit: nat, db: Tables)
    requires OnePerID(nodes) && UniqueLogs(db.logs)
    requires WantedLogs(all, nodes, t, db.logs) && LimitedTo(stream, all, t, limit)
    requires forall n | n in nodes :: n.usageLogs == With(stream, LogKey, n.origin.id)
    ensures forall n | n in nodes :: LogRows(n.usageLogs) <= NaiveLogs(Some(t), db, n.origin.id)
    ensures (forall n | n in nodes :: |n.usageLogs| == Limited(|NaiveLogs(Some(t), db, n.origin.id)|, limit))
            <==> limit == 0 || |all| <= limit || OneHasLogs(nodes, t, db)
  {
    hide With, Cut, WantedLogs, LimitedTo, NaiveLogs, OneHasLogs, Limited, OneKey;
    var whole := Projected(all, WithForeignKey(t.fields, AccountID));
    forall n | n in nodes
      ensures LogRows(n.usageLogs) <= NaiveLogs(Some(t), db, n.origin.id)
      ensures |n.usageLogs| == Limited(|NaiveLogs(Some(t), db, n.origin.id)|, limit) <==>
              With(Cut(whole, limit), RowKey, n.origin.id) == Cut(With(whole, RowKey, n.origin.id), limit)
    {
      OneNodeLimited(nodes, stream, all, t, limit, db, n);
    }
    forall id | id !in NodeIDs(nodes)
      ensures With(Cut(whole, limit), RowKey, id) == Cut(With(whole, RowKey, id), limit)
    {
      NobodysRows(nodes, all, t, limit, db, id);
    }
    LimitedBatch(whole, RowKey, limit);
    OneOwner(nodes, all, t, db);
    if forall n | n in nodes :: |n.usageLogs| == Limited(|NaiveLogs(Some(t), db, n.origin.id)|, limit) {
      forall id ensures With(Cut(whole, limit), RowKey, id) == Cut(With(whole, RowKey, id), limit) {
        if id in NodeIDs(nodes) {
          var n :| n in nodes && n.origin.id == id;
        }
      }
    } else {
      var n :| n in nodes && |n.usageLogs| != Limited(|NaiveLogs(Some(t), db, n.origin.id)|, limit);
      assert With(Cut(whole, limit), RowKey, n.origin.id) != Cut(With(whole, RowKey, n.origin.id), limit);
    }
  }

  lemma {:induction false} WithCut<T>(s: seq<T>, key: T -> Option<int>, k: nat, id: int)
    ensures With(Cut(s, k), key, id) <= With(s, key, id)
  {
    hide With;
    var front := Cut(s, k);
    assert s == front + s[|front|..];
    WithConcat(front, s[|front|..], key, id);
  }

  lemma {:induction false} OneNodeLimited(nodes: seq<Account>, stream: seq<UsageLog>, all: seq<LogRow>, t: LogTree,
                                          limit: nat, db: Tables, n: Account)
    requires n in nodes && UniqueLogs(db.logs) && WantedLogs(all, nodes, t, db.logs) && LimitedTo(stream, all, t, limit)
    requires n.usageLogs == With(stream, LogKey, n.origin.id)
    ensures var naive, whole := NaiveLogs(Some(t), db, n.origin.id), Projected(all, WithForeignKey(t.fields, AccountID));
            && LogRows(n.usageLogs) <= naive
            && (|n.usageLogs| == Limited(|naive|, limit) <==>
                With(Cut(whole, limit), RowKey, n.origin.id) == Cut(With(whole, RowKey, n.origin.id), limit))
  {
    hide With, NaiveLogs, WantedLogs;
    var id, naive, whole := n.origin.id, NaiveLogs(Some(t), db, n.origin.id), Projected(all, WithForeignKey(t.fields, AccountID));
    var mine, cut := With(whole, RowKey, id), With(Cut(whole, limit), RowKey, id);
    WholeBatch(nodes, all, t, db, id);
    EnumeratesCount(mine, naive);
    assert RowsOf(stream) == Cut(whole, limit);
    RowsWith(stream, id);
    WithCut(whole, RowKey, limit, id);
    assert RowsOf(n.usageLogs) == cut && |cut| == |n.usageLogs| && cut == mine[..|cut|];
    forall l | l in n.usageLogs ensures l.row in naive {
      var i :| 0 <= i < |n.usageLogs| && n.usageLogs[i] == l;
      assert mine[i] == l.row;
    }
  }

  lemma {:induction false} NobodysRows(nodes: seq<Account>, all: seq<LogRow>, t: LogTree, limit: nat, db: Tables,
                                       id: int)
    requires WantedLogs(all, nodes, t, db.logs) && id !in NodeIDs(nodes)
    ensures var whole := Projected(all, WithForeignKey(t.fields, AccountID));
            With(Cut(whole, limit), RowKey, id) == Cut(With(whole, RowKey, id), limit)
  {
    hide With;
    var whole := Projected(all, WithForeignKey(t.fields, AccountID));
    forall i | 0 <= i < |whole| ensures RowKey(whole[i]) != Some(id) {
      assert all[i] in all && whole[i].accountID == all[i].accountID;
    }
    assert forall x | x in Cut(whole, limit) :: x in whole;
    WithAll(whole, RowKey, id);
    WithAll(Cut(whole, limit), RowKey, id);
  }

  lemma {:induction false} OneOwner(nodes: seq<Account>, all: seq<LogRow>, t: LogTree, db: Tables)
    requires OnePerID(nodes) && WantedLogs(all, nodes, t, db.logs) && UniqueLogs(db.logs)
    ensures OneKey(Projected(all, WithForeignKey(t.fields, AccountID)), RowKey) <==> OneHasLogs(nodes, t, db)
  {
    hide With, NaiveLogs;
    var whole := Projected(all, WithForeignKey(t.fields, AccountID));
    forall i | 0 <= i < |nodes|
      ensures NaiveLogs(Some(t), db, nodes[i].origin.id) == {} <==>
              forall k | 0 <= k < |whole| :: RowKey(whole[k]) != Some(nodes[i].origin.id)
    {
      HasNone(nodes, all, t, db, nodes[i].origin.id);
    }
    if OneKey(whole, RowKey) {
    } else {
      var j, k :| 0 <= j < k < |whole| && RowKey(whole[j]) != RowKey(whole[k]);
      var m, n := OwnerOf(nodes, all, t, db, j), OwnerOf(nodes, all, t, db, k);
      assert NaiveLogs(Some(t), db, nodes[m].origin.id) != {} && NaiveLogs(Some(t), db, nodes[n].origin.id) != {};
    }
  }

  ghost function OwnerOf(nodes: seq<Account>, all: seq<LogRow>, t: LogTree, db: Tables, k: nat): (i: nat)
    requires WantedLogs(all, nodes, t, db.logs) && k < |all|
    ensures i < |nodes| && Some(nodes[i].origin.id) == RowKey(Projected(all, WithForeignKey(t.fields, AccountID))[k])
  {
    assert all[k] in all && all[k].accountID in NodeIDs(nodes);
    var n :| n in nodes && n.origin.id == all[k].accountID;
    var i :| 0 <= i < |nodes| && nodes[i] == n;
    i
  }

  lemma {:induction false} HasNone(nodes: seq<Account>, all: seq<LogRow>, t: LogTree, db: Tables, id: int)
    requires id in NodeIDs(nodes) && WantedLogs(all, nodes, t, db.logs) && UniqueLogs(db.logs)
    ensures var whole := Projected(all, WithForeignKey(t.fields, AccountID));
            NaiveLogs(Some(t), db, id) == {} <==> forall k | 0 <= k < |whole| :: RowKey(whole[k]) != Some(id)
  {
    hide NaiveLogs, WantedLogs, With;
    var whole := Projected(all, WithForeignKey(t.fields, AccountID));
    WholeBatch(nodes, all, t, db, id);
    WithAll(whole, RowKey, id);
    forall k | 0 <= k < |whole| && RowKey(whole[k]) == Some(id) ensures NaiveLogs(Some(t), db, id) != {} {
      FoundByKey(whole, RowKey, id, k);
    }
  }

  lemma {:induction false} FoundByKey<T>(s: seq<T>, key: T -> Option<int>, id: int, k: nat)
    requires k < |s| && key(s[k]) == Some(id)
    ensures s[k] in With(s, key, id)
  {
    assert s[k] in s;
  }

  // ----- M2M: order of first appearance -----

  /** The position at which the stream first shows a group. */
  ghost function FirstIndex(stream: seq<(int, LeafRow)>, id: int): (i: nat)
    ensures i <= |stream|
    ensures i < |stream| ==> stream[i].1.id == id
    ensures forall k | 0 <= k < i :: stream[k].1.id != id
  {
    if stream == [] then 0
    else
      var i := FirstIndex(stream[..|stream| - 1], id);
      if i < |stream| - 1 || stream[|stream| - 1].1.id == id then i else |stream|
  }

  lemma {:induction false} FirstAppearancesInOrder(stream: seq<(int, LeafRow)>, i: nat, j: nat)
    requires i < j < |FirstAppearances(stream)|
    ensures FirstIndex(stream, FirstAppearances(stream)[i].id) < FirstIndex(stream, FirstAppearances(stream)[j].id) < |stream|
  {
    var rest, x := stream[..|stream| - 1], stream[|stream| - 1];
    var before := FirstAppearances(rest);
    if j < |before| {
      FirstAppearancesInOrder(rest, i, j);
    } else {
      FirstAppearancesStreamed(rest, before[i]);
      var k :| 0 <= k < |rest| && rest[k].1 == before[i];
      forall m | 0 <= m < |rest| ensures rest[m].1.id != x.1.id {
        FirstAppearancesCover(rest, m);
      }
    }
  }

  /** The groups of every account come in the order in which the stream first shows them, whatever
      order the accounts of a group were visited in. */
  lemma {:induction false} LoadedGroupsInOrder(neighbors: seq<Leaf>, stream: seq<(int, LeafRow)>, fields: seq<Column>,
                                               accountID: int, i: nat, j: nat)
    requires |neighbors| == |FirstAppearances(stream)|
    requires forall m | 0 <= m < |neighbors| :: neighbors[m].row == ProjectLeaf(FirstAppearances(stream)[m], fields)
    requires i < j < |GroupsOf(neighbors, stream, accountID)|
    ensures var r := GroupsOf(neighbors, stream, accountID);
            FirstIndex(stream, r[i].row.id) < FirstIndex(stream, r[j].row.id)
  {
    var m, n := GroupsOfSubsequence(neighbors, stream, accountID, i, j);
    FirstAppearancesInOrder(stream, m, n);
  }

  lemma {:induction false} GroupsOfSubsequence(neighbors: seq<Leaf>, stream: seq<(int, LeafRow)>, accountID: int,
                                               i: nat, j: nat)
    returns (m: nat, n: nat)
    requires i < j < |GroupsOf(neighbors, stream, accountID)|
    ensures m < n < |neighbors|
    ensures GroupsOf(neighbors, stream, accountID)[i] == neighbors[m] && GroupsOf(neighbors, stream, accountID)[j] == neighbors[n]
  {
    var rest := neighbors[..|neighbors| - 1];
    var before := GroupsOf(rest, stream, accountID);
    if j < |before| {
      m, n := GroupsOfSubsequence(rest, stream, accountID, i, j);
    } else {
      assert before[i] in rest;
      m :| 0 <= m < |rest| && rest[m] == before[i];
      n := |neighbors| - 1;
    }
  }
}

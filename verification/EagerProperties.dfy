/** What eager loading promises as a whole. The methods of AccountQueries establish the
    assumptions of these lemmas; the lemmas say what a client can rely on. */
module EagerProperties {
  import opened Wrappers
  import opened Schema
  import opened Relational
  import opened Statements
  import opened Entities
  import opened Agreement
  import opened AccountQueries
  import opened EagerLoading
  import opened AccountLoading

  // ----- the object graph, read along its real edges -----

  /** The graph behind an account, by following the edges that were filled in. */
  ghost function Read(a: Account, g: Graph): AccountView
    requires Complete(g) && a in g.accounts
    reads g.accounts, g.joins
    decreases a.view
  {
    AccountView(
      a.data, a.loaded, LeafRows(a.groups), LeafRowOf(a.proxy), LeafRowOf(a.owner),
      if a.parent == null then None else Some(Read(a.parent, g)),
      set c | c in a.children :: (assert c.view in AccountViews(a.children) && c.view < a.view; Read(c, g)),
      LogRows(a.usageLogs),
      set j | j in a.accountGroups :: (assert j.view in JoinViews(a.accountGroups) && j.view < a.view; ReadJoin(j, g)))
  }

  /** A join row has no id that is always selected; the ghost `origin` tells it apart. */
  ghost function ReadJoin(j: AccountGroup, g: Graph): JoinView
    requires Complete(g) && j in g.joins
    reads g.accounts, g.joins
    decreases j.view
  {
    JoinView(j.origin, j.data, j.loaded, if j.account == null then None else Some(Read(j.account, g)), LeafRowOf(j.group))
  }

  /** What All returns, read along its real edges, is for each row the graph that looking up every
      edge of that row on its own gives. */
  lemma {:induction false} LoadedGraphIsNaive(nodes: seq<Account>, rows: seq<AccountRow>, g: Graph, e: AccountEdges,
                                              fields: seq<Column>, db: Tables)
    requires Complete(g) && NodeSet(nodes) <= g.accounts && Scanned(nodes, rows, e, fields, db)
    ensures forall i | 0 <= i < |rows| :: nodes[i] in g.accounts && Read(nodes[i], g) == NaiveAccount(e, fields, db, rows[i])
  {
    forall i | 0 <= i < |rows|
      ensures nodes[i] in g.accounts && Read(nodes[i], g) == NaiveAccount(e, fields, db, rows[i])
    {
      assert nodes[i] in NodeSet(nodes);
      ReadIsView(nodes[i], g);
    }
  }

  lemma {:induction false} ReadIsView(a: Account, g: Graph)
    requires Complete(g) && a in g.accounts
    ensures Read(a, g) == a.view
    decreases a.view
  {
    if a.parent != null {
      ReadIsView(a.parent, g);
    }
    forall c | c in a.children ensures Read(c, g) == c.view {
      assert c.view in a.view.children;
      ReadIsView(c, g);
    }
    forall j | j in a.accountGroups ensures ReadJoin(j, g) == j.view {
      assert j.view in a.view.accountGroups;
      ReadJoinIsView(j, g);
    }
    assert (set c | c in a.children :: Read(c, g)) == AccountViews(a.children);
    assert (set j | j in a.accountGroups :: ReadJoin(j, g)) == JoinViews(a.accountGroups);
  }

  lemma {:induction false} ReadJoinIsView(j: AccountGroup, g: Graph)
    requires Complete(g) && j in g.joins
    ensures ReadJoin(j, g) == j.view
    decreases j.view
  {
    if j.account != null {
      ReadIsView(j.account, g);
    }
  }

  // ----- the edge accessors -----

  /** NotLoaded exactly for edges that were not requested, NotFound exactly for requested unique
      edges without a row, and otherwise the row's entity. */
  lemma {:induction false} AccessorTrichotomy(a: Account, e: AccountEdges, fields: seq<Column>, db: Tables)
    requires Settled(a) && a.view == NaiveAccount(e, fields, db, a.origin)
    ensures a.ProxyOrErr() == Err(NotLoaded) <==> e.proxy.None?
    ensures a.ProxyOrErr() == Err(NotFound) <==> e.proxy.Some? && NaiveLeaf(e.proxy, db.proxies, a.origin.proxyID).None?
    ensures a.ProxyOrErr().Ok? ==> NaiveLeaf(e.proxy, db.proxies, a.origin.proxyID) == Some(a.ProxyOrErr().value.row)
    ensures a.OwnerOrErr() == Err(NotLoaded) <==> e.owner.None?
    ensures a.OwnerOrErr() == Err(NotFound) <==> e.owner.Some? && NaiveLeaf(e.owner, db.users, a.origin.ownerUserID).None?
    ensures a.OwnerOrErr().Ok? ==> NaiveLeaf(e.owner, db.users, a.origin.ownerUserID) == Some(a.OwnerOrErr().value.row)
    ensures a.ParentOrErr() == Err(NotLoaded) <==> e.parent.None?
    ensures a.ParentOrErr() == Err(NotFound) <==> e.parent.Some? && NaiveToOne(e.parent, db, a.origin.parentAccountID).None?
    ensures a.ParentOrErr().Ok? ==> NaiveToOne(e.parent, db, a.origin.parentAccountID) == Some(a.ParentOrErr().value.view)
    ensures a.GroupsOrErr() == if e.groups.None? then Err(NotLoaded) else Ok(a.groups)
    ensures a.ChildrenOrErr() == if e.children.None? then Err(NotLoaded) else Ok(a.children)
    ensures a.UsageLogsOrErr() == if e.usageLogs.None? then Err(NotLoaded) else Ok(a.usageLogs)
    ensures a.AccountGroupsOrErr() == if e.accountGroups.None? then Err(NotLoaded) else Ok(a.accountGroups)
  {
  }

  lemma {:induction false} JoinAccessorTrichotomy(j: AccountGroup, e: JoinEdges, fields: seq<Column>, db: Tables)
    requires JoinSettled(j) && j.view == NaiveJoin(e, fields, db, j.origin)
    ensures j.AccountOrErr() == Err(NotLoaded) <==> e.account.None?
    ensures j.AccountOrErr() == Err(NotFound) <==> e.account.Some? && NaiveToOne(e.account, db, Some(j.origin.accountID)).None?
    ensures j.AccountOrErr().Ok? ==> NaiveToOne(e.account, db, Some(j.origin.accountID)) == Some(j.AccountOrErr().value.view)
    ensures j.GroupOrErr() == Err(NotLoaded) <==> e.group.None?
    ensures j.GroupOrErr() == Err(NotFound) <==> e.group.Some? && NaiveLeaf(e.group, db.groups, Some(j.origin.groupID)).None?
    ensures j.GroupOrErr().Ok? ==> NaiveLeaf(e.group, db.groups, Some(j.origin.groupID)) == Some(j.GroupOrErr().value.row)
  {
  }

  // ----- two routes from an account to its groups -----

  /** The groups reached through join rows. */
  ghost function ViaJoins(joins: set<JoinView>): set<LeafRow> {
    set v | v in joins && v.group.Some? :: v.group.value
  }

  /** A group is reached by both routes exactly when some join row to it passes the join
      predicates; without join predicates the routes agree. */
  lemma {:induction false} TwoRoutesToGroups(gt: LeafTree, jt: JoinTree, db: Tables, id: int)
    requires WellFormed(db) && jt.edges.group == Some(gt)
    ensures ViaJoins(NaiveJoins(Some(jt), db, id)) <= NaiveGroups(Some(gt), db, id)
    ensures ViaJoins(NaiveJoins(Some(jt), db, id)) == NaiveGroups(Some(gt), db, id) <==>
            forall g | g in db.groups && LeafMatch(gt.preds, g) && Linked(db.joins, id, g.id) ::
              exists j :: j in db.joins && JoinMatch(jt.preds, j) && j.accountID == id && j.groupID == g.id
    ensures jt.preds == [] ==> ViaJoins(NaiveJoins(Some(jt), db, id)) == NaiveGroups(Some(gt), db, id)
  {
    var via, direct := ViaJoins(NaiveJoins(Some(jt), db, id)), NaiveGroups(Some(gt), db, id);
    forall r | r in via ensures r in direct {
      var j := ReachedGroup(gt, jt, db, id, r);
    }
    forall g | g in db.groups && LeafMatch(gt.preds, g) && Linked(db.joins, id, g.id)
      ensures ProjectLeaf(g, gt.fields) in via <==>
              exists j :: j in db.joins && JoinMatch(jt.preds, j) && j.accountID == id && j.groupID == g.id
    {
      if j :| j in db.joins && JoinMatch(jt.preds, j) && j.accountID == id && j.groupID == g.id {
        FindLeafIs(db.groups, g);
        var v := NaiveJoin(jt.edges, WithForeignKey(jt.fields, AccountID), db, j);
        assert v in NaiveJoins(Some(jt), db, id) && v.group == Some(ProjectLeaf(g, gt.fields));
      }
      if ProjectLeaf(g, gt.fields) in via {
        var j := ReachedGroup(gt, jt, db, id, ProjectLeaf(g, gt.fields));
      }
    }
    if jt.preds == [] {
      forall g | g in db.groups && LeafMatch(gt.preds, g) && Linked(db.joins, id, g.id)
        ensures exists j :: j in db.joins && JoinMatch(jt.preds, j) && j.accountID == id && j.groupID == g.id
      {
        var j :| j in db.joins && j.accountID == id && j.groupID == g.id;
        assert JoinMatch(jt.preds, j);
      }
    }
  }

  lemma {:induction false} ReachedGroup(gt: LeafTree, jt: JoinTree, db: Tables, id: int, r: LeafRow)
    returns (j: JoinRow)
    requires WellFormed(db) && jt.edges.group == Some(gt)
    requires r in ViaJoins(NaiveJoins(Some(jt), db, id))
    ensures j in db.joins && JoinMatch(jt.preds, j) && j.accountID == id && j.groupID == r.id
    ensures r in NaiveGroups(Some(gt), db, id)
  {
    var v :| v in NaiveJoins(Some(jt), db, id) && v.group == Some(r);
    j :| j in db.joins && JoinMatch(jt.preds, j) && j.accountID == id
         && v == NaiveJoin(jt.edges, WithForeignKey(jt.fields, AccountID), db, j);
    var g := FindLeaf(db.groups, j.groupID).value;
    assert Linked(db.joins, id, g.id);
  }

  /** The same on loaded objects: WithGroups, and WithAccountGroups with WithGroup on each row. */
  lemma {:induction false} RoutesAgreeOnObjects(a: Account, g: Graph, e: AccountEdges, fields: seq<Column>, db: Tables)
    requires WellFormed(db) && Complete(g) && a in g.accounts && a.view == NaiveAccount(e, fields, db, a.origin)
    requires e.groups.Some? && e.accountGroups.Some?
    requires e.accountGroups.value.preds == [] && e.accountGroups.value.edges.group == e.groups
    ensures LeafRows(a.groups) == set j | j in a.accountGroups && j.group != null :: j.group.row
  {
    TwoRoutesToGroups(e.groups.value, e.accountGroups.value, db, a.origin.id);
    var via := set j | j in a.accountGroups && j.group != null :: j.group.row;
    forall j | j in a.accountGroups ensures j.view.group == LeafRowOf(j.group) {
      assert j in g.joins;
    }
    forall r | r in ViaJoins(a.view.accountGroups) ensures r in via {
      var v :| v in a.view.accountGroups && v.group == Some(r);
      var j :| j in a.accountGroups && j.view == v;
    }
    forall r | r in via ensures r in ViaJoins(a.view.accountGroups) {
      var j :| j in a.accountGroups && j.group != null && j.group.row == r;
      assert j.view in a.view.accountGroups;
    }
  }

  // ----- parent and children are converse -----

  ghost function Occurrences(s: seq<Account>, id: int): nat
    reads s
  {
    if s == [] then 0 else Occurrences(s[..|s| - 1], id) + (if s[|s| - 1].data.id == id then 1 else 0)
  }

  lemma {:induction false} OccursAtMostOnce(s: seq<Account>, id: int)
    requires OncePer(s, ViewID) && forall c | c in s :: c.data.id == ViewID(c)
    ensures Occurrences(s, id) == if exists c :: c in s && c.data.id == id then 1 else 0
  {
    if s != [] {
      var rest, last := s[..|s| - 1], s[|s| - 1];
      OccursAtMostOnce(rest, id);
      assert forall c :: c in s <==> c in rest || c == last;
      assert last !in rest;
    }
  }

  /** Over an unfiltered table loaded with both edges: p is the parent of a exactly when a occurs,
      once, among the children of p. */
  lemma {:induction false} ParentAndChildrenConverse(a: Account, p: Account, g: Graph, e: AccountEdges,
                                                     fields: seq<Column>, db: Tables)
    requires WellFormed(db) && Complete(g) && {a, p} <= g.accounts
    requires Represent([a, p], e, fields, db) && a.origin in db.accounts && p.origin in db.accounts
    requires e.parent.Some? && e.parent.value.preds == [] && e.children.Some? && e.children.value.preds == []
    ensures a.parent != null && a.parent.data.id == p.data.id <==> Occurrences(p.children, a.data.id) == 1
    ensures Occurrences(p.children, a.data.id) <= 1
    ensures Occurrences(p.children, a.data.id) == 1 <==> a.origin.parentAccountID == Some(p.origin.id)
  {
    assert a in [a, p] && p in [a, p];
    NeededColumnsKept(fields, LoadedOf(e));
    ParentLoaded(a, g, e, fields, db);
    ChildrenLoaded(a, p, g, e, fields, db);
    OccursAtMostOnce(p.children, a.data.id);
    if a.origin.parentAccountID == Some(p.origin.id) {
      FindAccountIs(db, p.origin);
    }
  }

  lemma {:induction false} ParentLoaded(a: Account, g: Graph, e: AccountEdges, fields: seq<Column>, db: Tables)
    requires WellFormed(db) && Complete(g) && a in g.accounts && a.view == NaiveAccount(e, fields, db, a.origin)
    requires e.parent.Some? && e.parent.value.preds == []
    ensures a.parent != null ==> a.origin.parentAccountID == Some(a.parent.data.id)
    ensures a.parent == null ==> a.origin.parentAccountID.None? || FindAccount(db.accounts, a.origin.parentAccountID.value).None?
  {
    if a.origin.parentAccountID.Some? {
      var fk := a.origin.parentAccountID.value;
      var found := FindAccount(db.accounts, fk);
      if found.Some? {
        assert AccountMatch(e.parent.value.preds, found.value);
        NeededColumnsKept(e.parent.value.fields, LoadedOf(e.parent.value.edges));
        assert ViewOf(a.parent) == Some(NaiveAccount(e.parent.value.edges, e.parent.value.fields, db, found.value));
        assert Settled(a.parent) && found.value.id == fk;
      }
    }
  }

  lemma {:induction false} ChildrenLoaded(a: Account, p: Account, g: Graph, e: AccountEdges, fields: seq<Column>,
                                          db: Tables)
    requires WellFormed(db) && Complete(g) && p in g.accounts && p.view == NaiveAccount(e, fields, db, p.origin)
    requires a.origin in db.accounts && a.data.id == a.origin.id
    requires e.children.Some? && e.children.value.preds == []
    ensures forall c | c in p.children :: c.data.id == ViewID(c)
    ensures (exists c :: c in p.children && c.data.id == a.data.id) <==> a.origin.parentAccountID == Some(p.origin.id)
  {
    var t := e.children.value;
    var fs := WithForeignKey(t.fields, ParentAccountID);
    NeededColumnsKept(fs, LoadedOf(t.edges));
    forall c | c in p.children ensures c in g.accounts && c.data.id == ViewID(c) {
      assert Settled(c);
    }
    if c :| c in p.children && c.data.id == a.data.id {
      assert c.view in p.view.children;
      var r :| r in db.accounts && AccountMatch(t.preds, r) && r.parentAccountID == Some(p.origin.id)
               && c.view == NaiveAccount(t.edges, fs, db, r);
      assert SameID(r, a.origin);
    }
    if a.origin.parentAccountID == Some(p.origin.id) {
      assert AccountMatch(t.preds, a.origin);
      var v := NaiveAccount(t.edges, fs, db, a.origin);
      assert v in AccountViews(p.children);
      var c :| c in p.children && c.view == v;
      assert c.data.id == a.data.id;
    }
  }

  // ----- to-many edges hold every row once -----

  /** Each to-many list has exactly one entry for each row that a lookup for this account alone
      finds, also when the selected columns do not tell those rows apart. */
  lemma {:induction false} OneEntryPerRow(a: Account, g: Graph, e: AccountEdges, fields: seq<Column>, db: Tables)
    requires Complete(g) && a in g.accounts && a.view == NaiveAccount(e, fields, db, a.origin)
    ensures e.accountGroups.Some? ==>
      var rows := set j | j in db.joins && JoinMatch(e.accountGroups.value.preds, j) && j.accountID == a.origin.id;
      Keys(a.accountGroups, JoinOrigin) == rows && |a.accountGroups| == |rows|
    ensures e.usageLogs.Some? ==>
      var ids := set l | l in db.logs && LogMatch(e.usageLogs.value.preds, l) && l.accountID == a.origin.id :: l.id;
      Keys(a.usageLogs, LogID) == ids && |a.usageLogs| == |ids|
    ensures e.groups.Some? ==>
      var ids := set r | r in db.groups && LeafMatch(e.groups.value.preds, r) && Linked(db.joins, a.origin.id, r.id) :: r.id;
      Keys(a.groups, LeafID) == ids && |a.groups| == |ids|
    ensures e.children.Some? ==>
      var ids := set r | r in db.accounts && AccountMatch(e.children.value.preds, r)
                         && r.parentAccountID == Some(a.origin.id) :: r.id;
      Keys(a.children, ViewID) == ids && |a.children| == |ids|
  {
    hide Settled;
    SettledIn(a, g);
    if e.accountGroups.Some? {
      OneEntryPerJoinRow(a, e.accountGroups.value, db, a.origin.id);
    }
    if e.usageLogs.Some? {
      OneEntryPerLog(a, e.usageLogs.value, db, a.origin.id);
    }
    if e.groups.Some? {
      OneEntryPerGroup(a, e.groups.value, db, a.origin.id);
    }
    if e.children.Some? {
      OneEntryPerChild(a, e.children.value, db, a.origin.id);
    }
  }

  lemma {:induction false} SettledIn(a: Account, g: Graph)
    requires Complete(g) && a in g.accounts
    ensures Settled(a) && forall j | j in a.accountGroups :: j.view.key == j.origin
    ensures forall c | c in a.children :: c.data == c.view.data
  {
    assert EdgesIn(a, g);
    forall j | j in a.accountGroups ensures j.view.key == j.origin {
      assert JoinSettled(j);
    }
    forall c | c in a.children ensures c.data == c.view.data {
      assert Settled(c);
    }
  }

  lemma {:induction false} OneEntryPerJoinRow(a: Account, t: JoinTree, db: Tables, id: int)
    requires Settled(a) && a.view.accountGroups == NaiveJoins(Some(t), db, id)
    requires forall j | j in a.accountGroups :: j.view.key == j.origin
    ensures var rows := set j | j in db.joins && JoinMatch(t.preds, j) && j.accountID == id;
            Keys(a.accountGroups, JoinOrigin) == rows && |a.accountGroups| == |rows|
  {
    var rows := set j | j in db.joins && JoinMatch(t.preds, j) && j.accountID == id;
    OncePerCount(a.accountGroups, JoinOrigin);
    forall r | r in rows ensures r in Keys(a.accountGroups, JoinOrigin) {
      var v := NaiveJoin(t.edges, WithForeignKey(t.fields, AccountID), db, r);
      assert v in JoinViews(a.accountGroups);
      var j :| j in a.accountGroups && j.view == v;
    }
    forall j | j in a.accountGroups ensures JoinOrigin(j) in rows {
      assert j.view in NaiveJoins(Some(t), db, id);
    }
  }

  lemma {:induction false} OneEntryPerLog(a: Account, t: LogTree, db: Tables, id: int)
    requires Settled(a) && a.view.usageLogs == NaiveLogs(Some(t), db, id)
    ensures var ids := set l | l in db.logs && LogMatch(t.preds, l) && l.accountID == id :: l.id;
            Keys(a.usageLogs, LogID) == ids && |a.usageLogs| == |ids|
  {
    OncePerCount(a.usageLogs, LogID);
    forall r | r in db.logs && LogMatch(t.preds, r) && r.accountID == id
      ensures r.id in Keys(a.usageLogs, LogID)
    {
      var v := ProjectLog(r, WithForeignKey(t.fields, AccountID));
      assert v in LogRows(a.usageLogs);
      var l :| l in a.usageLogs && l.row == v;
    }
    forall l | l in a.usageLogs
      ensures LogID(l) in set r | r in db.logs && LogMatch(t.preds, r) && r.accountID == id :: r.id
    {
      assert l.row in NaiveLogs(Some(t), db, id);
    }
  }

  lemma {:induction false} OneEntryPerGroup(a: Account, t: LeafTree, db: Tables, id: int)
    requires Settled(a) && a.view.groups == NaiveGroups(Some(t), db, id)
    ensures var ids := set r | r in db.groups && LeafMatch(t.preds, r) && Linked(db.joins, id, r.id) :: r.id;
            Keys(a.groups, LeafID) == ids && |a.groups| == |ids|
  {
    OncePerCount(a.groups, LeafID);
    forall r | r in db.groups && LeafMatch(t.preds, r) && Linked(db.joins, id, r.id)
      ensures r.id in Keys(a.groups, LeafID)
    {
      var v := ProjectLeaf(r, t.fields);
      assert v in LeafRows(a.groups);
      var l :| l in a.groups && l.row == v;
    }
    forall l | l in a.groups
      ensures LeafID(l) in set r | r in db.groups && LeafMatch(t.preds, r) && Linked(db.joins, id, r.id) :: r.id
    {
      assert l.row in NaiveGroups(Some(t), db, id);
    }
  }

  lemma {:induction false} OneEntryPerChild(a: Account, t: AccountTree, db: Tables, id: int)
    requires Settled(a) && a.view.children == NaiveChildren(Some(t), db, id)
    ensures var ids := set r | r in db.accounts && AccountMatch(t.preds, r) && r.parentAccountID == Some(id) :: r.id;
            Keys(a.children, ViewID) == ids && |a.children| == |ids|
  {
    var fields := WithForeignKey(t.fields, ParentAccountID);
    NeededColumnsKept(fields, LoadedOf(t.edges));
    OncePerCount(a.children, ViewID);
    forall r | r in db.accounts && AccountMatch(t.preds, r) && r.parentAccountID == Some(id)
      ensures r.id in Keys(a.children, ViewID)
    {
      var v := NaiveAccount(t.edges, fields, db, r);
      assert v in AccountViews(a.children);
      var c :| c in a.children && c.view == v;
    }
    forall c | c in a.children
      ensures ViewID(c) in set r | r in db.accounts && AccountMatch(t.preds, r) && r.parentAccountID == Some(id) :: r.id
    {
      assert c.view in NaiveChildren(Some(t), db, id);
      var r :| r in db.accounts && AccountMatch(t.preds, r) && r.parentAccountID == Some(id)
               && c.view == NaiveAccount(t.edges, fields, db, r);
    }
  }

  // ----- column selection never loses an edge -----

  /** An account graph without its columns: the ids of rows and the edges between them. */
  datatype Skeleton = Skeleton(id: int, loaded: Loaded, groups: set<int>, proxy: Option<int>, owner: Option<int>,
                               parent: Option<Skeleton>, children: set<Skeleton>, usageLogs: set<int>,
                               accountGroups: set<JoinSkeleton>)
  datatype JoinSkeleton = JoinSkeleton(key: JoinRow, loaded: JoinLoaded, account: Option<Skeleton>, group: Option<int>)

  ghost function LeafIDOf(r: Option<LeafRow>): Option<int> { if r.None? then None else Some(r.value.id) }

  ghost function Bones(v: AccountView): Skeleton {
    Skeleton(v.data.id, v.loaded, set g | g in v.groups :: g.id, LeafIDOf(v.proxy), LeafIDOf(v.owner),
             if v.parent.None? then None else Some(Bones(v.parent.value)),
             set c | c in v.children :: Bones(c), set l | l in v.usageLogs :: l.id,
             set j | j in v.accountGroups :: JoinBones(j))
  }

  ghost function JoinBones(v: JoinView): JoinSkeleton {
    JoinSkeleton(v.key, v.loaded, if v.account.None? then None else Some(Bones(v.account.value)), LeafIDOf(v.group))
  }

  ghost predicate SameButFields(e: AccountEdges, f: AccountEdges)
    decreases e
  {
    && LoadedOf(e) == LoadedOf(f)
    && (e.groups.Some? ==> e.groups.value.preds == f.groups.value.preds)
    && (e.proxy.Some? ==> e.proxy.value.preds == f.proxy.value.preds)
    && (e.owner.Some? ==> e.owner.value.preds == f.owner.value.preds)
    && (e.usageLogs.Some? ==> e.usageLogs.value.preds == f.usageLogs.value.preds)
    && (e.parent.Some? ==> SameTreeButFields(e.parent.value, f.parent.value))
    && (e.children.Some? ==> SameTreeButFields(e.children.value, f.children.value))
    && (e.accountGroups.Some? ==> SameJoinButFields(e.accountGroups.value, f.accountGroups.value))
  }

  ghost predicate SameTreeButFields(s: AccountTree, t: AccountTree)
    decreases s
  {
    s.preds == t.preds && SameButFields(s.edges, t.edges)
  }

  ghost predicate SameJoinButFields(s: JoinTree, t: JoinTree)
    decreases s
  {
    && s.preds == t.preds && JoinLoadedOf(s.edges) == JoinLoadedOf(t.edges)
    && (s.edges.group.Some? ==> s.edges.group.value.preds == t.edges.group.value.preds)
    && (s.edges.account.Some? ==> SameTreeButFields(s.edges.account.value, t.edges.account.value))
  }

  /** Two queries that differ only in the columns they select, anywhere in their trees, load the
      same edges. */
  lemma {:induction false} SelectionKeepsEdges(e: AccountEdges, fields: seq<Column>, f: AccountEdges,
                                               fields': seq<Column>, db: Tables, row: AccountRow)
    requires SameButFields(e, f)
    ensures Bones(NaiveAccount(e, fields, db, row)) == Bones(NaiveAccount(f, fields', db, row))
    decreases e
  {
    hide NaiveGroups, NaiveLogs, NaiveToOne, NaiveChildren, NaiveJoins, Bones;
    var v, w := NaiveAccount(e, fields, db, row), NaiveAccount(f, fields', db, row);
    ColumnBones(e, fields, f, fields', db, row);
    GroupBones(v, w, e.groups, f.groups, db, row.id);
    LogBones(v, w, e.usageLogs, f.usageLogs, db, row.id);
    ToOneBones(e.parent, f.parent, db, row.parentAccountID);
    ParentBones(v, w);
    ChildrenBones(v, w, e.children, f.children, db, row.id);
    JoinsBones(v, w, e.accountGroups, f.accountGroups, db, row.id);
  }

  /** The same on loaded objects: two runs whose queries differ only in selected columns reach the
      same edges from nodes for one row. */
  lemma {:induction false} SelectionKeepsLoadedEdges(a: Account, g: Graph, e: AccountEdges, fields: seq<Column>,
                                                     b: Account, h: Graph, f: AccountEdges, fields': seq<Column>,
                                                     db: Tables)
    requires Complete(g) && a in g.accounts && a.view == NaiveAccount(e, fields, db, a.origin)
    requires Complete(h) && b in h.accounts && b.view == NaiveAccount(f, fields', db, b.origin)
    requires SameButFields(e, f) && a.origin == b.origin
    ensures Bones(Read(a, g)) == Bones(Read(b, h))
  {
    ReadIsView(a, g);
    ReadIsView(b, h);
    SelectionKeepsEdges(e, fields, f, fields', db, a.origin);
  }

  lemma {:induction false} ColumnBones(e: AccountEdges, fields: seq<Column>, f: AccountEdges, fields': seq<Column>,
                                       db: Tables, row: AccountRow)
    requires SameButFields(e, f)
    ensures var v, w := Bones(NaiveAccount(e, fields, db, row)), Bones(NaiveAccount(f, fields', db, row));
            v.id == w.id && v.loaded == w.loaded && v.proxy == w.proxy && v.owner == w.owner
  {
    hide NaiveGroups, NaiveLogs, NaiveToOne, NaiveChildren, NaiveJoins, AccountColumnsOf;
    NeededColumnsKept(fields, LoadedOf(e));
    NeededColumnsKept(fields', LoadedOf(f));
  }

  lemma {:induction false} ParentBones(v: AccountView, w: AccountView)
    requires v.parent.Some? == w.parent.Some? && (v.parent.Some? ==> Bones(v.parent.value) == Bones(w.parent.value))
    ensures Bones(v).parent == Bones(w).parent
  {
  }

  lemma {:induction false} GroupBones(v: AccountView, w: AccountView, s: Option<LeafTree>, t: Option<LeafTree>,
                                      db: Tables, id: int)
    requires s.Some? == t.Some? && (s.Some? ==> s.value.preds == t.value.preds)
    requires v.groups == NaiveGroups(s, db, id) && w.groups == NaiveGroups(t, db, id)
    ensures Bones(v).groups == Bones(w).groups
  {
    if s.Some? {
      forall g | g in db.groups && LeafMatch(s.value.preds, g) && Linked(db.joins, id, g.id)
        ensures g.id in Bones(v).groups * Bones(w).groups
      {
        assert ProjectLeaf(g, s.value.fields) in v.groups && ProjectLeaf(g, t.value.fields) in w.groups;
      }
    }
  }

  lemma {:induction false} LogBones(v: AccountView, w: AccountView, s: Option<LogTree>, t: Option<LogTree>,
                                    db: Tables, id: int)
    requires s.Some? == t.Some? && (s.Some? ==> s.value.preds == t.value.preds)
    requires v.usageLogs == NaiveLogs(s, db, id) && w.usageLogs == NaiveLogs(t, db, id)
    ensures Bones(v).usageLogs == Bones(w).usageLogs
  {
    if s.Some? {
      forall l | l in db.logs && LogMatch(s.value.preds, l) && l.accountID == id
        ensures l.id in Bones(v).usageLogs * Bones(w).usageLogs
      {
        assert ProjectLog(l, WithForeignKey(s.value.fields, AccountID)) in v.usageLogs;
        assert ProjectLog(l, WithForeignKey(t.value.fields, AccountID)) in w.usageLogs;
      }
    }
  }

  lemma {:induction false} ToOneBones(s: Option<AccountTree>, t: Option<AccountTree>, db: Tables, fk: Option<int>)
    requires s.Some? == t.Some? && (s.Some? ==> SameTreeButFields(s.value, t.value))
    ensures var v, w := NaiveToOne(s, db, fk), NaiveToOne(t, db, fk);
            v.Some? == w.Some? && (v.Some? ==> Bones(v.value) == Bones(w.value))
    decreases s
  {
    if s.Some? && fk.Some? && FindAccount(db.accounts, fk.value).Some? {
      var r := FindAccount(db.accounts, fk.value).value;
      SelectionKeepsEdges(s.value.edges, s.value.fields, t.value.edges, t.value.fields, db, r);
    }
  }

  lemma {:induction false} ChildrenBones(v: AccountView, w: AccountView, s: Option<AccountTree>,
                                         t: Option<AccountTree>, db: Tables, id: int)
    requires s.Some? == t.Some? && (s.Some? ==> SameTreeButFields(s.value, t.value))
    requires v.children == NaiveChildren(s, db, id) && w.children == NaiveChildren(t, db, id)
    ensures Bones(v).children == Bones(w).children
    decreases s
  {
    if s.Some? {
      var sf, tf := WithForeignKey(s.value.fields, ParentAccountID), WithForeignKey(t.value.fields, ParentAccountID);
      hide NaiveAccount, SameButFields, AccountMatch, WithForeignKey;
      forall x | x in Bones(v).children ensures x in Bones(w).children {
        var c :| c in v.children && Bones(c) == x;
        var r :| r in db.accounts && AccountMatch(s.value.preds, r) && r.parentAccountID == Some(id)
                 && c == NaiveAccount(s.value.edges, sf, db, r);
        SelectionKeepsEdges(s.value.edges, sf, t.value.edges, tf, db, r);
        assert NaiveAccount(t.value.edges, tf, db, r) in w.children;
      }
      forall x | x in Bones(w).children ensures x in Bones(v).children {
        var c :| c in w.children && Bones(c) == x;
        var r :| r in db.accounts && AccountMatch(t.value.preds, r) && r.parentAccountID == Some(id)
                 && c == NaiveAccount(t.value.edges, tf, db, r);
        SelectionKeepsEdges(s.value.edges, sf, t.value.edges, tf, db, r);
        assert NaiveAccount(s.value.edges, sf, db, r) in v.children;
      }
    }
  }

  lemma {:induction false} JoinsBones(v: AccountView, w: AccountView, s: Option<JoinTree>, t: Option<JoinTree>,
                                      db: Tables, id: int)
    requires s.Some? == t.Some? && (s.Some? ==> SameJoinButFields(s.value, t.value))
    requires v.accountGroups == NaiveJoins(s, db, id) && w.accountGroups == NaiveJoins(t, db, id)
    ensures Bones(v).accountGroups == Bones(w).accountGroups
    decreases s
  {
    hide NaiveToOne, JoinMatch, WithForeignKey, JoinColumnsOf;
    if s.Some? {
      var sf, tf := WithForeignKey(s.value.fields, AccountID), WithForeignKey(t.value.fields, AccountID);
      forall r | r in db.joins && JoinMatch(s.value.preds, r) && r.accountID == id
        ensures JoinBones(NaiveJoin(s.value.edges, sf, db, r)) == JoinBones(NaiveJoin(t.value.edges, tf, db, r))
        ensures JoinBones(NaiveJoin(s.value.edges, sf, db, r)) in Bones(v).accountGroups * Bones(w).accountGroups
      {
        ToOneBones(s.value.edges.account, t.value.edges.account, db, Some(r.accountID));
        assert NaiveJoin(s.value.edges, sf, db, r) in v.accountGroups && NaiveJoin(t.value.edges, tf, db, r) in w.accountGroups;
      }
    }
  }
}

/** The stale-event guard of tabs: session epochs only grow, so a scope that went stale stays stale. */
module TabGuard {
  import opened Common

  type TabId = nat
  type RemoteSession = nat

  datatype Connection =
    | Idle
    | Connecting(session: RemoteSession, epoch: nat)
    | AwaitingHostKey(session: RemoteSession, epoch: nat, request: nat)
    | Connected(session: RemoteSession, epoch: nat, at: Timestamp)
    | Reconnecting(session: RemoteSession, previous: RemoteSession, epoch: nat)
    | Disconnected
    | ConnectFailed

  datatype Tab = Tab(id: TabId, epoch: nat, connection: Connection)

  datatype Scope = Scope(tabId: TabId, session: RemoteSession, epoch: nat)

  predicate IsLive(c: Connection) {
    c.Connecting? || c.AwaitingHostKey? || c.Connected? || c.Reconnecting?
  }

  predicate MatchesSession(c: Connection, session: RemoteSession, epoch: nat) {
    IsLive(c) && c.session == session && c.epoch == epoch
  }

  function FirstTab(tabs: seq<Tab>, id: TabId): (r: Option<nat>)
    ensures r.Some? ==> r.value < |tabs| && tabs[r.value].id == id
    ensures r.None? ==> forall i | 0 <= i < |tabs| :: tabs[i].id != id
  {
    FirstIndex(tabs, (t: Tab) => t.id == id)
  }

  predicate AcceptedBy(tab: Tab, scope: Scope) {
    && tab.id == scope.tabId && tab.epoch == scope.epoch
    && MatchesSession(tab.connection, scope.session, scope.epoch)
  }

  predicate Accepts(tabs: seq<Tab>, scope: Scope) {
    match FirstTab(tabs, scope.tabId)
    case None => false
    case Some(i) => AcceptedBy(tabs[i], scope)
  }

  lemma FirstTabIs(tabs: seq<Tab>, id: TabId, i: nat)
    requires i < |tabs| && tabs[i].id == id && forall k | 0 <= k < i :: tabs[k].id != id
    ensures FirstTab(tabs, id) == Some(i)
  {
  }

  // ----- what moves a tab -----

  datatype Move =
    | BeginConnect(session: RemoteSession)
    | AwaitHostKey(session: RemoteSession, request: nat)
    | CompleteConnect(session: RemoteSession, at: Timestamp)
    | BeginReconnect(session: RemoteSession)
    | Disconnect
    | Fail

  function Moved(t: Tab, move: Move): Tab {
    match move
    case BeginConnect(s) => t.(epoch := t.epoch + 1, connection := Connecting(s, t.epoch + 1))
    case AwaitHostKey(s, request) => t.(connection := AwaitingHostKey(s, t.epoch, request))
    case CompleteConnect(s, at) => t.(connection := Connected(s, t.epoch, at))
    case BeginReconnect(s) =>
      var previous := if t.connection.Connected? then t.connection.session else 0;
      t.(epoch := t.epoch + 1, connection := Reconnecting(s, previous, t.epoch + 1))
    case Disconnect => t.(connection := Disconnected)
    case Fail => t.(connection := ConnectFailed)
  }

  datatype Op = Open(id: TabId) | Close(id: TabId) | OnTab(id: TabId, move: Move)

  function Apply(tabs: seq<Tab>, op: Op): seq<Tab> {
    match op
    case Open(id) => tabs + [Tab(id, 0, Idle)]
    case Close(id) =>
      (match FirstTab(tabs, id) case None => tabs case Some(i) => tabs[..i] + tabs[i + 1..])
    case OnTab(id, move) =>
      (match FirstTab(tabs, id) case None => tabs case Some(i) => tabs[i := Moved(tabs[i], move)])
  }

  function Run(tabs: seq<Tab>, ops: seq<Op>): seq<Tab> {
    if ops == [] then tabs else Apply(Run(tabs, ops[..|ops| - 1]), ops[|ops| - 1])
  }

  /** Tab ids are never used twice. */
  ghost predicate FreshIds(ops: seq<Op>) {
    forall i, j | 0 <= i < j < |ops| && ops[i].Open? && ops[j].Open? :: ops[i].id != ops[j].id
  }

  ghost predicate DistinctTabs(tabs: seq<Tab>) {
    forall i, j | 0 <= i < j < |tabs| :: tabs[i].id != tabs[j].id
  }

  /** Every tab was opened by one of the operations. */
  ghost predicate AllOpened(tabs: seq<Tab>, ops: seq<Op>) {
    forall i | 0 <= i < |tabs| :: exists k :: 0 <= k < |ops| && ops[k] == Open(tabs[i].id)
  }

  lemma {:induction false} RunTabs(ops: seq<Op>)
    requires FreshIds(ops)
    ensures DistinctTabs(Run([], ops)) && AllOpened(Run([], ops), ops)
  {
    if ops != [] {
      RunTabs(ops[..|ops| - 1]);
      OneMoreOp(Run([], ops[..|ops| - 1]), ops);
    }
  }

  lemma OpeningOf(tabs: seq<Tab>, ops: seq<Op>, i: nat) returns (k: nat)
    requires AllOpened(tabs, ops) && i < |tabs|
    ensures k < |ops| && ops[k] == Open(tabs[i].id)
  {
    var id := tabs[i].id;
    k :| 0 <= k < |ops| && ops[k] == Open(id);
  }

  lemma OneMoreOp(tabs: seq<Tab>, ops: seq<Op>)
    requires FreshIds(ops) && ops != [] && DistinctTabs(tabs) && AllOpened(tabs, ops[..|ops| - 1])
    ensures DistinctTabs(Apply(tabs, ops[|ops| - 1])) && AllOpened(Apply(tabs, ops[|ops| - 1]), ops)
  {
    var front, last := ops[..|ops| - 1], ops[|ops| - 1];
    forall i | 0 <= i < |tabs|
      ensures exists k :: 0 <= k < |ops| && ops[k] == Open(tabs[i].id)
      ensures last != Open(tabs[i].id)
    {
      var k := OpeningOf(tabs, front, i);
      assert ops[k] == Open(tabs[i].id);
    }
    OpKeepsIds(tabs, last);
    var after := Apply(tabs, last);
    forall i | 0 <= i < |after|
      ensures exists k :: 0 <= k < |ops| && ops[k] == Open(after[i].id)
    {
      if last != Open(after[i].id) {
        var j :| 0 <= j < |tabs| && tabs[j].id == after[i].id;
      }
    }
  }

  /** An operation keeps ids distinct and brings in only the id it opens. */
  lemma OpKeepsIds(tabs: seq<Tab>, op: Op)
    requires DistinctTabs(tabs) && forall i | 0 <= i < |tabs| :: op != Open(tabs[i].id)
    ensures DistinctTabs(Apply(tabs, op))
    ensures forall i | 0 <= i < |Apply(tabs, op)| ::
              op == Open(Apply(tabs, op)[i].id) || exists j :: 0 <= j < |tabs| && tabs[j].id == Apply(tabs, op)[i].id
  {
    var after := Apply(tabs, op);
    if op.Open? {
      assert forall i | 0 <= i < |tabs| :: after[i] == tabs[i];
    } else if |after| == |tabs| {
      assert forall i | 0 <= i < |tabs| :: after[i].id == tabs[i].id;
    } else {
      var n := FirstTab(tabs, op.id).value;
      assert forall i | 0 <= i < |after| :: after[i] == tabs[if i < n then i else i + 1];
    }
  }

  /** The tab is gone, or has moved past the scope's epoch. */
  ghost predicate Stale(tabs: seq<Tab>, scope: Scope) {
    forall i | 0 <= i < |tabs| && tabs[i].id == scope.tabId :: tabs[i].epoch > scope.epoch
  }

  /** The tab, if there, has reached the scope's epoch. */
  ghost predicate CaughtUp(tabs: seq<Tab>, scope: Scope) {
    forall i | 0 <= i < |tabs| && tabs[i].id == scope.tabId :: tabs[i].epoch >= scope.epoch
  }

  /** The operation ends the session the scope belongs to. */
  predicate Supersedes(op: Op, tab: TabId) {
    op == Close(tab) || (op.OnTab? && op.id == tab && (op.move.BeginConnect? || op.move.BeginReconnect?))
  }

  lemma SupersededIsStale(tabs: seq<Tab>, op: Op, scope: Scope)
    requires DistinctTabs(tabs) && Supersedes(op, scope.tabId)
    requires CaughtUp(tabs, scope)
    ensures Stale(Apply(tabs, op), scope)
  {
  }

  lemma StaleStays(tabs: seq<Tab>, op: Op, scope: Scope)
    requires Stale(tabs, scope) && op != Open(scope.tabId)
    ensures Stale(Apply(tabs, op), scope)
  {
  }

  /** Epochs of a tab never fall, whatever happens to it. */
  lemma EpochsGrow(tabs: seq<Tab>, op: Op, scope: Scope)
    requires op != Open(scope.tabId)
    requires CaughtUp(tabs, scope)
    ensures CaughtUp(Apply(tabs, op), scope)
  {
  }

  /** An operation on one tab leaves every other tab as it is, and heard as it was. */
  lemma OtherTabsStay(tabs: seq<Tab>, op: Op)
    ensures forall t: Tab | t.id != op.id :: t in Apply(tabs, op) <==> t in tabs
    ensures forall scope: Scope | scope.tabId != op.id :: Accepts(Apply(tabs, op), scope) <==> Accepts(tabs, scope)
  {
    forall t: Tab | t.id != op.id
      ensures t in Apply(tabs, op) <==> t in tabs
    {
      OtherTabKept(tabs, op, t);
    }
    forall scope: Scope | scope.tabId != op.id
      ensures Accepts(Apply(tabs, op), scope) <==> Accepts(tabs, scope)
    {
      OtherTabFound(tabs, op, scope.tabId);
    }
  }

  lemma OtherTabKept(tabs: seq<Tab>, op: Op, t: Tab)
    requires t.id != op.id
    ensures t in Apply(tabs, op) <==> t in tabs
  {
    var after := Apply(tabs, op);
    if i :| 0 <= i < |tabs| && tabs[i] == t {
      if op.Close? && |after| < |tabs| {
        var n := FirstTab(tabs, op.id).value;
        assert after[if i < n then i else i - 1] == t;
      } else {
        assert after[i] == t;
      }
    }
    if i :| 0 <= i < |after| && after[i] == t {
      if op.Close? && |after| < |tabs| {
        var n := FirstTab(tabs, op.id).value;
        assert tabs[if i < n then i else i + 1] == t;
      } else {
        assert tabs[i] == t;
      }
    }
  }

  lemma OtherTabFound(tabs: seq<Tab>, op: Op, id: TabId)
    requires id != op.id
    ensures var after := Apply(tabs, op);
            match FirstTab(tabs, id)
            case None => FirstTab(after, id).None?
            case Some(i) => FirstTab(after, id).Some? && after[FirstTab(after, id).value] == tabs[i]
  {
    var after := Apply(tabs, op);
    match FirstTab(tabs, id)
    case None =>
      forall i | 0 <= i < |after|
        ensures after[i].id != id
      {
        if after[i].id != op.id {
          OtherTabKept(tabs, op, after[i]);
        }
      }
    case Some(i) =>
      if op.Close? && |after| < |tabs| {
        var n := FirstTab(tabs, op.id).value;
        assert forall k | 0 <= k < |after| :: after[k] == tabs[if k < n then k else k + 1];
        FirstTabIs(after, id, if i < n then i else i - 1);
      } else {
        FirstTabIs(after, id, i);
      }
  }

  lemma RunStep(ops: seq<Op>, k: nat)
    requires k < |ops|
    ensures Run([], ops[..k + 1]) == Apply(Run([], ops[..k]), ops[k])
  {
    assert ops[..k + 1][..k] == ops[..k];
  }

  /** From the moment a scope is accepted its tab is open, so its id is not opened again. */
  lemma NotReopened(ops: seq<Op>, i: nat, k: nat, scope: Scope)
    requires FreshIds(ops) && i <= k < |ops| && Accepts(Run([], ops[..i]), scope)
    ensures ops[k] != Open(scope.tabId)
  {
    assert FreshIds(ops[..i]);
    RunTabs(ops[..i]);
    var tabs := Run([], ops[..i]);
    var t := FirstTab(tabs, scope.tabId).value;
    var m :| 0 <= m < |ops[..i]| && ops[..i][m] == Open(tabs[t].id);
    assert ops[m] == Open(scope.tabId);
  }

  lemma AcceptedIsCaughtUp(tabs: seq<Tab>, scope: Scope)
    requires DistinctTabs(tabs) && Accepts(tabs, scope)
    ensures CaughtUp(tabs, scope)
  {
  }

  lemma DistinctAfter(ops: seq<Op>, k: nat)
    requires FreshIds(ops) && k <= |ops|
    ensures DistinctTabs(Run([], ops[..k]))
  {
    assert FreshIds(ops[..k]);
    RunTabs(ops[..k]);
  }

  lemma {:induction false} EpochsKeepUp(ops: seq<Op>, i: nat, j: nat, scope: Scope)
    requires FreshIds(ops) && i <= j <= |ops| && Accepts(Run([], ops[..i]), scope)
    ensures CaughtUp(Run([], ops[..j]), scope)
    decreases j - i
  {
    if i == j {
      DistinctAfter(ops, i);
      AcceptedIsCaughtUp(Run([], ops[..i]), scope);
    } else {
      EpochsKeepUp(ops, i, j - 1, scope);
      NotReopened(ops, i, j - 1, scope);
      EpochsGrow(Run([], ops[..j - 1]), ops[j - 1], scope);
      RunStep(ops, j - 1);
    }
  }

  /** Right after the superseding operation the scope is stale. */
  lemma StaleAt(ops: seq<Op>, i: nat, k: nat, scope: Scope)
    requires FreshIds(ops) && i <= k < |ops| && Accepts(Run([], ops[..i]), scope) && Supersedes(ops[k], scope.tabId)
    ensures Stale(Run([], ops[..k + 1]), scope)
  {
    DistinctAfter(ops, k);
    EpochsKeepUp(ops, i, k, scope);
    SupersededIsStale(Run([], ops[..k]), ops[k], scope);
    RunStep(ops, k);
  }

  lemma StaleNext(ops: seq<Op>, k: nat, scope: Scope)
    requires k < |ops| && Stale(Run([], ops[..k]), scope) && ops[k] != Open(scope.tabId)
    ensures Stale(Run([], ops[..k + 1]), scope)
  {
    StaleStays(Run([], ops[..k]), ops[k], scope);
    RunStep(ops, k);
  }

  lemma {:induction false} StaleFrom(ops: seq<Op>, i: nat, k: nat, j: nat, scope: Scope)
    requires FreshIds(ops) && i <= k < j <= |ops| && Accepts(Run([], ops[..i]), scope)
    requires Supersedes(ops[k], scope.tabId)
    ensures Stale(Run([], ops[..j]), scope)
    decreases j
  {
    if j == k + 1 {
      StaleAt(ops, i, k, scope);
    } else {
      StaleFrom(ops, i, k, j - 1, scope);
      NotReopened(ops, i, j - 1, scope);
      StaleNext(ops, j - 1, scope);
    }
  }

  /**
   Once a tab reconnects or closes, no event of the session before is accepted
   again, however late it arrives and whatever happens in between.
   */
  lemma StaleForever(ops: seq<Op>, i: nat, k: nat, j: nat, scope: Scope)
    requires FreshIds(ops) && i <= k < j <= |ops| && Accepts(Run([], ops[..i]), scope)
    requires Supersedes(ops[k], scope.tabId)
    ensures !Accepts(Run([], ops[..j]), scope)
  {
    StaleFrom(ops, i, k, j, scope);
  }
}

/**
 Tabs as the objects of the program: a tab moves by assigning its own fields, the
 store keeps the tab objects, and the application drops modals that went stale.
 */
module TabStores {
  import opened Common
  import opened TabGuard

  class TabState {
    const id: TabId
    var epoch: nat
    var connection: Connection

    ghost function Value(): Tab
      reads this
    {
      Tab(id, epoch, connection)
    }

    /** No event at all is accepted, of whatever session. */
    ghost predicate Deaf()
      reads this
    {
      forall scope :: !AcceptedBy(Value(), scope)
    }

    /** Exactly the events of this session at the current epoch are accepted. */
    ghost predicate Hears(session: RemoteSession)
      reads this
    {
      forall scope :: AcceptedBy(Value(), scope) <==> scope == Scope(id, session, epoch)
    }

    constructor (id: TabId)
      ensures Value() == Tab(id, 0, Idle) && Deaf()
    {
      this.id, epoch, connection := id, 0, Idle;
    }

    method AcceptsRemoteEvent(scope: Scope) returns (accepted: bool)
      ensures accepted == AcceptedBy(Value(), scope)
    {
      if id != scope.tabId || epoch != scope.epoch {
        return false;
      }
      match connection
      case Connecting(session, current) => accepted := session == scope.session && current == scope.epoch;
      case AwaitingHostKey(session, current, _) => accepted := session == scope.session && current == scope.epoch;
      case Connected(session, current, _) => accepted := session == scope.session && current == scope.epoch;
      case Reconnecting(session, _, current) => accepted := session == scope.session && current == scope.epoch;
      case _ => accepted := false;
    }

    /** A new epoch: only the new session is heard, so nothing sent under an earlier epoch is. */
    method BeginConnect(session: RemoteSession)
      modifies this
      ensures epoch == old(epoch) + 1 && Hears(session)
      ensures Value() == Moved(old(Value()), Move.BeginConnect(session))
    {
      epoch := epoch + 1;
      connection := Connecting(session, epoch);
    }

    method AwaitHostKey(session: RemoteSession, request: nat)
      modifies this`connection
      ensures Hears(session)
      ensures Value() == Moved(old(Value()), Move.AwaitHostKey(session, request))
    {
      connection := AwaitingHostKey(session, epoch, request);
    }

    method CompleteConnect(session: RemoteSession, at: Timestamp)
      modifies this`connection
      ensures Hears(session)
      ensures Value() == Moved(old(Value()), Move.CompleteConnect(session, at))
    {
      connection := Connected(session, epoch, at);
    }

    /** As `BeginConnect`, with the session it replaces kept for diagnostics. */
    method BeginReconnect(session: RemoteSession)
      modifies this
      ensures epoch == old(epoch) + 1 && Hears(session)
      ensures connection.Reconnecting?
              && connection.previous == if old(connection).Connected? then old(connection).session else 0
      ensures Value() == Moved(old(Value()), Move.BeginReconnect(session))
    {
      var previous := 0;
      match connection {
        case Connected(current, _, _) => previous := current;
        case _ =>
      }
      epoch := epoch + 1;
      connection := Reconnecting(session, previous, epoch);
    }

    method Disconnect()
      modifies this`connection
      ensures Deaf()
      ensures Value() == Moved(old(Value()), Move.Disconnect)
    {
      connection := Disconnected;
    }

    method Fail()
      modifies this`connection
      ensures Deaf()
      ensures Value() == Moved(old(Value()), Move.Fail)
    {
      connection := ConnectFailed;
    }

    method Make(move: Move)
      modifies this
      ensures Value() == Moved(old(Value()), move)
    {
      match move
      case BeginConnect(session) => BeginConnect(session);
      case AwaitHostKey(session, request) => AwaitHostKey(session, request);
      case CompleteConnect(session, at) => CompleteConnect(session, at);
      case BeginReconnect(session) => BeginReconnect(session);
      case Disconnect => Disconnect();
      case Fail => Fail();
    }
  }

  class TabStore {
    var tabs: seq<TabState>

    /** No tab object is in the list twice. */
    ghost predicate Valid()
      reads this
    {
      forall i, j | 0 <= i < j < |tabs| :: tabs[i] != tabs[j]
    }

    ghost function View(): (v: seq<Tab>)
      reads this, tabs
      ensures |v| == |tabs| && forall i | 0 <= i < |tabs| :: v[i] == tabs[i].Value()
    {
      seq(|tabs|, i requires 0 <= i < |tabs| reads this, tabs => tabs[i].Value())
    }

    constructor ()
      ensures Valid() && View() == []
    {
      tabs := [];
    }

    /** `iter().position(..)` by tab id. */
    method Find(id: TabId) returns (found: Option<nat>)
      ensures found == FirstTab(View(), id)
    {
      var i := 0;
      while i < |tabs|
        invariant 0 <= i <= |tabs|
        invariant forall k | 0 <= k < i :: tabs[k].id != id
      {
        if tabs[i].id == id {
          FirstTabIs(View(), id, i);
          return Some(i);
        }
        i := i + 1;
      }
      found := None;
    }

    /** The guard every tab-scoped event has to pass. */
    method AcceptsRemoteEvent(scope: Scope) returns (accepted: bool)
      ensures accepted == Accepts(View(), scope)
    {
      var found := Find(scope.tabId);
      match found
      case None => accepted := false;
      case Some(i) => accepted := tabs[i].AcceptsRemoteEvent(scope);
    }

    method OpenTab(tab: TabState)
      requires Valid() && tab !in tabs
      modifies this
      ensures Valid() && tabs == old(tabs) + [tab]
      ensures View() == old(View()) + [tab.Value()]
    {
      tabs := tabs + [tab];
    }

    method CloseTab(id: TabId)
      requires Valid()
      modifies this
      ensures Valid() && forall t | t in tabs :: t in old(tabs)
      ensures View() == Apply(old(View()), Close(id))
    {
      var found := Find(id);
      match found
      case None =>
      case Some(i) =>
        tabs := tabs[..i] + tabs[i + 1..];
        assert View() == old(View())[..i] + old(View())[i + 1..];
    }

    method MoveTab(id: TabId, move: Move)
      requires Valid()
      modifies tabs
      ensures View() == Apply(old(View()), OnTab(id, move))
    {
      var found := Find(id);
      match found
      case None =>
      case Some(i) =>
        tabs[i].Make(move);
        assert View() == old(View())[i := Moved(old(View())[i], move)];
    }

    /**
     One operation. The epoch of a tab never falls, and an operation that ends a
     session leaves everything sent in it stale.
     */
    method ApplyOp(op: Op)
      requires Valid()
      modifies this, tabs
      ensures Valid() && forall k | 0 <= k < |tabs| :: tabs[k] in old(tabs) || fresh(tabs[k])
      ensures View() == Apply(old(View()), op)
      ensures forall scope: Scope | op != Open(scope.tabId) && CaughtUp(old(View()), scope) :: CaughtUp(View(), scope)
      ensures forall scope: Scope |
                DistinctTabs(old(View())) && Supersedes(op, scope.tabId) && CaughtUp(old(View()), scope) ::
                Stale(View(), scope)
      ensures forall t: Tab | t.id != op.id :: t in View() <==> t in old(View())
      ensures forall scope: Scope | scope.tabId != op.id :: Accepts(View(), scope) <==> Accepts(old(View()), scope)
    {
      ghost var before := View();
      match op {
        case Open(id) =>
          var tab := new TabState(id);
          OpenTab(tab);
        case Close(id) =>
          CloseTab(id);
        case OnTab(id, move) =>
          MoveTab(id, move);
      }
      OpGuards(before, op);
      OtherTabsStay(before, op);
    }

    /** A whole run from an empty store; what is proved of runs is proved of it. */
    method ApplyAll(ops: seq<Op>)
      requires Valid() && tabs == []
      modifies this
      ensures Valid() && View() == Run([], ops)
    {
      assert ops[..|ops|] == ops;
      for i := 0 to |ops|
        invariant Valid() && View() == Run([], ops[..i])
        invariant forall k | 0 <= k < |tabs| :: fresh(tabs[k])
      {
        RunStep(ops, i);
        ApplyOp(ops[i]);
      }
    }
  }

  lemma OpGuards(tabs: seq<Tab>, op: Op)
    ensures forall scope: Scope | op != Open(scope.tabId) && CaughtUp(tabs, scope) :: CaughtUp(Apply(tabs, op), scope)
    ensures forall scope: Scope | DistinctTabs(tabs) && Supersedes(op, scope.tabId) && CaughtUp(tabs, scope) ::
              Stale(Apply(tabs, op), scope)
  {
    forall scope: Scope | op != Open(scope.tabId) && CaughtUp(tabs, scope)
      ensures CaughtUp(Apply(tabs, op), scope)
    {
      EpochsGrow(tabs, op, scope);
    }
    forall scope: Scope | DistinctTabs(tabs) && Supersedes(op, scope.tabId) && CaughtUp(tabs, scope)
      ensures Stale(Apply(tabs, op), scope)
    {
      SupersededIsStale(tabs, op, scope);
    }
  }

  // ----- modals -----

  datatype Modal = HostKey(scope: Scope) | KeyboardInteractive(scope: Scope) | TransferConflict(request: nat)

  predicate Current(tabs: seq<Tab>, m: Modal) {
    m.TransferConflict? || Accepts(tabs, m.scope)
  }

  function StillCurrent(tabs: seq<Tab>): Modal -> bool {
    (m: Modal) => Current(tabs, m)
  }

  function Expired(tabs: seq<Tab>): Modal -> bool {
    (m: Modal) => !Current(tabs, m)
  }

  /** The first `i` modals have been sorted into those to keep and those to hand back. */
  ghost predicate Drained(all: seq<Modal>, i: nat, tabs: seq<Tab>, kept: seq<Modal>, expired: seq<Modal>) {
    i <= |all| && kept == Retain(all[..i], StillCurrent(tabs)) && expired == Retain(all[..i], Expired(tabs))
  }

  lemma DrainOneMore(all: seq<Modal>, i: nat, tabs: seq<Tab>, kept: seq<Modal>, expired: seq<Modal>)
    requires i < |all| && Drained(all, i, tabs, kept, expired)
    ensures Current(tabs, all[i]) ==> Drained(all, i + 1, tabs, kept + [all[i]], expired)
    ensures !Current(tabs, all[i]) ==> Drained(all, i + 1, tabs, kept, expired + [all[i]])
  {
    assert all[..i + 1] == all[..i] + [all[i]];
    RetainOneMore(all[..i], all[i], StillCurrent(tabs));
    RetainOneMore(all[..i], all[i], Expired(tabs));
  }

  lemma AllDrained(all: seq<Modal>, tabs: seq<Tab>, kept: seq<Modal>, expired: seq<Modal>)
    requires Drained(all, |all|, tabs, kept, expired)
    ensures kept == Retain(all, StillCurrent(tabs)) && expired == Retain(all, Expired(tabs))
    ensures forall m | m in kept && !m.TransferConflict? :: Accepts(tabs, m.scope)
    ensures forall m | m in expired :: !m.TransferConflict? && !Accepts(tabs, m.scope)
  {
    assert all[..|all|] == all;
  }

  class AppState {
    const tabs: TabStore
    var modals: seq<Modal>

    constructor (tabs: TabStore)
      ensures this.tabs == tabs && modals == []
    {
      this.tabs, modals := tabs, [];
    }

    method IsCurrent(m: Modal) returns (current: bool)
      ensures current == Current(tabs.View(), m)
    {
      match m
      case HostKey(scope) => current := tabs.AcceptsRemoteEvent(scope);
      case KeyboardInteractive(scope) => current := tabs.AcceptsRemoteEvent(scope);
      case TransferConflict(_) => current := true;
    }

    /** Keep the modals whose session is still current; hand back the others, both in order. */
    method DrainExpiredModals() returns (expired: seq<Modal>)
      modifies this`modals
      ensures modals == Retain(old(modals), StillCurrent(tabs.View()))
      ensures expired == Retain(old(modals), Expired(tabs.View()))
      ensures forall m | m in modals && !m.TransferConflict? :: Accepts(tabs.View(), m.scope)
      ensures forall m | m in expired :: !m.TransferConflict? && !Accepts(tabs.View(), m.scope)
    {
      var all := modals;
      modals, expired := [], [];
      ghost var view := tabs.View();
      for i := 0 to |all|
        invariant tabs.View() == view && Drained(all, i, view, modals, expired)
      {
        DrainOneMore(all, i, view, modals, expired);
        var current := IsCurrent(all[i]);
        if current {
          modals := modals + [all[i]];
        } else {
          expired := expired + [all[i]];
        }
      }
      AllDrained(all, view, modals, expired);
    }
  }
}

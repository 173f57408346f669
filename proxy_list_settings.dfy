/**
 * The proxy list screen's data logic: the read-modify-write transforms it
 * submits to the stored proxy settings, the list entries it shows and their
 * order, the resolution of a drag-and-drop into a reorder transform, and the
 * revealed-options state of a server row.
 *
 * `ProxySettings` is a Swift value type: every transform copies it
 * (`var current = current`), edits the copy and returns it, so the model
 * states each transform as a value from the old settings to the new ones.
 * Themes, strings and list items are not modelled.
 */
module ProxyListSettings {
  import opened Optional
  import opened Numerals
  import opened Sequences

  // ---------------------------------------------------------------------------
  // Settings

  /** One proxy server; equality is structural over all four fields. */
  datatype ProxyServerSettings = ProxyServerSettings(host: string, port: int32, username: Option<string>, password: Option<string>)

  datatype ProxySettings = ProxySettings(
    enabled: bool,
    servers: seq<ProxyServerSettings>,
    activeServer: Option<ProxyServerSettings>,
    useForCalls: bool)

  /** The stored invariant the transforms keep: an active server is one of the listed servers. */
  predicate ActiveIsListed(settings: ProxySettings) {
    settings.activeServer.Some? ==> settings.activeServer.value in settings.servers
  }


  // ---------------------------------------------------------------------------
  // Transforms submitted to updateProxySettingsInteractively

  /** The enabled switch: sets `enabled` and nothing else. */
  function ToggleEnabled(current: ProxySettings, value: bool): (r: ProxySettings)
    ensures r.enabled == value
    ensures r.servers == current.servers && r.activeServer == current.activeServer && r.useForCalls == current.useForCalls
  {
    current.(enabled := value)
  }

  /** The use-for-calls switch: sets `useForCalls` and nothing else. */
  function ToggleUseForCalls(current: ProxySettings, value: bool): (r: ProxySettings)
    ensures r.useForCalls == value
    ensures r.servers == current.servers && r.activeServer == current.activeServer && r.enabled == current.enabled
  {
    current.(useForCalls := value)
  }

  /** Tapping a server row: a listed server that is not yet active becomes active, and the proxy is switched on. */
  function ActivateServer(current: ProxySettings, server: ProxyServerSettings): (r: ProxySettings)
    ensures r.servers == current.servers && r.useForCalls == current.useForCalls
    ensures current.activeServer != Some(server) && server in current.servers ==>
      r.activeServer == Some(server) && r.enabled
    ensures !(current.activeServer != Some(server) && server in current.servers) ==> r == current
  {
    if current.activeServer != Some(server) && FirstIndex(current.servers, server).Some? then
      current.(activeServer := Some(server), enabled := true)
    else current
  }

  /**
   * Deleting a server row: the first occurrence of a listed server goes, and
   * if it was the active one the proxy is switched off; an unlisted server
   * changes nothing, even when it is the active one.
   */
  function RemoveServer(current: ProxySettings, server: ProxyServerSettings): (r: ProxySettings)
    ensures server in current.servers ==>
      && |r.servers| == |current.servers| - 1
      && multiset(r.servers) == multiset(current.servers) - multiset{server}
      && r.useForCalls == current.useForCalls
      && (current.activeServer == Some(server) ==> r.activeServer.None? && !r.enabled)
      && (current.activeServer != Some(server) ==> r.activeServer == current.activeServer && r.enabled == current.enabled)
    ensures server !in current.servers ==> r == current
  {
    match FirstIndex(current.servers, server)
    case Some(index) =>
      RemoveAtMultiset(current.servers, index);
      var removed := current.(servers := RemoveAt(current.servers, index));
      if removed.activeServer == Some(server) then removed.(activeServer := None, enabled := false) else removed
    case None => current
  }

  /** Removing a server keeps every other server in order: the result is the list without that server's first occurrence. */
  lemma RemoveServerKeepsOrder(current: ProxySettings, server: ProxyServerSettings, i: nat)
    requires i < |current.servers| && current.servers[i] == server && server !in current.servers[..i]
    ensures RemoveServer(current, server).servers == current.servers[..i] + current.servers[i + 1..]
  {
    FirstIndexUnique(current.servers, server, i);
  }

  /** Every transform keeps the active server among the listed ones. */
  lemma TransformsKeepActiveListed(current: ProxySettings, server: ProxyServerSettings, value: bool)
    requires ActiveIsListed(current)
    ensures ActiveIsListed(ToggleEnabled(current, value))
    ensures ActiveIsListed(ToggleUseForCalls(current, value))
    ensures ActiveIsListed(ActivateServer(current, server))
    ensures ActiveIsListed(RemoveServer(current, server))
  {
    var r := RemoveServer(current, server);
    if server in current.servers && current.activeServer.Some? && current.activeServer != Some(server) {
      var a := current.activeServer.value;
      assert a in multiset(current.servers);
      assert a in multiset(r.servers);
    }
  }

  /** Submitting the same toggle or activation twice gives what submitting it once does. */
  lemma TransformsIdempotent(current: ProxySettings, server: ProxyServerSettings, value: bool)
    ensures ToggleEnabled(ToggleEnabled(current, value), value) == ToggleEnabled(current, value)
    ensures ToggleUseForCalls(ToggleUseForCalls(current, value), value) == ToggleUseForCalls(current, value)
    ensures ActivateServer(ActivateServer(current, server), server) == ActivateServer(current, server)
  {
  }

  /** Removing a server listed at most once is idempotent: the second removal finds nothing. */
  lemma RemoveServerIdempotentWhenUnique(current: ProxySettings, server: ProxyServerSettings)
    requires multiset(current.servers)[server] <= 1
    ensures RemoveServer(RemoveServer(current, server), server) == RemoveServer(current, server)
  {
    var r := RemoveServer(current, server);
    if server in current.servers {
      assert multiset(r.servers)[server] == 0;
      assert (server in r.servers) == (server in multiset(r.servers));
    }
  }

  /** With a duplicate entry, a second removal takes the second copy: removal is not idempotent then. */
  lemma RemoveServerTwiceWithDuplicate(server: ProxyServerSettings)
    ensures var current := ProxySettings(false, [server, server], None, false);
      RemoveServer(current, server).servers == [server] &&
      RemoveServer(RemoveServer(current, server), server).servers == []
  {
    var current := ProxySettings(false, [server, server], None, false);
    assert FirstIndex(current.servers, server) == Some(0);
    assert RemoveServer(current, server).servers == [server];
    assert FirstIndex([server], server) == Some(0);
  }

  // ---------------------------------------------------------------------------
  // Reorder transform

  /** Where a dragged server goes: next to a reference server, before all or after all. Exactly one is chosen. */
  datatype ReorderTarget = Reference(server: ProxyServerSettings) | BeforeAll | AfterAll

  /**
   * The servers after a move: the first occurrence of `fromServer` is taken
   * out, then it is put after the first occurrence of the reference when
   * moving forward and before it otherwise, at the tail when the reference is
   * no longer listed, or at the head or tail for a boundary drop.
   */
  function Reordered(servers: seq<ProxyServerSettings>, fromServer: ProxyServerSettings, target: ReorderTarget, forward: bool): (r: seq<ProxyServerSettings>)
    ensures |r| == |RemoveFirst(servers, fromServer)| + 1 && fromServer in r
  {
    var rest := RemoveFirst(servers, fromServer);
    match target
    case Reference(referenceServer) => InsertNextTo(rest, fromServer, referenceServer, forward)
    case BeforeAll => InsertAt(rest, 0, fromServer)
    case AfterAll => rest + [fromServer]
  }

  /** Insertion after (forward) or before the first occurrence of the reference, or at the tail when it is not listed. */
  function InsertNextTo(rest: seq<ProxyServerSettings>, fromServer: ProxyServerSettings, referenceServer: ProxyServerSettings, forward: bool)
    : (r: seq<ProxyServerSettings>)
    ensures |r| == |rest| + 1 && fromServer in r
    ensures multiset(r) == multiset(rest) + multiset{fromServer}
    ensures referenceServer in rest ==>
      r == InsertAt(rest, FirstIndex(rest, referenceServer).value + (if forward then 1 else 0), fromServer)
    ensures referenceServer !in rest ==> r == rest + [fromServer]
  {
    match FirstIndex(rest, referenceServer)
    case Some(i) =>
      InsertAtMultiset(rest, if forward then i + 1 else i, fromServer);
      InsertAt(rest, if forward then i + 1 else i, fromServer)
    case None => rest + [fromServer]
  }

  /** The reorder transform's scan for the reference server and the insertion next to it. */
  method InsertNextToReference(rest: seq<ProxyServerSettings>, fromServer: ProxyServerSettings, referenceServer: ProxyServerSettings, forward: bool)
    returns (servers: seq<ProxyServerSettings>)
    ensures servers == InsertNextTo(rest, fromServer, referenceServer, forward)
  {
    servers := rest;
    var inserted := false;
    for i := 0 to |servers|
      invariant !inserted && servers == rest && referenceServer !in rest[..i]
    {
      if servers[i] == referenceServer {
        FirstIndexUnique(rest, referenceServer, i);
        if forward {
          servers := InsertAt(servers, i + 1, fromServer);
        } else {
          servers := InsertAt(servers, i, fromServer);
        }
        inserted := true;
        break;
      }
      assert rest[..i + 1] == rest[..i] + [rest[i]];
    }
    if !inserted {
      assert rest[..|rest|] == rest;
      servers := servers + [fromServer];
    }
  }

  /** The reorder transform: removal of the dragged server, then its insertion at the target. */
  method ReorderServers(current: ProxySettings, fromServer: ProxyServerSettings, target: ReorderTarget, fromIndex: nat, toIndex: nat)
    returns (r: ProxySettings)
    ensures r == current.(servers := Reordered(current.servers, fromServer, target, fromIndex < toIndex))
  {
    var servers := current.servers;
    var index := FirstIndex(servers, fromServer);
    if index.Some? {
      servers := RemoveAt(servers, index.value);
    }
    match target {
      case Reference(referenceServer) =>
        servers := InsertNextToReference(servers, fromServer, referenceServer, fromIndex < toIndex);
      case BeforeAll =>
        servers := InsertAt(servers, 0, fromServer);
      case AfterAll =>
        servers := servers + [fromServer];
    }
    r := current.(servers := servers);
  }

  /**
   * A move keeps every other server in order: the result is the old list
   * without the moved server's first occurrence, with the moved server
   * inserted at one position `p`. `p` is the head or the tail for a boundary
   * drop, the tail when the reference is not listed after the removal, and
   * otherwise right after (forward) or right before (backward) the
   * reference's first occurrence.
   */
  lemma ReorderPlacement(servers: seq<ProxyServerSettings>, fromServer: ProxyServerSettings, target: ReorderTarget, forward: bool)
    returns (p: nat)
    ensures var rest := RemoveFirst(servers, fromServer);
      && p <= |rest|
      && Reordered(servers, fromServer, target, forward) == InsertAt(rest, p, fromServer)
    ensures var rest := RemoveFirst(servers, fromServer);
      && (target.BeforeAll? ==> p == 0)
      && (target.AfterAll? ==> p == |rest|)
      && (target.Reference? && target.server !in rest ==> p == |rest|)
      && (target.Reference? && target.server in rest && forward ==> 0 < p && rest[p - 1] == target.server)
      && (target.Reference? && target.server in rest && !forward ==> p < |rest| && rest[p] == target.server)
      && (target.Reference? && target.server in rest ==>
            p == FirstIndex(rest, target.server).value + (if forward then 1 else 0))
  {
    var rest := RemoveFirst(servers, fromServer);
    match target
    case Reference(referenceServer) =>
      match FirstIndex(rest, referenceServer) {
        case Some(i) =>
          p := if forward then i + 1 else i;
        case None =>
          p := |rest|;
          assert rest[..p] + [fromServer] + rest[p..] == rest + [fromServer];
      }
    case BeforeAll =>
      p := 0;
    case AfterAll =>
      p := |rest|;
      assert rest[..p] + [fromServer] + rest[p..] == rest + [fromServer];
  }

  /** A move never loses a server: it permutes the list, or adds the dragged server when it was not listed. */
  lemma ReorderPermutes(servers: seq<ProxyServerSettings>, fromServer: ProxyServerSettings, target: ReorderTarget, forward: bool)
    ensures fromServer in servers ==> multiset(Reordered(servers, fromServer, target, forward)) == multiset(servers)
    ensures fromServer !in servers ==> multiset(Reordered(servers, fromServer, target, forward)) == multiset(servers) + multiset{fromServer}
    ensures fromServer in servers ==> |Reordered(servers, fromServer, target, forward)| == |servers|
    ensures fromServer !in servers ==> |Reordered(servers, fromServer, target, forward)| == |servers| + 1
  {
    var rest := RemoveFirst(servers, fromServer);
    var r := Reordered(servers, fromServer, target, forward);
    var p := ReorderPlacement(servers, fromServer, target, forward);
    InsertAtMultiset(rest, p, fromServer);
    RemoveFirstMultiset(servers, fromServer);
    if fromServer in servers {
      assert fromServer in multiset(servers);
    }
  }

  /** A move of a listed server keeps a list without duplicates free of duplicates. */
  lemma ReorderKeepsUnique(servers: seq<ProxyServerSettings>, fromServer: ProxyServerSettings, target: ReorderTarget, forward: bool)
    requires Unique(servers)
    ensures Unique(Reordered(servers, fromServer, target, forward))
  {
    var r := Reordered(servers, fromServer, target, forward);
    ReorderPermutes(servers, fromServer, target, forward);
    UniqueByMultiset(servers);
    forall x ensures multiset(r)[x] <= 1 {
      if fromServer in servers {
        assert multiset(r)[x] == multiset(servers)[x];
      } else {
        assert multiset(servers)[fromServer] == 0;
      }
    }
    MultisetUnique(r);
  }

  /** A move keeps the active server among the listed ones. */
  lemma ReorderKeepsActiveListed(current: ProxySettings, fromServer: ProxyServerSettings, target: ReorderTarget, forward: bool)
    requires ActiveIsListed(current)
    ensures ActiveIsListed(current.(servers := Reordered(current.servers, fromServer, target, forward)))
  {
    ReorderPermutes(current.servers, fromServer, target, forward);
    if current.activeServer.Some? {
      assert current.activeServer.value in multiset(current.servers);
    }
  }

  /** Dropping a server that is listed once onto itself sends it to the tail. */
  lemma ReorderOntoItself(servers: seq<ProxyServerSettings>, server: ProxyServerSettings, forward: bool)
    requires multiset(servers)[server] <= 1
    ensures Reordered(servers, server, Reference(server), forward) == RemoveFirst(servers, server) + [server]
  {
    var rest := RemoveFirst(servers, server);
    RemoveFirstMultiset(servers, server);
    assert server !in multiset(rest);
    assert FirstIndex(rest, server).None?;
  }

  /** Moving a server that is not listed inserts it: the list grows by one. */
  lemma ReorderOfUnlistedGrows(servers: seq<ProxyServerSettings>, fromServer: ProxyServerSettings, target: ReorderTarget, forward: bool)
    requires fromServer !in servers
    ensures |Reordered(servers, fromServer, target, forward)| == |servers| + 1
    ensures fromServer in Reordered(servers, fromServer, target, forward)
  {
    var p := ReorderPlacement(servers, fromServer, target, forward);
  }

  // ---------------------------------------------------------------------------
  // List entries

  datatype ConnectionStatus = WaitingForNetwork | Connecting | Updating | Online

  /** A server's availability as the status checker reports it; `rtt` is the round trip in seconds. */
  datatype ProxyServerStatus = Checking | NotAvailable | Available(rtt: real)

  /** The label of a server row, without its wording. */
  datatype StatusText = TextWaitingForNetwork | TextConnecting | TextOnline | TextNotAvailable | TextChecking | TextAvailable(rtt: real)

  datatype DisplayProxyServerStatus = DisplayProxyServerStatus(activity: bool, text: StatusText, textActive: bool)

  datatype ProxySettingsServerItemEditing = ProxySettingsServerItemEditing(editable: bool, editing: bool, revealed: bool)

  /** The screen's own state: edit mode and the server whose row shows its delete option. */
  datatype ProxySettingsControllerState = ProxySettingsControllerState(editing: bool, revealedServer: Option<ProxyServerSettings>)

  datatype ProxySettingsControllerEntry =
    | Enabled(value: bool, createsNew: bool)
    | ServersHeader
    | AddServer(editing: bool)
    | Server(index: int, settings: ProxyServerSettings, active: bool, status: DisplayProxyServerStatus, itemEditing: ProxySettingsServerItemEditing)
    | UseForCalls(value: bool)
    | UseForCallsInfo

  /** The entry order `<`. */
  predicate Less(lhs: ProxySettingsControllerEntry, rhs: ProxySettingsControllerEntry) {
    match lhs
    case Enabled(_, _) => !rhs.Enabled?
    case ServersHeader => !(rhs.Enabled? || rhs.ServersHeader?)
    case AddServer(_) => !(rhs.Enabled? || rhs.ServersHeader? || rhs.AddServer?)
    case Server(lhsIndex, _, _, _, _) =>
      (match rhs
       case Enabled(_, _) => false
       case ServersHeader => false
       case AddServer(_) => false
       case Server(rhsIndex, _, _, _, _) => lhsIndex < rhsIndex
       case _ => true)
    case UseForCalls(_) => !(rhs.Enabled? || rhs.ServersHeader? || rhs.AddServer? || rhs.Server? || rhs.UseForCalls?)
    case UseForCallsInfo => false
  }

  /** The position of an entry's kind on the screen. */
  function Rank(e: ProxySettingsControllerEntry): nat {
    match e
    case Enabled(_, _) => 0
    case ServersHeader => 1
    case AddServer(_) => 2
    case Server(_, _, _, _, _) => 3
    case UseForCalls(_) => 4
    case UseForCallsInfo => 5
  }

  /** `<` orders entries by kind, and server entries by their index. */
  lemma LessByRank(lhs: ProxySettingsControllerEntry, rhs: ProxySettingsControllerEntry)
    ensures Less(lhs, rhs) <==> Rank(lhs) < Rank(rhs) || (lhs.Server? && rhs.Server? && lhs.index < rhs.index)
  {
  }

  /** `<` is a strict order: irreflexive, asymmetric and transitive. */
  lemma EntryOrderIsStrict(a: ProxySettingsControllerEntry, b: ProxySettingsControllerEntry, c: ProxySettingsControllerEntry)
    ensures !Less(a, a)
    ensures Less(a, b) ==> !Less(b, a)
    ensures Less(a, b) && Less(b, c) ==> Less(a, c)
  {
    LessByRank(a, b);
    LessByRank(b, c);
    LessByRank(a, c);
    LessByRank(b, a);
    LessByRank(a, a);
  }

  /** The label and spinner of a server row: the connection for the active server of an enabled proxy, its availability otherwise. */
  function DisplayStatus(proxySettings: ProxySettings, server: ProxyServerSettings, statuses: map<ProxyServerSettings, ProxyServerStatus>, connectionStatus: ConnectionStatus)
    : (d: DisplayProxyServerStatus)
    ensures d.activity || d.textActive ==> proxySettings.enabled && proxySettings.activeServer == Some(server)
  {
    if proxySettings.enabled && proxySettings.activeServer == Some(server) then
      match connectionStatus
      case WaitingForNetwork => DisplayProxyServerStatus(true, TextWaitingForNetwork, false)
      case Connecting => DisplayProxyServerStatus(true, TextConnecting, false)
      case Updating => DisplayProxyServerStatus(true, TextConnecting, false)
      case Online => DisplayProxyServerStatus(false, TextOnline, true)
    else
      match if server in statuses then statuses[server] else Checking
      case NotAvailable => DisplayProxyServerStatus(false, TextNotAvailable, false)
      case Checking => DisplayProxyServerStatus(false, TextChecking, false)
      case Available(rtt) => DisplayProxyServerStatus(false, TextAvailable(rtt), false)
  }

  /**
   * Only the active server of an enabled proxy shows the connection: a spinner
   * until it is online, the highlighted text once it is; every other row shows
   * its availability, `checking` when the status checker has not reported yet.
   */
  lemma ServerStatusDisplay(proxySettings: ProxySettings, server: ProxyServerSettings, statuses: map<ProxyServerSettings, ProxyServerStatus>, connectionStatus: ConnectionStatus)
    ensures var d := DisplayStatus(proxySettings, server, statuses, connectionStatus);
      var shown := proxySettings.enabled && proxySettings.activeServer == Some(server);
      && (d.activity <==> shown && connectionStatus != Online)
      && (d.textActive <==> shown && connectionStatus == Online)
      && (shown && connectionStatus == WaitingForNetwork ==> d.text == TextWaitingForNetwork)
      && (shown && (connectionStatus == Connecting || connectionStatus == Updating) ==> d.text == TextConnecting)
      && (shown && connectionStatus == Online ==> d.text == TextOnline)
      && (!shown && server !in statuses ==> d.text == TextChecking)
      && (!shown && server in statuses && statuses[server] == Checking ==> d.text == TextChecking)
      && (!shown && server in statuses && statuses[server] == NotAvailable ==> d.text == TextNotAvailable)
      && (!shown && server in statuses && statuses[server].Available? ==> d.text == TextAvailable(statuses[server].rtt))
  {
  }

  /** The row of the `index`-th server. */
  function ServerEntry(state: ProxySettingsControllerState, proxySettings: ProxySettings, statuses: map<ProxyServerSettings, ProxyServerStatus>,
                       connectionStatus: ConnectionStatus, index: nat): ProxySettingsControllerEntry
    requires index < |proxySettings.servers|
  {
    var server := proxySettings.servers[index];
    Server(index, server, proxySettings.activeServer == Some(server), DisplayStatus(proxySettings, server, statuses, connectionStatus),
      ProxySettingsServerItemEditing(true, state.editing, state.revealedServer == Some(server)))
  }

  /** Strictly increasing under `<`. */
  predicate Increasing(entries: seq<ProxySettingsControllerEntry>) {
    forall i, j :: 0 <= i < j < |entries| ==> Less(entries[i], entries[j])
  }

  /**
   * `proxySettingsControllerEntries`: the switch, the header, the add row,
   * one row per server numbered from 0 in list order, and the two call rows;
   * the list is strictly increasing under `<`.
   */
  method ProxySettingsControllerEntries(state: ProxySettingsControllerState, proxySettings: ProxySettings,
                                        statuses: map<ProxyServerSettings, ProxyServerStatus>, connectionStatus: ConnectionStatus)
    returns (entries: seq<ProxySettingsControllerEntry>)
    ensures |entries| == |proxySettings.servers| + 5
    ensures entries[0] == Enabled(proxySettings.enabled, |proxySettings.servers| == 0)
    ensures entries[1] == ServersHeader && entries[2] == AddServer(state.editing)
    ensures forall k :: 0 <= k < |proxySettings.servers| ==>
      entries[3 + k] == ServerEntry(state, proxySettings, statuses, connectionStatus, k)
    ensures forall i :: 3 <= i < |entries| - 2 ==>
      entries[i].Server? && entries[i].index == i - 3 && entries[i].settings == proxySettings.servers[i - 3] &&
      (entries[i].active <==> proxySettings.activeServer == Some(proxySettings.servers[i - 3]))
    ensures entries[|entries| - 2] == UseForCalls(proxySettings.useForCalls) && entries[|entries| - 1] == UseForCallsInfo
    ensures Increasing(entries)
  {
    var servers := proxySettings.servers;
    entries := [Enabled(proxySettings.enabled, |servers| == 0), ServersHeader, AddServer(state.editing)];
    var index := 0;
    for n := 0 to |servers|
      invariant index == n
      invariant |entries| == 3 + n
      invariant entries[0] == Enabled(proxySettings.enabled, |servers| == 0)
      invariant entries[1] == ServersHeader && entries[2] == AddServer(state.editing)
      invariant forall k :: 0 <= k < n ==> entries[3 + k] == ServerEntry(state, proxySettings, statuses, connectionStatus, k)
    {
      var server := servers[n];
      var displayStatus := DisplayStatus(proxySettings, server, statuses, connectionStatus);
      entries := entries + [Server(index, server, proxySettings.activeServer == Some(server), displayStatus,
        ProxySettingsServerItemEditing(true, state.editing, state.revealedServer == Some(server)))];
      index := index + 1;
    }
    ghost var rows := entries;
    entries := entries + [UseForCalls(proxySettings.useForCalls), UseForCallsInfo];
    forall k | 0 <= k < |servers|
      ensures entries[3 + k] == ServerEntry(state, proxySettings, statuses, connectionStatus, k)
    {
      assert entries[3 + k] == rows[3 + k];
    }
    forall i | 3 <= i < |entries| - 2
      ensures entries[i] == ServerEntry(state, proxySettings, statuses, connectionStatus, i - 3)
    {
      assert entries[3 + (i - 3)] == ServerEntry(state, proxySettings, statuses, connectionStatus, i - 3);
    }
    forall i, j | 0 <= i < j < |entries| ensures Less(entries[i], entries[j]) {
      LessByRank(entries[i], entries[j]);
      assert 3 <= i < |servers| + 3 ==> entries[i] == ServerEntry(state, proxySettings, statuses, connectionStatus, i - 3);
      assert 3 <= j < |servers| + 3 ==> entries[j] == ServerEntry(state, proxySettings, statuses, connectionStatus, j - 3);
    }
  }

  /** With no duplicate servers and an active server that is listed, exactly one server row is marked active. */
  lemma OneActiveRow(state: ProxySettingsControllerState, proxySettings: ProxySettings,
                     statuses: map<ProxyServerSettings, ProxyServerStatus>, connectionStatus: ConnectionStatus, entries: seq<ProxySettingsControllerEntry>)
    requires Unique(proxySettings.servers) && ActiveIsListed(proxySettings) && proxySettings.activeServer.Some?
    requires |entries| == |proxySettings.servers| + 5
    requires forall k :: 0 <= k < |proxySettings.servers| ==>
      entries[3 + k] == ServerEntry(state, proxySettings, statuses, connectionStatus, k)
    ensures exists i :: 3 <= i < |entries| - 2 && entries[i].Server? && entries[i].active
    ensures forall i, j ::
      (3 <= i < |entries| - 2 && 3 <= j < |entries| - 2 && entries[i].Server? && entries[j].Server? && entries[i].active && entries[j].active) ==> i == j
  {
    var servers := proxySettings.servers;
    var a := proxySettings.activeServer.value;
    var k :| 0 <= k < |servers| && servers[k] == a;
    assert entries[3 + k] == ServerEntry(state, proxySettings, statuses, connectionStatus, k);
    forall i, j | 3 <= i < |entries| - 2 && 3 <= j < |entries| - 2 && entries[i].Server? && entries[j].Server? && entries[i].active && entries[j].active
      ensures i == j
    {
      assert entries[3 + (i - 3)] == ServerEntry(state, proxySettings, statuses, connectionStatus, i - 3);
      assert entries[3 + (j - 3)] == ServerEntry(state, proxySettings, statuses, connectionStatus, j - 3);
      assert servers[i - 3] == a && servers[j - 3] == a;
    }
  }

  // ---------------------------------------------------------------------------
  // Stable identifiers

  datatype ProxySettingsControllerEntryId =
    | Index(index: int)
    | ServerId(host: string, port: int32, username: string, password: string)

  function OrEmpty(s: Option<string>): string {
    if s.Some? then s.value else ""
  }

  /** `stableId`: fixed numbers for the fixed rows, the server's fields for a server row. */
  function StableId(entry: ProxySettingsControllerEntry): (r: ProxySettingsControllerEntryId)
    ensures r.ServerId? <==> entry.Server?
    ensures r.Index? ==> 0 <= r.index <= 4
  {
    match entry
    case Enabled(_, _) => Index(0)
    case ServersHeader => Index(1)
    case AddServer(_) => Index(2)
    case Server(_, settings, _, _, _) => ServerId(settings.host, settings.port, OrEmpty(settings.username), OrEmpty(settings.password))
    case UseForCalls(_) => Index(3)
    case UseForCallsInfo => Index(4)
  }

  /**
   * Rows of different kinds never share an identifier, and server rows share
   * one exactly when host, port and the credentials (a missing one read as
   * empty) agree.
   */
  lemma StableIdSeparatesKinds(a: ProxySettingsControllerEntry, b: ProxySettingsControllerEntry)
    ensures Rank(a) != Rank(b) ==> StableId(a) != StableId(b)
    ensures a.Server? && b.Server? ==>
      (StableId(a) == StableId(b) <==>
        a.settings.host == b.settings.host && a.settings.port == b.settings.port &&
        OrEmpty(a.settings.username) == OrEmpty(b.settings.username) && OrEmpty(a.settings.password) == OrEmpty(b.settings.password))
  {
  }

  /** Two different servers, one without a user name and one with an empty one, get rows with the same identifier. */
  lemma StableIdMergesMissingAndEmptyCredentials(host: string, port: int32, row: ProxySettingsControllerEntry)
    requires row.Server? && row.settings == ProxyServerSettings(host, port, None, None)
    ensures var other := row.(settings := ProxyServerSettings(host, port, Some(""), None));
      other.settings != row.settings && StableId(other) == StableId(row)
  {
  }

  // ---------------------------------------------------------------------------
  // Drag and drop (reorderEntry)

  /**
   * The target of a drop of the entry at `fromIndex` onto position `toIndex`:
   * none unless a server row is dragged; the server at the target; otherwise
   * before all when the target entry sorts before the dragged one, after all
   * when it does not or when the drop is past the end.
   */
  function ResolveReorderTarget(entries: seq<ProxySettingsControllerEntry>, fromIndex: nat, toIndex: nat): (r: Option<(ProxyServerSettings, ReorderTarget)>)
    requires fromIndex < |entries|
    ensures r.None? <==> !entries[fromIndex].Server?
    ensures r.Some? ==> r.value.0 == entries[fromIndex].settings
    ensures r.Some? && toIndex < |entries| && entries[toIndex].Server? ==> r.value.1 == Reference(entries[toIndex].settings)
    ensures r.Some? && r.value.1.Reference? ==> toIndex < |entries| && entries[toIndex].Server?
    ensures r.Some? && toIndex >= |entries| ==> r.value.1 == AfterAll
  {
    var fromEntry := entries[fromIndex];
    if !fromEntry.Server? then None
    else if toIndex < |entries| then
      if entries[toIndex].Server? then Some((fromEntry.settings, Reference(entries[toIndex].settings)))
      else if Less(entries[toIndex], fromEntry) then Some((fromEntry.settings, BeforeAll))
      else Some((fromEntry.settings, AfterAll))
    else Some((fromEntry.settings, AfterAll))
  }

  /** Over a built entry list, a drop on a row above the servers goes to the head, one below them to the tail. */
  lemma ReorderTargetOnFixedRows(entries: seq<ProxySettingsControllerEntry>, fromIndex: nat, toIndex: nat)
    requires fromIndex < |entries| && entries[fromIndex].Server?
    requires toIndex >= |entries| || !entries[toIndex].Server?
    ensures ResolveReorderTarget(entries, fromIndex, toIndex).Some?
    ensures toIndex < |entries| && Rank(entries[toIndex]) < 3 ==>
      ResolveReorderTarget(entries, fromIndex, toIndex) == Some((entries[fromIndex].settings, BeforeAll))
    ensures (toIndex >= |entries| || Rank(entries[toIndex]) > 3) ==>
      ResolveReorderTarget(entries, fromIndex, toIndex) == Some((entries[fromIndex].settings, AfterAll))
  {
    if toIndex < |entries| {
      LessByRank(entries[toIndex], entries[fromIndex]);
    }
  }

  /** Dropping a server row onto itself, for a server listed once, moves that server to the tail. */
  lemma DropOnItselfMovesToTail(current: ProxySettings, entries: seq<ProxySettingsControllerEntry>, index: nat)
    requires index < |entries| && entries[index].Server?
    requires multiset(current.servers)[entries[index].settings] <= 1
    ensures var server := entries[index].settings;
      ResolveReorderTarget(entries, index, index) == Some((server, Reference(server))) &&
      Reordered(current.servers, server, Reference(server), index < index) == RemoveFirst(current.servers, server) + [server]
  {
    ReorderOntoItself(current.servers, entries[index].settings, false);
  }

  // ---------------------------------------------------------------------------
  // Revealed options (setServerWithRevealedOptions)

  /**
   * A row's options are revealed whenever the caller reports no previously
   * revealed row (`fromServer` is nil), whatever the stored state; they are
   * hidden only when the caller reports the row that is stored as revealed.
   * Any other call leaves the state as it is, and edit mode is never touched.
   */
  function SetServerWithRevealedOptions(state: ProxySettingsControllerState, server: Option<ProxyServerSettings>, fromServer: Option<ProxyServerSettings>)
    : (r: ProxySettingsControllerState)
    ensures r.editing == state.editing
    ensures r.revealedServer == server || r == state
    ensures server.Some? && fromServer.None? ==> r.revealedServer == server
    ensures server.Some? && fromServer.Some? ==> r == state
    ensures server.None? ==> (r.revealedServer.None? <==> fromServer == state.revealedServer || state.revealedServer.None?)
  {
    if (server.None? && fromServer == state.revealedServer) || (server.Some? && fromServer.None?) then
      state.(revealedServer := server)
    else state
  }
}

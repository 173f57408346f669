/**
 * Deep links: the classifier of `t.me/…` and `telegram.me/…` paths, the
 * resolution of a classified link to a final target, and the prefix scan that
 * picks between those links, `telegra.ph/…` instant-view pages and plain
 * external URLs.
 *
 * Foundation's `URLComponents`, the directory lookup `resolvePeerByName` and
 * the page-preview fetch `webpagePreview` are outside the model; they are the
 * three functions of an `Environment`. A lookup stands for the first value its
 * signal emits.
 */
module UrlHandling {
  import opened Optional
  import opened Numerals
  import opened Sequences

  // ---------------------------------------------------------------------------
  // Collaborator types

  /** Postbox's peer identifier. */
  datatype PeerId = PeerId(namespace: int32, id: int32)

  /** Postbox's message identifier. */
  datatype MessageId = MessageId(peerId: PeerId, namespace: int32, id: int32)

  /** `Namespaces.Message.Cloud` of TelegramCore. */
  const CloudNamespace: int32 := 0

  /** What the model keeps of a web page preview: whether it is loaded and, if so, whether it has an instant page. */
  datatype WebpageContent = Pending | Loaded(hasInstantPage: bool)

  datatype Webpage = Webpage(webpageId: int, content: WebpageContent)

  /** One `URLQueryItem`: a name and a value that may be missing (`?a&b=1` gives `a` no value). */
  datatype QueryItem = QueryItem(name: string, value: Option<string>)

  /**
   * What `URLComponents(string:)` yields: the path split on '/' (its first
   * element is the empty text before the leading '/') and the query items,
   * absent when the text has no query.
   */
  datatype UrlComponents = UrlComponents(pathComponents: seq<string>, queryItems: Option<seq<QueryItem>>)

  datatype Environment = Environment(
    urlComponents: string -> Option<UrlComponents>,
    resolvePeerByName: string -> Option<PeerId>,
    webpagePreview: string -> Option<Webpage>)

  // ---------------------------------------------------------------------------
  // Intents

  datatype ParsedInternalPeerUrlParameter =
    | BotStart(payload: string)
    | GroupBotStart(payload: string)
    | ChannelMessage(id: int32)

  datatype ParsedInternalUrl =
    | PeerName(name: string, parameter: Option<ParsedInternalPeerUrlParameter>)
    | StickerPack(name: string)
    | Join(link: string)
    | Proxy(host: string, port: int32, username: Option<string>, password: Option<string>)

  /**
   * The classifier's answer: an internal link, no internal link (Swift's nil),
   * or the run-time trap of `Int32(value)` on a message number outside 32 bits.
   */
  datatype ParseOutcome = Internal(url: ParsedInternalUrl) | NotInternal | Trap

  datatype ResolvedUrl =
    | ExternalUrl(url: string)
    | Peer(peerId: PeerId)
    | BotStart(peerId: PeerId, payload: string)
    | GroupBotStart(peerId: PeerId, payload: string)
    | ChannelMessage(peerId: PeerId, messageId: MessageId)
    | StickerPack(name: string)
    | InstantView(webpage: Webpage, anchor: Option<string>)
    | Proxy(host: string, port: int32, username: Option<string>, password: Option<string>)
    | Join(link: string)

  /** What `resolveUrl` delivers: a resolved target, or the trap of the classifier. */
  datatype ResolveOutcome = Resolved(result: ResolvedUrl) | Crash

  // ---------------------------------------------------------------------------
  // Query items

  const ServerKeys: set<string> := {"server", "proxy"}
  const PortKeys: set<string> := {"port"}
  const UserKeys: set<string> := {"user"}
  const PassKeys: set<string> := {"pass"}
  const DirectiveKeys: set<string> := {"start", "startgroup", "game"}

  /** The item has a value and one of the given names. */
  predicate HasValue(item: QueryItem, names: set<string>) {
    item.value.Some? && item.name in names
  }

  /** The value a left-to-right scan that overwrites on every match keeps: the last value under one of `names`. */
  function LastValue(items: seq<QueryItem>, names: set<string>): Option<string>
  {
    if items == [] then None
    else if HasValue(items[|items| - 1], names) then items[|items| - 1].value
    else LastValue(items[..|items| - 1], names)
  }

  /** The first item with a value named `start`, `startgroup` or `game`. */
  function FirstDirective(items: seq<QueryItem>): (r: Option<QueryItem>)
    ensures r.Some? ==> HasValue(r.value, DirectiveKeys)
  {
    if items == [] then None
    else if HasValue(items[0], DirectiveKeys) then Some(items[0])
    else FirstDirective(items[1..])
  }

  /** `LastValue` finds exactly the value of the last item that has a value under one of `names`. */
  lemma {:induction false} LastValueIsLast(items: seq<QueryItem>, names: set<string>, v: string)
    ensures LastValue(items, names) == Some(v) <==>
      exists i :: 0 <= i < |items| && HasValue(items[i], names) && items[i].value == Some(v) &&
        forall j :: i < j < |items| ==> !HasValue(items[j], names)
  {
    if items != [] {
      var n := |items| - 1;
      var init := items[..n];
      LastValueIsLast(init, names, v);
      if !HasValue(items[n], names) {
        if (exists i :: 0 <= i < |items| && HasValue(items[i], names) && items[i].value == Some(v) &&
              forall j :: i < j < |items| ==> !HasValue(items[j], names)) {
          var i :| 0 <= i < |items| && HasValue(items[i], names) && items[i].value == Some(v) &&
            forall j :: i < j < |items| ==> !HasValue(items[j], names);
          assert i < n && init[i] == items[i];
          assert forall j :: i < j < |init| ==> init[j] == items[j];
        }
        if LastValue(init, names) == Some(v) {
          var i :| 0 <= i < |init| && HasValue(init[i], names) && init[i].value == Some(v) &&
            forall j :: i < j < |init| ==> !HasValue(init[j], names);
          assert items[i] == init[i];
        }
      }
    }
  }

  /** `LastValue` is `None` exactly when no item has a value under one of `names`. */
  lemma {:induction false} LastValueAbsent(items: seq<QueryItem>, names: set<string>)
    ensures LastValue(items, names).None? <==> forall i :: 0 <= i < |items| ==> !HasValue(items[i], names)
  {
    if items != [] {
      var init := items[..|items| - 1];
      LastValueAbsent(init, names);
      assert forall i :: 0 <= i < |init| ==> init[i] == items[i];
    }
  }

  /** A later item under one of `names` overrides every earlier one. */
  lemma LaterItemOverrides(items: seq<QueryItem>, item: QueryItem, names: set<string>)
    requires HasValue(item, names)
    ensures LastValue(items + [item], names) == item.value
  {
    assert (items + [item])[|items|] == item;
  }

  /** `FirstDirective` finds the first item with a value named `start`, `startgroup` or `game`, and only that one. */
  lemma {:induction false} FirstDirectiveIsFirst(items: seq<QueryItem>)
    ensures FirstDirective(items).None? <==> forall i :: 0 <= i < |items| ==> !HasValue(items[i], DirectiveKeys)
    ensures FirstDirective(items).Some? ==>
      exists i :: 0 <= i < |items| && items[i] == FirstDirective(items).value && HasValue(items[i], DirectiveKeys) &&
        forall j :: 0 <= j < i ==> !HasValue(items[j], DirectiveKeys)
  {
    if items != [] && !HasValue(items[0], DirectiveKeys) {
      FirstDirectiveIsFirst(items[1..]);
      assert forall i :: 1 <= i < |items| ==> items[1..][i - 1] == items[i];
      if FirstDirective(items).Some? {
        var i :| 0 <= i < |items[1..]| && items[1..][i] == FirstDirective(items).value &&
          HasValue(items[1..][i], DirectiveKeys) && forall j :: 0 <= j < i ==> !HasValue(items[1..][j], DirectiveKeys);
        assert forall j :: 1 <= j < i + 1 ==> items[j] == items[1..][j - 1];
        assert items[i + 1] == items[1..][i];
      }
    }
  }

  // ---------------------------------------------------------------------------
  // Classifier (parseInternalUrl)

  /** The path segments after the one before the leading '/'. */
  function Segments(c: UrlComponents): (segments: seq<string>)
    ensures |c.pathComponents| > 0 ==> |segments| == |c.pathComponents| - 1
  {
    if |c.pathComponents| > 0 then c.pathComponents[1..] else []
  }

  /** The proxy parameters the scan collects, as a proxy intent when the host is set and the port reads as an `Int32`. */
  function ProxyIntent(items: seq<QueryItem>): Option<ParsedInternalUrl>
  {
    var server := LastValue(items, ServerKeys);
    var port := LastValue(items, PortKeys);
    if server.Some? && server.value != "" && port.Some? && ParseInt32(port.value).Some? then
      Some(ParsedInternalUrl.Proxy(server.value, ParseInt32(port.value).value, LastValue(items, UserKeys), LastValue(items, PassKeys)))
    else None
  }

  /** One path segment: a proxy link, or a peer link with an optional bot parameter. */
  function ParseOneSegment(peerName: string, queryItems: Option<seq<QueryItem>>): ParseOutcome
  {
    match queryItems
    case None => Internal(PeerName(peerName, None))
    case Some(items) =>
      if peerName == "socks" || peerName == "proxy" then
        match ProxyIntent(items)
        case Some(proxy) => Internal(proxy)
        case None => Internal(PeerName(peerName, None))
      else
        match FirstDirective(items)
        case None => Internal(PeerName(peerName, None))
        case Some(item) =>
          if item.name == "start" then Internal(PeerName(peerName, Some(ParsedInternalPeerUrlParameter.BotStart(item.value.value))))
          else if item.name == "startgroup" then Internal(PeerName(peerName, Some(ParsedInternalPeerUrlParameter.GroupBotStart(item.value.value))))
          else NotInternal
  }

  /** Two path segments: a sticker pack, an invite, or a channel message number. */
  function ParseTwoSegments(first: string, second: string): ParseOutcome
  {
    if first == "addstickers" then Internal(ParsedInternalUrl.StickerPack(second))
    else if first == "joinchat" || first == "joinchannel" then Internal(ParsedInternalUrl.Join(second))
    else match ParseInt(second)
      case Some(value) =>
        if Int32Min <= value <= Int32Max then Internal(PeerName(first, Some(ParsedInternalPeerUrlParameter.ChannelMessage(value as int32))))
        else Trap
      case None => NotInternal
  }

  /** The classification of `URLComponents(string: "/" + query)`. */
  function Parse(components: Option<UrlComponents>): ParseOutcome
  {
    match components
    case None => NotInternal
    case Some(c) =>
      var segments := Segments(c);
      if |segments| == 0 || segments[0] == "" then NotInternal
      else if |segments| == 1 then ParseOneSegment(segments[0], c.queryItems)
      else if |segments| == 2 then ParseTwoSegments(segments[0], segments[1])
      else NotInternal
  }

  /** The proxy branch's loop: every item with a value overwrites the field its name selects. */
  method ScanProxyItems(items: seq<QueryItem>) returns (server: Option<string>, port: Option<string>, user: Option<string>, pass: Option<string>)
    ensures server == LastValue(items, ServerKeys) && port == LastValue(items, PortKeys)
    ensures user == LastValue(items, UserKeys) && pass == LastValue(items, PassKeys)
  {
    server, port, user, pass := None, None, None, None;
    for i := 0 to |items|
      invariant server == LastValue(items[..i], ServerKeys) && port == LastValue(items[..i], PortKeys)
      invariant user == LastValue(items[..i], UserKeys) && pass == LastValue(items[..i], PassKeys)
    {
      var item := items[i];
      assert items[..i + 1][..i] == items[..i] && items[..i + 1][i] == item;
      if item.value.Some? {
        var value := item.value.value;
        if item.name == "server" || item.name == "proxy" {
          server := Some(value);
        } else if item.name == "port" {
          port := Some(value);
        } else if item.name == "user" {
          user := Some(value);
        } else if item.name == "pass" {
          pass := Some(value);
        }
      }
    }
    assert items[..|items|] == items;
  }

  /** `parseInternalUrl`: classifies the components of the text after a `t.me/` prefix. */
  method ParseInternalUrl(components: Option<UrlComponents>) returns (r: ParseOutcome)
    ensures r == Parse(components)
  {
    if components.None? {
      return NotInternal;
    }
    var c := components.value;
    var pathComponents := c.pathComponents;
    if |pathComponents| > 0 {
      pathComponents := pathComponents[1..];
    }
    if !(|pathComponents| > 0 && pathComponents[0] != "") {
      return NotInternal;
    }
    var peerName := pathComponents[0];
    if |pathComponents| == 1 {
      if c.queryItems.Some? {
        var queryItems := c.queryItems.value;
        if peerName == "socks" || peerName == "proxy" {
          var server, port, user, pass := ScanProxyItems(queryItems);
          if server.Some? && server.value != "" && port.Some? {
            var portValue := ParseInt32(port.value);
            if portValue.Some? {
              return Internal(ParsedInternalUrl.Proxy(server.value, portValue.value, user, pass));
            }
          }
        } else {
          for i := 0 to |queryItems|
            invariant FirstDirective(queryItems) == FirstDirective(queryItems[i..])
          {
            var item := queryItems[i];
            assert queryItems[i..][1..] == queryItems[i + 1..];
            if item.value.Some? {
              if item.name == "start" {
                return Internal(PeerName(peerName, Some(ParsedInternalPeerUrlParameter.BotStart(item.value.value))));
              } else if item.name == "startgroup" {
                return Internal(PeerName(peerName, Some(ParsedInternalPeerUrlParameter.GroupBotStart(item.value.value))));
              } else if item.name == "game" {
                return NotInternal;
              }
            }
          }
        }
      }
      return Internal(PeerName(peerName, None));
    } else if |pathComponents| == 2 {
      if pathComponents[0] == "addstickers" {
        return Internal(ParsedInternalUrl.StickerPack(pathComponents[1]));
      } else if pathComponents[0] == "joinchat" || pathComponents[0] == "joinchannel" {
        return Internal(ParsedInternalUrl.Join(pathComponents[1]));
      } else {
        var value := ParseInt(pathComponents[1]);
        if value.Some? {
          if !(Int32Min <= value.value <= Int32Max) {
            return Trap;
          }
          return Internal(PeerName(peerName, Some(ParsedInternalPeerUrlParameter.ChannelMessage(value.value as int32))));
        } else {
          return NotInternal;
        }
      }
    }
    return NotInternal;
  }

  // ---------------------------------------------------------------------------
  // Properties of the classifier

  /** No path, or an empty first segment, is not an internal link. */
  lemma NoFirstSegmentIsNotInternal(c: UrlComponents)
    requires |Segments(c)| == 0 || Segments(c)[0] == ""
    ensures Parse(Some(c)) == NotInternal
  {
  }

  /** Three or more segments are not an internal link. */
  lemma LongPathIsNotInternal(c: UrlComponents)
    requires |Segments(c)| >= 3
    ensures Parse(Some(c)) == NotInternal
  {
  }

  /**
   * A one-segment `socks` or `proxy` link with a query is a proxy exactly when
   * the last `server`/`proxy` value is non-empty and the last `port` value reads
   * as an `Int32`; otherwise it is a link to the peer of that name, never nil.
   */
  lemma ProxyLinkClassification(c: UrlComponents, items: seq<QueryItem>)
    requires |Segments(c)| == 1 && Segments(c)[0] in {"socks", "proxy"}
    requires c.queryItems == Some(items)
    ensures Parse(Some(c)).Internal?
    ensures Parse(Some(c)).url.Proxy? <==>
      (exists host, portText :: LastValue(items, ServerKeys) == Some(host) && host != "" &&
         LastValue(items, PortKeys) == Some(portText) && ParseInt32(portText).Some?)
    ensures Parse(Some(c)).url.Proxy? ==>
      Parse(Some(c)).url == ParsedInternalUrl.Proxy(LastValue(items, ServerKeys).value, ParseInt32(LastValue(items, PortKeys).value).value,
        LastValue(items, UserKeys), LastValue(items, PassKeys))
    ensures !Parse(Some(c)).url.Proxy? ==> Parse(Some(c)).url == PeerName(Segments(c)[0], None)
  {
  }

  /** Without any query, `socks` and `proxy` are peer names like any other. */
  lemma NoQueryIsPeerName(c: UrlComponents)
    requires |Segments(c)| == 1 && Segments(c)[0] != "" && c.queryItems.None?
    ensures Parse(Some(c)) == Internal(PeerName(Segments(c)[0], None))
  {
  }

  /**
   * Any other one-segment link: the first `start`, `startgroup` or `game` item
   * with a value decides, giving a bot start, a group bot start or no internal
   * link; with none of them it is the plain peer name.
   */
  lemma PeerLinkClassification(c: UrlComponents, items: seq<QueryItem>)
    requires |Segments(c)| == 1 && Segments(c)[0] != "" && Segments(c)[0] !in {"socks", "proxy"}
    requires c.queryItems == Some(items)
    ensures (forall i :: 0 <= i < |items| ==> !HasValue(items[i], DirectiveKeys)) ==>
      Parse(Some(c)) == Internal(PeerName(Segments(c)[0], None))
    ensures forall i ::
      (0 <= i < |items| && HasValue(items[i], DirectiveKeys) && (forall j :: 0 <= j < i ==> !HasValue(items[j], DirectiveKeys))) ==>
      Parse(Some(c)) ==
        if items[i].name == "start" then Internal(PeerName(Segments(c)[0], Some(ParsedInternalPeerUrlParameter.BotStart(items[i].value.value))))
        else if items[i].name == "startgroup" then Internal(PeerName(Segments(c)[0], Some(ParsedInternalPeerUrlParameter.GroupBotStart(items[i].value.value))))
        else NotInternal
  {
    FirstDirectiveIsFirst(items);
    forall i | 0 <= i < |items| && HasValue(items[i], DirectiveKeys) && (forall j :: 0 <= j < i ==> !HasValue(items[j], DirectiveKeys))
      ensures FirstDirective(items) == Some(items[i])
    {
      var k :| 0 <= k < |items| && items[k] == FirstDirective(items).value && HasValue(items[k], DirectiveKeys) &&
        forall j :: 0 <= j < k ==> !HasValue(items[j], DirectiveKeys);
      assert k == i;
    }
  }

  /**
   * Two segments: `addstickers/X` is a sticker pack, `joinchat/X` and
   * `joinchannel/X` an invite, `name/N` with `N` a 64-bit integer a channel
   * message (trapping beyond 32 bits), anything else no internal link.
   */
  lemma TwoSegmentClassification(c: UrlComponents)
    requires |Segments(c)| == 2 && Segments(c)[0] != ""
    ensures var first, second := Segments(c)[0], Segments(c)[1];
      Parse(Some(c)) ==
        if first == "addstickers" then Internal(ParsedInternalUrl.StickerPack(second))
        else if first in {"joinchat", "joinchannel"} then Internal(ParsedInternalUrl.Join(second))
        else if ParseInt(second).None? then NotInternal
        else if ParseInt32(second).Some? then Internal(PeerName(first, Some(ParsedInternalPeerUrlParameter.ChannelMessage(ParseInt32(second).value))))
        else Trap
  {
  }

  /** The classifier traps only on a two-segment message link whose number fits 64 bits but not 32. */
  lemma TrapOnlyOnWideMessageNumber(c: UrlComponents)
    requires Parse(Some(c)) == Trap
    ensures |Segments(c)| == 2 && Segments(c)[0] !in {"", "addstickers", "joinchat", "joinchannel"}
    ensures ParseInt(Segments(c)[1]).Some? && ParseInt32(Segments(c)[1]).None?
  {
  }

  // ---------------------------------------------------------------------------
  // Link construction, the classifier's partner for proxies

  /** The components of `t.me/proxy?server=…&port=…[&user=…][&pass=…]`. */
  function ProxyLink(host: string, port: int32, username: Option<string>, password: Option<string>): UrlComponents
  {
    var userItems := if username.Some? then [QueryItem("user", username)] else [];
    var passItems := if password.Some? then [QueryItem("pass", password)] else [];
    UrlComponents(["", "proxy"], Some([QueryItem("server", Some(host)), QueryItem("port", Some(Show(port)))] + userItems + passItems))
  }

  /** A proxy link built from a proxy's fields is classified back to the same fields. */
  lemma ProxyLinkRoundTrip(host: string, port: int32, username: Option<string>, password: Option<string>)
    requires host != ""
    ensures Parse(Some(ProxyLink(host, port, username, password))) ==
      Internal(ParsedInternalUrl.Proxy(host, port, username, password))
  {
    var c := ProxyLink(host, port, username, password);
    var items := c.queryItems.value;
    ShowRoundTripInt32(port);
    var head := [QueryItem("server", Some(host)), QueryItem("port", Some(Show(port)))];
    var userItems := if username.Some? then [QueryItem("user", username)] else [];
    var passItems := if password.Some? then [QueryItem("pass", password)] else [];
    assert items == head + userItems + passItems;
    assert "server" != "user" && "server" != "pass" && "port" != "user" && "port" != "pass" && "user" != "pass";
    assert "server" != "port" && "proxy" != "user" && "proxy" != "pass" && "proxy" != "port";
    // Only the first item carries a server, only the second a port.
    assert LastValue(items, ServerKeys) == Some(host) by {
      LastValueIsLast(items, ServerKeys, host);
      assert HasValue(items[0], ServerKeys);
      assert forall j :: 0 < j < |items| ==> !HasValue(items[j], ServerKeys);
    }
    assert LastValue(items, PortKeys) == Some(Show(port)) by {
      LastValueIsLast(items, PortKeys, Show(port));
      assert HasValue(items[1], PortKeys);
      assert forall j :: 1 < j < |items| ==> !HasValue(items[j], PortKeys);
    }
    assert LastValue(items, UserKeys) == username by {
      if username.Some? {
        LastValueIsLast(items, UserKeys, username.value);
        assert HasValue(items[2], UserKeys);
        assert forall j :: 2 < j < |items| ==> !HasValue(items[j], UserKeys);
      } else {
        LastValueAbsent(items, UserKeys);
      }
    }
    assert LastValue(items, PassKeys) == password by {
      if password.Some? {
        LastValueIsLast(items, PassKeys, password.value);
        assert HasValue(items[|items| - 1], PassKeys);
      } else {
        LastValueAbsent(items, PassKeys);
      }
    }
  }

  // ---------------------------------------------------------------------------
  // Resolution of an intent (resolveInternalUrl)

  /** `resolveInternalUrl`: only a peer link consults the directory; `None` means "not found". */
  function ResolveInternalUrl(url: ParsedInternalUrl, resolvePeerByName: string -> Option<PeerId>): (r: Option<ResolvedUrl>)
    ensures r.None? <==> url.PeerName? && resolvePeerByName(url.name).None?
    ensures r.Some? && url.PeerName? ==> !r.value.ExternalUrl? && !r.value.InstantView?
  {
    match url
    case PeerName(name, parameter) =>
      (match resolvePeerByName(name)
       case None => None
       case Some(peerId) =>
         match parameter
         case None => Some(Peer(peerId))
         case Some(BotStart(payload)) => Some(ResolvedUrl.BotStart(peerId, payload))
         case Some(GroupBotStart(payload)) => Some(ResolvedUrl.GroupBotStart(peerId, payload))
         case Some(ChannelMessage(id)) => Some(ResolvedUrl.ChannelMessage(peerId, MessageId(peerId, CloudNamespace, id))))
    case StickerPack(name) => Some(ResolvedUrl.StickerPack(name))
    case Join(link) => Some(ResolvedUrl.Join(link))
    case Proxy(host, port, username, password) => Some(ResolvedUrl.Proxy(host, port, username, password))
  }

  /** Sticker packs, invites and proxies resolve field for field, whatever the directory says. */
  lemma DirectIntentsResolveWithoutLookup(url: ParsedInternalUrl, lookup1: string -> Option<PeerId>, lookup2: string -> Option<PeerId>)
    requires !url.PeerName?
    ensures ResolveInternalUrl(url, lookup1) == ResolveInternalUrl(url, lookup2)
    ensures url.StickerPack? ==> ResolveInternalUrl(url, lookup1) == Some(ResolvedUrl.StickerPack(url.name))
    ensures url.Join? ==> ResolveInternalUrl(url, lookup1) == Some(ResolvedUrl.Join(url.link))
    ensures url.Proxy? ==> ResolveInternalUrl(url, lookup1) == Some(ResolvedUrl.Proxy(url.host, url.port, url.username, url.password))
  {
  }

  /**
   * A peer link is unresolved when the directory does not know the name, and
   * otherwise carries the peer found, with a channel message addressed in the
   * cloud namespace of that peer.
   */
  lemma PeerIntentResolution(name: string, parameter: Option<ParsedInternalPeerUrlParameter>, lookup: string -> Option<PeerId>)
    ensures lookup(name).None? <==> ResolveInternalUrl(PeerName(name, parameter), lookup).None?
    ensures lookup(name).Some? ==>
      var p := lookup(name).value;
      ResolveInternalUrl(PeerName(name, parameter), lookup) == Some(
        match parameter
        case None => Peer(p)
        case Some(BotStart(payload)) => ResolvedUrl.BotStart(p, payload)
        case Some(GroupBotStart(payload)) => ResolvedUrl.GroupBotStart(p, payload)
        case Some(ChannelMessage(id)) => ResolvedUrl.ChannelMessage(p, MessageId(p, CloudNamespace, id)))
  {
  }

  /** A resolved proxy link is the proxy the link was built from. */
  lemma ProxyLinkResolvesToProxy(host: string, port: int32, username: Option<string>, password: Option<string>, lookup: string -> Option<PeerId>)
    requires host != ""
    ensures var parsed := Parse(Some(ProxyLink(host, port, username, password)));
      parsed.Internal? && ResolveInternalUrl(parsed.url, lookup) == Some(ResolvedUrl.Proxy(host, port, username, password))
  {
    ProxyLinkRoundTrip(host, port, username, password);
  }

  // ---------------------------------------------------------------------------
  // Prefix scan and instant view (resolveUrl)

  const Schemes: seq<string> := ["http://", "https://", ""]
  const TelegramMeHosts: seq<string> := ["telegram.me", "t.me"]
  const TelegraPhHosts: seq<string> := ["telegra.ph"]

  /** ASCII lower case; other characters are kept. */
  function LowerChar(c: char): char {
    if 'A' <= c <= 'Z' then (c as int + 32) as char else c
  }

  /** `lowercased()`, on ASCII letters. */
  function Lowercased(s: string): (r: string)
    ensures |r| == |s|
  {
    seq(|s|, i requires 0 <= i < |s| => LowerChar(s[i]))
  }

  /** The prefixes tried for one host, in scheme order. */
  function HostPrefixes(host: string): seq<string> {
    seq(|Schemes|, k requires 0 <= k < |Schemes| => Schemes[k] + host + "/")
  }

  /** The first of `prefixes` that `s` starts with. */
  function FirstPrefix(s: string, prefixes: seq<string>): (r: Option<string>)
    ensures r.Some? ==> r.value in prefixes && r.value <= s
    ensures r.None? ==> forall k :: 0 <= k < |prefixes| ==> !(prefixes[k] <= s)
  {
    if prefixes == [] then None
    else if prefixes[0] <= s then Some(prefixes[0])
    else FirstPrefix(s, prefixes[1..])
  }

  /** The first prefix `s` starts with, hosts in order and, per host, schemes in order. */
  function FirstHostPrefix(s: string, hosts: seq<string>): (r: Option<string>)
    ensures r.Some? ==> r.value <= s && exists b, k :: 0 <= b < |hosts| && 0 <= k < |Schemes| && r.value == Schemes[k] + hosts[b] + "/"
    ensures r.None? ==> forall b, k :: 0 <= b < |hosts| && 0 <= k < |Schemes| ==> !(Schemes[k] + hosts[b] + "/" <= s)
  {
    if hosts == [] then None
    else
      var here := FirstPrefix(s, HostPrefixes(hosts[0]));
      if here.Some? then here
      else
        var rest := FirstHostPrefix(s, hosts[1..]);
        assert forall b :: 1 <= b < |hosts| ==> hosts[b] == hosts[1..][b - 1];
        assert forall k :: 0 <= k < |Schemes| ==> HostPrefixes(hosts[0])[k] == Schemes[k] + hosts[0] + "/";
        assert rest.Some? ==> exists b, k :: 0 <= b < |hosts| && 0 <= k < |Schemes| && rest.value == Schemes[k] + hosts[b] + "/" by {
          if rest.Some? {
            var b, k :| 0 <= b < |hosts[1..]| && 0 <= k < |Schemes| && rest.value == Schemes[k] + hosts[1..][b] + "/";
            assert rest.value == Schemes[k] + hosts[b + 1] + "/";
          }
        }
        rest
  }

  /** Once the first `k` prefixes are ruled out and the `k`-th matches, the scan stops there. */
  lemma {:induction false} FirstPrefixAt(s: string, prefixes: seq<string>, k: nat)
    requires k < |prefixes| && prefixes[k] <= s
    requires forall j :: 0 <= j < k ==> !(prefixes[j] <= s)
    ensures FirstPrefix(s, prefixes) == Some(prefixes[k])
  {
    if k > 0 {
      FirstPrefixAt(s, prefixes[1..], k - 1);
    }
  }

  /**
   * No text starts with two of the `t.me` prefixes, nor with two of the
   * `telegra.ph` ones: the first prefix the scan finds is the only one.
   */
  lemma HostPrefixesExclusive(s: string, hosts: seq<string>, b1: nat, k1: nat, b2: nat, k2: nat)
    requires hosts == TelegramMeHosts || hosts == TelegraPhHosts
    requires b1 < |hosts| && b2 < |hosts| && k1 < |Schemes| && k2 < |Schemes|
    requires Schemes[k1] + hosts[b1] + "/" <= s && Schemes[k2] + hosts[b2] + "/" <= s
    ensures b1 == b2 && k1 == k2
  {
    var p, q := Schemes[k1] + hosts[b1] + "/", Schemes[k2] + hosts[b2] + "/";
    assert forall i :: 0 <= i < |p| && i < |q| ==> p[i] == q[i] by {
      if |p| <= |q| {
        assert p == q[..|p|];
      } else {
        assert q == p[..|q|];
      }
    }
    PrefixChars(hosts, b1, k1);
    PrefixChars(hosts, b2, k2);
    assert p[0] == q[0];
    if k1 < 2 && k2 < 2 {
      assert p[4] == q[4];
    }
    assert k1 == k2;
    assert p[|Schemes[k1]| + 1] == q[|Schemes[k1]| + 1];
  }

  /** Whichever prefix the text starts with, that is the one the host-by-scheme scan returns. */
  lemma MatchingPrefixIsFound(s: string, hosts: seq<string>, b: nat, k: nat)
    requires hosts == TelegramMeHosts || hosts == TelegraPhHosts
    requires b < |hosts| && k < |Schemes| && Schemes[k] + hosts[b] + "/" <= s
    ensures FirstHostPrefix(s, hosts) == Some(Schemes[k] + hosts[b] + "/")
  {
    var r := FirstHostPrefix(s, hosts);
    var b', k' :| 0 <= b' < |hosts| && 0 <= k' < |Schemes| && r.value == Schemes[k'] + hosts[b'] + "/";
    HostPrefixesExclusive(s, hosts, b, k, b', k');
  }

  /** The characters that tell the prefixes apart: the first, the fifth, and the second of the host. */
  lemma PrefixChars(hosts: seq<string>, b: nat, k: nat)
    requires hosts == TelegramMeHosts || hosts == TelegraPhHosts
    requires b < |hosts| && k < |Schemes|
    ensures var p := Schemes[k] + hosts[b] + "/";
      && |p| > |Schemes[k]| + 1 && |p| >= 5
      && p[0] == (if k < 2 then 'h' else 't')
      && (k < 2 ==> p[4] == (if k == 0 then ':' else 's'))
      && p[|Schemes[k]| + 1] == (if hosts[b] == "t.me" then '.' else 'e')
      && (hosts == TelegramMeHosts ==> (hosts[b] == "t.me" <==> b == 1))
  {
    var h := hosts[b];
    assert h == "telegram.me" || h == "t.me" || h == "telegra.ph";
    assert h[0] == 't' && h[1] == (if h == "t.me" then '.' else 'e');
    var p := Schemes[k] + h + "/";
    var scheme := Schemes[k];
    assert scheme == "http://" || scheme == "https://" || scheme == "";
    assert p[|scheme|] == h[0] && p[|scheme| + 1] == h[1];
    if k < 2 {
      assert p[0] == scheme[0] && p[4] == scheme[4];
    }
  }

  /** The anchor of an instant-view link: the text after the first '#', when there is any. */
  function Anchor(url: string): (r: Option<string>)
    ensures r.Some? <==> exists i :: 0 <= i < |url| - 1 && url[i] == '#' && '#' !in url[..i]
    ensures r.Some? ==> exists i :: 0 <= i < |url| && url[i] == '#' && '#' !in url[..i] && r.value == url[i + 1..] && r.value != []
  {
    match FirstIndex(url, '#')
    case Some(i) => if i + 1 < |url| then Some(url[i + 1..]) else None
    case None => None
  }

  /** A `telegra.ph` page: an instant view when its preview is loaded with an instant page, the page's URL otherwise. */
  function InstantViewOrExternal(url: string, webpage: Option<Webpage>): (r: ResolvedUrl)
    ensures r.InstantView? <==> webpage.Some? && webpage.value.content == Loaded(true)
    ensures r.InstantView? ==> r.webpage == webpage.value && r.anchor == Anchor(url)
    ensures !r.InstantView? ==> r == ExternalUrl(url)
  {
    if webpage.Some? && webpage.value.content.Loaded? && webpage.value.content.hasInstantPage then
      InstantView(webpage.value, Anchor(url))
    else ExternalUrl(url)
  }

  /** A `t.me` link whose prefix is `prefixLength` characters long. */
  function ResolveInternalPath(url: string, prefixLength: nat, env: Environment): ResolveOutcome
    requires prefixLength <= |url|
  {
    match Parse(env.urlComponents("/" + url[prefixLength..]))
    case Trap => Crash
    case NotInternal => Resolved(ExternalUrl(url))
    case Internal(internalUrl) =>
      match ResolveInternalUrl(internalUrl, env.resolvePeerByName)
      case Some(resolved) => Resolved(resolved)
      case None => Resolved(ExternalUrl(url))
  }

  /** What `resolveUrl` delivers for `url`. */
  function ResolveUrlSpec(url: string, env: Environment): ResolveOutcome
  {
    var lowered := Lowercased(url);
    match FirstHostPrefix(lowered, TelegramMeHosts)
    case Some(prefix) => ResolveInternalPath(url, |prefix|, env)
    case None =>
      if FirstHostPrefix(lowered, TelegraPhHosts).Some? then Resolved(InstantViewOrExternal(url, env.webpagePreview(url)))
      else Resolved(ExternalUrl(url))
  }

  /** The nested loops of `resolveUrl` over hosts and schemes: the first prefix of `lowered`, if any. */
  method ScanPrefixes(lowered: string, hosts: seq<string>) returns (found: Option<string>)
    ensures found == FirstHostPrefix(lowered, hosts)
  {
    for b := 0 to |hosts|
      invariant FirstHostPrefix(lowered, hosts) == FirstHostPrefix(lowered, hosts[b..])
    {
      var basePath := hosts[b];
      assert hosts[b..][0] == basePath && hosts[b..][1..] == hosts[b + 1..];
      for s := 0 to |Schemes|
        invariant forall k :: 0 <= k < s ==> !(HostPrefixes(basePath)[k] <= lowered)
      {
        var basePrefix := Schemes[s] + basePath + "/";
        if basePrefix <= lowered {
          FirstPrefixAt(lowered, HostPrefixes(basePath), s);
          return Some(basePrefix);
        }
      }
    }
    return None;
  }

  /** The body of `resolveUrl` once a `t.me` prefix of `prefixLength` characters matched. */
  method ResolveTelegramMe(url: string, prefixLength: nat, env: Environment) returns (r: ResolveOutcome)
    requires prefixLength <= |url|
    ensures r == ResolveInternalPath(url, prefixLength, env)
  {
    var parsed := ParseInternalUrl(env.urlComponents("/" + url[prefixLength..]));
    match parsed
    case Trap => r := Crash;
    case NotInternal => r := Resolved(ExternalUrl(url));
    case Internal(internalUrl) =>
      var resolved := ResolveInternalUrl(internalUrl, env.resolvePeerByName);
      if resolved.Some? {
        r := Resolved(resolved.value);
      } else {
        r := Resolved(ExternalUrl(url));
      }
  }

  /** `resolveUrl`: the first matching `t.me` prefix, else the first `telegra.ph` prefix, else an external URL. */
  method ResolveUrl(url: string, env: Environment) returns (r: ResolveOutcome)
    ensures r == ResolveUrlSpec(url, env)
  {
    var lowered := Lowercased(url);
    var telegramMe := ScanPrefixes(lowered, TelegramMeHosts);
    if telegramMe.Some? {
      r := ResolveTelegramMe(url, |telegramMe.value|, env);
      return;
    }
    var telegraPh := ScanPrefixes(lowered, TelegraPhHosts);
    if telegraPh.Some? {
      return Resolved(InstantViewOrExternal(url, env.webpagePreview(url)));
    }
    return Resolved(ExternalUrl(url));
  }

  // ---------------------------------------------------------------------------
  // Properties of resolveUrl

  /** Text that starts with none of the known prefixes (in any letter case) is an external URL, unchanged. */
  lemma UnrecognisedUrlIsExternal(url: string, env: Environment)
    requires forall b, k :: 0 <= b < |TelegramMeHosts| && 0 <= k < |Schemes| ==> !(Schemes[k] + TelegramMeHosts[b] + "/" <= Lowercased(url))
    requires forall b, k :: 0 <= b < |TelegraPhHosts| && 0 <= k < |Schemes| ==> !(Schemes[k] + TelegraPhHosts[b] + "/" <= Lowercased(url))
    ensures ResolveUrlSpec(url, env) == Resolved(ExternalUrl(url))
  {
  }

  /**
   * `resolveUrl` always delivers a target unless the classifier traps, and
   * every external URL it delivers is the input itself.
   */
  lemma ResolveUrlTotal(url: string, env: Environment)
    ensures ResolveUrlSpec(url, env).Crash? ==>
      exists n :: 0 < n <= |url| && Parse(env.urlComponents("/" + url[n..])) == Trap
    ensures ResolveUrlSpec(url, env).Resolved? && ResolveUrlSpec(url, env).result.ExternalUrl? ==>
      ResolveUrlSpec(url, env).result.url == url
  {
    var lowered := Lowercased(url);
    var me := FirstHostPrefix(lowered, TelegramMeHosts);
    if me.Some? && ResolveUrlSpec(url, env).Crash? {
      var b, k :| 0 <= b < |TelegramMeHosts| && 0 <= k < |Schemes| && me.value == Schemes[k] + TelegramMeHosts[b] + "/";
      assert |me.value| > 0;
    }
  }

  /** After a `t.me` prefix, a link that is not internal or whose peer is unknown opens as the original URL. */
  lemma TelegramMeFallback(url: string, env: Environment, prefix: string)
    requires FirstHostPrefix(Lowercased(url), TelegramMeHosts) == Some(prefix)
    requires var parsed := Parse(env.urlComponents("/" + url[|prefix|..]));
      parsed.NotInternal? || (parsed.Internal? && ResolveInternalUrl(parsed.url, env.resolvePeerByName).None?)
    ensures ResolveUrlSpec(url, env) == Resolved(ExternalUrl(url))
  {
  }

  /**
   * A `telegra.ph` page becomes an instant view exactly when its preview is
   * loaded with an instant page, anchored at the text after the first '#'.
   */
  lemma TelegraPhResolution(url: string, env: Environment)
    requires FirstHostPrefix(Lowercased(url), TelegramMeHosts).None?
    requires FirstHostPrefix(Lowercased(url), TelegraPhHosts).Some?
    ensures ResolveUrlSpec(url, env).Resolved?
    ensures ResolveUrlSpec(url, env).result.InstantView? <==>
      (exists w :: env.webpagePreview(url) == Some(w) && w.content == Loaded(true))
    ensures ResolveUrlSpec(url, env).result.InstantView? ==>
      ResolveUrlSpec(url, env).result == InstantView(env.webpagePreview(url).value, Anchor(url))
    ensures !ResolveUrlSpec(url, env).result.InstantView? ==> ResolveUrlSpec(url, env).result == ExternalUrl(url)
  {
  }

  /**
   * `t.me/<name>?start=<payload>` for a name the directory knows opens a bot
   * start with that peer and payload, whatever the letter case of the prefix.
   */
  lemma StartLinkResolvesToBotStart(url: string, env: Environment, name: string, payload: string, peer: PeerId)
    requires |url| >= 5 && Lowercased(url[..5]) == "t.me/"
    requires name != "" && name != "socks" && name != "proxy"
    requires env.urlComponents("/" + url[5..]) == Some(UrlComponents(["", name], Some([QueryItem("start", Some(payload))])))
    requires env.resolvePeerByName(name) == Some(peer)
    ensures ResolveUrlSpec(url, env) == Resolved(ResolvedUrl.BotStart(peer, payload))
  {
    var lowered := Lowercased(url);
    assert lowered[..5] == Lowercased(url[..5]);
    assert lowered[1] == '.';
    // "telegram.me/" has 'e' where the input has '.'; the "http" forms have 'h' where it has 't'.
    assert !(HostPrefixes("telegram.me")[0] <= lowered) by { assert HostPrefixes("telegram.me")[0][0] == 'h'; }
    assert !(HostPrefixes("telegram.me")[1] <= lowered) by { assert HostPrefixes("telegram.me")[1][0] == 'h'; }
    assert !(HostPrefixes("telegram.me")[2] <= lowered) by { assert HostPrefixes("telegram.me")[2][1] == 'e'; }
    assert FirstPrefix(lowered, HostPrefixes("telegram.me")).None?;
    assert !(HostPrefixes("t.me")[0] <= lowered) by { assert HostPrefixes("t.me")[0][0] == 'h'; }
    assert !(HostPrefixes("t.me")[1] <= lowered) by { assert HostPrefixes("t.me")[1][0] == 'h'; }
    assert HostPrefixes("t.me")[2] == "t.me/";
    FirstPrefixAt(lowered, HostPrefixes("t.me"), 2);
    assert TelegramMeHosts[1..] == ["t.me"] && ["t.me"][1..] == [];
    assert FirstHostPrefix(lowered, TelegramMeHosts) == Some("t.me/");
    var items := [QueryItem("start", Some(payload))];
    assert FirstDirective(items) == Some(items[0]);
  }
}

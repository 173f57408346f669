# Telegram deep links and the proxy list screen, in Dafny

This project models two self-contained pieces of the Telegram iOS client.

**Deep-link handling** (`UrlHandling.swift`, module `UrlHandling`).
- `parseInternalUrl` sorts the text after a `t.me/` or `telegram.me/` prefix into one of these intents:
  - a peer link, optionally with a bot start, group bot start or channel message parameter;
  - a sticker pack;
  - an invite;
  - a SOCKS proxy;
  - no internal link at all.
- `resolveInternalUrl` turns an intent into a `ResolvedUrl`. Only peer links consult the name directory.
- `resolveUrl` tries the `t.me` prefixes, then the `telegra.ph` prefixes (instant view with an optional `#` anchor). In every other case it falls back to the original URL.
- The loops of the source are methods, each proved equal to a specification function: the proxy query scan, the bot-parameter scan and the nested prefix scan. The properties of those functions are proved as lemmas.
- Decimal text is read as Swift's `Int(_:)` and `Int32(_:)` read it (module `Numerals`): an optional sign, one or more digits, and nil on overflow.
- `Int32(value)` at line 91 of the source converts a message number read as a 64-bit `Int` (the model takes `Int` as 64 bits, as on every 64-bit device) and traps when the number does not fit 32 bits. The model makes that trap an explicit outcome: `ParseOutcome.Trap`, delivered by `resolveUrl` as `ResolveOutcome.Crash`.

The array operations of `ProxyListSettingsController.swift` (`index(of:)`, `remove(at:)`, `insert(_:at:)`) are stated once, on sequences, in module `Sequences`. `UrlHandling.swift` uses the same first-occurrence search, `FirstIndex`, for its `String.range(of: "#")`.

**The proxy list screen** (`ProxyListSettingsController.swift`, module `ProxyListSettings`).
- The read-modify-write transforms it submits to the stored `ProxySettings`:
  - toggle the proxy;
  - activate a server;
  - remove a server;
  - toggle use for calls;
  - move a server by drag and drop.
- The list entries it shows, their order `<` and their stable identifiers.
- The resolution of a drop into a reorder target.
- The revealed-options state of a server row.
- `ProxySettings` is a Swift struct, so each transform is a value from the old settings to the new ones.
- The two transforms that loop are methods proved against a specification function:
  - the reorder, with its reference scan;
  - the entry-list builder, with its running index.
- The server list is never assumed to be free of duplicates. Where a property needs that, it is a precondition of the lemma.

Two facts about the proxy links of `UrlHandling.swift` that the model keeps as the code has them:
- A proxy link that repeats a key keeps the **last** value, because every item overwrites the previous one (lines 52-63).
- A `socks`/`proxy` link with a missing host or a bad port is not rejected. It becomes `.peerName(name, nil)` (line 84), not an external URL.

Inputs the source takes from elsewhere are parameters, gathered in `UrlHandling.Environment`:
- Foundation's `URLComponents`, given as a function from text to split path components and ordered query items;
- the name directory `resolvePeerByName`, giving the first value it emits or `None`;
- the `webpagePreview` service, giving one preview value or `None`.

## Model

| member | source | states |
|---|---|---|
| Numerals.ParseInteger | TelegramUI/UrlHandling.swift:90 | integer text has a value exactly when it is an optional sign followed by one or more digits; a '-' gives a value of at most zero, and no '-' a value of at least zero |
| Numerals.ParseInt | TelegramUI/UrlHandling.swift:90 | `Int(_:)` gives a value exactly when the text is integer text whose value lies in the 64-bit range, and that value is the text's |
| Numerals.ParseInt32 | TelegramUI/UrlHandling.swift:67 | `Int32(_:)` gives a value exactly when the text is integer text whose value lies in the 32-bit range, and that value is the text's |
| Numerals.DigitsText | TelegramUI/UrlHandling.swift:90 | plain digits read as their decimal value |
| Numerals.PlusText | TelegramUI/UrlHandling.swift:90 | a '+' before digits reads as the digits' value |
| Numerals.MinusText | TelegramUI/UrlHandling.swift:90 | a '-' before digits reads as the negated value of the digits |
| Numerals.NonCanonicalText | TelegramUI/UrlHandling.swift:67 | a leading '0' or '+' does not change the value read, so a port written `0080` or `+80` reads as 80 |
| Numerals.ShowRoundTripInt32 | TelegramUI/UrlHandling.swift:67 | reading back the decimal text of any 32-bit port with `Int32(_:)` gives that port |
| UrlHandling.Segments | TelegramUI/UrlHandling.swift:38-41 | dropping the component before the leading '/' leaves one path segment fewer |
| UrlHandling.FirstDirective | TelegramUI/UrlHandling.swift:71-81 | a directive found by the bot-parameter scan has a value and is named `start`, `startgroup` or `game` |
| UrlHandling.LastValueIsLast | TelegramUI/UrlHandling.swift:52-64 | the proxy scan keeps `v` for a key exactly when some item with a value under that key holds `v` and no later item with a value has that key |
| UrlHandling.LastValueAbsent | TelegramUI/UrlHandling.swift:52-64 | the proxy scan keeps nothing for a key exactly when no item with a value has that key |
| UrlHandling.LaterItemOverrides | TelegramUI/UrlHandling.swift:52-63 | an item with a value appended after all others decides its key, whatever came before |
| UrlHandling.FirstDirectiveIsFirst | TelegramUI/UrlHandling.swift:71-81 | the bot-parameter scan finds nothing exactly when no item with a value is named `start`, `startgroup` or `game`; otherwise it finds the first such item |
| UrlHandling.ScanProxyItems | TelegramUI/UrlHandling.swift:47-65 | the proxy loop leaves in `server`, `port`, `user` and `pass` the value of the last item with a value under each key (`server` or `proxy` for the host) |
| UrlHandling.Parse | TelegramUI/UrlHandling.swift:36-101 | the classification of the components of `"/" + query`, as a value; the lemmas below characterise it case by case |
| UrlHandling.ParseInternalUrl | TelegramUI/UrlHandling.swift:36-101 | `parseInternalUrl`, with its loops and early returns, gives exactly the classification the lemmas below characterise |
| UrlHandling.NoFirstSegmentIsNotInternal | TelegramUI/UrlHandling.swift:42-98 | an empty path, or an empty first segment, is not an internal link |
| UrlHandling.LongPathIsNotInternal | TelegramUI/UrlHandling.swift:85-100 | three or more path segments are not an internal link |
| UrlHandling.ProxyLinkClassification | TelegramUI/UrlHandling.swift:45-84 | a one-segment `socks`/`proxy` link with a query is always internal; it is a proxy exactly when the last host is non-empty and the last port reads as an `Int32`, with the last user and password; otherwise it is `.peerName(name, nil)` |
| UrlHandling.NoQueryIsPeerName | TelegramUI/UrlHandling.swift:44-84 | a one-segment link without a query, `socks` and `proxy` included, is `.peerName(name, nil)` |
| UrlHandling.PeerLinkClassification | TelegramUI/UrlHandling.swift:70-84 | any other one-segment link with a query is `.peerName(name, nil)` when it has no `start`/`startgroup`/`game` item with a value; otherwise the first such item gives a bot start, a group bot start, or no internal link |
| UrlHandling.TwoSegmentClassification | TelegramUI/UrlHandling.swift:85-95 | two segments give a sticker pack for `addstickers`, an invite for `joinchat`/`joinchannel`, a channel message for a second segment that reads as `Int` and fits `Int32`, a trap when it reads as `Int` but does not fit, and no internal link otherwise |
| UrlHandling.TrapOnlyOnWideMessageNumber | TelegramUI/UrlHandling.swift:90-91 | the classifier traps only on a two-segment message link whose number fits 64 bits but not 32 |
| UrlHandling.ProxyLinkRoundTrip | TelegramUI/UrlHandling.swift:46-68 | a `proxy` link built from a non-empty host, any 32-bit port and optional credentials is classified back into exactly that proxy |
| UrlHandling.ResolveInternalUrl | TelegramUI/UrlHandling.swift:103-133 | an intent is unresolved exactly when it is a peer link whose name the directory does not know; a resolved peer link is never an external URL or an instant view |
| UrlHandling.DirectIntentsResolveWithoutLookup | TelegramUI/UrlHandling.swift:126-131 | sticker packs, invites and proxies resolve field for field, independently of the name directory |
| UrlHandling.PeerIntentResolution | TelegramUI/UrlHandling.swift:105-125 | a peer link is unresolved exactly when the directory has no peer for the name; otherwise it resolves to that peer, with a bot start, group bot start, or a channel message addressed in the peer's cloud namespace |
| UrlHandling.ProxyLinkResolvesToProxy | TelegramUI/UrlHandling.swift:130-131 | a proxy link resolves to the very proxy it was built from, whatever the directory |
| UrlHandling.Lowercased | TelegramUI/UrlHandling.swift:141 | lower-casing keeps the length, so a prefix length measured on the lower-cased URL cuts the original |
| UrlHandling.FirstPrefix | TelegramUI/UrlHandling.swift:139-141 | the scheme scan returns a prefix of the URL from the list, and returns none only when no listed prefix matches |
| UrlHandling.FirstHostPrefix | TelegramUI/UrlHandling.swift:136-141 | the host-by-scheme scan returns some `scheme + host + "/"` that prefixes the URL, and none only when no combination does |
| UrlHandling.HostPrefixesExclusive | TelegramUI/UrlHandling.swift:136-160 | no text starts with two different `t.me`/`telegram.me` prefixes, nor with two different `telegra.ph` prefixes |
| UrlHandling.MatchingPrefixIsFound | TelegramUI/UrlHandling.swift:136-141 | whichever `scheme + host + "/"` the text starts with is exactly the prefix the scan returns, so the first match in host and scheme order is the only match |
| UrlHandling.FirstPrefixAt | TelegramUI/UrlHandling.swift:139-141 | when the first `k` schemes fail and the `k`-th matches, the scan stops at the `k`-th |
| UrlHandling.Anchor | TelegramUI/UrlHandling.swift:165-171 | the anchor exists exactly when a '#' is followed by text, and is all the text after the first '#' |
| UrlHandling.InstantViewOrExternal | TelegramUI/UrlHandling.swift:162-176 | a preview gives an instant view exactly when it is loaded with an instant page, with that page and the anchor after the first '#'; otherwise the original URL |
| UrlHandling.ScanPrefixes | TelegramUI/UrlHandling.swift:136-141 | the nested loops over hosts and schemes with an early return give exactly the host-by-scheme scan, whose match is the only one by MatchingPrefixIsFound |
| UrlHandling.ResolveTelegramMe | TelegramUI/UrlHandling.swift:142-153 | after a `t.me` prefix: a trap crashes; a non-internal or unresolved link gives the original URL; otherwise the resolved target |
| UrlHandling.ResolveUrlSpec | TelegramUI/UrlHandling.swift:135-181 | what `resolveUrl` delivers, as a value; the lemmas below characterise it |
| UrlHandling.ResolveUrl | TelegramUI/UrlHandling.swift:135-181 | `resolveUrl`, with its loops and early returns, tries the `t.me` hosts first, then `telegra.ph`, then falls back to the URL |
| UrlHandling.UnrecognisedUrlIsExternal | TelegramUI/UrlHandling.swift:180 | a URL that starts with no known prefix, in any letter case, opens as itself |
| UrlHandling.ResolveUrlTotal | TelegramUI/UrlHandling.swift:135-181 | `resolveUrl` always delivers a target unless the classifier traps on the text after a non-empty prefix, and every external URL it delivers is the input, unchanged |
| UrlHandling.TelegramMeFallback | TelegramUI/UrlHandling.swift:142-153 | after a `t.me` prefix, a link that is not internal or whose peer is unknown opens as the original URL |
| UrlHandling.TelegraPhResolution | TelegramUI/UrlHandling.swift:157-179 | a `telegra.ph` page is an instant view exactly when its preview is loaded with an instant page, anchored after the first '#'; otherwise it opens as the original URL |
| UrlHandling.StartLinkResolvesToBotStart | TelegramUI/UrlHandling.swift:135-148 | `t.me/<name>?start=<payload>` for a known name, in any letter case of the prefix, opens a bot start with that peer and payload |
| Sequences.FirstIndex | TelegramUI/ProxyListSettingsController.swift:294 | `index(of:)` gives the position of the first occurrence, and none exactly when the element is absent; `UrlHandling.Anchor` uses it as `range(of: "#")` (UrlHandling.swift:166) |
| Sequences.RemoveFirst | TelegramUI/ProxyListSettingsController.swift:392-394 | removing the first occurrence of a listed server shortens the list by one, and an unlisted server leaves it as it is |
| Sequences.RemoveFirstMultiset | TelegramUI/ProxyListSettingsController.swift:392-394 | removing the first occurrence takes exactly one copy of that server out of the list |
| ProxyListSettings.ToggleEnabled | TelegramUI/ProxyListSettingsController.swift:270-275 | the switch sets `enabled` to the value and changes no other field |
| ProxyListSettings.ToggleUseForCalls | TelegramUI/ProxyListSettingsController.swift:311-316 | the switch sets `useForCalls` to the value and changes no other field |
| ProxyListSettings.ActivateServer | TelegramUI/ProxyListSettingsController.swift:278-288 | a listed server that is not active becomes active and switches the proxy on; otherwise nothing changes; the list and `useForCalls` never change |
| ProxyListSettings.RemoveServer | TelegramUI/ProxyListSettingsController.swift:291-302 | a listed server loses one copy and the list one entry; if it was active, no server is active and the proxy is off, otherwise both are kept; an unlisted server changes nothing, even when it is the active one |
| ProxyListSettings.RemoveServerKeepsOrder | TelegramUI/ProxyListSettingsController.swift:294-295 | removal takes out exactly the first occurrence and keeps every other server in order |
| ProxyListSettings.TransformsKeepActiveListed | TelegramUI/ProxyListSettingsController.swift:270-316 | the toggles, activation and removal keep the active server among the listed ones |
| ProxyListSettings.TransformsIdempotent | TelegramUI/ProxyListSettingsController.swift:270-288 | submitting a toggle or an activation twice has the effect of submitting it once |
| ProxyListSettings.RemoveServerIdempotentWhenUnique | TelegramUI/ProxyListSettingsController.swift:292-302 | removing a server listed at most once twice has the effect of removing it once |
| ProxyListSettings.RemoveServerTwiceWithDuplicate | TelegramUI/ProxyListSettingsController.swift:294-295 | with a server listed twice, a second removal takes the second copy |
| ProxyListSettings.Reordered | TelegramUI/ProxyListSettingsController.swift:390-416 | a move, as a value: the list without the dragged server's first occurrence plus that server, which it always contains |
| ProxyListSettings.InsertNextTo | TelegramUI/ProxyListSettingsController.swift:395-410 | the insertion adds exactly one copy of the dragged server and keeps every other server: right after (forward) or right before the reference's first occurrence, or at the tail when the reference is not listed |
| ProxyListSettings.InsertNextToReference | TelegramUI/ProxyListSettingsController.swift:395-410 | the reference scan inserts the server after (forward) or before the reference's first occurrence, or appends it when the reference is not listed |
| ProxyListSettings.ReorderServers | TelegramUI/ProxyListSettingsController.swift:390-416 | the reorder transform changes only the list: it removes the first occurrence of the dragged server and inserts it at the target |
| ProxyListSettings.ReorderPlacement | TelegramUI/ProxyListSettingsController.swift:390-416 | a move is the list without the dragged server's first occurrence, with the server inserted at one position: the head for before-all, the tail for after-all or an unlisted reference, otherwise right after (forward) or right before the reference's first occurrence |
| ProxyListSettings.ReorderPermutes | TelegramUI/ProxyListSettingsController.swift:390-416 | a move of a listed server permutes the list; a move of an unlisted server adds it once |
| ProxyListSettings.ReorderKeepsUnique | TelegramUI/ProxyListSettingsController.swift:390-416 | a move keeps a duplicate-free list duplicate-free |
| ProxyListSettings.ReorderKeepsActiveListed | TelegramUI/ProxyListSettingsController.swift:390-416 | a move keeps the active server among the listed ones |
| ProxyListSettings.ReorderOntoItself | TelegramUI/ProxyListSettingsController.swift:392-410 | dropping a server listed at most once onto itself sends it to the tail |
| ProxyListSettings.ReorderOfUnlistedGrows | TelegramUI/ProxyListSettingsController.swift:392-415 | moving a server that is not listed inserts it, so the list grows by one |
| ProxyListSettings.Less | TelegramUI/ProxyListSettingsController.swift:127-169 | the switch of `<` over both entries' kinds, as written; LessByRank and EntryOrderIsStrict state what it means |
| ProxyListSettings.LessByRank | TelegramUI/ProxyListSettingsController.swift:127-169 | `<` orders enabled, header, add row, servers, use-for-calls and its footnote, in that order, and server rows by index |
| ProxyListSettings.EntryOrderIsStrict | TelegramUI/ProxyListSettingsController.swift:127-169 | `<` is irreflexive, asymmetric and transitive |
| ProxyListSettings.DisplayStatus | TelegramUI/ProxyListSettingsController.swift:215-236 | only the active server of an enabled proxy can show a spinner or highlighted text |
| ProxyListSettings.ServerStatusDisplay | TelegramUI/ProxyListSettingsController.swift:215-236 | the active server of an enabled proxy shows the connection: waiting for network, connecting (also while updating) with a spinner, or online highlighted; every other row shows its reported availability (not available, checking, available with its round trip), and checking when nothing is reported |
| ProxyListSettings.ProxySettingsControllerEntries | TelegramUI/ProxyListSettingsController.swift:207-245 | the list has the switch (creating a new server exactly when none is listed), the header, the add row, one row per server numbered 0 to n-1 in list order with its own settings and an active flag exactly when it is the active server, then the two call rows; it is strictly increasing under `<` |
| ProxyListSettings.OneActiveRow | TelegramUI/ProxyListSettingsController.swift:237 | with no duplicates and a listed active server, exactly one server row is marked active |
| ProxyListSettings.StableId | TelegramUI/ProxyListSettingsController.swift:69-84 | a row has a server identifier exactly when it is a server row; the fixed rows have the numbers 0 to 4 |
| ProxyListSettings.StableIdSeparatesKinds | TelegramUI/ProxyListSettingsController.swift:69-84 | rows of different kinds never share an identifier; server rows share one exactly when host, port and credentials agree, a missing credential read as empty |
| ProxyListSettings.StableIdMergesMissingAndEmptyCredentials | TelegramUI/ProxyListSettingsController.swift:77-78 | a server without a user name and one with an empty user name are different servers with the same row identifier |
| ProxyListSettings.ResolveReorderTarget | TelegramUI/ProxyListSettingsController.swift:367-388 | a drop yields nothing exactly when the dragged row is not a server row; otherwise it moves the dragged server, next to the server at the target row, or after all when the drop is past the end; a reference target comes only from a server row |
| ProxyListSettings.ReorderTargetOnFixedRows | TelegramUI/ProxyListSettingsController.swift:367-388 | a dragged server row always yields a target; a drop on a row above the servers goes to the head, one below them or past the end to the tail |
| ProxyListSettings.DropOnItselfMovesToTail | TelegramUI/ProxyListSettingsController.swift:367-410 | dropping a server row, listed once, onto itself targets that server and moves it to the tail |
| ProxyListSettings.SetServerWithRevealedOptions | TelegramUI/ProxyListSettingsController.swift:303-310 | a row's options are revealed whenever the caller reports no previously revealed row (`fromServer` nil), whatever the stored state; they are hidden only when the caller reports the row stored as revealed (or none when none is); any other call leaves the state unchanged; edit mode is never touched |

## Left out

- A name lookup whose signal never emits is not modelled. With `take(1)` of such a signal the resolution never completes; the model always gives the first value or `None`.
- The page preview signal at UrlHandling.swift:162 has no `take(1)`: `resolveUrl` maps every value it emits, so a pending page followed by the loaded page delivers `externalUrl` and then `instantView`. The model gives one result for one preview value, and does not model a preview that never emits.
- Swift's `Int` is taken as 64 bits. On a 32-bit build `Int(_:)` at UrlHandling.swift:90 already gives nil beyond 32 bits, so line 91 cannot trap there; the model describes 64-bit builds only.
- Swift's `==` and `hasPrefix` on `String` compare grapheme clusters. The model compares `char` sequences, so it does not capture canonical equivalence of differently composed text.
- `ProxyListSettings.ResolveReorderTarget`: requires `fromIndex` to index the entries. The source's `entries[fromIndex]` (ProxyListSettingsController.swift:368) traps otherwise; the list controller only reports indices of rows it shows. It also takes `toIndex` as a natural number: a negative Swift `toIndex` passes the test at line 375 and traps at `entries[toIndex]` on line 376, which the model does not capture.
- Foundation's `URLComponents` (path splitting, query parsing, percent decoding) is a parameter of the model, `Environment.urlComponents`.
- `UrlHandling.Lowercased`: models `lowercased()` on ASCII letters only; Unicode case mapping is Foundation behaviour.
- SwiftSignalKit plumbing (`Signal`, `take(1)`, `map`, `Promise`, `ValuePromise`, `Atomic`, `combineLatest`, `.start()`) is not modelled. A name lookup is the first value the signal emits, as an `Option`. A settings update is a function from the old settings to the new ones.
- The services `resolvePeerByName`, `webpagePreview`, `updateProxySettingsInteractively`, `ProxyServersStatuses` and `connectionStatus` are parameters of the model.
- A webpage is modelled only as its identifier and "loaded, with or without an instant page". Its other content is left out.
- `Namespaces.Message.Cloud` is defined in TelegramCore, which is not part of this model; the model uses the constant `CloudNamespace`.
- The ping text `Int(rtt * 1000.0)` and the other status strings are floating point and display copy. A row's status is an abstract tag that carries the round trip.
- Themes, strings, `item(_:)` list-item construction, the entry `section`, entry `==`, the navigation buttons, the edit/done state switch, controller presentation and the `updateState` change detection are UI glue and are not modelled.
- `addNewServer` and `editServer` only present another screen and are not modelled.
- The commented-out Safari controller at the end of `UrlHandling.swift` is not code and is not modelled.

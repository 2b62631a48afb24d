/** The live-price feed of the crypto page (components/CryptoDetails.jsx): the
    asset-to-symbol table, the choice of at most five coins to subscribe to,
    the subscription text, the connect / close / error reconnect rules with an
    explicit clock, and the timed drain of the buffered socket messages into
    the store. Handlers are atomic methods; timers are recorded as the time at
    which they would fire. */
module CryptoFeed {
  import opened Common
  import Keyed
  import opened CryptoSlice

  /** `WEBSOCKET_RECONNECT_DELAY`, in milliseconds. */
  const ReconnectDelay: int := 30000
  /** The component's own five-coin default list. */
  const LiveDefaults: seq<string> := ["BTC", "ETH", "SOL", "ADA", "DOGE"]
  const MaxTracked: nat := 5

  // ---------------------------------------------------------------------------
  // Asset ids (lines 263-274)
  // ---------------------------------------------------------------------------

  /** `mapping[asset] || asset.toUpperCase()`. */
  function SymbolFromAsset(asset: string): (r: string)
    ensures asset == "bitcoin" ==> r == "BTC"
    ensures asset == "ethereum" ==> r == "ETH"
    ensures asset == "solana" ==> r == "SOL"
    ensures asset == "cardano" ==> r == "ADA"
    ensures asset == "dogecoin" ==> r == "DOGE"
    ensures asset == "polkadot" ==> r == "DOT"
    ensures asset == "ripple" ==> r == "XRP"
    ensures asset !in ["bitcoin", "ethereum", "solana", "cardano", "dogecoin", "polkadot", "ripple"] ==> r == Upper(asset)
  {
    match asset
    case "bitcoin" => "BTC"
    case "ethereum" => "ETH"
    case "solana" => "SOL"
    case "cardano" => "ADA"
    case "dogecoin" => "DOGE"
    case "polkadot" => "DOT"
    case "ripple" => "XRP"
    case _ => Upper(asset)
  }

  /** Every symbol the table produces is already upper case. */
  lemma SymbolFromAssetIsUpper(asset: string)
    ensures Upper(SymbolFromAsset(asset)) == SymbolFromAsset(asset)
  {
    var r := SymbolFromAsset(asset);
    if asset in ["bitcoin", "ethereum", "solana", "cardano", "dogecoin", "polkadot", "ripple"] {
      assert forall i :: 0 <= i < |r| ==> Upper(r)[i] == r[i];
    } else {
      UpperIdempotent(asset);
    }
  }

  // ---------------------------------------------------------------------------
  // Priority subset (lines 27 and 156-171)
  // ---------------------------------------------------------------------------

  /** The market cap the comparator subtracts; a record without one counts as 0. */
  function Cap(c: Coin): real
  {
    if c.marketCap.Some? then c.marketCap.value else 0.0
  }

  /** The comparator returns a negative number: `a` goes before `b`. */
  predicate Outranks(a: Coin, b: Coin)
  {
    if a.isFavorite != b.isFavorite then a.isFavorite
    else if (a.symbol in LiveDefaults) != (b.symbol in LiveDefaults) then a.symbol in LiveDefaults
    else Cap(b) - Cap(a) < 0.0
  }

  /** The comparator is a consistent order: strict on one side, and "not
      after" is transitive. */
  lemma OutranksOrder(a: Coin, b: Coin, c: Coin)
    ensures Outranks(a, b) ==> !Outranks(b, a)
    ensures !Outranks(b, a) && !Outranks(c, b) ==> !Outranks(c, a)
  {
  }

  ghost predicate SortedByPriority(s: seq<Coin>)
  {
    forall i, j :: 0 <= i < j < |s| ==> !Outranks(s[j], s[i])
  }

  /** One step of a stable sort: `x`, which came before every element of `s`,
      goes before the first element it is not outranked by. */
  function Insert(x: Coin, s: seq<Coin>): seq<Coin>
  {
    if s == [] || !Outranks(s[0], x) then [x] + s
    else [s[0]] + Insert(x, s[1..])
  }

  /** `Array.prototype.sort` with the priority comparator (a stable sort). */
  function SortByPriority(s: seq<Coin>): seq<Coin>
  {
    if s == [] then [] else Insert(s[0], SortByPriority(s[1..]))
  }

  /** Inserting adds `x` and keeps everything else. */
  lemma {:induction false} InsertPerm(x: Coin, s: seq<Coin>)
    ensures multiset(Insert(x, s)) == multiset(s) + multiset{x}
  {
    if s != [] && Outranks(s[0], x) {
      InsertPerm(x, s[1..]);
      assert s == [s[0]] + s[1..];
    }
  }

  /** A coin outranked by none of a list in priority order can head it. */
  lemma ConsSorted(h: Coin, r: seq<Coin>)
    requires SortedByPriority(r)
    requires forall j :: 0 <= j < |r| ==> !Outranks(r[j], h)
    ensures SortedByPriority([h] + r)
  {
    var l := [h] + r;
    forall i, j | 0 <= i < j < |l| ensures !Outranks(l[j], l[i]) {
      if i > 0 {
        assert l[i] == r[i - 1] && l[j] == r[j - 1];
      } else {
        assert l[j] == r[j - 1];
      }
    }
  }

  /** Inserting brings in nothing but the inserted coin. */
  lemma InsertMembers(x: Coin, s: seq<Coin>, y: Coin)
    requires y in Insert(x, s)
    ensures y == x || y in s
  {
    InsertPerm(x, s);
    assert y in multiset(Insert(x, s));
  }

  /** Inserting into a list in priority order keeps it in priority order. */
  lemma {:induction false} InsertSorted(x: Coin, s: seq<Coin>)
    requires SortedByPriority(s)
    ensures SortedByPriority(Insert(x, s))
  {
    if s == [] {
    } else if !Outranks(s[0], x) {
      forall j | 0 <= j < |s| ensures !Outranks(s[j], x) {
        if j > 0 { OutranksOrder(x, s[0], s[j]); }
      }
      ConsSorted(x, s);
    } else {
      var rest := Insert(x, s[1..]);
      InsertSorted(x, s[1..]);
      forall j | 0 <= j < |rest| ensures !Outranks(rest[j], s[0]) {
        var y := rest[j];
        InsertMembers(x, s[1..], y);
        if y == x {
          OutranksOrder(s[0], x, x);
        } else {
          var k :| 0 <= k < |s[1..]| && s[1..][k] == y;
          assert s[k + 1] == y;
        }
      }
      ConsSorted(s[0], rest);
    }
  }

  lemma InsertSpec(x: Coin, s: seq<Coin>)
    requires SortedByPriority(s)
    ensures multiset(Insert(x, s)) == multiset(s) + multiset{x}
    ensures SortedByPriority(Insert(x, s))
  {
    InsertPerm(x, s);
    InsertSorted(x, s);
  }

  /** The sort orders by priority and is a permutation. */
  lemma {:induction false} SortByPrioritySpec(s: seq<Coin>)
    ensures multiset(SortByPriority(s)) == multiset(s)
    ensures SortedByPriority(SortByPriority(s))
  {
    if s != [] {
      SortByPrioritySpec(s[1..]);
      InsertSpec(s[0], SortByPriority(s[1..]));
      assert s == [s[0]] + s[1..];
    }
  }

  function NoError(c: Coin): bool
  {
    !HasError(c)
  }

  /** The coins without error, in the order the sort puts them. */
  function Ranked(data: seq<Coin>): seq<Coin>
  {
    SortByPriority(Filter(data, NoError))
  }

  function Take(s: seq<Coin>, n: nat): (r: seq<Coin>)
    ensures |r| <= n && |r| <= |s| && r == s[..|r|]
    ensures |r| == n || r == s
  {
    if |s| <= n then s else s[..n]
  }

  /** `priorityCoins`. */
  function PrioritySubset(data: seq<Coin>): seq<Coin>
  {
    Take(Ranked(data), MaxTracked)
  }

  /** In a list in priority order, favorites come before non-favorites, then
      coins of the five-coin default list before the rest, then larger market
      caps before smaller. */
  lemma SortedMeansPriority(r: seq<Coin>)
    requires SortedByPriority(r)
    ensures forall i, j :: 0 <= i < j < |r| && r[j].isFavorite ==> r[i].isFavorite
    ensures forall i, j :: 0 <= i < j < |r| && r[i].isFavorite == r[j].isFavorite && r[j].symbol in LiveDefaults ==>
              r[i].symbol in LiveDefaults
    ensures forall i, j :: (0 <= i < j < |r| && r[i].isFavorite == r[j].isFavorite &&
                            (r[i].symbol in LiveDefaults) == (r[j].symbol in LiveDefaults)) ==>
              Cap(r[i]) >= Cap(r[j])
  {
    forall i, j | 0 <= i < j < |r| ensures !Outranks(r[j], r[i]) { }
  }

  /** The subset holds at most five coins, none with an error, all from the
      data, in priority order. */
  lemma PrioritySubsetSpec(data: seq<Coin>)
    ensures var r := PrioritySubset(data);
      && |r| <= MaxTracked
      && SortedByPriority(r)
      && (forall i :: 0 <= i < |r| ==> !HasError(r[i]) && r[i] in data)
  {
    var ok := Filter(data, NoError);
    var full := Ranked(data);
    SortByPrioritySpec(ok);
    var r := PrioritySubset(data);
    forall i | 0 <= i < |r| ensures !HasError(r[i]) && r[i] in data {
      assert r[i] == full[i];
      assert full[i] in multiset(ok);
      assert full[i] in ok;
      assert NoError(full[i]);
    }
  }

  /** The subset is the head of the ranking of every coin without error, and
      no coin left out of it outranks one that was taken. */
  lemma PriorityCutoff(data: seq<Coin>)
    ensures var full := Ranked(data);
      var r := PrioritySubset(data);
      && multiset(full) == multiset(Filter(data, NoError))
      && r == full[..|r|]
      && (|r| < MaxTracked ==> r == full)
      && forall i, j :: 0 <= i < |r| <= j < |full| ==> !Outranks(full[j], r[i])
  {
    SortByPrioritySpec(Filter(data, NoError));
  }

  /** The ids to subscribe to: lower-cased, skipping missing and empty ones. */
  function AssetIds(coins: seq<Coin>): (r: seq<string>)
    ensures |r| <= |coins|
    ensures forall k :: 0 <= k < |r| ==> r[k] != ""
  {
    if coins == [] then []
    else
      var init := AssetIds(coins[..|coins| - 1]);
      var id := coins[|coins| - 1].id;
      if id.Some? && id.value != "" then init + [Lower(id.value)] else init
  }

  /** `priorityCoins.map(c => c.id?.toLowerCase()).filter(Boolean).join(",")`. */
  function Assets(coins: seq<Coin>): string
  {
    Join(AssetIds(coins), ',')
  }

  /** The subscription text is empty exactly when no coin has an id, and it
      splits back into the ids when no id contains a comma. */
  lemma AssetsSpec(coins: seq<Coin>)
    ensures Assets(coins) == "" <==> AssetIds(coins) == []
    ensures AssetIds(coins) != [] && (forall k :: 0 <= k < |AssetIds(coins)| ==> ',' !in AssetIds(coins)[k]) ==>
              Split(Assets(coins), ',') == AssetIds(coins)
  {
    JoinEmpty(AssetIds(coins), ',');
    if AssetIds(coins) != [] && (forall k :: 0 <= k < |AssetIds(coins)| ==> ',' !in AssetIds(coins)[k]) {
      SplitJoin(AssetIds(coins), ',');
    }
  }

  /** A coin has a subscribable id exactly when it has a non-empty one. */
  lemma {:induction false} AssetIdsEmpty(coins: seq<Coin>)
    ensures AssetIds(coins) == [] <==> forall i :: 0 <= i < |coins| ==> coins[i].id.None? || coins[i].id.value == ""
  {
    if coins != [] {
      var n := |coins| - 1;
      AssetIdsEmpty(coins[..n]);
      assert forall i :: 0 <= i < n ==> coins[..n][i] == coins[i];
    }
  }

  // ---------------------------------------------------------------------------
  // Socket messages and the drain (lines 57-116)
  // ---------------------------------------------------------------------------

  /** One `asset: price` pair of a message; the price is `parseFloat`'s
      result, `None` for NaN. */
  datatype PriceEntry = PriceEntry(asset: string, price: Option<real>)

  /** A buffered message: text `JSON.parse` rejects, or its entries. */
  datatype Message = Malformed | Parsed(entries: seq<PriceEntry>)

  /** An `updates` value; `priceChange` is `None` where the source computes NaN
      (a record without a price). */
  datatype LiveUpdate = LiveUpdate(price: real, priceChange: Option<real>, priceChangePercent: real)

  datatype Update = Update(symbol: string, data: LiveUpdate)

  function UpdateSymbol(u: Update): string
  {
    u.symbol
  }

  /** The record an entry is matched against: its id is the asset, or its
      symbol equals the asset's symbol ignoring case. */
  predicate Tracks(c: Coin, asset: string)
  {
    c.id == Some(asset) || Lower(c.symbol) == Lower(SymbolFromAsset(asset))
  }

  function MatchIndex(coins: seq<Coin>, asset: string): int
  {
    Keyed.FindIndex(coins, (c: Coin) => Tracks(c, asset), true)
  }

  /** `oldPrice ? (priceChange / oldPrice) * 100 : 0`. */
  function Percent(change: real, oldPrice: real): real
  {
    if oldPrice != 0.0 then change / oldPrice * 100.0 else 0.0
  }

  /** The percentage is the change measured in hundredths of the old price. */
  lemma PercentSpec(change: real, oldPrice: real)
    ensures oldPrice != 0.0 ==> Percent(change, oldPrice) * oldPrice == change * 100.0
    ensures oldPrice == 0.0 ==> Percent(change, oldPrice) == 0.0
    ensures oldPrice > 0.0 ==> (Percent(change, oldPrice) > 0.0 <==> change > 0.0)
  {
  }

  /** What one entry contributes to `updates`: nothing unless a record matches
      and the price is a non-zero number; the change and percentage are taken
      against that record's price. */
  function EntryUpdate(coins: seq<Coin>, e: PriceEntry): Option<Update>
  {
    var i := MatchIndex(coins, e.asset);
    if i < 0 || e.price.None? || e.price.value == 0.0 then None
    else
      var old_ := coins[i].price;
      var change := if old_.Some? then Some(e.price.value - old_.value) else None;
      var percent := if old_.Some? then Percent(e.price.value - old_.value, old_.value) else 0.0;
      Some(Update(coins[i].symbol, LiveUpdate(e.price.value, change, percent)))
  }

  /** An entry yields an update exactly when some record tracks its asset and
      its price is a non-zero number. */
  lemma EntryUpdateWhen(coins: seq<Coin>, e: PriceEntry)
    ensures EntryUpdate(coins, e).Some? ==>
      e.price.Some? && e.price.value != 0.0 && exists i :: 0 <= i < |coins| && Tracks(coins[i], e.asset)
    ensures e.price.Some? && e.price.value != 0.0 && (exists i :: 0 <= i < |coins| && Tracks(coins[i], e.asset)) ==>
      EntryUpdate(coins, e).Some?
  {
    var i := MatchIndex(coins, e.asset);
    if i >= 0 {
      assert Tracks(coins[i], e.asset);
    }
  }

  /** The update is filed under the first record tracking the asset; its
      change is new minus old, and its percentage is the change in hundredths
      of the old price (0 when the old price is 0 or missing). */
  lemma EntryUpdateValue(coins: seq<Coin>, e: PriceEntry, i: nat)
    requires i < |coins| && Tracks(coins[i], e.asset)
    requires forall j :: 0 <= j < i ==> !Tracks(coins[j], e.asset)
    requires EntryUpdate(coins, e).Some?
    ensures var u := EntryUpdate(coins, e).value;
      && u.symbol == coins[i].symbol
      && u.data.price == e.price.value
      && (coins[i].price.Some? ==> u.data.priceChange == Some(u.data.price - coins[i].price.value))
      && (coins[i].price.Some? && coins[i].price.value != 0.0 ==>
            u.data.priceChangePercent * coins[i].price.value == u.data.priceChange.value * 100.0)
      && (coins[i].price.None? || coins[i].price.value == 0.0 ==> u.data.priceChangePercent == 0.0)
  {
    Keyed.FindIndexAt(coins, (c: Coin) => Tracks(c, e.asset), true, i);
    if coins[i].price.Some? {
      PercentSpec(e.price.value - coins[i].price.value, coins[i].price.value);
    }
  }

  /** The updates the entries of one message produce, in order. */
  function EntryUpdates(coins: seq<Coin>, entries: seq<PriceEntry>): seq<Update>
  {
    if entries == [] then []
    else
      var init := EntryUpdates(coins, entries[..|entries| - 1]);
      var u := EntryUpdate(coins, entries[|entries| - 1]);
      if u.Some? then init + [u.value] else init
  }

  /** The updates a batch of messages produces, in order; a malformed message
      produces none. */
  function MessageUpdates(coins: seq<Coin>, messages: seq<Message>): seq<Update>
  {
    if messages == [] then []
    else
      var init := MessageUpdates(coins, messages[..|messages| - 1]);
      var m := messages[|messages| - 1];
      if m.Parsed? then init + EntryUpdates(coins, m.entries) else init
  }

  /** The `updates` object after a batch: each update assigned in turn under
      its symbol, a later one overwriting an earlier one in place. */
  function BatchUpdates(coins: seq<Coin>, messages: seq<Message>): seq<Update>
  {
    Keyed.UpsertAll([], MessageUpdates(coins, messages), UpdateSymbol)
  }

  lemma {:induction false} MessageUpdatesAppend(coins: seq<Coin>, a: seq<Message>, b: seq<Message>)
    ensures MessageUpdates(coins, a + b) == MessageUpdates(coins, a) + MessageUpdates(coins, b)
  {
    if b == [] {
      assert a + b == a;
    } else {
      var n := |b| - 1;
      assert (a + b)[..|a + b| - 1] == a + b[..n];
      assert (a + b)[|a + b| - 1] == b[n];
      MessageUpdatesAppend(coins, a, b[..n]);
      var tail := if b[n].Parsed? then EntryUpdates(coins, b[n].entries) else [];
      assert MessageUpdates(coins, a + b) == MessageUpdates(coins, a + b[..n]) + tail;
      assert MessageUpdates(coins, b) == MessageUpdates(coins, b[..n]) + tail;
      assert MessageUpdates(coins, a) + MessageUpdates(coins, b[..n]) + tail ==
             MessageUpdates(coins, a) + (MessageUpdates(coins, b[..n]) + tail);
    }
  }

  /** A message that does not parse is skipped and the rest of the batch is
      processed as if it were not there. */
  lemma MalformedSkipped(coins: seq<Coin>, before: seq<Message>, after: seq<Message>)
    ensures BatchUpdates(coins, before + [Malformed] + after) == BatchUpdates(coins, before + after)
  {
    MessageUpdatesAppend(coins, before + [Malformed], after);
    MessageUpdatesAppend(coins, before, after);
    assert (before + [Malformed])[..|before|] == before;
  }

  lemma {:induction false} EntryUpdatesSound(coins: seq<Coin>, entries: seq<PriceEntry>)
    ensures forall u :: u in EntryUpdates(coins, entries) ==>
      u.data.price != 0.0 && exists i :: 0 <= i < |coins| && coins[i].symbol == u.symbol
  {
    if entries != [] {
      var e := entries[|entries| - 1];
      EntryUpdatesSound(coins, entries[..|entries| - 1]);
      EntryUpdateWhen(coins, e);
      var u := EntryUpdate(coins, e);
      if u.Some? {
        var i := MatchIndex(coins, e.asset);
        EntryUpdateValue(coins, e, i);
      }
    }
  }

  lemma {:induction false} MessageUpdatesSound(coins: seq<Coin>, messages: seq<Message>)
    ensures forall u :: u in MessageUpdates(coins, messages) ==>
      u.data.price != 0.0 && exists i :: 0 <= i < |coins| && coins[i].symbol == u.symbol
  {
    if messages != [] {
      var m := messages[|messages| - 1];
      MessageUpdatesSound(coins, messages[..|messages| - 1]);
      if m.Parsed? { EntryUpdatesSound(coins, m.entries); }
    }
  }

  /** Every update of a batch is for a symbol of the snapshot and carries a
      non-zero price; and for each symbol the update kept is the batch's last
      one for that symbol. */
  lemma BatchUpdatesSpec(coins: seq<Coin>, messages: seq<Message>)
    ensures forall u :: u in BatchUpdates(coins, messages) ==>
      u.data.price != 0.0 && exists i :: 0 <= i < |coins| && coins[i].symbol == u.symbol
    ensures var all := MessageUpdates(coins, messages);
      forall p :: 0 <= p < |all| && (forall q :: p < q < |all| ==> all[q].symbol != all[p].symbol) ==>
        var r := BatchUpdates(coins, messages);
        var i := Keyed.FindIndex(r, UpdateSymbol, all[p].symbol);
        i >= 0 && r[i] == all[p]
  {
    var all := MessageUpdates(coins, messages);
    MessageUpdatesSound(coins, messages);
    Keyed.UpsertAllMembers([], all, UpdateSymbol);
    forall p | 0 <= p < |all| && (forall q :: p < q < |all| ==> all[q].symbol != all[p].symbol)
      ensures var r := BatchUpdates(coins, messages);
        var i := Keyed.FindIndex(r, UpdateSymbol, all[p].symbol);
        i >= 0 && r[i] == all[p]
    {
      Keyed.UpsertAllLastWins([], all, UpdateSymbol, p);
    }
  }

  /** The `updates` object as a map, for `{ ...prev, ...updates }`. */
  function UpdateMap(updates: seq<Update>): map<string, LiveUpdate>
  {
    if updates == [] then map[]
    else UpdateMap(updates[..|updates| - 1])[updates[|updates| - 1].symbol := updates[|updates| - 1].data]
  }

  /** The `updateLivePrice` dispatches of one tick, in `updates` order. */
  function ApplyUpdates(data: seq<Coin>, updates: seq<Update>, now: int): seq<Coin>
  {
    if updates == [] then data
    else
      var u := updates[|updates| - 1];
      WithLivePrice(ApplyUpdates(data, updates[..|updates| - 1], now), u.symbol, u.data.price, u.data.priceChangePercent, now)
  }

  /** A tick keeps the number of records and every `isFavorite` flag in
      agreement with the favorites. */
  lemma {:induction false} ApplyUpdatesSpec(data: seq<Coin>, updates: seq<Update>, now: int, favorites: seq<string>)
    ensures |ApplyUpdates(data, updates, now)| == |data|
    ensures FavoritesAgree(data, favorites) ==> FavoritesAgree(ApplyUpdates(data, updates, now), favorites)
  {
    if updates != [] {
      var u := updates[|updates| - 1];
      ApplyUpdatesSpec(data, updates[..|updates| - 1], now, favorites);
      if FavoritesAgree(data, favorites) {
        LivePriceKeepsAgreement(ApplyUpdates(data, updates[..|updates| - 1], now), favorites, u.symbol, u.data.price, u.data.priceChangePercent, now);
      }
    }
  }

  // ---------------------------------------------------------------------------
  // The connection state machine (lines 126-257 and 357-361)
  // ---------------------------------------------------------------------------

  /** The socket in use: its subscription and whether `close()` was called. */
  datatype Socket = Socket(assets: string, closed: bool)

  datatype ReadyState = Connecting | Open | Closing | Closed

  datatype ConnectOutcome =
    | AlreadyConnecting
    | Deferred
    | NoPriorityCoins
    | NoAssetIds
    | Opened(assets: string, tracked: nat)

  class LiveFeed {
    var isConnecting: bool
    var lastReconnectAttempt: int
    /** The pending reconnect timer, as the time it fires. */
    var reconnectAt: Option<int>
    var socket: Option<Socket>
    var buffer: seq<Message>
    var liveUpdates: map<string, LiveUpdate>

    constructor ()
      ensures !isConnecting && lastReconnectAttempt == 0 && reconnectAt == None
      ensures socket == None && buffer == [] && liveUpdates == map[]
    {
      isConnecting := false;
      lastReconnectAttempt := 0;
      reconnectAt := None;
      socket := None;
      buffer := [];
      liveUpdates := map[];
    }

    /** `connectWebSocket()` at time `now`, with the records of the store. */
    method Connect(now: int, coins: seq<Coin>) returns (outcome: ConnectOutcome)
      modifies this
      ensures liveUpdates == old(liveUpdates)
      ensures old(isConnecting) ==>
        outcome == AlreadyConnecting && isConnecting && lastReconnectAttempt == old(lastReconnectAttempt) &&
        reconnectAt == old(reconnectAt) && socket == old(socket) && buffer == old(buffer)
      ensures !old(isConnecting) && now - old(lastReconnectAttempt) < ReconnectDelay ==>
        outcome == Deferred && !isConnecting && lastReconnectAttempt == old(lastReconnectAttempt) &&
        reconnectAt == Some(now + ReconnectDelay) && socket == old(socket) && buffer == old(buffer)
      ensures !old(isConnecting) && now - old(lastReconnectAttempt) >= ReconnectDelay ==>
        && lastReconnectAttempt == now && reconnectAt == old(reconnectAt)
        && (old(socket).Some? ==> socket.Some?)
        && (outcome.Opened? <==> PrioritySubset(coins) != [] && Assets(PrioritySubset(coins)) != "")
        && (PrioritySubset(coins) == [] ==> outcome == NoPriorityCoins)
        && (PrioritySubset(coins) != [] && Assets(PrioritySubset(coins)) == "" ==> outcome == NoAssetIds)
        && (outcome.Opened? ==>
              && isConnecting && buffer == [] && socket == Some(Socket(outcome.assets, false))
              && outcome.assets == Assets(PrioritySubset(coins)) && outcome.tracked == |PrioritySubset(coins)|)
        && (!outcome.Opened? ==>
              !isConnecting && buffer == old(buffer) &&
              socket == (if old(socket).Some? then Some(old(socket).value.(closed := true)) else None))
    {
      if isConnecting {
        return AlreadyConnecting;
      }
      if now - lastReconnectAttempt < ReconnectDelay {
        reconnectAt := Some(now + ReconnectDelay);
        return Deferred;
      }
      lastReconnectAttempt := now;
      isConnecting := true;
      if socket.Some? {
        socket := Some(socket.value.(closed := true));
      }
      var priorityCoins := PrioritySubset(coins);
      if |priorityCoins| == 0 {
        isConnecting := false;
        return NoPriorityCoins;
      }
      var assets := Assets(priorityCoins);
      if assets == "" {
        isConnecting := false;
        return NoAssetIds;
      }
      buffer := [];
      socket := Some(Socket(assets, false));
      outcome := Opened(assets, |priorityCoins|);
    }

    /** `onopen`. */
    method OnOpen()
      modifies this
      ensures !isConnecting
      ensures lastReconnectAttempt == old(lastReconnectAttempt) && reconnectAt == old(reconnectAt)
      ensures socket == old(socket) && buffer == old(buffer) && liveUpdates == old(liveUpdates)
    {
      isConnecting := false;
    }

    /** `onmessage`: the raw message is queued for the next tick. */
    method OnMessage(m: Message)
      modifies this
      ensures buffer == old(buffer) + [m]
      ensures isConnecting == old(isConnecting) && lastReconnectAttempt == old(lastReconnectAttempt)
      ensures reconnectAt == old(reconnectAt) && socket == old(socket) && liveUpdates == old(liveUpdates)
    {
      buffer := buffer + [m];
    }

    /** `onclose` at time `now`; `online` is `navigator.onLine`. Offline, no
        timer is set (any pending one stays). */
    method OnClose(now: int, online: bool)
      modifies this
      ensures !isConnecting
      ensures reconnectAt == (if online then Some(now + ReconnectDelay) else old(reconnectAt))
      ensures lastReconnectAttempt == old(lastReconnectAttempt)
      ensures socket == old(socket) && buffer == old(buffer) && liveUpdates == old(liveUpdates)
    {
      isConnecting := false;
      if online {
        reconnectAt := Some(now + ReconnectDelay);
      }
    }

    /** `onerror` of the socket in use, at time `now`, with that socket in
        state `state`: whether the "disconnected" toast shows, the close of a
        socket that is still OPEN, and a reconnect timer twice as far out as
        after a close. */
    method OnError(now: int, state: ReadyState) returns (toast: bool, closeNow: bool)
      modifies this
      ensures toast <==> state == Closed
      ensures closeNow <==> state == Open
      ensures socket == (if closeNow && old(socket).Some? then Some(old(socket).value.(closed := true)) else old(socket))
      ensures !isConnecting && reconnectAt == Some(now + 2 * ReconnectDelay)
      ensures lastReconnectAttempt == old(lastReconnectAttempt)
      ensures buffer == old(buffer) && liveUpdates == old(liveUpdates)
    {
      isConnecting := false;
      toast := state == Closed;
      closeNow := state == Open;
      if closeNow && socket.Some? {
        socket := Some(socket.value.(closed := true));
      }
      reconnectAt := Some(now + 2 * ReconnectDelay);
    }

    /** The pending timer fires at its time and calls `connectWebSocket()`. */
    method FireTimer(coins: seq<Coin>) returns (outcome: ConnectOutcome)
      requires reconnectAt.Some?
      modifies this
      ensures !old(isConnecting) && old(reconnectAt).value - old(lastReconnectAttempt) >= ReconnectDelay ==>
        lastReconnectAttempt == old(reconnectAt).value && !outcome.Deferred? && !outcome.AlreadyConnecting?
      ensures !old(isConnecting) && old(reconnectAt).value - old(lastReconnectAttempt) < ReconnectDelay ==>
        outcome == Deferred && reconnectAt == Some(old(reconnectAt).value + ReconnectDelay)
      ensures old(isConnecting) ==> outcome == AlreadyConnecting && reconnectAt == None
    {
      var now := reconnectAt.value;
      reconnectAt := None;
      outcome := Connect(now, coins);
    }

    /** The `online` event: the same checks as any other connect. */
    method OnOnline(now: int, coins: seq<Coin>) returns (outcome: ConnectOutcome)
      modifies this
      ensures !old(isConnecting) && now - old(lastReconnectAttempt) < ReconnectDelay ==>
        outcome == Deferred && reconnectAt == Some(now + ReconnectDelay) &&
        lastReconnectAttempt == old(lastReconnectAttempt)
      ensures old(isConnecting) ==> outcome == AlreadyConnecting && reconnectAt == old(reconnectAt)
      ensures !old(isConnecting) && now - old(lastReconnectAttempt) >= ReconnectDelay ==> lastReconnectAttempt == now
    {
      outcome := Connect(now, coins);
    }

    /** The unmount clean-up: the timer is cleared and the socket closed. */
    method Dispose()
      modifies this
      ensures reconnectAt == None
      ensures socket == (if old(socket).Some? then Some(old(socket).value.(closed := true)) else None)
      ensures isConnecting == old(isConnecting) && lastReconnectAttempt == old(lastReconnectAttempt)
      ensures buffer == old(buffer) && liveUpdates == old(liveUpdates)
    {
      reconnectAt := None;
      if socket.Some? {
        socket := Some(socket.value.(closed := true));
      }
    }

    /** One tick of the 2000 ms drain, with the records as of the last render
        (`coins`): an empty buffer is left alone; otherwise every buffered
        message is taken, the buffer emptied, the updates built entry by
        entry, merged into `liveUpdates` and dispatched to the store. */
    method Tick(coins: seq<Coin>, store: CryptoStore, now: int) returns (updates: seq<Update>)
      modifies this, store
      ensures old(buffer) == [] ==>
        && updates == [] && buffer == [] && liveUpdates == old(liveUpdates)
        && store.cryptoData == old(store.cryptoData)
      ensures old(buffer) != [] ==>
        && updates == BatchUpdates(coins, old(buffer))
        && buffer == []
        && liveUpdates == old(liveUpdates) + UpdateMap(updates)
        && store.cryptoData == ApplyUpdates(old(store.cryptoData), updates, now)
      ensures store.favorites == old(store.favorites) && store.saved == old(store.saved)
      ensures store.loading == old(store.loading) && store.error == old(store.error)
      ensures store.lastRefresh == old(store.lastRefresh)
      ensures isConnecting == old(isConnecting) && lastReconnectAttempt == old(lastReconnectAttempt)
      ensures reconnectAt == old(reconnectAt) && socket == old(socket)
    {
      updates := [];
      if |buffer| == 0 {
        return;
      }
      var messages := buffer;
      buffer := [];
      updates := CollectUpdates(coins, messages);
      Publish(store, updates, now);
    }

    /** Lines 101-115: a non-empty batch is merged into `liveUpdates`
        (`{ ...prev, ...updates }`) and dispatched to the store; an empty one
        changes nothing. */
    method Publish(store: CryptoStore, updates: seq<Update>, now: int)
      modifies this, store
      ensures liveUpdates == old(liveUpdates) + UpdateMap(updates)
      ensures store.cryptoData == ApplyUpdates(old(store.cryptoData), updates, now)
      ensures store.favorites == old(store.favorites) && store.saved == old(store.saved)
      ensures store.loading == old(store.loading) && store.error == old(store.error)
      ensures store.lastRefresh == old(store.lastRefresh)
      ensures isConnecting == old(isConnecting) && lastReconnectAttempt == old(lastReconnectAttempt)
      ensures reconnectAt == old(reconnectAt) && socket == old(socket) && buffer == old(buffer)
    {
      if |updates| > 0 {
        liveUpdates := liveUpdates + UpdateMap(updates);
        DispatchUpdates(store, updates, now);
      } else {
        assert liveUpdates + UpdateMap(updates) == liveUpdates;
      }
    }
  }

  /** The `messages.forEach` of a tick: the `updates` object, built entry by
      entry. */
  method CollectUpdates(coins: seq<Coin>, messages: seq<Message>) returns (updates: seq<Update>)
    ensures updates == BatchUpdates(coins, messages)
  {
    updates := [];
    var i := 0;
    while i < |messages|
      invariant 0 <= i <= |messages|
      invariant updates == Keyed.UpsertAll([], MessageUpdates(coins, messages[..i]), UpdateSymbol)
    {
      MessageUpdatesStep(coins, messages, i);
      var m := messages[i];
      if m.Parsed? {
        updates := CollectEntries(coins, updates, MessageUpdates(coins, messages[..i]), m.entries);
      }
      i := i + 1;
    }
    assert messages[..i] == messages;
  }

  /** One more message adds its entries' updates, or none when malformed. */
  lemma MessageUpdatesStep(coins: seq<Coin>, messages: seq<Message>, i: nat)
    requires i < |messages|
    ensures messages[i].Parsed? ==>
      MessageUpdates(coins, messages[..i + 1]) == MessageUpdates(coins, messages[..i]) + EntryUpdates(coins, messages[i].entries)
    ensures !messages[i].Parsed? ==> MessageUpdates(coins, messages[..i + 1]) == MessageUpdates(coins, messages[..i])
  {
    assert messages[..i + 1][..i] == messages[..i];
  }

  /** The inner `Object.entries(data).forEach` of one message: each entry
      with an update is assigned into `updates`, which already holds the
      updates `prior` built. */
  method CollectEntries(coins: seq<Coin>, acc: seq<Update>, ghost prior: seq<Update>, entries: seq<PriceEntry>)
    returns (updates: seq<Update>)
    requires acc == Keyed.UpsertAll([], prior, UpdateSymbol)
    ensures updates == Keyed.UpsertAll([], prior + EntryUpdates(coins, entries), UpdateSymbol)
  {
    updates := acc;
    var j := 0;
    assert prior + EntryUpdates(coins, entries[..0]) == prior;
    while j < |entries|
      invariant 0 <= j <= |entries|
      invariant updates == Keyed.UpsertAll([], prior + EntryUpdates(coins, entries[..j]), UpdateSymbol)
    {
      assert entries[..j + 1][..j] == entries[..j];
      var u := EntryUpdate(coins, entries[j]);
      if u.Some? {
        var before := prior + EntryUpdates(coins, entries[..j]);
        assert (before + [u.value])[..|before|] == before;
        assert prior + EntryUpdates(coins, entries[..j + 1]) == before + [u.value];
        updates := Keyed.Upsert(updates, u.value, UpdateSymbol);
      }
      j := j + 1;
    }
    assert entries[..j] == entries;
  }

  /** The `Object.entries(updates).forEach(dispatch(updateLivePrice(...)))`. */
  method DispatchUpdates(store: CryptoStore, updates: seq<Update>, now: int)
    modifies store
    ensures store.cryptoData == ApplyUpdates(old(store.cryptoData), updates, now)
    ensures store.favorites == old(store.favorites) && store.saved == old(store.saved)
    ensures store.loading == old(store.loading) && store.error == old(store.error)
    ensures store.lastRefresh == old(store.lastRefresh)
  {
    var k := 0;
    while k < |updates|
      invariant 0 <= k <= |updates|
      invariant store.cryptoData == ApplyUpdates(old(store.cryptoData), updates[..k], now)
      invariant store.favorites == old(store.favorites) && store.saved == old(store.saved)
      invariant store.loading == old(store.loading) && store.error == old(store.error)
      invariant store.lastRefresh == old(store.lastRefresh)
    {
      assert updates[..k + 1][..k] == updates[..k];
      var u := updates[k];
      store.UpdateLivePrice(u.symbol, u.data.price, u.data.priceChangePercent, now);
      k := k + 1;
    }
    assert updates[..k] == updates;
  }

  /** A browser fires `close` right after `error`: the 60000 ms timer the
      error set is replaced by the 30000 ms one of the close when online, and
      kept when offline. */
  method ErrorThenClose(t: int, state: ReadyState, online: bool) returns (afterError: Option<int>, afterClose: Option<int>)
    ensures afterError == Some(t + 60000)
    ensures afterClose == (if online then Some(t + 30000) else Some(t + 60000))
  {
    var feed := new LiveFeed();
    var toast, closeNow := feed.OnError(t, state);
    afterError := feed.reconnectAt;
    feed.OnClose(t, online);
    afterClose := feed.reconnectAt;
  }

  /** A connect within 30000 ms of the last attempt is put off by a full
      30000 ms from the moment of the refusal, not by the time remaining: a
      connect 1000 ms after one at time 100000 is retried at 131000, not 130000. */
  method DeferredWaitsFull(coins: seq<Coin>) returns (first: ConnectOutcome, second: ConnectOutcome, retryAt: Option<int>)
    ensures second == Deferred && retryAt == Some(131000)
  {
    var feed := new LiveFeed();
    first := feed.Connect(100000, coins);
    feed.OnOpen();
    second := feed.Connect(101000, coins);
    retryAt := feed.reconnectAt;
  }
}

/** Quote assembly from the Dexscreener pair endpoint. The HTTP call
    (`fetchJson`) is an oracle: `fetch(k, id)` is what the k-th request of a
    cycle, for pair `id`, resolved to; `clock(k)` is the time read while
    handling it. */
module Dexscreener {
  import opened Types
  import opened WatchList

  datatype BaseToken = BaseToken(address: Option<string>, symbol: Option<string>)

  /** A JSON value where the code tests `typeof === "number"`. */
  datatype JsValue = JsNumber(num: Number) | JsOther

  datatype PriceChange = PriceChange(h24: Option<JsValue>)

  datatype PairInfo = PairInfo(imageUrl: Option<string>)

  /** The fields of one pair the extension reads; every one may be missing. */
  datatype Pair = Pair(baseToken: Option<BaseToken>, priceUsd: Option<string>, priceChange: Option<PriceChange>, info: Option<PairInfo>)

  datatype PairResp = PairResp(pairs: Option<seq<Pair>>)

  /** What one `fetchJson` resolved to: it rejects on a non-OK status, a
      network error or a body that is not JSON. */
  datatype Response = Fail | Ok(body: PairResp)

  datatype FetchError = RequestFailed

  datatype MetaError = MetaRequestFailed | PairNotFound

  /** The display fields `resolvePairMeta` fills in when a pair is added. */
  datatype PairMeta = PairMeta(symbol: string, icon: Option<string>, baseAddress: Option<string>)

  /** `r?.pairs?.[0]` */
  function PickPair(r: PairResp): Option<Pair>
  {
    if r.pairs.Some? && |r.pairs.value| > 0 then Some(r.pairs.value[0]) else None
  }

  /** The quote of `toQuoteFromPair`: the price is null when `priceUsd` is
      missing or empty (the empty string is falsy), the 24h change is null
      unless `priceChange.h24` is a number, and the quote is stale exactly
      when the price is null. */
  function ToQuoteFromPair(p: Option<Pair>, now: int): (q: Quote)
    ensures q.updatedAt == now
    ensures q.stale == Some(q.price == None)
    ensures q.price == None <==> p == None || p.value.priceUsd == None || p.value.priceUsd == Some("")
    ensures q.price != None ==> q.price == Some(Number(p.value.priceUsd.value))
    ensures q.change24h != None <==>
      p != None && p.value.priceChange != None && p.value.priceChange.value.h24 != None && p.value.priceChange.value.h24.value.JsNumber?
    ensures q.change24h != None ==> q.change24h == Some(p.value.priceChange.value.h24.value.num)
  {
    var price :=
      if p.Some? && p.value.priceUsd.Some? && p.value.priceUsd.value != "" then Some(Number(p.value.priceUsd.value))
      else None;
    var change24h :=
      if p.Some? && p.value.priceChange.Some? && p.value.priceChange.value.h24.Some?
         && p.value.priceChange.value.h24.value.JsNumber?
      then Some(p.value.priceChange.value.h24.value.num)
      else None;
    Quote(price, change24h, now, Some(price.None?))
  }

  /** The quote stored for an item whose request failed. */
  function Placeholder(now: int): Quote
  {
    Quote(None, None, now, Some(true))
  }

  /** `fetchOne`: a failed request propagates as a failure; a successful
      one is the quote of its first pair, and a response without a pair is
      not a failure but a stale quote with no price and no change. */
  function FetchOne(resp: Response, now: int): (r: Result<Quote, FetchError>)
    ensures r.Failure? <==> resp.Fail?
    ensures resp.Ok? ==> r == Success(ToQuoteFromPair(PickPair(resp.body), now))
    ensures resp.Ok? && PickPair(resp.body) == None ==> r == Success(Placeholder(now))
    ensures r.Success? ==> r.value.updatedAt == now && r.value.stale == Some(r.value.price == None)
  {
    match resp
    case Fail => Failure(RequestFailed)
    case Ok(body) => Success(ToQuoteFromPair(PickPair(body), now))
  }

  function Min(a: int, b: int): int
  {
    if a <= b then a else b
  }

  /** `resolvePairMeta`: a failed request propagates, a response without a
      pair fails with PairNotFound; otherwise the symbol is the base token's
      symbol, or the first six characters of the pair id when there is
      none, and icon and base address are copied when present. */
  function ResolvePairMeta(pairId: PairId, resp: Response): (r: Result<PairMeta, MetaError>)
    ensures resp.Fail? ==> r == Failure(MetaRequestFailed)
    ensures resp.Ok? ==> (r == Failure(PairNotFound) <==> PickPair(resp.body) == None)
    ensures r.Success? <==> resp.Ok? && PickPair(resp.body).Some?
    ensures r.Success? ==>
      var p := PickPair(resp.body).value;
      && (p.baseToken != None && p.baseToken.value.symbol != None ==> r.value.symbol == p.baseToken.value.symbol.value)
      && (p.baseToken == None || p.baseToken.value.symbol == None ==>
            r.value.symbol <= pairId && |r.value.symbol| == Min(6, |pairId|))
      && (r.value.icon != None <==> p.info != None && p.info.value.imageUrl != None)
      && (r.value.icon != None ==> r.value.icon == p.info.value.imageUrl)
      && (r.value.baseAddress != None <==> p.baseToken != None && p.baseToken.value.address != None)
      && (r.value.baseAddress != None ==> r.value.baseAddress == p.baseToken.value.address)
  {
    match resp
    case Fail => Failure(MetaRequestFailed)
    case Ok(body) =>
      match PickPair(body)
      case None => Failure(PairNotFound)
      case Some(p) =>
        Success(PairMeta(
          if p.baseToken.Some? && p.baseToken.value.symbol.Some? then p.baseToken.value.symbol.value
          else pairId[..Min(6, |pairId|)],
          if p.info.Some? then p.info.value.imageUrl else None,
          if p.baseToken.Some? then p.baseToken.value.address else None))
  }

  /** The entry `fetchQuotes` computes for its k-th token: the fetched quote,
      or the placeholder when the request failed. */
  function ItemQuote(fetch: (nat, PairId) -> Response, clock: nat -> int, k: nat, id: PairId): (q: Quote)
    ensures q.updatedAt == clock(k)
    ensures q.stale == Some(q.price == None)
    ensures fetch(k, id).Fail? ==> q == Placeholder(clock(k))
    ensures fetch(k, id).Ok? ==> q == ToQuoteFromPair(PickPair(fetch(k, id).body), clock(k))
    ensures FetchOne(fetch(k, id), clock(k)).Success? ==> q == FetchOne(fetch(k, id), clock(k)).value
  {
    match FetchOne(fetch(k, id), clock(k))
    case Success(q) => q
    case Failure(_) => Placeholder(clock(k))
  }

  /** The map `fetchQuotes` builds, token by token in list order, keyed by
      the pair id as stored; a later token with the same pair id
      overwrites an earlier one. */
  function QuotesOf(tokens: seq<Token>, fetch: (nat, PairId) -> Response, clock: nat -> int): QuotesMap
    decreases |tokens|
  {
    if tokens == [] then map[]
    else
      var n := |tokens| - 1;
      QuotesOf(tokens[..n], fetch, clock)[tokens[n].pairId := ItemQuote(fetch, clock, n, tokens[n].pairId)]
  }

  /** The keys are exactly the pair ids of the tokens. */
  lemma {:induction false} QuotesOfKeys(tokens: seq<Token>, fetch: (nat, PairId) -> Response, clock: nat -> int)
    ensures QuotesOf(tokens, fetch, clock).Keys == PairIdSet(tokens)
    decreases |tokens|
  {
    if tokens != [] {
      var n := |tokens| - 1;
      QuotesOfKeys(tokens[..n], fetch, clock);
      assert tokens == tokens[..n] + [tokens[n]];
      assert forall t :: t in tokens <==> t in tokens[..n] || t == tokens[n];
    }
  }

  /** The entry for a token that no later token shares its pair id with is
      that token's own quote. */
  lemma {:induction false} QuotesOfEntry(tokens: seq<Token>, fetch: (nat, PairId) -> Response, clock: nat -> int, i: nat)
    requires i < |tokens|
    requires forall j :: i < j < |tokens| ==> tokens[j].pairId != tokens[i].pairId
    ensures tokens[i].pairId in QuotesOf(tokens, fetch, clock)
    ensures QuotesOf(tokens, fetch, clock)[tokens[i].pairId] == ItemQuote(fetch, clock, i, tokens[i].pairId)
    decreases |tokens|
  {
    var n := |tokens| - 1;
    if i < n {
      var p := tokens[..n];
      assert p[i] == tokens[i];
      assert forall j :: i < j < |p| ==> p[j] == tokens[j];
      QuotesOfEntry(p, fetch, clock, i);
    }
  }

  /** For a watch-list with distinct canonical ids, every token's entry is
      its own quote; a token whose request failed gets exactly the
      placeholder `{price: null, change24h: null, stale: true}`. */
  lemma QuotesOfWatchList(canon: string -> string, tokens: seq<Token>, fetch: (nat, PairId) -> Response, clock: nat -> int)
    requires DistinctIds(canon, tokens)
    ensures forall i :: 0 <= i < |tokens| ==>
      tokens[i].pairId in QuotesOf(tokens, fetch, clock) &&
      QuotesOf(tokens, fetch, clock)[tokens[i].pairId] == ItemQuote(fetch, clock, i, tokens[i].pairId)
    ensures forall i :: 0 <= i < |tokens| && fetch(i, tokens[i].pairId).Fail? ==>
      QuotesOf(tokens, fetch, clock)[tokens[i].pairId] == Placeholder(clock(i))
  {
    forall i | 0 <= i < |tokens|
      ensures tokens[i].pairId in QuotesOf(tokens, fetch, clock)
      ensures QuotesOf(tokens, fetch, clock)[tokens[i].pairId] == ItemQuote(fetch, clock, i, tokens[i].pairId)
    {
      forall j | i < j < |tokens|
        ensures tokens[j].pairId != tokens[i].pairId
      {
        assert canon(tokens[i].pairId) != canon(tokens[j].pairId);
      }
      QuotesOfEntry(tokens, fetch, clock, i);
    }
  }

  /** Two oracles that agree on the first `|tokens|` requests give the same
      map. */
  lemma {:induction false} QuotesOfAgree(tokens: seq<Token>, f1: (nat, PairId) -> Response, f2: (nat, PairId) -> Response, clock: nat -> int)
    requires forall k: nat, id :: k < |tokens| ==> f1(k, id) == f2(k, id)
    ensures QuotesOf(tokens, f1, clock) == QuotesOf(tokens, f2, clock)
    decreases |tokens|
  {
    if tokens != [] {
      var n := |tokens| - 1;
      QuotesOfAgree(tokens[..n], f1, f2, clock);
    }
  }

  /** A different outcome of request `j` (a failure, say) changes the entry
      for token `j`'s pair id only: every other key has the same quote. */
  lemma {:induction false} FailureIsolated(tokens: seq<Token>, f1: (nat, PairId) -> Response, f2: (nat, PairId) -> Response, clock: nat -> int, j: nat)
    requires j < |tokens|
    requires forall k: nat, id :: k != j ==> f1(k, id) == f2(k, id)
    ensures QuotesOf(tokens, f1, clock).Keys == QuotesOf(tokens, f2, clock).Keys
    ensures forall id :: id in QuotesOf(tokens, f1, clock) && id != tokens[j].pairId ==>
      QuotesOf(tokens, f1, clock)[id] == QuotesOf(tokens, f2, clock)[id]
    decreases |tokens|
  {
    QuotesOfKeys(tokens, f1, clock);
    QuotesOfKeys(tokens, f2, clock);
    var n := |tokens| - 1;
    var p := tokens[..n];
    if j == n {
      QuotesOfAgree(p, f1, f2, clock);
    } else {
      assert p[j] == tokens[j];
      FailureIsolated(p, f1, f2, clock, j);
      assert ItemQuote(f1, clock, n, tokens[n].pairId) == ItemQuote(f2, clock, n, tokens[n].pairId);
    }
  }

  /** `fetchQuotes`: one request per token, serially and in list order,
      every failure turned into a placeholder, so it never fails. */
  method FetchQuotes(tokens: seq<Token>, fetch: (nat, PairId) -> Response, clock: nat -> int)
    returns (quotes: QuotesMap, requests: seq<PairId>)
    ensures quotes == QuotesOf(tokens, fetch, clock)
    ensures quotes.Keys == PairIdSet(tokens)
    ensures requests == PairIds(tokens)
  {
    quotes, requests := map[], [];
    for i := 0 to |tokens|
      invariant quotes == QuotesOf(tokens[..i], fetch, clock)
      invariant requests == PairIds(tokens[..i])
    {
      var t := tokens[i];
      var resp := fetch(i, t.pairId);
      requests := requests + [t.pairId];
      assert tokens[..i + 1][..i] == tokens[..i];
      match FetchOne(resp, clock(i))
      case Success(q) =>
        quotes := quotes[t.pairId := q];
      case Failure(_) =>
        quotes := quotes[t.pairId := Quote(None, None, clock(i), Some(true))];
    }
    assert tokens[..|tokens|] == tokens;
    QuotesOfKeys(tokens, fetch, clock);
  }
}

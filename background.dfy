/** The background refresh cycle and the two listeners that start it. */
module Background {
  import opened Types
  import opened WatchList
  import opened Storage
  import opened Dexscreener

  /** The name of the periodic alarm. */
  const ALARM_NAME: string := "dexscrape"

  /** The alarm listener ignores every alarm but its own. */
  predicate AlarmStartsCycle(name: string)
  {
    name == ALARM_NAME
  }

  /** The storage listener reacts to changes of `tokens` in the sync area. */
  predicate ChangeStartsCycle(e: ChangeEvent)
  {
    e.area == "sync" && e.tokens.Some?
  }

  /** The cache a cycle writes over sync area `s`: `{}` for an empty list,
      otherwise the map `fetchQuotes` builds for the list. It does not
      depend on the previous cache. */
  function RefreshedCache(s: SyncArea, fetch: (nat, PairId) -> Response, clock: nat -> int): QuotesMap
  {
    var tokens := ReadTokens(s);
    if |tokens| == 0 then map[] else QuotesOf(tokens, fetch, clock)
  }

  /** `runOnce`: read the list through `getTokens` (so the migration runs
      first); for an empty list write `{}` without any request, otherwise
      fetch every quote and replace the cache in one write. No step raises,
      so the model has no error path. */
  method RunOnce(store: Store, fetch: (nat, PairId) -> Response, clock: nat -> int) returns (requests: seq<PairId>)
    modifies store
    ensures store.sync == Migrate(old(store.sync))
    ensures store.quotes == Some(RefreshedCache(old(store.sync), fetch, clock))
    ensures store.log == old(store.log) + MigrationWrites(old(store.sync)) + [LocalWrite(RefreshedCache(old(store.sync), fetch, clock))]
    ensures requests == PairIds(ReadTokens(old(store.sync)))
    ensures old(store.Valid()) ==> store.Valid()
  {
    var tokens := store.GetTokens();
    if |tokens| == 0 {
      store.SetQuotes(map[]);
      return [];
    }
    var quotes;
    quotes, requests := FetchQuotes(tokens, fetch, clock);
    store.SetQuotes(quotes);
  }

  /** The alarm listener: a cycle for the extension's alarm, nothing for any
      other. */
  method OnAlarm(store: Store, name: string, fetch: (nat, PairId) -> Response, clock: nat -> int) returns (requests: seq<PairId>)
    modifies store
    ensures !AlarmStartsCycle(name) ==> requests == [] && unchanged(store)
    ensures AlarmStartsCycle(name) ==>
      && store.sync == Migrate(old(store.sync))
      && store.quotes == Some(RefreshedCache(old(store.sync), fetch, clock))
      && store.log == old(store.log) + MigrationWrites(old(store.sync)) + [LocalWrite(RefreshedCache(old(store.sync), fetch, clock))]
      && requests == PairIds(ReadTokens(old(store.sync)))
  {
    requests := [];
    if AlarmStartsCycle(name) {
      requests := RunOnce(store, fetch, clock);
    }
  }

  /** The storage listener: a cycle when `tokens` changed in the sync area,
      nothing otherwise. */
  method OnStorageChanged(store: Store, e: ChangeEvent, fetch: (nat, PairId) -> Response, clock: nat -> int) returns (requests: seq<PairId>)
    modifies store
    ensures !ChangeStartsCycle(e) ==> requests == [] && unchanged(store)
    ensures ChangeStartsCycle(e) ==>
      && store.sync == Migrate(old(store.sync))
      && store.quotes == Some(RefreshedCache(old(store.sync), fetch, clock))
      && store.log == old(store.log) + MigrationWrites(old(store.sync)) + [LocalWrite(RefreshedCache(old(store.sync), fetch, clock))]
      && requests == PairIds(ReadTokens(old(store.sync)))
  {
    requests := [];
    if ChangeStartsCycle(e) {
      requests := RunOnce(store, fetch, clock);
    }
  }

  /** The cache's keys are exactly the pair ids of the current list, so
      entries of tokens no longer watched are gone. */
  lemma RefreshedCacheKeys(s: SyncArea, fetch: (nat, PairId) -> Response, clock: nat -> int)
    ensures RefreshedCache(s, fetch, clock).Keys == PairIdSet(ReadTokens(s))
  {
    QuotesOfKeys(ReadTokens(s), fetch, clock);
  }

  /** On a well-formed list, every watched token has its own quote in the
      cache, and a token whose request failed has the stale placeholder. */
  lemma RefreshedCacheEntries(canon: string -> string, s: SyncArea, fetch: (nat, PairId) -> Response, clock: nat -> int)
    requires DistinctIds(canon, ReadTokens(s))
    ensures var l := ReadTokens(s);
      forall i :: 0 <= i < |l| ==>
        l[i].pairId in RefreshedCache(s, fetch, clock) &&
        RefreshedCache(s, fetch, clock)[l[i].pairId] == ItemQuote(fetch, clock, i, l[i].pairId) &&
        (fetch(i, l[i].pairId).Fail? ==> RefreshedCache(s, fetch, clock)[l[i].pairId] == Placeholder(clock(i)))
  {
    QuotesOfWatchList(canon, ReadTokens(s), fetch, clock);
  }

  /** On a well-formed list, a token whose request returned a pair with a
      non-empty `priceUsd` gets a non-stale cache entry with that price. */
  lemma FetchedPriceReachesCache(canon: string -> string, s: SyncArea, fetch: (nat, PairId) -> Response, clock: nat -> int, i: nat)
    requires DistinctIds(canon, ReadTokens(s))
    requires i < |ReadTokens(s)|
    requires var r := fetch(i, ReadTokens(s)[i].pairId);
      r.Ok? && PickPair(r.body).Some? && PickPair(r.body).value.priceUsd.Some? && PickPair(r.body).value.priceUsd.value != ""
    ensures var id := ReadTokens(s)[i].pairId;
      && id in RefreshedCache(s, fetch, clock)
      && RefreshedCache(s, fetch, clock)[id].price == Some(Number(PickPair(fetch(i, id).body).value.priceUsd.value))
      && RefreshedCache(s, fetch, clock)[id].stale == Some(false)
      && RefreshedCache(s, fetch, clock)[id].updatedAt == clock(i)
  {
    RefreshedCacheEntries(canon, s, fetch, clock);
  }

  /** After a successful `removeToken(id)`, the next cycle's cache has no key
      whose canonical id is that of `id`, whatever the previous cache held. */
  lemma RefreshAfterRemoveDropsEntry(canon: string -> string, s: SyncArea, id: PairId, fetch: (nat, PairId) -> Response, clock: nat -> int)
    requires RemoveTokenStep(canon, s, id).outcome == Pass
    ensures forall k :: k in RefreshedCache(RemoveTokenStep(canon, s, id).sync, fetch, clock) ==> canon(k) != canon(id)
  {
    var l := ReadTokens(s);
    var next := RemoveId(canon, l, id);
    var s1 := RemoveTokenStep(canon, s, id).sync;
    assert ReadTokens(s1) == FirstOccurrences(canon, next);
    RemoveIdDropsId(canon, l, id);
    FirstOccurrencesIds(canon, next);
    RefreshedCacheKeys(s1, fetch, clock);
    forall k | k in RefreshedCache(s1, fetch, clock)
      ensures canon(k) != canon(id)
    {
      var t :| t in ReadTokens(s1) && t.pairId == k;
      assert canon(k) in Ids(canon, ReadTokens(s1));
    }
  }

  /** After a successful `addToken(tok)`, the next cycle's cache has an
      entry for the new pair id. */
  lemma RefreshAfterAddHasEntry(canon: string -> string, s: SyncArea, tok: Token, fetch: (nat, PairId) -> Response, clock: nat -> int)
    requires AddTokenStep(canon, s, tok).outcome == Pass
    ensures tok.pairId in RefreshedCache(AddTokenStep(canon, s, tok).sync, fetch, clock)
  {
    var s1 := AddTokenStep(canon, s, tok).sync;
    AddTokenAppends(canon, s, tok);
    var l := ReadTokens(s1);
    assert l[|l| - 1] == tok;
    RefreshedCacheKeys(s1, fetch, clock);
  }

  /** A cycle starts on a write exactly when it writes `tokens`: a
      successful add or remove always starts one, while the cycle's own
      cache write and a flag write never do. The background listener and
      `watchTokens` use the same filter. */
  lemma CycleTriggers(canon: string -> string, s: SyncArea, tok: Token, id: PairId, w: Write)
    ensures ChangeStartsCycle(ChangeOf(w)) <==> w.SyncWrite? && w.patch.tokens.Some?
    ensures forall e :: ChangeStartsCycle(e) <==> TokensDelivered(e).Some?
    ensures var st := AddTokenStep(canon, s, tok);
      st.outcome == Pass ==> |st.writes| > 0 && ChangeStartsCycle(ChangeOf(st.writes[|st.writes| - 1]))
    ensures var st := RemoveTokenStep(canon, s, id);
      st.outcome == Pass ==> |st.writes| > 0 && ChangeStartsCycle(ChangeOf(st.writes[|st.writes| - 1]))
  {
  }
}

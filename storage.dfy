/** The extension's persisted state. The "sync" area holds the watch-list,
    the schema version and the widget flag; the "local" area holds the quote
    cache. Values read back from the sync area may be missing or of the
    wrong type, so they are modelled raw. Every `set` on an area is one
    entry of a write log. */
module Storage {
  import opened Types
  import opened WatchList

  /** A value as read from storage: missing, of the expected type, or
      present with some other type (for `tokens`, anything that is not an
      array). */
  datatype Raw<+T> = Absent | Present(value: T) | Malformed

  /** The stored schema version: missing, or a number. */
  datatype RawVersion = Unset | Version(n: int)

  datatype SyncArea = SyncArea(tokens: Raw<seq<Token>>, schemaVersion: RawVersion, widgetEnabled: Raw<bool>)

  /** The partial object given to one `set` on the sync area: only the keys
      that are `Some` are written. */
  datatype SyncPatch = SyncPatch(tokens: Option<seq<Token>>, schemaVersion: Option<int>, widgetEnabled: Option<bool>)

  /** One `set` call on the sync area or on the local area. */
  datatype Write = SyncWrite(patch: SyncPatch) | LocalWrite(quotes: QuotesMap)

  /** The errors the list operations raise: `setTokens` on a list that is
      too long, `addToken` on a duplicate or on a full list. */
  datatype StoreError = ListTooLong | Duplicate | CapacityExceeded

  datatype Outcome = Pass | Fail(error: StoreError)

  /** The schema version the migration establishes. */
  const SCHEMA_VERSION: int := 3

  const EMPTY_PATCH: SyncPatch := SyncPatch(None, None, None)

  /** The sync area after writing `p`: written keys replaced, others kept. */
  function Apply(s: SyncArea, p: SyncPatch): SyncArea
  {
    SyncArea(
      if p.tokens.Some? then Present(p.tokens.value) else s.tokens,
      if p.schemaVersion.Some? then Version(p.schemaVersion.value) else s.schemaVersion,
      if p.widgetEnabled.Some? then Present(p.widgetEnabled.value) else s.widgetEnabled)
  }

  function TokensPatch(l: seq<Token>): SyncPatch
  {
    SyncPatch(Some(l), None, None)
  }

  /** `Array.isArray(tokens) ? tokens : []` */
  function TokensOrEmpty(raw: Raw<seq<Token>>): seq<Token>
  {
    if raw.Present? then raw.value else []
  }

  /** `typeof widgetEnabled === "boolean" ? widgetEnabled : true` */
  function EnabledOrTrue(raw: Raw<bool>): bool
  {
    if raw.Present? then raw.value else true
  }

  /** `!schemaVersion`: missing or zero. */
  predicate Unversioned(v: RawVersion)
  {
    v == Unset || v == Version(0)
  }

  /** A sync area the migration has nothing to repair in. */
  predicate Current(s: SyncArea)
  {
    s.tokens.Present? && s.schemaVersion.Version? && s.schemaVersion.n >= SCHEMA_VERSION && s.widgetEnabled.Present?
  }

  // ---- Schema migration (ensureInit) ----

  /** The one write the migration makes, if any. An unversioned store gets
      all three keys; a versioned one gets only the keys that need repair. */
  function MigrationPatch(s: SyncArea): (r: Option<SyncPatch>)
    ensures r.None? <==> Current(s)
    ensures r.Some? ==> r.value.schemaVersion.None? || r.value.schemaVersion == Some(SCHEMA_VERSION)
    ensures Unversioned(s.schemaVersion) ==>
      r == Some(SyncPatch(Some(TokensOrEmpty(s.tokens)), Some(SCHEMA_VERSION), Some(EnabledOrTrue(s.widgetEnabled))))
    ensures !Unversioned(s.schemaVersion) && r.Some? ==>
      && (r.value.tokens.Some? <==> !s.tokens.Present?)
      && (r.value.tokens.Some? ==> r.value.tokens.value == [])
      && (r.value.schemaVersion.Some? <==> s.schemaVersion.n < SCHEMA_VERSION)
      && (r.value.widgetEnabled.Some? <==> !s.widgetEnabled.Present?)
      && (r.value.widgetEnabled.Some? ==> r.value.widgetEnabled.value)
  {
    if Unversioned(s.schemaVersion) then
      Some(SyncPatch(Some(TokensOrEmpty(s.tokens)), Some(SCHEMA_VERSION), Some(EnabledOrTrue(s.widgetEnabled))))
    else
      var p := SyncPatch(
        if s.tokens.Present? then None else Some([]),
        if s.schemaVersion.n < SCHEMA_VERSION then Some(SCHEMA_VERSION) else None,
        if s.widgetEnabled.Present? then None else Some(EnabledOrTrue(s.widgetEnabled)));
      if p == EMPTY_PATCH then None else Some(p)
  }

  function PatchWrites(p: Option<SyncPatch>): seq<Write>
  {
    if p.Some? then [SyncWrite(p.value)] else []
  }

  /** The writes the migration makes: none or exactly one. */
  function MigrationWrites(s: SyncArea): (w: seq<Write>)
    ensures |w| <= 1
    ensures w == [] <==> Current(s)
  {
    PatchWrites(MigrationPatch(s))
  }

  /** The sync area after the migration: an array of tokens is kept as it
      is and anything else becomes `[]`, a boolean flag is kept and
      anything else becomes `true`, and the version is raised to 3 unless it
      is already higher. The version never decreases. */
  function Migrate(s: SyncArea): (r: SyncArea)
    ensures Current(r)
    ensures r.tokens == Present(TokensOrEmpty(s.tokens))
    ensures r.widgetEnabled == Present(EnabledOrTrue(s.widgetEnabled))
    ensures r.schemaVersion == Version(if s.schemaVersion.Version? && s.schemaVersion.n >= SCHEMA_VERSION then s.schemaVersion.n else SCHEMA_VERSION)
    ensures s.schemaVersion.Version? ==> r.schemaVersion.n >= s.schemaVersion.n
    ensures Current(s) ==> r == s
  {
    match MigrationPatch(s)
    case None => s
    case Some(p) => Apply(s, p)
  }

  /** Running the migration twice: the second run writes nothing and
      changes nothing. */
  lemma MigrationIdempotent(s: SyncArea)
    ensures MigrationWrites(Migrate(s)) == []
    ensures Migrate(Migrate(s)) == Migrate(s)
  {
  }

  /** What `getTokens` returns: the stored array, or `[]` when the stored
      value is not an array. The migration does not alter an array. */
  function ReadTokens(s: SyncArea): (l: seq<Token>)
    ensures l == TokensOrEmpty(s.tokens)
    ensures s.tokens.Present? ==> l == s.tokens.value
    ensures !s.tokens.Present? ==> l == []
  {
    TokensOrEmpty(Migrate(s).tokens)
  }

  /** What `getWidgetEnabled` returns: the stored flag, `true` by default. */
  function ReadWidgetEnabled(s: SyncArea): (b: bool)
    ensures s.widgetEnabled.Present? ==> b == s.widgetEnabled.value
    ensures !s.widgetEnabled.Present? ==> b
  {
    EnabledOrTrue(Migrate(s).widgetEnabled)
  }

  // ---- The list operations, as state transitions ----

  /** The effect of one operation: the new sync area, the writes made in
      order, and whether it raised. */
  datatype Step = Step(sync: SyncArea, writes: seq<Write>, outcome: Outcome)

  /** `setTokens`: reject a list longer than MAX_TOKENS, otherwise store its
      first occurrences of each canonical id. No migration runs. */
  function SetTokensStep(canon: string -> string, s: SyncArea, list: seq<Token>): Step
  {
    if |list| > MAX_TOKENS then Step(s, [], Fail(ListTooLong))
    else
      var clean := FirstOccurrences(canon, list);
      Step(Apply(s, TokensPatch(clean)), [SyncWrite(TokensPatch(clean))], Pass)
  }

  /** `addToken`: read the list (migrating first), reject a duplicate, then
      reject a full list, then store the list with the token appended. */
  function AddTokenStep(canon: string -> string, s: SyncArea, tok: Token): Step
  {
    var s0 := Migrate(s);
    var l := TokensOrEmpty(s0.tokens);
    if HasId(canon, l, tok.pairId) then Step(s0, MigrationWrites(s), Fail(Duplicate))
    else if |l| >= MAX_TOKENS then Step(s0, MigrationWrites(s), Fail(CapacityExceeded))
    else
      var st := SetTokensStep(canon, s0, l + [tok]);
      Step(st.sync, MigrationWrites(s) + st.writes, st.outcome)
  }

  /** `removeToken`: read the list (migrating first), drop every entry with
      the canonical id of `id`, and store the rest through `setTokens`. */
  function RemoveTokenStep(canon: string -> string, s: SyncArea, id: PairId): Step
  {
    var s0 := Migrate(s);
    var st := SetTokensStep(canon, s0, RemoveId(canon, TokensOrEmpty(s0.tokens), id));
    Step(st.sync, MigrationWrites(s) + st.writes, st.outcome)
  }

  /** The watch-list invariant, for a sync area holding an array. */
  predicate ListInvariant(canon: string -> string, s: SyncArea)
  {
    s.tokens.Present? ==> WellFormed(canon, s.tokens.value)
  }

  /** A list longer than the cap is refused and nothing is written. */
  lemma SetTokensRejectsOverlong(canon: string -> string, s: SyncArea, list: seq<Token>)
    requires |list| > MAX_TOKENS
    ensures SetTokensStep(canon, s, list) == Step(s, [], Fail(ListTooLong))
  {
  }

  /** A list within the cap is stored de-duplicated by one write of the
      `tokens` key alone: a well-formed subsequence of the input that keeps
      every canonical id of the input. */
  lemma SetTokensStoresFirstOccurrences(canon: string -> string, s: SyncArea, list: seq<Token>)
    requires |list| <= MAX_TOKENS
    ensures var st := SetTokensStep(canon, s, list);
      var clean := FirstOccurrences(canon, list);
      && st.outcome == Pass
      && st.writes == [SyncWrite(TokensPatch(clean))]
      && st.sync == s.(tokens := Present(clean))
      && WellFormed(canon, clean)
      && Subsequence(clean, list)
      && Ids(canon, clean) == Ids(canon, list)
  {
    FirstOccurrencesSpec(canon, list);
  }

  /** A token whose canonical id is already watched is refused with
      Duplicate, whatever the length of the list (this check comes first);
      the list is left as the migration left it and nothing else is
      written. */
  lemma AddTokenDuplicate(canon: string -> string, s: SyncArea, tok: Token)
    requires HasId(canon, ReadTokens(s), tok.pairId)
    ensures AddTokenStep(canon, s, tok) == Step(Migrate(s), MigrationWrites(s), Fail(Duplicate))
  {
  }

  /** A new token on a full list is refused with CapacityExceeded and
      nothing beyond the migration is written. */
  lemma AddTokenAtCapacity(canon: string -> string, s: SyncArea, tok: Token)
    requires !HasId(canon, ReadTokens(s), tok.pairId) && |ReadTokens(s)| >= MAX_TOKENS
    ensures AddTokenStep(canon, s, tok) == Step(Migrate(s), MigrationWrites(s), Fail(CapacityExceeded))
  {
  }

  /** `addToken` succeeds exactly when the id is new and the list has
      room. It then makes one write after the migration's; that write stores
      the de-duplicated old list with `tok` appended (pair id in its
      original case), which is `old + [tok]` on a well-formed list and is
      always well-formed. */
  lemma AddTokenAppends(canon: string -> string, s: SyncArea, tok: Token)
    ensures var st := AddTokenStep(canon, s, tok);
      var l := ReadTokens(s);
      && (st.outcome == Pass <==> !HasId(canon, l, tok.pairId) && |l| < MAX_TOKENS)
      && (st.outcome == Pass ==>
            && st.sync == Migrate(s).(tokens := Present(FirstOccurrences(canon, l) + [tok]))
            && st.writes == MigrationWrites(s) + [SyncWrite(TokensPatch(FirstOccurrences(canon, l) + [tok]))]
            && WellFormed(canon, FirstOccurrences(canon, l) + [tok])
            && (DistinctIds(canon, l) ==> st.sync.tokens == Present(l + [tok])))
  {
    var l := ReadTokens(s);
    if !HasId(canon, l, tok.pairId) && |l| < MAX_TOKENS {
      HasIdIds(canon, l, tok.pairId);
      FirstOccurrencesSnoc(canon, l, tok);
      SetTokensStoresFirstOccurrences(canon, Migrate(s), l + [tok]);
      if DistinctIds(canon, l) {
        FirstOccurrencesOfDistinct(canon, l);
      }
    }
  }

  /** On a well-formed list `removeToken` always succeeds: it makes one
      write after the migration's, storing the old list without the entries
      whose canonical id is that of `id`. Removing an id that is not
      watched rewrites the same list. */
  lemma RemoveTokenFiltersWellFormed(canon: string -> string, s: SyncArea, id: PairId)
    requires WellFormed(canon, ReadTokens(s))
    ensures var st := RemoveTokenStep(canon, s, id);
      var next := RemoveId(canon, ReadTokens(s), id);
      && st.outcome == Pass
      && st.sync == Migrate(s).(tokens := Present(next))
      && st.writes == MigrationWrites(s) + [SyncWrite(TokensPatch(next))]
      && WellFormed(canon, next)
      && canon(id) !in Ids(canon, next)
      && (!HasId(canon, ReadTokens(s), id) ==> next == ReadTokens(s))
  {
    var l := ReadTokens(s);
    var next := RemoveId(canon, l, id);
    RemoveIdWellFormed(canon, l, id);
    RemoveIdDropsId(canon, l, id);
    FirstOccurrencesOfDistinct(canon, next);
    if !HasId(canon, l, id) {
      RemoveAbsentId(canon, l, id);
    }
  }

  /** On a stored array longer than the cap, a removal that leaves more than
      MAX_TOKENS entries raises ListTooLong and writes nothing beyond the
      migration. */
  lemma RemoveTokenOverfull(canon: string -> string, s: SyncArea, id: PairId)
    requires |RemoveId(canon, ReadTokens(s), id)| > MAX_TOKENS
    ensures RemoveTokenStep(canon, s, id) == Step(Migrate(s), MigrationWrites(s), Fail(ListTooLong))
  {
  }

  /** `removeToken` on any stored list, well-formed or not: it succeeds
      exactly when the filtered list fits, and then stores the first
      occurrences of the filtered list, which is well-formed and has no
      entry with `id`'s canonical id. */
  lemma RemoveTokenStoresFiltered(canon: string -> string, s: SyncArea, id: PairId)
    ensures var st := RemoveTokenStep(canon, s, id);
      var clean := FirstOccurrences(canon, RemoveId(canon, ReadTokens(s), id));
      && (st.outcome == Pass <==> |RemoveId(canon, ReadTokens(s), id)| <= MAX_TOKENS)
      && (st.outcome == Pass ==>
            && st.sync == Migrate(s).(tokens := Present(clean))
            && st.writes == MigrationWrites(s) + [SyncWrite(TokensPatch(clean))]
            && WellFormed(canon, clean)
            && canon(id) !in Ids(canon, clean))
  {
    var next := RemoveId(canon, ReadTokens(s), id);
    RemoveIdDropsId(canon, ReadTokens(s), id);
    if |next| <= MAX_TOKENS {
      SetTokensStoresFirstOccurrences(canon, Migrate(s), next);
    }
  }

  /** On a stored array that repeats a pair id (which the migration keeps),
      removing an id that is not watched still rewrites the list without
      the repetition: `[a, b]` with the same pair id becomes `[a]`. */
  lemma RemoveAbsentIdDeduplicates()
    ensures var a := Token("p", "A", None, None);
      var b := Token("p", "B", None, None);
      var s := SyncArea(Present([a, b]), Version(SCHEMA_VERSION), Present(true));
      RemoveTokenStep(x => x, s, "q").sync.tokens == Present([a])
  {
    var a := Token("p", "A", None, None);
    var b := Token("p", "B", None, None);
    var canon: string -> string := x => x;
    assert RemoveId(canon, [a, b], "q") == [a, b] by {
      assert [a, b][..1] == [a];
      assert [a][..0] == [];
    }
    assert FirstOccurrences(canon, [a, b]) == [a] by {
      assert [a, b][..1] == [a];
      assert [a][..0] == [];
      assert Ids(canon, [a]) == {"p"};
    }
  }

  /** The migration and every list operation keep the watch-list
      invariant; `setTokens` establishes it whenever it succeeds. */
  lemma ListInvariantPreserved(canon: string -> string, s: SyncArea, list: seq<Token>, tok: Token, id: PairId)
    requires ListInvariant(canon, s)
    ensures ListInvariant(canon, Migrate(s))
    ensures ListInvariant(canon, SetTokensStep(canon, s, list).sync)
    ensures ListInvariant(canon, AddTokenStep(canon, s, tok).sync)
    ensures ListInvariant(canon, RemoveTokenStep(canon, s, id).sync)
  {
    if |list| <= MAX_TOKENS {
      SetTokensStoresFirstOccurrences(canon, s, list);
    }
    AddTokenAppends(canon, s, tok);
    RemoveTokenFiltersWellFormed(canon, s, id);
  }

  // ---- Change notifications (the watch* handlers) ----

  /** A storage change event, restricted to the keys a handler reads: for
      each, `None` when the key is not among the changes, otherwise its new
      value. */
  datatype ChangeEvent = ChangeEvent(
    area: string,
    tokens: Option<Raw<seq<Token>>>,
    widgetEnabled: Option<Raw<bool>>,
    quotes: Option<Raw<QuotesMap>>)

  /** The change a write reports: the keys it wrote with their new values. */
  function ChangeOf(w: Write): ChangeEvent
  {
    match w
    case SyncWrite(p) =>
      ChangeEvent("sync",
        if p.tokens.Some? then Some(Present(p.tokens.value)) else None,
        if p.widgetEnabled.Some? then Some(Present(p.widgetEnabled.value)) else None,
        None)
    case LocalWrite(q) => ChangeEvent("local", None, None, Some(Present(q)))
  }

  /** What `watchTokens` hands its callback (`None`: not called). The new
      value is passed on uncoerced. */
  function TokensDelivered(e: ChangeEvent): Option<Raw<seq<Token>>>
  {
    if e.area == "sync" && e.tokens.Some? then Some(e.tokens.value) else None
  }

  /** What `watchQuotes` hands its callback. */
  function QuotesDelivered(e: ChangeEvent): Option<Raw<QuotesMap>>
  {
    if e.area == "local" && e.quotes.Some? then Some(e.quotes.value) else None
  }

  /** What `watchWidgetEnabled` hands its callback: a non-boolean new value
      (including a removed key) is delivered as `true`. */
  function WidgetEnabledDelivered(e: ChangeEvent): Option<bool>
  {
    if e.area == "sync" && e.widgetEnabled.Some? then Some(EnabledOrTrue(e.widgetEnabled.value)) else None
  }

  /** Each watcher sees exactly the writes to its own key, with the
      complete written value: a tokens write delivers the whole new list. */
  lemma WatchersSeeTheirWrites(w: Write)
    ensures TokensDelivered(ChangeOf(w)) == (if w.SyncWrite? && w.patch.tokens.Some? then Some(Present(w.patch.tokens.value)) else None)
    ensures WidgetEnabledDelivered(ChangeOf(w)) == (if w.SyncWrite? then w.patch.widgetEnabled else None)
    ensures QuotesDelivered(ChangeOf(w)) == (if w.LocalWrite? then Some(Present(w.quotes)) else None)
  {
  }

  /** A successful add or remove ends with one write whose change event
      hands `watchTokens` the complete new list as stored. */
  lemma ListChangeCarriesFullList(canon: string -> string, s: SyncArea, tok: Token, id: PairId)
    ensures var st := AddTokenStep(canon, s, tok);
      st.outcome == Pass ==> |st.writes| > 0 && TokensDelivered(ChangeOf(st.writes[|st.writes| - 1])) == Some(st.sync.tokens)
    ensures var st := RemoveTokenStep(canon, s, id);
      st.outcome == Pass ==> |st.writes| > 0 && TokensDelivered(ChangeOf(st.writes[|st.writes| - 1])) == Some(st.sync.tokens)
  {
  }

  // ---- The store ----

  /** The two storage areas with their write log. `canon` is the case
      folding used for pair ids. */
  class Store {
    const canon: string -> string
    var sync: SyncArea
    var quotes: Option<QuotesMap>
    var log: seq<Write>

    predicate Valid()
      reads this
    {
      ListInvariant(canon, sync)
    }

    /** A store over persisted areas as they are found; `Valid()` is not
        established, since a stored array may break the list invariant. */
    constructor (canon: string -> string, sync: SyncArea, quotes: Option<QuotesMap>)
      ensures this.canon == canon && this.sync == sync && this.quotes == quotes && log == []
    {
      this.canon := canon;
      this.sync := sync;
      this.quotes := quotes;
      log := [];
    }

    /** `setSync`: one write of a partial object to the sync area. */
    method SetSync(p: SyncPatch)
      modifies this
      ensures sync == Apply(old(sync), p) && quotes == old(quotes)
      ensures log == old(log) + [SyncWrite(p)]
    {
      sync := Apply(sync, p);
      log := log + [SyncWrite(p)];
    }

    /** `setLocal({ quotes: q })`: one write to the local area. */
    method SetLocal(q: QuotesMap)
      modifies this
      ensures quotes == Some(q) && sync == old(sync)
      ensures log == old(log) + [LocalWrite(q)]
    {
      quotes := Some(q);
      log := log + [LocalWrite(q)];
    }

    /** `ensureInit`: creates or repairs the sync area in at most one write. */
    method EnsureInit()
      modifies this
      ensures sync == Migrate(old(sync)) && quotes == old(quotes)
      ensures log == old(log) + MigrationWrites(old(sync))
      ensures old(Valid()) ==> Valid()
    {
      var tokens, schemaVersion, widgetEnabled := sync.tokens, sync.schemaVersion, sync.widgetEnabled;
      var normalizedTokens := if tokens.Present? then tokens.value else [];
      var enabled := if widgetEnabled.Present? then widgetEnabled.value else true;
      if Unversioned(schemaVersion) {
        SetSync(SyncPatch(Some(normalizedTokens), Some(SCHEMA_VERSION), Some(enabled)));
        return;
      }
      var updates := EMPTY_PATCH;
      if !tokens.Present? {
        updates := updates.(tokens := Some([]));
      }
      if schemaVersion.n < SCHEMA_VERSION {
        updates := updates.(schemaVersion := Some(SCHEMA_VERSION));
      }
      if !widgetEnabled.Present? {
        updates := updates.(widgetEnabled := Some(enabled));
      }
      if updates != EMPTY_PATCH {
        SetSync(updates);
      }
    }

    /** `getTokens`: migrate, then read the list. */
    method GetTokens() returns (tokens: seq<Token>)
      modifies this
      ensures sync == Migrate(old(sync)) && quotes == old(quotes)
      ensures log == old(log) + MigrationWrites(old(sync))
      ensures tokens == ReadTokens(old(sync))
      ensures old(Valid()) ==> Valid()
    {
      EnsureInit();
      tokens := if sync.tokens.Present? then sync.tokens.value else [];
    }

    /** `setTokens`: the length check, then the filter with a `seen` set of
      canonical ids, then one write. */
    method SetTokens(list: seq<Token>) returns (r: Outcome)
      modifies this
      ensures var st := SetTokensStep(canon, old(sync), list);
        sync == st.sync && log == old(log) + st.writes && r == st.outcome
      ensures quotes == old(quotes)
      ensures r == Pass ==> Valid()
      ensures r != Pass ==> sync == old(sync) && log == old(log)
    {
      if |list| > MAX_TOKENS {
        assert log + [] == log;
        return Fail(ListTooLong);
      }
      var seen: set<string> := {};
      var clean: seq<Token> := [];
      var i := 0;
      while i < |list|
        invariant 0 <= i <= |list|
        invariant seen == Ids(canon, list[..i])
        invariant clean == FirstOccurrences(canon, list[..i])
        modifies {}
      {
        var k := canon(list[i].pairId);
        assert list[..i + 1] == list[..i] + [list[i]];
        IdsSnoc(canon, list[..i], list[i]);
        if k !in seen {
          seen := seen + {k};
          clean := clean + [list[i]];
        }
        i := i + 1;
      }
      assert list[..|list|] == list;
      SetTokensStoresFirstOccurrences(canon, sync, list);
      SetSync(TokensPatch(clean));
      r := Pass;
    }

    /** `addToken`: read the list, refuse a duplicate, refuse a full list,
      push the token and store the result through `setTokens`. */
    method AddToken(tok: Token) returns (r: Outcome)
      modifies this
      ensures var st := AddTokenStep(canon, old(sync), tok);
        sync == st.sync && log == old(log) + st.writes && r == st.outcome
      ensures quotes == old(quotes)
      ensures old(Valid()) ==> Valid()
    {
      ghost var s := sync;
      var tokens := GetTokens();
      if HasId(canon, tokens, tok.pairId) {
        return Fail(Duplicate);
      }
      if |tokens| >= MAX_TOKENS {
        return Fail(CapacityExceeded);
      }
      tokens := tokens + [tok];
      r := SetTokens(tokens);
      if ListInvariant(canon, s) { ListInvariantPreserved(canon, s, [], tok, tok.pairId); }
    }

    /** `removeToken`: read the list, filter out the id, store the rest
      through `setTokens`. */
    method RemoveToken(id: PairId) returns (r: Outcome)
      modifies this
      ensures var st := RemoveTokenStep(canon, old(sync), id);
        sync == st.sync && log == old(log) + st.writes && r == st.outcome
      ensures quotes == old(quotes)
      ensures old(Valid()) ==> Valid()
    {
      ghost var s := sync;
      var tokens := GetTokens();
      var next := RemoveId(canon, tokens, id);
      r := SetTokens(next);
      if ListInvariant(canon, s) { ListInvariantPreserved(canon, s, [], Token(id, "", None, None), id); }
    }

    /** `getQuotes`: the cached map, `{}` when none was ever written. */
    method GetQuotes() returns (q: QuotesMap)
      ensures quotes.Some? ==> q == quotes.value
      ensures quotes.None? ==> q == map[]
    {
      q := if quotes.Some? then quotes.value else map[];
    }

    /** `setQuotes`: replace the cache wholesale in one write. */
    method SetQuotes(q: QuotesMap)
      modifies this
      ensures quotes == Some(q) && sync == old(sync)
      ensures log == old(log) + [LocalWrite(q)]
    {
      SetLocal(q);
    }

    /** `getWidgetEnabled`: migrate, then read the flag. */
    method GetWidgetEnabled() returns (enabled: bool)
      modifies this
      ensures sync == Migrate(old(sync)) && quotes == old(quotes)
      ensures log == old(log) + MigrationWrites(old(sync))
      ensures enabled == ReadWidgetEnabled(old(sync))
    {
      EnsureInit();
      enabled := if sync.widgetEnabled.Present? then sync.widgetEnabled.value else true;
    }

    /** `setWidgetEnabled`: one write of the flag alone. */
    method SetWidgetEnabled(enabled: bool)
      modifies this
      ensures sync == old(sync).(widgetEnabled := Present(enabled)) && quotes == old(quotes)
      ensures log == old(log) + [SyncWrite(SyncPatch(None, None, Some(enabled)))]
      ensures old(Valid()) ==> Valid()
    {
      SetSync(SyncPatch(None, None, Some(enabled)));
    }
  }
}

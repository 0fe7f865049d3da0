/** The extension's shared vocabulary: the watch-list capacity, tokens,
    quotes and the small wrapper types the other modules use. */
module Types {

  /** The hard cap on the number of watched pairs. */
  const MAX_TOKENS: nat := 3

  /** A Dexscreener pair address, as the user typed it (case preserved). */
  type PairId = string

  datatype Option<+T> = None | Some(value: T)

  datatype Result<+T, +E> = Success(value: T) | Failure(error: E)

  /** A watched pair: `pairId` and `symbol` are always present, the icon URL
      and the base token's address are optional. */
  datatype Token = Token(pairId: PairId, symbol: string, icon: Option<string>, baseAddress: Option<string>)

  /** A JavaScript number. It is kept as the decimal text it came from;
      floating-point conversion and arithmetic are not modelled. */
  datatype Number = Number(literal: string)

  /** One price snapshot. `price` and `change24h` are nullable, `updatedAt`
      is a millisecond timestamp and `stale` is optional. */
  datatype Quote = Quote(price: Option<Number>, change24h: Option<Number>, updatedAt: int, stale: Option<bool>)

  /** The quote cache, keyed by pair id. */
  type QuotesMap = map<PairId, Quote>

  /** The pair ids of a token list, in list order. */
  function PairIds(ts: seq<Token>): (ids: seq<PairId>)
    ensures |ids| == |ts|
    ensures forall i :: 0 <= i < |ts| ==> ids[i] == ts[i].pairId
  {
    seq(|ts|, i requires 0 <= i < |ts| => ts[i].pairId)
  }

  /** The set of pair ids of a token list. */
  function PairIdSet(ts: seq<Token>): set<PairId>
  {
    set t | t in ts :: t.pairId
  }
}

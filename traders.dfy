/** The normalisation of the ranking API's raw entries into trader records
    (the `.map` in main.js:36-50). */
module Traders {
  import opened Options

  /** A JSON value that the handler passes through without looking at it
      (balances, profits, win rates, counts, the wallet address). */
  datatype Value = Undefined | Null | Bool(b: bool) | Number(r: real) | Text(s: string)

  /** One entry of `data.rank` as the ranking API returns it; the JSON keys
      are name, twitter_name, address, sol_balance, pnl_1d,
      realized_profit_1d, winrate_1d, buy_1d, sell_1d, volume_1d,
      follow_count, twitter_username and tags. */
  datatype RawEntry = RawEntry(
    name: Option<string>,
    twitterName: Option<string>,
    address: Value,
    solBalance: Value,
    pnl1d: Value,
    realizedProfit1d: Value,
    winrate1d: Value,
    buy1d: Value,
    sell1d: Value,
    volume1d: Value,
    followCount: Value,
    twitterUsername: Option<string>,
    tags: Option<seq<string>>)

  /** One trader record as the endpoint serves it; the JSON keys are rank,
      name, address, sol_balance, pnl_1d_percent, pnl_1d_usd, winrate_1d,
      buy_1d, sell_1d, volume_1d, follow_count, twitter and tags. */
  datatype Trader = Trader(
    rank: nat,
    name: string,
    address: Value,
    solBalance: Value,
    pnl1dPercent: Value,
    pnl1dUsd: Value,
    winrate1d: Value,
    buy1d: Value,
    sell1d: Value,
    volume1d: Value,
    followCount: Value,
    twitter: Option<string>,
    tags: seq<string>)

  const TwitterPrefix: string := "https://x.com/"

  /** The display name: the first truthy one of the primary name and the
      social name, otherwise the literal "Unknown". */
  function DisplayName(name: Option<string>, twitterName: Option<string>): (r: string)
    ensures r != ""
    ensures Truthy(name) ==> r == name.value
    ensures !Truthy(name) && Truthy(twitterName) ==> r == twitterName.value
    ensures !Truthy(name) && !Truthy(twitterName) ==> r == "Unknown"
  {
    if Truthy(name) then name.value
    else if Truthy(twitterName) then twitterName.value
    else "Unknown"
  }

  /** The profile link: the handle templated into the x.com prefix when the
      handle is truthy, `null` otherwise. */
  function TwitterUrl(handle: Option<string>): (r: Option<string>)
    ensures r.Some? <==> Truthy(handle)
    ensures r.Some? ==> |TwitterPrefix| < |r.value|
                        && r.value[..|TwitterPrefix|] == TwitterPrefix
                        && r.value[|TwitterPrefix|..] == handle.value
  {
    if Truthy(handle) then Some(TwitterPrefix + handle.value) else None
  }

  /** The tag list, where an absent list becomes the empty one. */
  function TagsOrEmpty(tags: Option<seq<string>>): (r: seq<string>)
  {
    if tags.Some? then tags.value else []
  }

  /** The record built from one raw entry at 1-based position `rank`. */
  function ToTrader(item: RawEntry, rank: nat): (r: Trader)
    ensures r.rank == rank
    ensures r.name != "" && r.name == DisplayName(item.name, item.twitterName)
    ensures r.twitter.Some? <==> Truthy(item.twitterUsername)
    ensures r.twitter == TwitterUrl(item.twitterUsername)
    ensures r.tags == TagsOrEmpty(item.tags)
    ensures r.address == item.address && r.solBalance == item.solBalance
    ensures r.pnl1dPercent == item.pnl1d && r.pnl1dUsd == item.realizedProfit1d
    ensures r.winrate1d == item.winrate1d && r.buy1d == item.buy1d && r.sell1d == item.sell1d
    ensures r.volume1d == item.volume1d && r.followCount == item.followCount
  {
    Trader(rank, DisplayName(item.name, item.twitterName), item.address, item.solBalance,
           item.pnl1d, item.realizedProfit1d, item.winrate1d, item.buy1d, item.sell1d,
           item.volume1d, item.followCount, TwitterUrl(item.twitterUsername),
           TagsOrEmpty(item.tags))
  }

  /** The records for `items`, the first of which stands at position
      `first`: the element-wise map with the position counted along. */
  function NormalizeFrom(items: seq<RawEntry>, first: nat): (r: seq<Trader>)
    ensures |r| == |items|
    ensures forall i :: 0 <= i < |items| ==> r[i] == ToTrader(items[i], first + i)
    decreases |items|
  {
    if items == [] then []
    else [ToTrader(items[0], first)] + NormalizeFrom(items[1..], first + 1)
  }

  /** The records for the rank list of a fetched response: a missing list
      yields no records; otherwise one record per entry, in order, ranked
      from 1. */
  function Normalize(rank: Option<seq<RawEntry>>): (r: seq<Trader>)
    ensures rank.None? ==> r == []
    ensures rank.Some? ==> |r| == |rank.value|
    ensures rank.Some? ==> forall i :: 0 <= i < |r| ==> r[i] == ToTrader(rank.value[i], i + 1)
    ensures forall i :: 0 <= i < |r| ==> r[i].rank == i + 1
  {
    NormalizeFrom(if rank.Some? then rank.value else [], 1)
  }

  /** Normalising a concatenation normalises the second part with its
      positions shifted by the length of the first. */
  lemma NormalizeAppend(xs: seq<RawEntry>, ys: seq<RawEntry>, first: nat)
    ensures NormalizeFrom(xs + ys, first) == NormalizeFrom(xs, first) + NormalizeFrom(ys, first + |xs|)
  {
  }

  /** Distinct truthy handles give distinct profile links. */
  lemma TwitterUrlInjective(h1: Option<string>, h2: Option<string>)
    requires Truthy(h1) && Truthy(h2) && h1.value != h2.value
    ensures TwitterUrl(h1) != TwitterUrl(h2)
  {
  }

  /** An entry carrying only an address and three figures becomes an
      "Unknown" trader at rank 1 with no tags and no link. */
  lemma SingleAnonymousEntry(addr: Value, balance: Value, pnl: Value, winrate: Value)
    ensures Normalize(Some([RawEntry(None, None, addr, balance, pnl, Undefined, winrate,
                                     Undefined, Undefined, Undefined, Undefined, None, None)]))
            == [Trader(1, "Unknown", addr, balance, pnl, Undefined, winrate,
                       Undefined, Undefined, Undefined, Undefined, None, [])]
  {
  }

  /** With `name` null the display name falls back to the social name, and
      the handle "abc" gives the link https://x.com/abc, also in the whole
      record built from such an entry, which keeps its tag list. */
  lemma HandleWithoutName(twitterName: Option<string>)
    ensures DisplayName(None, twitterName) == if Truthy(twitterName) then twitterName.value else "Unknown"
    ensures TwitterUrl(Some("abc")) == Some("https://x.com/abc")
    ensures var t := ToTrader(RawEntry(None, twitterName, Undefined, Undefined, Undefined, Undefined, Undefined,
                                       Undefined, Undefined, Undefined, Undefined, Some("abc"), Some(["whale"])), 1);
            t.twitter == Some("https://x.com/abc") && t.tags == ["whale"]
            && t.name == (if Truthy(twitterName) then twitterName.value else "Unknown")
  {
    assert Truthy(Some("abc"));
    assert TwitterPrefix + "abc" == "https://x.com/abc";
  }
}

/**
 * The part of the query client the pages rely on: a cache of query keys and
 * `invalidateQueries({ queryKey })`, which marks every cached query whose key
 * starts with the given key as stale. Fetching, refetching and timing are
 * not modelled.
 */
module QueryCache {

  /** One element of a query key: the keys here hold strings and page numbers. */
  datatype KeyPart = Text(s: string) | Number(n: int)

  type QueryKey = seq<KeyPart>

  const TodayKey: QueryKey := [Text("attendance-today")]
  const SummaryKeyPrefix: QueryKey := [Text("attendance-summary")]
  const ProfileKey: QueryKey := [Text("profile")]

  /** The key `['attendance-summary', page, startDate, endDate]` of one summary query. */
  function SummaryKey(page: int, startDate: string, endDate: string): QueryKey {
    SummaryKeyPrefix + [Number(page), Text(startDate), Text(endDate)]
  }

  /** The cached keys that an invalidation with `filter` reaches: those it is a prefix of. */
  function Matching(keys: set<QueryKey>, filter: QueryKey): (m: set<QueryKey>)
    ensures m <= keys
    ensures forall k :: k in keys ==> (k in m <==> filter <= k)
  {
    set k | k in keys && filter <= k
  }

  /**
   * The summary prefix reaches every summary query, whatever its page and
   * dates, and none of the other keys; the other two keys reach only themselves.
   */
  lemma KeysReach(page: int, startDate: string, endDate: string)
    ensures SummaryKeyPrefix <= SummaryKey(page, startDate, endDate)
    ensures !(TodayKey <= SummaryKey(page, startDate, endDate))
    ensures !(ProfileKey <= SummaryKey(page, startDate, endDate))
    ensures !(SummaryKeyPrefix <= TodayKey) && !(ProfileKey <= TodayKey)
    ensures !(SummaryKeyPrefix <= ProfileKey) && !(TodayKey <= ProfileKey)
  {
    var k := SummaryKey(page, startDate, endDate);
    assert k[0] == Text("attendance-summary");
    assert TodayKey[0] == Text("attendance-today");
    assert ProfileKey[0] == Text("profile");
  }

  class QueryClient {
    /** Keys of the queries with an entry in the cache. */
    var cached: set<QueryKey>
    /** Keys marked for refetching. */
    var stale: set<QueryKey>

    ghost predicate Valid()
      reads this
    {
      stale <= cached
    }

    constructor ()
      ensures Valid() && cached == {} && stale == {}
    {
      cached := {};
      stale := {};
    }

    /** `invalidateQueries({ queryKey: filter })`. */
    method InvalidateQueries(filter: QueryKey)
      requires Valid()
      modifies this
      ensures Valid()
      ensures cached == old(cached)
      ensures stale == old(stale) + Matching(cached, filter)
    {
      stale := stale + Matching(cached, filter);
    }
  }
}

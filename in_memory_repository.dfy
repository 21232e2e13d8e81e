/** The list semantics of the in-memory melding repository that the action
    tests run against: a page of the stored meldingen by limit and offset,
    where a missing or zero limit or offset counts as not given. */
module InMemoryRepository {
  import opened Entities

  /** Python's truth value of an optional count: None and 0 are false. */
  predicate Given(v: Option<nat>)
  {
    v.Some? && v.value != 0
  }

  /** Python's `data[lo:hi]` for non-negative bounds: both clamp to the length. */
  function Slice<T>(data: seq<T>, lo: nat, hi: nat): (r: seq<T>)
    ensures |r| == if lo >= |data| || hi <= lo then 0 else (if hi < |data| then hi else |data|) - lo
    ensures lo < |data| && lo < hi ==> r == data[lo..(if hi < |data| then hi else |data|)]
    ensures lo >= |data| || hi <= lo ==> r == []
  {
    var end := if hi < |data| then hi else |data|;
    if lo >= end then [] else data[lo..end]
  }

  /** The repository's `list(limit, offset)`, branch by branch. The page
      starts right after the offset (or at the front when no offset is
      given) and never holds more than a given limit. */
  function ListPage<T>(data: seq<T>, limit: Option<nat>, offset: Option<nat>): (r: seq<T>)
    ensures Given(offset) && offset.value < |data| ==> r <= data[offset.value..]
    ensures Given(offset) && offset.value >= |data| ==> r == []
    ensures !Given(offset) ==> r <= data
    ensures Given(limit) ==> |r| <= limit.value
    ensures !Given(limit) && !Given(offset) ==> r == data
  {
    if Given(limit) && Given(offset) then Slice(data, offset.value, offset.value + limit.value)
    else if Given(limit) && !Given(offset) then Slice(data, 0, limit.value)
    else if !Given(limit) && Given(offset) then Slice(data, offset.value, |data|)
    else data
  }

  /** Every branch is one window of the data: skip the offset (none when not
      given), then take limit items (all the rest when not given). */
  lemma ListPageWindow<T>(data: seq<T>, limit: Option<nat>, offset: Option<nat>)
    ensures
      var start := if Given(offset) && offset.value < |data| then offset.value
                   else if Given(offset) then |data| else 0;
      var end := if Given(limit) && start + limit.value < |data| then start + limit.value else |data|;
      ListPage(data, limit, offset) == data[start..end]
  {
  }

  /** The page sizes the tests expect from ten stored meldingen. */
  lemma TenMeldingen<T>(data: seq<T>)
    requires |data| == 10
    ensures |ListPage(data, None, None)| == 10
    ensures |ListPage(data, Some(1), None)| == 1
    ensures |ListPage(data, Some(5), None)| == 5
    ensures |ListPage(data, Some(10), None)| == 10
    ensures |ListPage(data, Some(20), None)| == 10
    ensures |ListPage(data, None, Some(1))| == 9
    ensures |ListPage(data, None, Some(5))| == 5
    ensures |ListPage(data, None, Some(10))| == 0
    ensures |ListPage(data, None, Some(20))| == 0
    ensures |ListPage(data, Some(10), Some(0))| == 10
    ensures |ListPage(data, Some(5), Some(0))| == 5
    ensures |ListPage(data, Some(10), Some(10))| == 0
    ensures |ListPage(data, Some(20), Some(0))| == 10
  {
  }

  /** A zero limit is no limit: it returns everything from the offset on. */
  lemma ZeroLimitIsNoLimit<T>(data: seq<T>, offset: Option<nat>)
    ensures ListPage(data, Some(0), offset) == ListPage(data, None, offset)
  {
  }
}

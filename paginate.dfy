/**
 * The cursor walks over paged remote lists: the follower walk of the scan
 * (skysweep.js and index.js) and the record/feed walk of `fetchAllRecords` and
 * the media download.
 *
 * The server is an oracle: `responses[k]` answers the k-th request. A request
 * past the end of `responses` gets an empty page with no cursor, so every walk
 * ends. The empty string stands for an absent cursor (`undefined`, `null` and
 * `""` are all falsy to the source).
 */
module Paginate {
  import opened Common

  datatype Page<T> = Page(items: seq<T>, cursor: string) | PageFailed

  /** The answer to request number `k`. */
  function Response<T>(responses: seq<Page<T>>, k: nat): Page<T> {
    if k < |responses| then responses[k] else Page([], "")
  }

  /** What a walk collected, how many requests it sent, and whether one of them failed. */
  datatype Walk<T> = Walk(items: seq<T>, fetches: nat, failed: bool)

  /** The items of responses `from .. to - 1`, in order (failed responses contribute nothing). */
  function ItemsBetween<T>(responses: seq<Page<T>>, from: nat, to: nat): seq<T>
    decreases to - from
  {
    if to <= from then []
    else
      var p := Response(responses, from);
      (if p.Page? then p.items else []) + ItemsBetween(responses, from + 1, to)
  }

  // ---------------- Follower walk ----------------

  /**
   * The follower walk from request `k`: stop before a request once `pages`
   * requests are used up (only when `capped`), abort on a failed request,
   * otherwise keep the page and go on while the cursor is present.
   */
  function FollowerWalk<T>(responses: seq<Page<T>>, capped: bool, pages: real, k: nat): Walk<T>
    decreases |responses| - k
  {
    if capped && k as real >= pages then Walk([], 0, false)
    else match Response(responses, k)
      case PageFailed => Walk([], 1, true)
      case Page(items, cursor) =>
        if cursor == "" then Walk(items, 1, false)
        else
          var rest := FollowerWalk(responses, capped, pages, k + 1);
          Walk(items + rest.items, rest.fetches + 1, rest.failed)
  }

  /**
   * The follower loops of skysweep.js (`capped` is `pages >= 1`; an error
   * returns) and index.js (always capped; an error exits). `None` means the
   * walk failed and nothing is scanned; `requests` are the cursors sent.
   */
  method FetchFollowers<T>(responses: seq<Page<T>>, capped: bool, pages: real)
    returns (followers: Option<seq<T>>, requests: seq<string>)
    ensures var w := FollowerWalk(responses, capped, pages, 0);
      followers == (if w.failed then None else Some(w.items)) && |requests| == w.fetches
    ensures |requests| > 0 ==> requests[0] == ""
    ensures forall k :: 0 < k < |requests| ==>
      (Response(responses, k - 1).Page? && requests[k] == Response(responses, k - 1).cursor)
  {
    var items: seq<T> := [];
    var cursor := "";
    var pageCount: nat := 0;
    requests := [];
    while true
      invariant pageCount == |requests| && pageCount <= |responses|
      invariant WalkSplit(responses, capped, pages, items, pageCount)
      invariant forall k :: 0 <= k < pageCount ==> Response(responses, k).Page?
      invariant pageCount > 0 ==>
        Response(responses, pageCount - 1).Page? && cursor == Response(responses, pageCount - 1).cursor && cursor != ""
      invariant pageCount == 0 ==> cursor == ""
      invariant |requests| > 0 ==> requests[0] == ""
      invariant forall k :: 0 < k < |requests| ==>
        (Response(responses, k - 1).Page? && requests[k] == Response(responses, k - 1).cursor)
      decreases |responses| - pageCount
    {
      if capped && pageCount as real >= pages {
        WalkStopsBeforeRequest(responses, capped, pages, items, pageCount);
        followers := Some(items);
        return;
      }
      var res := Response(responses, pageCount);
      requests := requests + [cursor];
      if res.PageFailed? {
        WalkStopsAtFailure(responses, capped, pages, items, pageCount);
        followers := None;
        return;
      }
      if res.cursor == "" {
        WalkStopsAtLastPage(responses, capped, pages, items, pageCount);
        followers := Some(items + res.items);
        return;
      }
      WalkContinues(responses, capped, pages, items, pageCount);
      items := items + res.items;
      cursor := res.cursor;
      pageCount := pageCount + 1;
    }
  }

  /** The walk from request 0 is `items` followed by the walk from request `k`. */
  ghost predicate WalkSplit<T>(responses: seq<Page<T>>, capped: bool, pages: real, items: seq<T>, k: nat) {
    var rest := FollowerWalk(responses, capped, pages, k);
    FollowerWalk(responses, capped, pages, 0) == Walk(items + rest.items, k + rest.fetches, rest.failed)
  }

  lemma WalkStopsBeforeRequest<T>(responses: seq<Page<T>>, capped: bool, pages: real, items: seq<T>, k: nat)
    requires WalkSplit(responses, capped, pages, items, k)
    requires capped && k as real >= pages
    ensures FollowerWalk(responses, capped, pages, 0) == Walk(items, k, false)
  {
    assert items + [] == items;
  }

  lemma WalkStopsAtFailure<T>(responses: seq<Page<T>>, capped: bool, pages: real, items: seq<T>, k: nat)
    requires WalkSplit(responses, capped, pages, items, k)
    requires !(capped && k as real >= pages) && Response(responses, k).PageFailed?
    ensures FollowerWalk(responses, capped, pages, 0) == Walk(items, k + 1, true)
  {
    assert items + [] == items;
  }

  lemma WalkStopsAtLastPage<T>(responses: seq<Page<T>>, capped: bool, pages: real, items: seq<T>, k: nat)
    requires WalkSplit(responses, capped, pages, items, k)
    requires !(capped && k as real >= pages)
    requires Response(responses, k).Page? && Response(responses, k).cursor == ""
    ensures FollowerWalk(responses, capped, pages, 0) == Walk(items + Response(responses, k).items, k + 1, false)
  {
  }

  lemma WalkContinues<T>(responses: seq<Page<T>>, capped: bool, pages: real, items: seq<T>, k: nat)
    requires WalkSplit(responses, capped, pages, items, k)
    requires !(capped && k as real >= pages)
    requires Response(responses, k).Page? && Response(responses, k).cursor != ""
    ensures k < |responses|
    ensures WalkSplit(responses, capped, pages, items + Response(responses, k).items, k + 1)
  {
    var res := Response(responses, k);
    var rest := FollowerWalk(responses, capped, pages, k + 1);
    assert FollowerWalk(responses, capped, pages, k) == Walk(res.items + rest.items, rest.fetches + 1, rest.failed);
    assert items + (res.items + rest.items) == (items + res.items) + rest.items;
  }

  /**
   * A capped walk never sends a request numbered `pages` or more, and one that
   * did not fail holds exactly the items of the pages it read.
   */
  lemma {:induction false} FollowerWalkBounds<T>(responses: seq<Page<T>>, capped: bool, pages: real, k: nat)
    ensures var w := FollowerWalk(responses, capped, pages, k);
      (capped && w.fetches > 0 ==> (k + w.fetches - 1) as real < pages) &&
      (!w.failed ==> w.items == ItemsBetween(responses, k, k + w.fetches))
    decreases |responses| - k
  {
    if capped && k as real >= pages {
    } else {
      match Response(responses, k)
      case PageFailed =>
      case Page(items, cursor) =>
        if cursor == "" {
          assert ItemsBetween(responses, k + 1, k + 1) == [];
        } else {
          FollowerWalkBounds(responses, capped, pages, k + 1);
        }
    }
  }

  /**
   * Why a follower walk stops: every request but the last returned a page with
   * a cursor, and the walk ends at a failure, at a missing cursor, or (capped)
   * at the page budget. An uncapped walk therefore only stops at a failure or
   * a missing cursor.
   */
  lemma {:induction false} FollowerWalkStops<T>(responses: seq<Page<T>>, capped: bool, pages: real, k: nat)
    ensures var w := FollowerWalk(responses, capped, pages, k);
      var last := k + w.fetches - 1;
      (forall j :: k <= j < last ==> Response(responses, j).Page? && Response(responses, j).cursor != "") &&
      (w.fetches == 0 <==> capped && k as real >= pages) &&
      (w.fetches > 0 ==>
         (w.failed <==> Response(responses, last).PageFailed?) &&
         (Response(responses, last).PageFailed? || Response(responses, last).cursor == "" ||
          (capped && (last + 1) as real >= pages)))
    decreases |responses| - k
  {
    if capped && k as real >= pages {
    } else {
      match Response(responses, k)
      case PageFailed =>
      case Page(items, cursor) =>
        if cursor != "" {
          FollowerWalkStops(responses, capped, pages, k + 1);
          var rest := FollowerWalk(responses, capped, pages, k + 1);
          if rest.fetches == 0 {
            assert capped && (k + 1) as real >= pages;
          }
        }
    }
  }

  /** With a whole number of pages `n`, a capped walk sends at most `n` requests. */
  lemma FollowerWalkAtMostPages<T>(responses: seq<Page<T>>, n: nat)
    ensures FollowerWalk(responses, true, n as real, 0).fetches <= n
  {
    FollowerWalkBounds(responses, true, n as real, 0);
  }

  // ---------------- Record and feed walk ----------------

  /** The `listRecords` / `getAuthorFeed` walk: stop on an empty page or a missing cursor, abort on a failure. */
  function RecordWalk<T>(responses: seq<Page<T>>, k: nat): Walk<T>
    decreases |responses| - k
  {
    match Response(responses, k)
    case PageFailed => Walk([], 1, true)
    case Page(items, cursor) =>
      if |items| == 0 then Walk([], 1, false)
      else if cursor == "" then Walk(items, 1, false)
      else
        var rest := RecordWalk(responses, k + 1);
        Walk(items + rest.items, rest.fetches + 1, rest.failed)
  }

  /** The shared loop of the two record walks; `failed` reports an aborted walk. */
  method WalkRecords<T>(responses: seq<Page<T>>) returns (items: seq<T>, failed: bool)
    ensures var w := RecordWalk(responses, 0);
      failed == w.failed && (!failed ==> items == w.items)
  {
    items := [];
    var pageCount: nat := 0;
    while true
      invariant pageCount <= |responses|
      invariant var rest := RecordWalk(responses, pageCount);
        RecordWalk(responses, 0) == Walk(items + rest.items, pageCount + rest.fetches, rest.failed)
      decreases |responses| - pageCount
    {
      var res := Response(responses, pageCount);
      if res.PageFailed? {
        return items, true;
      }
      if |res.items| == 0 {
        break;
      }
      items := items + res.items;
      pageCount := pageCount + 1;
      if res.cursor == "" {
        break;
      }
    }
    failed := false;
  }

  /** `fetchAllRecords`: every record of the walk, or none at all once any request fails. */
  method FetchAllRecords<T>(responses: seq<Page<T>>) returns (records: seq<T>)
    ensures var w := RecordWalk(responses, 0);
      records == if w.failed then [] else w.items
  {
    var failed;
    records, failed := WalkRecords(responses);
    if failed {
      records := [];
    }
  }

  /** The post walk of the media download: `None` when a request fails (the download returns). */
  method FetchAuthorFeed<T>(responses: seq<Page<T>>) returns (posts: Option<seq<T>>)
    ensures var w := RecordWalk(responses, 0);
      posts == if w.failed then None else Some(w.items)
  {
    var items, failed := WalkRecords(responses);
    posts := if failed then None else Some(items);
  }

  /**
   * A record walk that did not fail holds the items of the pages it read, every
   * page before the last had items and a cursor, and the last was empty or had
   * no cursor.
   */
  lemma {:induction false} RecordWalkShape<T>(responses: seq<Page<T>>, k: nat)
    ensures var w := RecordWalk(responses, k);
      var last := k + w.fetches - 1;
      w.fetches >= 1 &&
      (forall j :: k <= j < last ==>
         Response(responses, j).Page? && |Response(responses, j).items| > 0 && Response(responses, j).cursor != "") &&
      (w.failed <==> Response(responses, last).PageFailed?) &&
      (!w.failed ==>
         (w.items == ItemsBetween(responses, k, last + 1) &&
          (|Response(responses, last).items| == 0 || Response(responses, last).cursor == "")))
    decreases |responses| - k
  {
    match Response(responses, k)
    case PageFailed =>
    case Page(items, cursor) =>
      if |items| == 0 {
        assert ItemsBetween(responses, k + 1, k + 1) == [];
        assert ItemsBetween(responses, k, k + 1) == items + [];
      } else if cursor == "" {
        assert ItemsBetween(responses, k + 1, k + 1) == [];
      } else {
        RecordWalkShape(responses, k + 1);
      }
  }
}

/** Offset-cursor pagination, the loop that `listAllProjectTasks` and the
    `/asana/projects/{gid}/tasks` handler both run: ask for a page with the fixed
    query (and, after the first page, `offset` set to the previous page's
    `next_page.offset`), append its `data`, and stop at a page whose `next_page`
    is null or whose offset is empty. Any page error abandons what was gathered.

    The upstream is the sequence of outcomes the successive `asanaGET` calls
    give, in order: `replies[i]` answers the i-th request. */
module Pagination {
  import opened Base

  datatype NextPage = NextPage(offset: string)

  /** The decoded `{data: [...], next_page: {offset} | null}` body. */
  datatype Page<T> = Page(data: seq<T>, nextPage: Option<NextPage>)

  /** One request of the listing: the API path and its query. */
  datatype ApiCall = ApiCall(path: string, query: Query)

  /** The loop's exit test on a page. */
  predicate IsLast<T>(p: Page<T>)
  {
    p.nextPage.None? || p.nextPage.value.offset == ""
  }

  /** An outcome after which no further page is requested. */
  predicate Ends<T>(r: Result<Page<T>>)
  {
    r.Err? || IsLast(r.value)
  }

  /** The index of the first outcome that ends the listing, or |replies| if none does. */
  function FirstEnd<T>(replies: seq<Result<Page<T>>>): (k: nat)
    ensures k <= |replies|
    ensures k < |replies| ==> Ends(replies[k])
    ensures forall j :: 0 <= j < k ==> !Ends(replies[j])
  {
    if |replies| == 0 then 0
    else if Ends(replies[0]) then 0
    else 1 + FirstEnd(replies[1..])
  }

  /** The upstream ends the listing at some request (the loop never ends otherwise). */
  predicate Settles<T>(replies: seq<Result<Page<T>>>)
  {
    FirstEnd(replies) < |replies|
  }

  /** The items of a page outcome; an error has none. */
  function DataOf<T>(r: Result<Page<T>>): seq<T>
  {
    if r.Ok? then r.value.data else []
  }

  /** The items of the outcomes, concatenated in order. */
  function Flatten<T>(replies: seq<Result<Page<T>>>): seq<T>
  {
    if |replies| == 0 then [] else Flatten(replies[..|replies| - 1]) + DataOf(replies[|replies| - 1])
  }

  /** The number of items the outcomes carry. */
  function TotalItems<T>(replies: seq<Result<Page<T>>>): nat
  {
    if |replies| == 0 then 0 else |DataOf(replies[0])| + TotalItems(replies[1..])
  }

  /** What the listing yields: the error of the outcome that ends it, or every
      item of the pages up to and including the last one, in upstream order. */
  function Listing<T>(replies: seq<Result<Page<T>>>): Result<seq<T>>
    requires Settles(replies)
  {
    var k := FirstEnd(replies);
    if replies[k].Err? then Err(replies[k].error) else Ok(Flatten(replies[..k + 1]))
  }

  /** `q.Set("offset", offset)` only when the offset is non-empty. */
  function PageQuery(base: Query, offset: string): Query
  {
    if offset != "" then base["offset" := offset] else base
  }

  /** The pagination loop. It returns the listing and the requests it made. */
  method FetchAll<T>(path: string, base: Query, replies: seq<Result<Page<T>>>)
    returns (r: Result<seq<T>>, sent: seq<ApiCall>)
    requires Settles(replies)
    ensures r == Listing(replies)
    ensures |sent| == FirstEnd(replies) + 1
    ensures sent[0] == ApiCall(path, base)
    ensures forall j :: 0 < j < |sent| ==>
              && replies[j - 1].Ok? && replies[j - 1].value.nextPage.Some?
              && replies[j - 1].value.nextPage.value.offset != ""
              && sent[j] == ApiCall(path, base["offset" := replies[j - 1].value.nextPage.value.offset])
  {
    var all: seq<T> := [];
    var offset := "";
    var i := 0;
    sent := [];
    while true
      invariant 0 <= i <= FirstEnd(replies)
      invariant |sent| == i
      invariant all == Flatten(replies[..i])
      invariant i == 0 ==> offset == ""
      invariant i > 0 ==> offset == replies[i - 1].value.nextPage.value.offset && offset != ""
      invariant i > 0 ==> sent[0] == ApiCall(path, base)
      invariant forall j :: 0 < j < i ==>
                  sent[j] == ApiCall(path, base["offset" := replies[j - 1].value.nextPage.value.offset])
      decreases FirstEnd(replies) - i
    {
      sent := sent + [ApiCall(path, PageQuery(base, offset))];
      match replies[i]
      case Err(e) =>
        r := Err(e);
        return;
      case Ok(page) =>
        assert replies[..i + 1][..i] == replies[..i];
        all := all + page.data;
        if IsLast(page) {
          r := Ok(all);
          return;
        }
        offset := page.nextPage.value.offset;
        i := i + 1;
    }
  }

  lemma {:induction false} FlattenLength<T>(replies: seq<Result<Page<T>>>)
    ensures |Flatten(replies)| == TotalItems(replies)
    decreases |replies|
  {
    if |replies| > 0 {
      var n := |replies| - 1;
      FlattenLength(replies[..n]);
      if n > 0 {
        TotalItemsSnoc(replies[..n], replies[n]);
        assert replies[..n] + [replies[n]] == replies;
      }
    }
  }

  lemma {:induction false} TotalItemsSnoc<T>(replies: seq<Result<Page<T>>>, last: Result<Page<T>>)
    ensures TotalItems(replies + [last]) == TotalItems(replies) + |DataOf(last)|
    decreases |replies|
  {
    if |replies| > 0 {
      assert (replies + [last])[1..] == replies[1..] + [last];
      TotalItemsSnoc(replies[1..], last);
    }
  }

  /** Outcomes after the one that ends the listing are never looked at: the
      loop stops requesting pages there. */
  lemma {:induction false} ListingIgnoresLaterReplies<T>(replies: seq<Result<Page<T>>>, more: seq<Result<Page<T>>>)
    requires Settles(replies)
    ensures Settles(replies + more)
    ensures FirstEnd(replies + more) == FirstEnd(replies)
    ensures Listing(replies + more) == Listing(replies)
  {
    FirstEndPrefix(replies, more);
    var k := FirstEnd(replies);
    assert (replies + more)[..k + 1] == replies[..k + 1];
  }

  lemma {:induction false} FirstEndPrefix<T>(replies: seq<Result<Page<T>>>, more: seq<Result<Page<T>>>)
    requires Settles(replies)
    ensures FirstEnd(replies + more) == FirstEnd(replies)
    decreases |replies|
  {
    if !Ends(replies[0]) {
      assert (replies + more)[1..] == replies[1..] + more;
      FirstEndPrefix(replies[1..], more);
    }
  }

  /** N pages whose cursors are non-empty except the last one's: the listing is
      every page's items in order, as many as the pages hold together. */
  lemma ListingOfCompletePages<T>(replies: seq<Result<Page<T>>>)
    requires |replies| > 0
    requires forall j :: 0 <= j < |replies| ==> replies[j].Ok?
    requires forall j :: 0 <= j < |replies| - 1 ==> !IsLast(replies[j].value)
    requires IsLast(replies[|replies| - 1].value)
    ensures Settles(replies)
    ensures Listing(replies) == Ok(Flatten(replies))
    ensures |Flatten(replies)| == TotalItems(replies)
  {
    var k := FirstEnd(replies);
    assert k == |replies| - 1;
    assert replies[..k + 1] == replies;
    FlattenLength(replies);
  }

  /** If page k fails after k pages that each pointed to a further page, the
      listing is that error: nothing fetched before it is returned. */
  lemma ListingFailureDiscards<T>(replies: seq<Result<Page<T>>>, k: nat)
    requires k < |replies| && replies[k].Err?
    requires forall j :: 0 <= j < k ==> replies[j].Ok? && !IsLast(replies[j].value)
    ensures Settles(replies)
    ensures Listing(replies) == Err(replies[k].error)
  {
    var f := FirstEnd(replies);
    assert f == k;
  }
}

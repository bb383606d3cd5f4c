/**
 * What the bot promises, stated against reference definitions that are
 * written independently of Dispatch and DispatchChunk.
 */
module NeoProperties {
  import opened Wrappers
  import opened Neo

  // ---------------------------------------------------------------------
  // Reference definitions
  // ---------------------------------------------------------------------

  /** The handlers of `order` whose predicate holds of `e`, in order. */
  function Matching(hs: map<HandlerId, Handler>, order: seq<HandlerId>, e: Event): seq<HandlerId>
    requires InRegistry(order, hs)
    decreases |order|
  {
    if order == [] then []
    else (if hs[order[0]].matches(e) then [order[0]] else []) + Matching(hs, order[1..], e)
  }

  /** Handler `id` matches `e` and returns an error for it. */
  predicate Fails(hs: map<HandlerId, Handler>, id: HandlerId, e: Event)
    requires id in hs
  {
    hs[id].matches(e) && hs[id].action(e).Some?
  }

  /** `order[j]` is the first handler of `order` that fails on `e`. */
  predicate FirstFailure(hs: map<HandlerId, Handler>, order: seq<HandlerId>, e: Event, j: nat)
    requires InRegistry(order, hs)
  {
    j < |order| && Fails(hs, order[j], e) && forall i :: 0 <= i < j ==> !Fails(hs, order[i], e)
  }

  /** The events of `chunk` not sent by `userId`, in page order. */
  function NonSelf(chunk: seq<Event>, userId: string): seq<Event>
    decreases |chunk|
  {
    if chunk == [] then []
    else (if chunk[0].sender == userId then [] else [chunk[0]]) + NonSelf(chunk[1..], userId)
  }

  /** The i-th event of the page is dispatched and its dispatch returns an error. */
  predicate EventFails(hs: map<HandlerId, Handler>, userId: string, chunk: seq<Event>, orders: seq<seq<HandlerId>>, i: nat)
    requires OrdersFit(orders, chunk, hs)
  {
    i < |chunk| && chunk[i].sender != userId && Dispatch(hs, orders[i], chunk[i]).err.Some?
  }

  /** How many events of the page are dispatched with an error. */
  function FailureCount(hs: map<HandlerId, Handler>, userId: string, chunk: seq<Event>, orders: seq<seq<HandlerId>>): nat
    requires OrdersFit(orders, chunk, hs)
    decreases |chunk|
  {
    if chunk == [] then 0
    else (if chunk[0].sender != userId && Dispatch(hs, orders[0], chunk[0]).err.Some? then 1 else 0)
         + FailureCount(hs, userId, chunk[1..], orders[1..])
  }

  // ---------------------------------------------------------------------
  // Configuration and registry
  // ---------------------------------------------------------------------

  /** Checking the configuration the caller is left with gives the same result again. */
  lemma CheckConfigurationStable(c: Option<Configuration>)
    requires CheckConfiguration(c).Success?
    ensures CheckConfiguration(Some(CheckConfiguration(c).value)) == CheckConfiguration(c)
  {
  }

  // ---------------------------------------------------------------------
  // Dispatch of one event
  // ---------------------------------------------------------------------

  /** Matching keeps exactly the matching handlers of `order`. */
  lemma {:induction false} MatchingMembers(hs: map<HandlerId, Handler>, order: seq<HandlerId>, e: Event)
    requires InRegistry(order, hs)
    ensures forall id :: id in Matching(hs, order, e) <==> id in order && id in hs && hs[id].matches(e)
  {
    if order != [] {
      assert InRegistry(order[1..], hs);
      MatchingMembers(hs, order[1..], e);
      assert forall id :: id in order <==> id == order[0] || id in order[1..];
    }
  }

  /** In an order without repetitions, Matching lists each matching handler exactly once. */
  lemma {:induction false} MatchingCount(hs: map<HandlerId, Handler>, order: seq<HandlerId>, e: Event)
    requires InRegistry(order, hs) && Distinct(order)
    ensures forall id :: multiset(Matching(hs, order, e))[id] == if id in order && id in hs && hs[id].matches(e) then 1 else 0
  {
    if order != [] {
      var x, rest := order[0], order[1..];
      assert InRegistry(rest, hs);
      assert Distinct(rest) by {
        forall i, j | 0 <= i < j < |rest| ensures rest[i] != rest[j] {
          assert rest[i] == order[i + 1] && rest[j] == order[j + 1];
        }
      }
      MatchingCount(hs, rest, e);
      assert x !in rest by {
        forall k | 0 <= k < |rest| ensures rest[k] != x {
          assert rest[k] == order[k + 1];
        }
      }
      assert forall id :: id in order <==> id == x || id in rest;
      var pre: seq<HandlerId> := if hs[x].matches(e) then [x] else [];
      assert Matching(hs, order, e) == pre + Matching(hs, rest, e);
      assert multiset(Matching(hs, order, e)) == multiset(pre) + multiset(Matching(hs, rest, e));
    }
  }

  /**
   * Dispatch returns nil exactly when no handler of `order` fails, and then
   * it has fired every matching handler, in order.
   */
  lemma {:induction false} DispatchSucceedsIffNoFailure(hs: map<HandlerId, Handler>, order: seq<HandlerId>, e: Event)
    requires InRegistry(order, hs)
    ensures Dispatch(hs, order, e).err.None? <==> forall i :: 0 <= i < |order| ==> !Fails(hs, order[i], e)
    ensures Dispatch(hs, order, e).err.None? ==> Dispatch(hs, order, e).fired == Matching(hs, order, e)
  {
    if order != [] {
      var rest := order[1..];
      assert InRegistry(rest, hs);
      DispatchSucceedsIffNoFailure(hs, rest, e);
      assert forall i :: 1 <= i < |order| ==> order[i] == rest[i - 1];
      assert (forall i :: 0 <= i < |order| ==> !Fails(hs, order[i], e))
         <==> !Fails(hs, order[0], e) && forall i :: 0 <= i < |rest| ==> !Fails(hs, rest[i], e);
    }
  }

  /**
   * When `order[j]` is the first failing handler, Dispatch returns its error
   * having fired the matching handlers before it and then it, and no handler
   * after it.
   */
  lemma {:induction false} DispatchReturnsFirstFailure(hs: map<HandlerId, Handler>, order: seq<HandlerId>, e: Event, j: nat)
    requires InRegistry(order, hs)
    requires FirstFailure(hs, order, e, j)
    ensures Dispatch(hs, order, e).err == hs[order[j]].action(e)
    ensures Dispatch(hs, order, e).fired == Matching(hs, order[..j], e) + [order[j]]
  {
    assert order[..0] == [];
    if j > 0 {
      var x, rest := order[0], order[1..];
      assert InRegistry(rest, hs);
      assert !Fails(hs, x, e);
      assert FirstFailure(hs, rest, e, j - 1) by {
        forall i | 0 <= i < j - 1 ensures !Fails(hs, rest[i], e) {
          assert rest[i] == order[i + 1];
        }
      }
      DispatchReturnsFirstFailure(hs, rest, e, j - 1);
      assert order[..j][0] == x && order[..j][1..] == rest[..j - 1];
      assert InRegistry(order[..j], hs);
    }
  }

  /**
   * Only matching handlers are fired; when Dispatch returns an error, it is
   * the error of the last handler fired.
   */
  lemma {:induction false} DispatchFiresOnlyMatching(hs: map<HandlerId, Handler>, order: seq<HandlerId>, e: Event)
    requires InRegistry(order, hs)
    ensures forall k :: 0 <= k < |Dispatch(hs, order, e).fired| ==>
      var id := Dispatch(hs, order, e).fired[k]; id in order && id in hs && hs[id].matches(e)
    ensures Dispatch(hs, order, e).err.Some? ==>
      var fired := Dispatch(hs, order, e).fired;
      |fired| > 0 && fired[|fired| - 1] in hs && Dispatch(hs, order, e).err == hs[fired[|fired| - 1]].action(e)
  {
    if order != [] {
      var rest := order[1..];
      assert InRegistry(rest, hs);
      DispatchFiresOnlyMatching(hs, rest, e);
    }
  }

  /**
   * For any iteration order: HandleEvent returns nil exactly when no
   * registered handler fails, and then each matching handler has fired exactly
   * once and no other handler has.
   */
  lemma DispatchFiresEachMatchingOnce(hs: map<HandlerId, Handler>, order: seq<HandlerId>, e: Event)
    requires IsIterationOrder(order, hs)
    ensures Dispatch(hs, order, e).err.None? <==> forall id :: id in hs ==> !Fails(hs, id, e)
    ensures Dispatch(hs, order, e).err.None? ==>
      forall id :: multiset(Dispatch(hs, order, e).fired)[id] == if id in hs && hs[id].matches(e) then 1 else 0
  {
    DispatchSucceedsIffNoFailure(hs, order, e);
    MatchingCount(hs, order, e);
    assert (forall i :: 0 <= i < |order| ==> !Fails(hs, order[i], e)) <==> forall id :: id in hs ==> !Fails(hs, id, e);
  }

  /** Whether HandleEvent fails, and which handlers fire when it does not, is independent of the iteration order. */
  lemma DispatchOrderIndependent(hs: map<HandlerId, Handler>, order1: seq<HandlerId>, order2: seq<HandlerId>, e: Event)
    requires IsIterationOrder(order1, hs) && IsIterationOrder(order2, hs)
    ensures Dispatch(hs, order1, e).err.None? <==> Dispatch(hs, order2, e).err.None?
    ensures Dispatch(hs, order1, e).err.None? ==>
      multiset(Dispatch(hs, order1, e).fired) == multiset(Dispatch(hs, order2, e).fired)
  {
    DispatchFiresEachMatchingOnce(hs, order1, e);
    DispatchFiresEachMatchingOnce(hs, order2, e);
  }

  // ---------------------------------------------------------------------
  // One page of the polling loop
  // ---------------------------------------------------------------------

  /** NonSelf keeps exactly the events of the page that the bot did not send. */
  lemma {:induction false} NonSelfMembers(chunk: seq<Event>, userId: string)
    ensures forall ev :: ev in NonSelf(chunk, userId) <==> ev in chunk && ev.sender != userId
  {
    if chunk != [] {
      NonSelfMembers(chunk[1..], userId);
      assert forall ev :: ev in chunk <==> ev == chunk[0] || ev in chunk[1..];
    }
  }

  /**
   * An event of the bot's own is never handed to HandleEvent. Unless the
   * goroutine blocks, the events handed to it are exactly the page's events
   * not sent by the bot, in page order.
   */
  lemma {:induction false} DispatchChunkSkipsSelf(hs: map<HandlerId, Handler>, userId: string, chunk: seq<Event>,
                                                  orders: seq<seq<HandlerId>>, errorSent: bool)
    requires OrdersFit(orders, chunk, hs)
    ensures forall ev :: ev in DispatchChunk(hs, userId, chunk, orders, errorSent).dispatched ==> ev in chunk && ev.sender != userId
    ensures !DispatchChunk(hs, userId, chunk, orders, errorSent).blocked ==>
      DispatchChunk(hs, userId, chunk, orders, errorSent).dispatched == NonSelf(chunk, userId)
  {
    if chunk != [] {
      assert OrdersFit(orders[1..], chunk[1..], hs);
      DispatchChunkSkipsSelf(hs, userId, chunk[1..], orders[1..], errorSent);
      DispatchChunkSkipsSelf(hs, userId, chunk[1..], orders[1..], true);
      assert forall ev :: ev in chunk[1..] ==> ev in chunk;
    }
  }

  /**
   * Once Run has received an error, no page reports another. Before that, a
   * page reports an error exactly when the dispatch of one of its non-self
   * events fails. A page blocks only once an error has been reported.
   */
  lemma {:induction false} DispatchChunkReportsIffFailure(hs: map<HandlerId, Handler>, userId: string, chunk: seq<Event>,
                                                          orders: seq<seq<HandlerId>>, errorSent: bool)
    requires OrdersFit(orders, chunk, hs)
    ensures errorSent ==> DispatchChunk(hs, userId, chunk, orders, errorSent).reported.None?
    ensures !errorSent ==> (DispatchChunk(hs, userId, chunk, orders, errorSent).reported.None? <==>
      forall i :: 0 <= i < |chunk| ==> !EventFails(hs, userId, chunk, orders, i))
    ensures DispatchChunk(hs, userId, chunk, orders, errorSent).blocked ==>
      errorSent || DispatchChunk(hs, userId, chunk, orders, errorSent).reported.Some?
  {
    if chunk != [] {
      assert OrdersFit(orders[1..], chunk[1..], hs);
      DispatchChunkReportsIffFailure(hs, userId, chunk[1..], orders[1..], errorSent);
      DispatchChunkReportsIffFailure(hs, userId, chunk[1..], orders[1..], true);
      forall i | 1 <= i < |chunk|
        ensures EventFails(hs, userId, chunk, orders, i) <==> EventFails(hs, userId, chunk[1..], orders[1..], i - 1)
      {
        assert chunk[1..][i - 1] == chunk[i] && orders[1..][i - 1] == orders[i];
      }
      var restNone := forall i :: 0 <= i < |chunk| - 1 ==> !EventFails(hs, userId, chunk[1..], orders[1..], i);
      var allNone := forall i :: 0 <= i < |chunk| ==> !EventFails(hs, userId, chunk, orders, i);
      if restNone && !EventFails(hs, userId, chunk, orders, 0) {
        forall i | 0 < i < |chunk| ensures !EventFails(hs, userId, chunk, orders, i) {
          assert !EventFails(hs, userId, chunk[1..], orders[1..], i - 1);
        }
      }
      if allNone {
        forall i | 0 <= i < |chunk| - 1 ensures !EventFails(hs, userId, chunk[1..], orders[1..], i) {
          assert !EventFails(hs, userId, chunk, orders, i + 1);
        }
      }
      assert allNone <==> restNone && !EventFails(hs, userId, chunk, orders, 0);
    }
  }

  /** Before Run has received an error, the error a page reports is that of its first non-self event whose dispatch fails. */
  lemma {:induction false} DispatchChunkReportsFirstFailure(hs: map<HandlerId, Handler>, userId: string, chunk: seq<Event>,
                                                            orders: seq<seq<HandlerId>>, i: nat)
    requires OrdersFit(orders, chunk, hs)
    requires EventFails(hs, userId, chunk, orders, i)
    requires forall j :: 0 <= j < i ==> !EventFails(hs, userId, chunk, orders, j)
    ensures DispatchChunk(hs, userId, chunk, orders, false).reported == Dispatch(hs, orders[i], chunk[i]).err
  {
    if i > 0 {
      assert OrdersFit(orders[1..], chunk[1..], hs);
      assert !EventFails(hs, userId, chunk, orders, 0);
      forall j | 0 <= j < i - 1 ensures !EventFails(hs, userId, chunk[1..], orders[1..], j) {
        assert !EventFails(hs, userId, chunk, orders, j + 1);
      }
      DispatchChunkReportsFirstFailure(hs, userId, chunk[1..], orders[1..], i - 1);
    }
  }

  /**
   * The goroutine blocks on a page exactly when that page's failing events,
   * together with an error Run has already received, make at least two
   * sends.
   */
  lemma {:induction false} DispatchChunkBlocksIffSecondFailure(hs: map<HandlerId, Handler>, userId: string, chunk: seq<Event>,
                                                               orders: seq<seq<HandlerId>>, errorSent: bool)
    requires OrdersFit(orders, chunk, hs)
    ensures DispatchChunk(hs, userId, chunk, orders, errorSent).blocked <==>
      FailureCount(hs, userId, chunk, orders) + (if errorSent then 1 else 0) >= 2
  {
    if chunk != [] {
      assert OrdersFit(orders[1..], chunk[1..], hs);
      DispatchChunkBlocksIffSecondFailure(hs, userId, chunk[1..], orders[1..], errorSent);
      DispatchChunkBlocksIffSecondFailure(hs, userId, chunk[1..], orders[1..], true);
    }
  }

  /**
   * When the j-th event makes the second send, the goroutine blocks there:
   * the events handed to HandleEvent are the non-self events up to and
   * including it, and none after it.
   */
  lemma {:induction false} DispatchChunkBlocksAt(hs: map<HandlerId, Handler>, userId: string, chunk: seq<Event>,
                                                 orders: seq<seq<HandlerId>>, errorSent: bool, j: nat)
    requires OrdersFit(orders, chunk, hs)
    requires EventFails(hs, userId, chunk, orders, j)
    requires OrdersFit(orders[..j], chunk[..j], hs)
    requires FailureCount(hs, userId, chunk[..j], orders[..j]) + (if errorSent then 1 else 0) == 1
    ensures DispatchChunk(hs, userId, chunk, orders, errorSent).blocked
    ensures DispatchChunk(hs, userId, chunk, orders, errorSent).dispatched == NonSelf(chunk[..j + 1], userId)
  {
    assert chunk[..j + 1][1..] == chunk[1..][..j];
    if j == 0 {
      assert chunk[..1] == [chunk[0]];
    } else {
      assert OrdersFit(orders[1..], chunk[1..], hs);
      assert chunk[..j][1..] == chunk[1..][..j - 1] && orders[..j][1..] == orders[1..][..j - 1];
      assert chunk[1..][j - 1] == chunk[j] && orders[1..][j - 1] == orders[j];
      assert OrdersFit(orders[1..][..j - 1], chunk[1..][..j - 1], hs);
      var sent := errorSent || (chunk[0].sender != userId && Dispatch(hs, orders[0], chunk[0]).err.Some?);
      DispatchChunkBlocksAt(hs, userId, chunk[1..], orders[1..], sent, j - 1);
    }
  }

  // ---------------------------------------------------------------------
  // The polling loop over several pages
  // ---------------------------------------------------------------------

  /** The error Run receives comes from the first page that reports one. */
  lemma {:induction false} RunPagesReportsEarliestPage(hs: map<HandlerId, Handler>, userId: string, pages: seq<Messages>,
                                                       orders: seq<seq<seq<HandlerId>>>, k: nat)
    requires PagesFit(pages, orders, hs)
    requires k < |pages| && DispatchChunk(hs, userId, pages[k].chunk, orders[k], false).reported.Some?
    requires forall j :: 0 <= j < k ==> DispatchChunk(hs, userId, pages[j].chunk, orders[j], false).reported.None?
    ensures RunPages(hs, userId, pages, orders, false).reported == DispatchChunk(hs, userId, pages[k].chunk, orders[k], false).reported
  {
    if k > 0 {
      assert PagesFit(pages[1..], orders[1..], hs);
      DispatchChunkReportsIffFailure(hs, userId, pages[0].chunk, orders[0], false);
      EarlierPagesShift(hs, userId, pages, orders, k);
      RunPagesReportsEarliestPage(hs, userId, pages[1..], orders[1..], k - 1);
    }
  }

  /** The hypotheses of RunPagesReportsEarliestPage carry over to the pages after the first. */
  lemma EarlierPagesShift(hs: map<HandlerId, Handler>, userId: string, pages: seq<Messages>,
                          orders: seq<seq<seq<HandlerId>>>, k: nat)
    requires PagesFit(pages, orders, hs) && 0 < k < |pages|
    requires forall j :: 0 <= j < k ==> DispatchChunk(hs, userId, pages[j].chunk, orders[j], false).reported.None?
    ensures PagesFit(pages[1..], orders[1..], hs)
    ensures forall j :: 0 <= j < k - 1 ==> DispatchChunk(hs, userId, pages[1..][j].chunk, orders[1..][j], false).reported.None?
  {
    forall j | 0 <= j < k - 1
      ensures DispatchChunk(hs, userId, pages[1..][j].chunk, orders[1..][j], false).reported.None?
    {
      assert pages[1..][j] == pages[j + 1] && orders[1..][j] == orders[j + 1];
    }
  }

  /** Run receives no error from the polling loop exactly when no page reports one. */
  lemma {:induction false} RunPagesNoneIffNoPageReports(hs: map<HandlerId, Handler>, userId: string, pages: seq<Messages>,
                                                        orders: seq<seq<seq<HandlerId>>>)
    requires PagesFit(pages, orders, hs)
    ensures RunPages(hs, userId, pages, orders, false).reported.None? <==>
      forall k :: 0 <= k < |pages| ==> DispatchChunk(hs, userId, pages[k].chunk, orders[k], false).reported.None?
  {
    if pages != [] {
      assert PagesFit(pages[1..], orders[1..], hs);
      DispatchChunkReportsIffFailure(hs, userId, pages[0].chunk, orders[0], false);
      RunPagesNoneIffNoPageReports(hs, userId, pages[1..], orders[1..]);
      assert forall k :: 1 <= k < |pages| ==> pages[k] == pages[1..][k - 1] && orders[k] == orders[1..][k - 1];
    }
  }

  /**
   * The goroutine fetches every page unless it blocks, and it blocks only
   * after Run has received an error: Run never waits on a blocked
   * goroutine.
   */
  lemma {:induction false} RunPagesBlocksOnlyAfterReport(hs: map<HandlerId, Handler>, userId: string, pages: seq<Messages>,
                                                         orders: seq<seq<seq<HandlerId>>>, errorSent: bool)
    requires PagesFit(pages, orders, hs)
    ensures RunPages(hs, userId, pages, orders, errorSent).fetched <= |pages|
    ensures !RunPages(hs, userId, pages, orders, errorSent).blocked ==> RunPages(hs, userId, pages, orders, errorSent).fetched == |pages|
    ensures RunPages(hs, userId, pages, orders, errorSent).blocked ==>
      errorSent || RunPages(hs, userId, pages, orders, errorSent).reported.Some?
  {
    if pages != [] {
      assert PagesFit(pages[1..], orders[1..], hs);
      DispatchChunkReportsIffFailure(hs, userId, pages[0].chunk, orders[0], errorSent);
      var p := DispatchChunk(hs, userId, pages[0].chunk, orders[0], errorSent);
      RunPagesBlocksOnlyAfterReport(hs, userId, pages[1..], orders[1..], errorSent || p.reported.Some?);
    }
  }
}

/**
 * The bot of the `neo` framework (bot.go): configuration checking, the
 * handler registry, event dispatch and one page of the polling loop.
 *
 * The chat client, the logger and the scheduler are not modelled: what the
 * client would fetch (a page of events) and what Go's map iteration would
 * choose (the order in which handlers are visited) are parameters.
 */
module Neo {
  import opened Wrappers

  /** The identifier `React` draws for a handler (a UUID in the source). */
  type HandlerId = nat

  /** A pagination token of the room timeline (`NextBatch`, `End`). */
  type Token = string

  /** Go's `time.Duration`: a signed 64-bit count of nanoseconds. */
  newtype Duration = x: int | -0x8000_0000_0000_0000 <= x < 0x8000_0000_0000_0000

  const Second: Duration := 1_000_000_000

  /** The polling interval a configuration without one is given. */
  const DefaultPollingInterval: Duration := 10 * Second

  /** An error value; handlers return arbitrary ones. */
  datatype Error = Error(message: string)

  /** The error `NewBot` returns for an incomplete configuration. */
  const ConfigurationError := Error("Configuration must at least include: HomeServer, AccessToken and UserID")

  /** The parts of a chat event that the bot itself looks at or passes on. */
  datatype Event = Event(sender: string, roomId: string, body: string)

  /**
   * A registered (MatchFunc, HandlerFunc) pair. A handler sees the event
   * through its Context; here it sees the event itself, and its outcome is
   * `None` for a nil error.
   */
  datatype Handler = Handler(matches: Event -> bool, action: Event -> Option<Error>)

  /** One page returned by the client's `Messages` call. */
  datatype Messages = Messages(chunk: seq<Event>, end: Token)

  /** The caller's configuration (the logger is not modelled). */
  datatype Configuration = Configuration(
    homeServer: string,
    userId: string,
    accessToken: string,
    pollingInterval: Duration)

  // ---------------------------------------------------------------------
  // Configuration
  // ---------------------------------------------------------------------

  /** A configuration `NewBot` accepts: present, with the three required fields set. */
  predicate HasRequiredFields(c: Option<Configuration>)
  {
    c.Some? && c.value.homeServer != "" && c.value.accessToken != "" && c.value.userId != ""
  }

  /** The configuration after `NewBot` has filled in a zero polling interval. */
  function WithDefaultInterval(c: Configuration): (d: Configuration)
    ensures d.homeServer == c.homeServer && d.userId == c.userId && d.accessToken == c.accessToken
    ensures d.pollingInterval != 0
    ensures c.pollingInterval != 0 ==> d == c
    ensures c.pollingInterval == 0 ==> d.pollingInterval == DefaultPollingInterval
  {
    if c.pollingInterval == 0 then c.(pollingInterval := DefaultPollingInterval) else c
  }

  /**
   * What `NewBot` makes of a configuration: the configuration error, or the
   * configuration with its interval defaulted.
   */
  function CheckConfiguration(c: Option<Configuration>): (r: Result<Configuration, Error>)
    ensures r.Failure? <==> (c.None? || c.value.homeServer == "" || c.value.accessToken == "" || c.value.userId == "")
    ensures r.Failure? ==> r.error == ConfigurationError
    ensures r.Success? ==> r.value.pollingInterval != 0
    ensures r.Success? && c.value.pollingInterval != 0 ==> r.value == c.value
    ensures r.Success? && c.value.pollingInterval == 0 ==>
      r.value == c.value.(pollingInterval := DefaultPollingInterval)
  {
    if HasRequiredFields(c) then Success(WithDefaultInterval(c.value)) else Failure(ConfigurationError)
  }

  /**
   * NewBot. The source writes the defaulted interval back into the caller's
   * configuration; `caller` is that configuration after the call.
   */
  method NewBot(c: Option<Configuration>) returns (r: Result<Bot, Error>, caller: Option<Configuration>)
    ensures r.Failure? <==> !HasRequiredFields(c)
    ensures r.Failure? ==> r.error == ConfigurationError && caller == c
    ensures r.Success? ==>
      && caller == Some(WithDefaultInterval(c.value))
      && fresh(r.value)
      && r.value.handlers == map[]
      && r.value.userId == c.value.userId
      && r.value.interval == caller.value.pollingInterval
  {
    var checked := CheckConfiguration(c);
    if checked.Failure? {
      return Failure(checked.error), c;
    }
    caller := Some(checked.value);
    var b := new Bot(checked.value.userId, checked.value.pollingInterval);
    r := Success(b);
  }

  // ---------------------------------------------------------------------
  // Dispatch, as a specification
  // ---------------------------------------------------------------------

  /** Every identifier of `order` is registered in `hs`. */
  predicate InRegistry(order: seq<HandlerId>, hs: map<HandlerId, Handler>)
  {
    forall i :: 0 <= i < |order| ==> order[i] in hs
  }

  /** No identifier occurs twice in `s`. */
  predicate Distinct(s: seq<HandlerId>)
  {
    forall i, j :: 0 <= i < j < |s| ==> s[i] != s[j]
  }

  /** `order` is one way Go's `range` may walk the map: each key exactly once. */
  predicate IsIterationOrder(order: seq<HandlerId>, hs: map<HandlerId, Handler>)
  {
    InRegistry(order, hs) && Distinct(order) && forall id :: id in hs ==> id in order
  }

  /** The result of dispatching one event: the error returned and the handlers fired, in firing order. */
  datatype Outcome = Outcome(err: Option<Error>, fired: seq<HandlerId>)

  /** `o` preceded by the firing of `prefix`. */
  function AfterFiring(prefix: seq<HandlerId>, o: Outcome): Outcome
  {
    Outcome(o.err, prefix + o.fired)
  }

  /**
   * HandleEvent over the handlers visited in `order`: fire each handler whose
   * predicate holds of `e`; stop at the first one that returns an error.
   */
  function Dispatch(hs: map<HandlerId, Handler>, order: seq<HandlerId>, e: Event): Outcome
    requires InRegistry(order, hs)
    decreases |order|
  {
    if order == [] then Outcome(None, [])
    else
      var h := hs[order[0]];
      if !h.matches(e) then Dispatch(hs, order[1..], e)
      else if h.action(e).Some? then Outcome(h.action(e), [order[0]])
      else AfterFiring([order[0]], Dispatch(hs, order[1..], e))
  }

  /** One visiting order per event of a page. */
  predicate OrdersFit(orders: seq<seq<HandlerId>>, chunk: seq<Event>, hs: map<HandlerId, Handler>)
  {
    |orders| == |chunk| && forall i :: 0 <= i < |orders| ==> InRegistry(orders[i], hs)
  }

  /** One map iteration order per event of a page. */
  predicate IterationOrders(orders: seq<seq<HandlerId>>, chunk: seq<Event>, hs: map<HandlerId, Handler>)
  {
    OrdersFit(orders, chunk, hs) && forall i :: 0 <= i < |orders| ==> IsIterationOrder(orders[i], hs)
  }

  /**
   * What one page does: the events handed to HandleEvent, the error sent to
   * the error channel that Run receives (at most one), and whether the
   * polling goroutine is left blocked on a send that nobody receives.
   */
  datatype PageOutcome = PageOutcome(dispatched: seq<Event>, reported: Option<Error>, blocked: bool)

  /** `a`, which did not block, followed by `b`. */
  function Then(a: PageOutcome, b: PageOutcome): PageOutcome
  {
    PageOutcome(a.dispatched + b.dispatched, FirstOf(a.reported, b.reported), b.blocked)
  }

  /**
   * The loop over `msgs.Chunk` in Run: skip the bot's own events and
   * dispatch the others in page order (the i-th with `orders[i]`). An error
   * is sent on the unbuffered error channel. Run receives the first one and
   * returns; `errorSent` says that this has already happened. The loop does
   * not stop after a send, but the next send waits for a receiver forever,
   * so the goroutine blocks at the next failing event.
   */
  function DispatchChunk(hs: map<HandlerId, Handler>, userId: string, chunk: seq<Event>,
                         orders: seq<seq<HandlerId>>, errorSent: bool): PageOutcome
    requires OrdersFit(orders, chunk, hs)
    decreases |chunk|
  {
    if chunk == [] then PageOutcome([], None, false)
    else if chunk[0].sender == userId then DispatchChunk(hs, userId, chunk[1..], orders[1..], errorSent)
    else
      var err := Dispatch(hs, orders[0], chunk[0]).err;
      if err.None? then Then(PageOutcome([chunk[0]], None, false), DispatchChunk(hs, userId, chunk[1..], orders[1..], errorSent))
      else if errorSent then PageOutcome([chunk[0]], None, true)
      else Then(PageOutcome([chunk[0]], err, false), DispatchChunk(hs, userId, chunk[1..], orders[1..], true))
  }

  /** Then is associative. */
  lemma ThenAssociative(a: PageOutcome, b: PageOutcome, c: PageOutcome)
    ensures Then(a, Then(b, c)) == Then(Then(a, b), c)
  {
    assert a.dispatched + (b.dispatched + c.dispatched) == (a.dispatched + b.dispatched) + c.dispatched;
  }

  /** DispatchChunk on the page from position `i`, unfolded by one event. */
  lemma DispatchChunkFrom(hs: map<HandlerId, Handler>, userId: string, chunk: seq<Event>,
                          orders: seq<seq<HandlerId>>, errorSent: bool, i: nat)
    requires OrdersFit(orders, chunk, hs) && i < |chunk|
    ensures OrdersFit(orders[i..], chunk[i..], hs) && OrdersFit(orders[i + 1..], chunk[i + 1..], hs)
    ensures var rest := DispatchChunk(hs, userId, chunk[i + 1..], orders[i + 1..], errorSent);
      DispatchChunk(hs, userId, chunk[i..], orders[i..], errorSent) ==
        if chunk[i].sender == userId then rest
        else if Dispatch(hs, orders[i], chunk[i]).err.None? then Then(PageOutcome([chunk[i]], None, false), rest)
        else if errorSent then PageOutcome([chunk[i]], None, true)
        else Then(PageOutcome([chunk[i]], Dispatch(hs, orders[i], chunk[i]).err, false),
                  DispatchChunk(hs, userId, chunk[i + 1..], orders[i + 1..], true))
  {
    assert chunk[i..][1..] == chunk[i + 1..];
    assert orders[i..][1..] == orders[i + 1..];
  }

  /** The `from` token of the fetch after `msgs`: unchanged after an empty page. */
  function NextCursor(from: Token, msgs: Messages): Token
  {
    if msgs.chunk == [] then from else msgs.end
  }

  /** Every page comes with one visiting order per event. */
  predicate PagesFit(pages: seq<Messages>, orders: seq<seq<seq<HandlerId>>>, hs: map<HandlerId, Handler>)
  {
    |orders| == |pages| && forall k :: 0 <= k < |pages| ==> OrdersFit(orders[k], pages[k].chunk, hs)
  }

  /**
   * What the polling goroutine does with a run of pages: how many it
   * fetches, the error Run receives, and whether it ends blocked on a send.
   */
  datatype RunOutcome = RunOutcome(fetched: nat, reported: Option<Error>, blocked: bool)

  /**
   * The polling goroutine over `pages`, given whether Run has already
   * received an error. A page that blocks is the last one fetched.
   */
  function RunPages(hs: map<HandlerId, Handler>, userId: string, pages: seq<Messages>,
                    orders: seq<seq<seq<HandlerId>>>, errorSent: bool): RunOutcome
    requires PagesFit(pages, orders, hs)
    decreases |pages|
  {
    if pages == [] then RunOutcome(0, None, false)
    else
      var p := DispatchChunk(hs, userId, pages[0].chunk, orders[0], errorSent);
      if p.blocked then RunOutcome(1, p.reported, true)
      else
        var r := RunPages(hs, userId, pages[1..], orders[1..], errorSent || p.reported.Some?);
        RunOutcome(1 + r.fetched, FirstOf(p.reported, r.reported), r.blocked)
  }

  /** RunPages on the pages from position `k`, unfolded by one page. */
  lemma RunPagesFrom(hs: map<HandlerId, Handler>, userId: string, pages: seq<Messages>,
                     orders: seq<seq<seq<HandlerId>>>, errorSent: bool, k: nat)
    requires PagesFit(pages, orders, hs) && k < |pages|
    ensures PagesFit(pages[k..], orders[k..], hs) && PagesFit(pages[k + 1..], orders[k + 1..], hs)
    ensures var p := DispatchChunk(hs, userId, pages[k].chunk, orders[k], errorSent);
      RunPages(hs, userId, pages[k..], orders[k..], errorSent) ==
        if p.blocked then RunOutcome(1, p.reported, true)
        else AfterPages(1, p.reported, RunPages(hs, userId, pages[k + 1..], orders[k + 1..], errorSent || p.reported.Some?))
  {
    assert pages[k..][1..] == pages[k + 1..];
    assert orders[k..][1..] == orders[k + 1..];
  }

  /**
   * One step of the polling loop: after `k` pages that did not block and
   * reported `reported`, the outcome of the run is settled by page `k`
   * when it blocks, and otherwise by the pages after it.
   */
  lemma RunPagesStep(hs: map<HandlerId, Handler>, userId: string, pages: seq<Messages>,
                     orders: seq<seq<seq<HandlerId>>>, k: nat, reported: Option<Error>)
    requires PagesFit(pages, orders, hs) && k < |pages|
    ensures PagesFit(pages[k..], orders[k..], hs) && PagesFit(pages[k + 1..], orders[k + 1..], hs)
    ensures var p := DispatchChunk(hs, userId, pages[k].chunk, orders[k], reported.Some?);
      var now := FirstOf(reported, p.reported);
      AfterPages(k, reported, RunPages(hs, userId, pages[k..], orders[k..], reported.Some?)) ==
        if p.blocked then RunOutcome(k + 1, now, true)
        else AfterPages(k + 1, now, RunPages(hs, userId, pages[k + 1..], orders[k + 1..], now.Some?))
  {
    RunPagesFrom(hs, userId, pages, orders, reported.Some?, k);
  }

  // ---------------------------------------------------------------------
  // The bot
  // ---------------------------------------------------------------------

  /** A Bot: its own user id (the client's), its polling interval and its handler registry. */
  class Bot {
    const userId: string
    const interval: Duration
    var handlers: map<HandlerId, Handler>

    /** A bot with an empty registry. */
    constructor (userId: string, interval: Duration)
      ensures this.userId == userId && this.interval == interval
      ensures handlers == map[]
    {
      this.userId := userId;
      this.interval := interval;
      handlers := map[];
    }

    /** React: register `Handler(m, h)` under the fresh identifier `hid`. */
    method React(hid: HandlerId, m: Event -> bool, h: Event -> Option<Error>)
      requires hid !in handlers
      modifies this
      ensures handlers == old(handlers)[hid := Handler(m, h)]
      ensures handlers.Keys == old(handlers).Keys + {hid}
      ensures forall id :: id in old(handlers) ==> handlers[id] == old(handlers)[id]
    {
      handlers := handlers[hid := Handler(m, h)];
    }

    /**
     * HandleEvent, with the registry walked in `order`. Returns the first
     * handler error (None for nil) and the handlers fired.
     */
    method HandleEvent(e: Event, order: seq<HandlerId>) returns (err: Option<Error>, fired: seq<HandlerId>)
      requires IsIterationOrder(order, handlers)
      ensures Outcome(err, fired) == Dispatch(handlers, order, e)
    {
      fired := [];
      var i := 0;
      while i < |order|
        invariant 0 <= i <= |order|
        invariant Dispatch(handlers, order, e) == AfterFiring(fired, Dispatch(handlers, order[i..], e))
      {
        assert order[i..][1..] == order[i + 1..];
        var hid := order[i];
        var h := handlers[hid];
        if h.matches(e) {
          fired := fired + [hid];
          var r := h.action(e);
          if r.Some? {
            return r, fired;
          }
        }
        i := i + 1;
      }
      err := None;
    }

    /**
     * One round of the polling loop, given the page `msgs` fetched from
     * `from` and whether Run has already received an error. An empty page
     * is skipped at once (no dispatch, no sleep). Otherwise the events not
     * sent by the bot are dispatched. If a send blocks, the round ends there:
     * the cursor stays and there is no pause. If not, the cursor moves to the
     * page's end and the loop pauses for the interval.
     */
    method PollPage(from: Token, msgs: Messages, orders: seq<seq<HandlerId>>, errorSent: bool)
      returns (next: Token, dispatched: seq<Event>, reported: Option<Error>, blocked: bool, pause: Option<Duration>)
      requires IterationOrders(orders, msgs.chunk, handlers)
      ensures PageOutcome(dispatched, reported, blocked) == DispatchChunk(handlers, userId, msgs.chunk, orders, errorSent)
      ensures msgs.chunk == [] ==> next == from && dispatched == [] && reported == None && !blocked && pause == None
      ensures !blocked ==> next == NextCursor(from, msgs)
      ensures msgs.chunk != [] && !blocked ==> next == msgs.end && pause == Some(interval)
      ensures blocked ==> next == from && pause == None
    {
      if msgs.chunk == [] {
        return from, [], None, false, None;
      }
      dispatched, reported, blocked := [], None, false;
      var i := 0;
      assert msgs.chunk[0..] == msgs.chunk && orders[0..] == orders;
      while i < |msgs.chunk|
        invariant 0 <= i <= |msgs.chunk|
        invariant errorSent ==> reported == None
        invariant DispatchChunk(handlers, userId, msgs.chunk, orders, errorSent)
               == Then(PageOutcome(dispatched, reported, false),
                       DispatchChunk(handlers, userId, msgs.chunk[i..], orders[i..], errorSent || reported.Some?))
      {
        ghost var sent := errorSent || reported.Some?;
        DispatchChunkFrom(handlers, userId, msgs.chunk, orders, sent, i);
        ghost var here := DispatchChunk(handlers, userId, msgs.chunk[i..], orders[i..], sent);
        var event := msgs.chunk[i];
        if event.sender != userId {
          var err, _ := HandleEvent(event, orders[i]);
          if err.Some? && (errorSent || reported.Some?) {
            // Run has already returned: this send never completes.
            assert here == PageOutcome([event], None, true);
            return from, dispatched + [event], reported, true, None;
          }
          ghost var rest := DispatchChunk(handlers, userId, msgs.chunk[i + 1..], orders[i + 1..], sent || err.Some?);
          assert here == Then(PageOutcome([event], err, false), rest);
          ThenAssociative(PageOutcome(dispatched, reported, false), PageOutcome([event], err, false), rest);
          dispatched := dispatched + [event];
          reported := FirstOf(reported, err);
        } else {
          assert here == DispatchChunk(handlers, userId, msgs.chunk[i + 1..], orders[i + 1..], sent);
        }
        i := i + 1;
      }
      assert msgs.chunk[i..] == [] && orders[i..] == [];
      assert dispatched + [] == dispatched && FirstOf(reported, None) == reported;
      next, pause := msgs.end, Some(interval);
    }

    /**
     * The polling loop of Run over the pages it fetches, starting from the
     * initial sync token `start`. `froms[k]` is the token the k-th fetch
     * asks from, `reported` is the error Run receives, and `blocked` says
     * that the goroutine ended blocked on a send, after the last page in
     * `froms`.
     */
    method Poll(start: Token, pages: seq<Messages>, orders: seq<seq<seq<HandlerId>>>)
      returns (froms: seq<Token>, reported: Option<Error>, blocked: bool)
      requires PagesFit(pages, orders, handlers)
      requires forall k :: 0 <= k < |pages| ==> IterationOrders(orders[k], pages[k].chunk, handlers)
      ensures RunOutcome(|froms|, reported, blocked) == RunPages(handlers, userId, pages, orders, false)
      ensures |froms| <= |pages|
      ensures !blocked ==> |froms| == |pages|
      ensures |froms| > 0 ==> froms[0] == start
      ensures forall k :: 0 <= k < |froms| - 1 ==> froms[k + 1] == NextCursor(froms[k], pages[k])
    {
      froms, reported, blocked := [], None, false;
      var from := start;
      var k := 0;
      assert pages[0..] == pages && orders[0..] == orders;
      while k < |pages|
        invariant 0 <= k <= |pages|
        invariant |froms| == k
        invariant Chained(start, froms, pages)
        invariant from == (if k == 0 then start else NextCursor(froms[k - 1], pages[k - 1]))
        invariant RunPages(handlers, userId, pages, orders, false)
               == AfterPages(k, reported, RunPages(handlers, userId, pages[k..], orders[k..], reported.Some?))
      {
        RunPagesStep(handlers, userId, pages, orders, k, reported);
        ChainedExtend(start, froms, pages, from);
        froms := froms + [from];
        var next, _, err, pageBlocked, _ := PollPage(from, pages[k], orders[k], reported.Some?);
        if pageBlocked {
          return froms, FirstOf(reported, err), true;
        }
        reported := FirstOf(reported, err);
        from := next;
        k := k + 1;
      }
      assert pages[k..] == [] && orders[k..] == [];
    }
  }

  /** `froms` starts at `start`, and each later token is the cursor the page before it left. */
  ghost predicate Chained(start: Token, froms: seq<Token>, pages: seq<Messages>)
    requires |froms| <= |pages|
  {
    && (|froms| > 0 ==> froms[0] == start)
    && forall k :: 0 <= k < |froms| - 1 ==> froms[k + 1] == NextCursor(froms[k], pages[k])
  }

  lemma ChainedExtend(start: Token, froms: seq<Token>, pages: seq<Messages>, from: Token)
    requires |froms| < |pages| && Chained(start, froms, pages)
    requires from == if froms == [] then start else NextCursor(froms[|froms| - 1], pages[|froms| - 1])
    ensures Chained(start, froms + [from], pages)
  {
  }

  /** `r`, after `k` pages that did not block and reported `reported`. */
  function AfterPages(k: nat, reported: Option<Error>, r: RunOutcome): RunOutcome
  {
    RunOutcome(k + r.fetched, FirstOf(reported, r.reported), r.blocked)
  }
}

/**
 * The data-sync controller of the open-interest page
 * (src/app/open-interest/page.tsx): its five state variables, the live
 * polling interval, the two effects and the handlers that update the state.
 *
 * HTTP calls are not made: each request the page would send is appended to
 * `requests`, and each response arrives as its own event. The browser's timer
 * table is the sequence `timers`; an interval's callback captures the symbol
 * and market status of the render that created it. React runs the effects
 * whose dependencies changed after every state update ("commit"); the
 * dependencies each effect last ran with are kept so that this can be decided.
 *
 * The pure part (datatype Page, function Step) is the specification; the
 * class OpenInterestPage holds the same state in mutable fields and each of
 * its methods is proved to perform the corresponding step.
 */
module PageController {
  import opened Wrappers
  import opened ChartView

  /** A request the page sends to the API. */
  datatype Request =
    | StatusRequest                                     // GET /api/market-status
    | ChainRequest(symbol: string)                      // GET /api/nifty-options/{symbol}
    | ExpiryChainRequest(symbol: string, expiry: string) // GET /api/nifty-options/{symbol}/{expiry}

  /** A live `setInterval` registration and the values its callback captured. */
  datatype Timer = Timer(id: nat, symbol: string, marketOpen: bool)

  /** Rendered but effects not yet run; mounted and running; unmounted. */
  datatype Phase = Initial | Live | Unmounted

  datatype Page = Page(
    phase: Phase,
    data: Option<OpenInterestData>,
    selectedSymbol: string,
    expiryDates: seq<string>,
    selectedExpiry: string,
    isMarketOpen: bool,
    timers: seq<Timer>,
    intervalId: Option<nat>,
    nextTimerId: nat,
    pollingDeps: Option<(string, bool)>,
    expiryDeps: Option<(string, string)>,
    requests: seq<Request>)

  /** What can happen to a mounted page. */
  datatype Event =
    | Tick
    | StatusOk(isOpen: bool)
    | StatusFailed
    | ChainOk(payload: OpenInterestData)
    | ChainFailed
    | ExpiryChainOk(payload: OpenInterestData)
    | ExpiryChainFailed
    | SelectSymbol(symbol: string)
    | SelectExpiry(expiry: string)
    | Unmount

  /** `clearInterval(id)`: drop that registration from the timer table. */
  function ClearInterval(timers: seq<Timer>, id: nat): (rest: seq<Timer>)
    ensures forall t :: t in rest <==> t in timers && t.id != id
  {
    if timers == [] then []
    else (if timers[0].id == id then [] else [timers[0]]) + ClearInterval(timers[1..], id)
  }

  /** Clearing the only registered interval leaves none. */
  lemma ClearSole(t: Timer)
    ensures ClearInterval([t], t.id) == []
  {
    assert [t][1..] == [];
  }

  /** The five state variables of the page agree. */
  predicate SameView(p: Page, q: Page) {
    p.data == q.data && p.selectedSymbol == q.selectedSymbol && p.expiryDates == q.expiryDates
    && p.selectedExpiry == q.selectedExpiry && p.isMarketOpen == q.isMarketOpen
  }

  /** The first render: the initial values of the five `useState` hooks; no effect has run. */
  function InitialRender(): (p: Page)
    ensures Inv(p) && p.phase == Initial
    ensures p.data == None && p.selectedSymbol == "NIFTY" && p.expiryDates == []
    ensures p.selectedExpiry == "" && !p.isMarketOpen
    ensures p.requests == [] && p.timers == []
  {
    Page(Initial, None, "NIFTY", [], "", false, [], None, 0, None, None, [])
  }

  /**
   * The polling effect (deps: selectedSymbol, isMarketOpen). When a dependency
   * changed: clear the previous interval, check the status, fetch the chain,
   * and register one new interval capturing the current symbol and status.
   */
  function PollingEffect(p: Page): (q: Page)
    ensures q.pollingDeps == Some((p.selectedSymbol, p.isMarketOpen))
    ensures SameView(p, q) && q.expiryDeps == p.expiryDeps && q.phase == p.phase
    ensures q.requests == p.requests || q.requests == p.requests + [StatusRequest, ChainRequest(p.selectedSymbol)]
    ensures q.requests != p.requests && p.intervalId.Some? ==>
      && q.timers != []
      && forall t :: t in q.timers[..|q.timers| - 1] ==> t in p.timers && t.id != p.intervalId.value
    ensures q.requests != p.requests ==>
      && q.timers != [] && q.timers[|q.timers| - 1] == Timer(p.nextTimerId, p.selectedSymbol, p.isMarketOpen)
      && q.intervalId == Some(p.nextTimerId)
  {
    if p.pollingDeps == Some((p.selectedSymbol, p.isMarketOpen)) then p
    else
      var cleared := if p.intervalId.Some? then ClearInterval(p.timers, p.intervalId.value) else p.timers;
      p.(timers := cleared + [Timer(p.nextTimerId, p.selectedSymbol, p.isMarketOpen)],
         intervalId := Some(p.nextTimerId),
         nextTimerId := p.nextTimerId + 1,
         pollingDeps := Some((p.selectedSymbol, p.isMarketOpen)),
         requests := p.requests + [StatusRequest, ChainRequest(p.selectedSymbol)])
  }

  /** The expiry effect (deps: selectedExpiry, selectedSymbol): fetch for the expiry when one is selected. */
  function ExpiryEffect(p: Page): (q: Page)
    ensures q.expiryDeps == Some((p.selectedExpiry, p.selectedSymbol))
    ensures SameView(p, q) && q.timers == p.timers && q.intervalId == p.intervalId
    ensures q.pollingDeps == p.pollingDeps && q.phase == p.phase
    ensures q.requests == p.requests
         || (p.selectedExpiry != "" && q.requests == p.requests + [ExpiryChainRequest(p.selectedSymbol, p.selectedExpiry)])
  {
    if p.expiryDeps == Some((p.selectedExpiry, p.selectedSymbol)) then p
    else
      p.(expiryDeps := Some((p.selectedExpiry, p.selectedSymbol)),
         requests := p.requests
           + (if p.selectedExpiry != "" then [ExpiryChainRequest(p.selectedSymbol, p.selectedExpiry)] else []))
  }

  /** React's commit after a render: the effects run in declaration order. */
  function Commit(p: Page): (q: Page)
    ensures q.phase == Live && SameView(p, q)
    ensures q.pollingDeps == Some((p.selectedSymbol, p.isMarketOpen))
    ensures q.expiryDeps == Some((p.selectedExpiry, p.selectedSymbol))
    ensures p.requests <= q.requests
  {
    ExpiryEffect(PollingEffect(p)).(phase := Live)
  }

  /** The page right after it is first mounted. */
  function Mounted(): Page {
    Commit(InitialRender())
  }

  /** One event; a page that is not live ignores all of them. */
  function Step(p: Page, e: Event): (q: Page)
    ensures p.requests <= q.requests
    ensures q.selectedSymbol != p.selectedSymbol ==> e == SelectSymbol(q.selectedSymbol)
    ensures q.selectedExpiry != p.selectedExpiry ==> e.ChainOk? || e == SelectExpiry(q.selectedExpiry)
    ensures q.expiryDates != p.expiryDates ==> e.ChainOk?
    ensures q.isMarketOpen != p.isMarketOpen ==> e == StatusOk(q.isMarketOpen)
    ensures q.data != p.data ==> q.data.Some? && (e == ChainOk(q.data.value) || e == ExpiryChainOk(q.data.value))
    ensures e.StatusFailed? || e.ChainFailed? || e.ExpiryChainFailed? ==> q == p
  {
    if p.phase != Live then p
    else
      match e
      case Tick =>
        if p.timers == [] then p
        else
          var t := p.timers[0];
          p.(requests := p.requests + [StatusRequest] + (if t.marketOpen then [ChainRequest(t.symbol)] else []))
      case StatusOk(isOpen) => Commit(p.(isMarketOpen := isOpen))
      case StatusFailed => p
      case ChainOk(d) =>
        Commit(p.(data := Some(d), expiryDates := d.expiryDates.GetOr([]), selectedExpiry := d.selectedExpiry.GetOr("")))
      case ChainFailed => p
      case ExpiryChainOk(d) => Commit(p.(data := Some(d)))
      case ExpiryChainFailed => p
      case SelectSymbol(s) => Commit(p.(selectedSymbol := s))
      case SelectExpiry(x) => Commit(p.(selectedExpiry := x))
      case Unmount =>
        var rest := if p.intervalId.Some? then ClearInterval(p.timers, p.intervalId.value) else p.timers;
        p.(phase := Unmounted, timers := rest, intervalId := None)
  }

  /** The page after a sequence of events. */
  function Run(p: Page, events: seq<Event>): Page
    decreases |events|
  {
    if events == [] then p else Run(Step(p, events[0]), events[1..])
  }

  /**
   * The controller's invariant. While live: both effects are up to date with
   * the current state, and exactly one interval is registered, the one the
   * cleanup will clear, and it captured the current symbol and status. When not
   * live no interval is registered.
   */
  ghost predicate Inv(p: Page) {
    && (p.phase == Live ==>
          && p.pollingDeps == Some((p.selectedSymbol, p.isMarketOpen))
          && p.expiryDeps == Some((p.selectedExpiry, p.selectedSymbol))
          && p.intervalId == Some(p.nextTimerId - 1)
          && p.timers == [Timer(p.nextTimerId - 1, p.selectedSymbol, p.isMarketOpen)])
    && (p.phase != Live ==> p.timers == [] && p.intervalId == None)
    && (p.phase == Initial ==> p.pollingDeps == None && p.expiryDeps == None)
  }

  lemma MountedState()
    ensures var p := Mounted();
      && Inv(p) && p.phase == Live
      && p.data == None && p.selectedSymbol == "NIFTY" && p.expiryDates == []
      && p.selectedExpiry == "" && !p.isMarketOpen
      && p.requests == [StatusRequest, ChainRequest("NIFTY")]
      && |p.timers| == 1
  {
  }

  /** A commit from a state whose effects were up to date, or from the first render, restores the invariant. */
  lemma CommitRestoresInv(p: Page)
    requires p.phase == Initial ==> p.timers == [] && p.intervalId == None && p.pollingDeps == None && p.expiryDeps == None
    requires p.phase == Live ==> p.intervalId == Some(p.nextTimerId - 1) && |p.timers| == 1 && p.timers[0].id == p.nextTimerId - 1
    requires p.phase != Unmounted
    requires p.phase == Live && p.pollingDeps == Some((p.selectedSymbol, p.isMarketOpen)) ==>
               p.timers == [Timer(p.nextTimerId - 1, p.selectedSymbol, p.isMarketOpen)]
    ensures Inv(Commit(p))
  {
    if p.phase == Live {
      ClearSole(p.timers[0]);
      assert p.timers == [p.timers[0]];
    }
  }

  lemma StepPreservesInv(p: Page, e: Event)
    requires Inv(p)
    ensures Inv(Step(p, e))
  {
    if p.phase == Live {
      match e
      case StatusOk(b) => CommitRestoresInv(p.(isMarketOpen := b));
      case ChainOk(d) =>
        CommitRestoresInv(p.(data := Some(d), expiryDates := d.expiryDates.GetOr([]), selectedExpiry := d.selectedExpiry.GetOr("")));
      case ExpiryChainOk(d) => CommitRestoresInv(p.(data := Some(d)));
      case SelectSymbol(s) => CommitRestoresInv(p.(selectedSymbol := s));
      case SelectExpiry(x) => CommitRestoresInv(p.(selectedExpiry := x));
      case Unmount => ClearSole(p.timers[0]);
      case _ =>
    }
  }

  lemma {:induction false} RunPreservesInv(p: Page, events: seq<Event>)
    requires Inv(p)
    ensures Inv(Run(p, events))
    decreases |events|
  {
    if events != [] {
      StepPreservesInv(p, events[0]);
      RunPreservesInv(Step(p, events[0]), events[1..]);
    }
  }

  /** After any sequence of events, at most one interval is live. */
  lemma AtMostOneInterval(events: seq<Event>)
    ensures |Run(Mounted(), events).timers| <= 1
  {
    MountedState();
    RunPreservesInv(Mounted(), events);
  }

  /** A failed status check or fetch leaves the whole page as it was. */
  lemma FailuresChangeNothing(p: Page)
    ensures Step(p, StatusFailed) == p && Step(p, ChainFailed) == p && Step(p, ExpiryChainFailed) == p
  {
  }

  /**
   * A tick sends one status check, and a chain fetch for the selected symbol
   * only if the market was known to be open before this tick; nothing else
   * changes.
   */
  lemma TickRequests(p: Page)
    requires Inv(p) && p.phase == Live
    ensures Step(p, Tick) == p.(requests := p.requests + [StatusRequest]
                                 + (if p.isMarketOpen then [ChainRequest(p.selectedSymbol)] else []))
  {
  }

  /**
   * A new market status re-runs the polling effect only when it differs: the
   * old interval is cleared, one new interval is registered, and one status
   * check and one chain fetch are sent.
   */
  lemma StatusOkEffect(p: Page, isOpen: bool)
    requires Inv(p) && p.phase == Live
    ensures var q := Step(p, StatusOk(isOpen));
      && (isOpen == p.isMarketOpen ==> q == p)
      && (isOpen != p.isMarketOpen ==>
            && q.isMarketOpen == isOpen
            && q.data == p.data && q.selectedSymbol == p.selectedSymbol
            && q.expiryDates == p.expiryDates && q.selectedExpiry == p.selectedExpiry
            && q.timers == [Timer(p.nextTimerId, p.selectedSymbol, isOpen)]
            && p.timers[0].id != p.nextTimerId
            && q.requests == p.requests + [StatusRequest, ChainRequest(p.selectedSymbol)])
  {
    ClearSole(p.timers[0]);
  }

  /**
   * A successful chain fetch replaces the data, sets the expiry list and the
   * selected expiry from the payload (or their defaults), keeps the symbol,
   * status and interval, and sends one expiry fetch exactly when the selected
   * expiry changed to a non-empty value.
   */
  lemma ChainOkEffect(p: Page, d: OpenInterestData)
    requires Inv(p) && p.phase == Live
    ensures var q := Step(p, ChainOk(d));
      var x := d.selectedExpiry.GetOr("");
      && q.data == Some(d)
      && q.expiryDates == d.expiryDates.GetOr([])
      && q.selectedExpiry == x
      && q.selectedSymbol == p.selectedSymbol && q.isMarketOpen == p.isMarketOpen
      && q.timers == p.timers
      && q.requests == p.requests
           + (if x != p.selectedExpiry && x != "" then [ExpiryChainRequest(p.selectedSymbol, x)] else [])
  {
  }

  /** A successful expiry fetch replaces the data and nothing else, and sends nothing. */
  lemma ExpiryChainOkEffect(p: Page, d: OpenInterestData)
    requires Inv(p) && p.phase == Live
    ensures Step(p, ExpiryChainOk(d)) == p.(data := Some(d))
  {
  }

  /**
   * Selecting the current symbol changes nothing. Selecting another one sets
   * only the symbol, replaces the interval by one new interval, and sends a
   * status check, a chain fetch for the new symbol and, when an expiry is still
   * selected, a fetch of that expiry for the new symbol.
   */
  lemma SelectSymbolEffect(p: Page, s: string)
    requires Inv(p) && p.phase == Live
    ensures var q := Step(p, SelectSymbol(s));
      && (s == p.selectedSymbol ==> q == p)
      && (s != p.selectedSymbol ==>
            && q.selectedSymbol == s
            && q.data == p.data && q.expiryDates == p.expiryDates
            && q.selectedExpiry == p.selectedExpiry && q.isMarketOpen == p.isMarketOpen
            && q.timers == [Timer(p.nextTimerId, s, p.isMarketOpen)]
            && q.requests == p.requests + [StatusRequest, ChainRequest(s)]
                 + (if p.selectedExpiry != "" then [ExpiryChainRequest(s, p.selectedExpiry)] else []))
  {
    ClearSole(p.timers[0]);
  }

  /**
   * Selecting the current expiry changes nothing. Selecting another one sets
   * only the expiry, keeps the interval, and sends one expiry fetch when the
   * new expiry is non-empty.
   */
  lemma SelectExpiryEffect(p: Page, x: string)
    requires Inv(p) && p.phase == Live
    ensures var q := Step(p, SelectExpiry(x));
      && (x == p.selectedExpiry ==> q == p)
      && (x != p.selectedExpiry ==>
            && q == p.(selectedExpiry := x, expiryDeps := Some((x, p.selectedSymbol)),
                       requests := p.requests + (if x != "" then [ExpiryChainRequest(p.selectedSymbol, x)] else [])))
  {
  }

  /** Once unmounted, no interval is live and no event sends a request or changes the state. */
  lemma {:induction false} QuietAfterUnmount(p: Page, events: seq<Event>)
    requires Inv(p)
    ensures var u := Step(p, Unmount);
      u.timers == [] && Run(u, events) == u
    decreases |events|
  {
    var u := Step(p, Unmount);
    if p.phase == Live {
      ClearSole(p.timers[0]);
    }
    if events != [] {
      assert u.phase != Live;
      assert Step(u, events[0]) == u;
      QuietAfterUnmount(p, events[1..]);
    }
  }

  /**
   * The opening sequence: the mount sends a status check and a fetch for
   * NIFTY; when that fetch returns a server-chosen expiry, the page adopts it
   * and sends exactly one fetch for that expiry.
   */
  lemma ServerDefaultExpiryFetched(d: OpenInterestData, x: string)
    requires d.selectedExpiry == Some(x) && x != ""
    ensures Step(Mounted(), ChainOk(d)).selectedExpiry == x
    ensures Step(Mounted(), ChainOk(d)).requests
         == [StatusRequest, ChainRequest("NIFTY"), ExpiryChainRequest("NIFTY", x)]
  {
    MountedState();
    ChainOkEffect(Mounted(), d);
  }

  /** The page with its state in mutable fields; each method performs one step of the specification. */
  class OpenInterestPage {
    var phase: Phase
    var data: Option<OpenInterestData>
    var selectedSymbol: string
    var expiryDates: seq<string>
    var selectedExpiry: string
    var isMarketOpen: bool
    var timers: seq<Timer>
    var intervalId: Option<nat>
    var nextTimerId: nat
    var pollingDeps: Option<(string, bool)>
    var expiryDeps: Option<(string, string)>
    var requests: seq<Request>

    function Model(): Page
      reads this
    {
      Page(phase, data, selectedSymbol, expiryDates, selectedExpiry, isMarketOpen,
           timers, intervalId, nextTimerId, pollingDeps, expiryDeps, requests)
    }

    ghost predicate Valid()
      reads this
    {
      Inv(Model())
    }

    /** Render with the initial state, then run both effects for the first time. */
    constructor Mount()
      ensures Valid() && Model() == Mounted()
      ensures phase == Live && data == None && selectedSymbol == "NIFTY"
      ensures expiryDates == [] && selectedExpiry == "" && !isMarketOpen
      ensures requests == [StatusRequest, ChainRequest("NIFTY")] && |timers| == 1
    {
      phase := Initial;
      data := None;
      selectedSymbol := "NIFTY";
      expiryDates := [];
      selectedExpiry := "";
      isMarketOpen := false;
      timers := [];
      intervalId := None;
      nextTimerId := 0;
      pollingDeps := None;
      expiryDeps := None;
      requests := [];
      new;
      RunEffects();
      MountedState();
    }

    /** The polling effect, when its dependencies changed: cleanup of the previous run, then the new run. */
    method RunPollingEffect()
      modifies this
      ensures Model() == PollingEffect(old(Model()))
    {
      if pollingDeps != Some((selectedSymbol, isMarketOpen)) {
        if intervalId.Some? {
          timers := ClearInterval(timers, intervalId.value);
        }
        requests := requests + [StatusRequest, ChainRequest(selectedSymbol)];
        timers := timers + [Timer(nextTimerId, selectedSymbol, isMarketOpen)];
        intervalId := Some(nextTimerId);
        nextTimerId := nextTimerId + 1;
        pollingDeps := Some((selectedSymbol, isMarketOpen));
      }
    }

    /** The expiry effect, when its dependencies changed. */
    method RunExpiryEffect()
      modifies this
      ensures Model() == ExpiryEffect(old(Model()))
    {
      if expiryDeps != Some((selectedExpiry, selectedSymbol)) {
        if selectedExpiry != "" {
          requests := requests + [ExpiryChainRequest(selectedSymbol, selectedExpiry)];
        }
        expiryDeps := Some((selectedExpiry, selectedSymbol));
      }
    }

    /** The commit after a render: run the effects whose dependencies changed since they last ran. */
    method RunEffects()
      modifies this
      ensures Model() == Commit(old(Model()))
    {
      RunPollingEffect();
      RunExpiryEffect();
      phase := Live;
    }

    /** The interval fires: its callback uses the symbol and status it captured. */
    method Tick()
      requires Valid()
      modifies this
      ensures Valid() && Model() == Step(old(Model()), Event.Tick)
      ensures phase == Live ==>
        requests == old(requests) + [StatusRequest] + (if isMarketOpen then [ChainRequest(selectedSymbol)] else [])
    {
      if phase == Live && timers != [] {
        var t := timers[0];
        requests := requests + [StatusRequest];
        if t.marketOpen {
          requests := requests + [ChainRequest(t.symbol)];
        }
      }
      StepPreservesInv(old(Model()), Event.Tick);
    }

    /** `checkMarketStatus` received `{ is_open }`. */
    method StatusSucceeded(isOpen: bool)
      requires Valid()
      modifies this
      ensures Valid() && Model() == Step(old(Model()), StatusOk(isOpen))
    {
      if phase == Live {
        isMarketOpen := isOpen;
        RunEffects();
      }
      StepPreservesInv(old(Model()), StatusOk(isOpen));
    }

    /** `checkMarketStatus` failed: the error is logged and nothing changes. */
    method StatusFailed()
      requires Valid()
      ensures Valid() && Model() == Step(Model(), Event.StatusFailed)
    {
    }

    /** `fetchData` received a payload. */
    method ChainSucceeded(d: OpenInterestData)
      requires Valid()
      modifies this
      ensures Valid() && Model() == Step(old(Model()), ChainOk(d))
      ensures old(phase) == Live ==> data == Some(d) && isMarketOpen == old(isMarketOpen)
    {
      if phase == Live {
        data := Some(d);
        expiryDates := d.expiryDates.GetOr([]);
        selectedExpiry := d.selectedExpiry.GetOr("");
        RunEffects();
      }
      StepPreservesInv(old(Model()), ChainOk(d));
    }

    /** `fetchData` failed: the error is logged and nothing changes. */
    method ChainFailed()
      requires Valid()
      ensures Valid() && Model() == Step(Model(), Event.ChainFailed)
    {
    }

    /** `fetchDataForExpiry` received a payload: only the data is replaced. */
    method ExpiryChainSucceeded(d: OpenInterestData)
      requires Valid()
      modifies this
      ensures Valid() && Model() == Step(old(Model()), ExpiryChainOk(d))
    {
      if phase == Live {
        data := Some(d);
        RunEffects();
      }
      StepPreservesInv(old(Model()), ExpiryChainOk(d));
    }

    /** `fetchDataForExpiry` failed: the error is logged and nothing changes. */
    method ExpiryChainFailed()
      requires Valid()
      ensures Valid() && Model() == Step(Model(), Event.ExpiryChainFailed)
    {
    }

    /** `handleSymbolChange`. */
    method SelectSymbol(symbol: string)
      requires Valid()
      modifies this
      ensures Valid() && Model() == Step(old(Model()), Event.SelectSymbol(symbol))
    {
      if phase == Live {
        selectedSymbol := symbol;
        RunEffects();
      }
      StepPreservesInv(old(Model()), Event.SelectSymbol(symbol));
    }

    /** `handleExpiryChange`. */
    method SelectExpiry(expiry: string)
      requires Valid()
      modifies this
      ensures Valid() && Model() == Step(old(Model()), Event.SelectExpiry(expiry))
    {
      if phase == Live {
        selectedExpiry := expiry;
        RunEffects();
      }
      StepPreservesInv(old(Model()), Event.SelectExpiry(expiry));
    }

    /** The page leaves the screen: the polling effect's cleanup clears the interval. */
    method Unmount()
      requires Valid()
      modifies this
      ensures Valid() && Model() == Step(old(Model()), Event.Unmount)
      ensures timers == []
    {
      if phase == Live {
        if intervalId.Some? {
          timers := ClearInterval(timers, intervalId.value);
        }
        intervalId := None;
        phase := Unmounted;
      }
      StepPreservesInv(old(Model()), Event.Unmount);
    }
  }
}

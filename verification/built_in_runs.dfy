/** The five built-in strategies, end to end: in the replay loop and in the backtest engine. */
module BuiltInRuns {
  import opened Types
  import opened Portfolios
  import opened Brokers
  import opened Gateways
  import opened Histories
  import opened Strategies
  import opened BuiltIns
  import opened StrategyProperties
  import opened Thresholds
  import opened Runtimes
  import opened Agreement
  import opened Simulation
  import opened Backtests
  import Discipline
  import EngineRuns
  import Accounting

  /** A strategy object that decides as the built-in `b`, on distinct symbols and with a positive lot. */
  ghost predicate Decides(strategy: Strategy, b: BuiltIn) {
    && Configured(b) && Distinct(b.symbols) && b.quantity > 0
    && forall s :: strategy(s) == Decision(b, s)
  }

  lemma BuiltInIsDisciplined(strategy: Strategy, b: BuiltIn)
    requires Decides(strategy, b)
    ensures DisciplinedStrategy(strategy, b.quantity) && CommutingOrders(strategy)
  {
    forall s
      ensures Disciplined(strategy(s), HeldIn(s), b.quantity)
    {
      assert strategy(s) == Decision(b, s);
      BuiltInsAreDisciplined(b, s);
    }
  }

  /** Replay: after every tick the two books agree, every holding is zero or one lot, no fill was refused. */
  lemma BuiltInReplay(c: Config, b: BuiltIn, evs: seq<SimEvent>)
    requires Decides(c.strategy, b)
    requires FullSyncs(c, Runtime(FreshDesk(MockVenue(EMPTY_BOOK)), EMPTY_TAPE), evs)
    ensures var d := SimRun(c, Runtime(FreshDesk(MockVenue(EMPTY_BOOK)), EMPTY_TAPE), evs).desk;
      && d.exec.venue.MockVenue?
      && BooksAgree(d.exec.venue.book, d.portfolio)
      && (forall s :: Held(d.portfolio, s) == 0 || Held(d.portfolio, s) == b.quantity)
      && (forall i :: 0 <= i < |d.booked| ==> d.booked[i].accepted)
  {
    BuiltInIsDisciplined(c.strategy, b);
    FreshStart(c.prefix);
    TwoBookAgreement(c, Runtime(FreshDesk(MockVenue(EMPTY_BOOK)), EMPTY_TAPE), evs);
    Discipline.PositionDiscipline(c, evs, b.quantity);
  }

  /** Backtest: zero or one lot after every bar, and the accounting identity without an extra term. */
  lemma BuiltInBacktest(setup: Setup, b: BuiltIn, bars: seq<PriceBar>, k: nat)
    requires Decides(setup.strategy, b) && setup.hooked && k < |bars|
    ensures var e := Run(setup, MockVenue(EMPTY_BOOK), bars[..k + 1]);
      var basis := setup.config.initialCash + TotalRealizedPnl(e.portfolio) - Commissions(e.fills) - Taxes(e.fills);
      && (forall s :: Held(e.portfolio, s) == 0 || Held(e.portfolio, s) == b.quantity)
      && Accounting.NoneRefused(e.fills)
      && e.cash + BookValue(e.portfolio) == basis
      && |Run(setup, MockVenue(EMPTY_BOOK), bars).curve| == |bars|
      && Run(setup, MockVenue(EMPTY_BOOK), bars).curve[k].equity == basis + Accounting.Unrealized(e.portfolio, e.quotes)
  {
    BuiltInIsDisciplined(setup.strategy, b);
    EngineRuns.EmptyVenueIsClean();
    EngineRuns.EngineDiscipline(setup, EMPTY_BOOK, bars[..k + 1], b.quantity);
    EngineRuns.DisciplinedAccounting(setup, EMPTY_BOOK, bars, k, b.quantity);
  }

  // ---- Too little history ----

  /** No symbol has `n` closes. */
  ghost predicate Short(history: Window, n: nat) {
    forall s :: s in history ==> |history[s]| < n
  }

  lemma IsSilent(b: BuiltIn, snap: Snapshot)
    requires Configured(b) && Short(snap.history, Lookback(b))
    ensures Decision(b, snap) == []
  {
    if Lookback(b) > 0 {
      ShortIsSilent(b, snap, Lookback(b) - 1);
    }
  }

  /** Below 253 closes the rotation asks for nothing, not even to sell what is held. */
  lemma RotationIsSilent(b: BuiltIn, snap: Snapshot)
    requires b.MomentumRotation? && Short(snap.history, 253)
    ensures Decision(b, snap) == []
  {
    IsSilent(b, snap);
  }

  /** In the replay: a window below the lookback, as 120 closes are for the rotation, never lets it send an order. */
  lemma {:induction false} SilentReplay(c: Config, b: BuiltIn, evs: seq<SimEvent>)
    requires Configured(b) && (forall s :: c.strategy(s) == Decision(b, s)) && c.capacity < Lookback(b)
    requires FullSyncs(c, Runtime(FreshDesk(MockVenue(EMPTY_BOOK)), EMPTY_TAPE), evs)
    ensures var r := SimRun(c, Runtime(FreshDesk(MockVenue(EMPTY_BOOK)), EMPTY_TAPE), evs);
      && Short(r.tape.window, Lookback(b)) && r.desk.exec.sent == [] && r.desk.openLocal == map[]
      && r.desk.booked == [] && r.desk.portfolio == EMPTY
    decreases |evs|
  {
    if evs != [] {
      var n := |evs| - 1;
      var before := SimRun(c, Runtime(FreshDesk(MockVenue(EMPTY_BOOK)), EMPTY_TAPE), evs[..n]);
      SilentReplay(c, b, evs[..n]);
      match evs[n]
      case Ticked(quote, order) => SilentTick(c, b, before, quote, order);
      case CancelledAtVenue(_) =>
    }
  }

  lemma SilentTick(c: Config, b: BuiltIn, r: Runtime, quote: Quote, order: seq<string>)
    requires Configured(b) && (forall s :: c.strategy(s) == Decision(b, s)) && c.capacity < Lookback(b)
    requires Short(r.tape.window, Lookback(b)) && r.desk.openLocal == map[]
    requires Enumerates(order, Decided(c, r, quote).desk.openLocal.Keys)
    ensures var e := Tick(c, r, quote, order);
      && Short(e.tape.window, Lookback(b)) && e.desk.exec.sent == r.desk.exec.sent && e.desk.openLocal == map[]
      && e.desk.booked == r.desk.booked && e.desk.portfolio == r.desk.portfolio
  {
    var desk := WithVenue(r.desk, Priced(r.desk.exec.venue, quote.symbol, quote.lastPrice));
    var quoted := Runtime(desk, OnQuote(c, r.tape, quote));
    IsSilent(b, TakeSnapshot(c, quoted));
    assert c.strategy(TakeSnapshot(c, quoted)) == [];
    assert Decided(c, r, quote).desk == desk;
    NothingToSync(order, desk.openLocal);
  }

  lemma NothingToSync(order: seq<string>, open: map<string, string>)
    requires Enumerates(order, open.Keys) && open == map[]
    ensures order == []
  {
    assert open.Keys == {};
    FirstIsIn(order);
  }

  lemma FirstIsIn(order: seq<string>)
    ensures order != [] ==> order[0] in order
  {
  }

  /** In the backtest: the same with the engine's history, on every venue. */
  lemma {:induction false} SilentBacktest(setup: Setup, b: BuiltIn, venue: Venue, bars: seq<PriceBar>)
    requires Configured(b) && (forall s :: setup.strategy(s) == Decision(b, s))
    requires setup.config.historyCapacity < Lookback(b)
    ensures var e := Run(setup, venue, bars);
      Short(e.history, Lookback(b)) && e.fills == [] && e.orderSeq == 0 && e.portfolio == EMPTY
    decreases |bars|
  {
    if bars != [] {
      var n := |bars| - 1;
      SilentBacktest(setup, b, venue, bars[..n]);
      var e := Run(setup, venue, bars[..n]);
      IsSilent(b, View(Quoted(setup, e, bars[n]), bars[n]));
      assert Intents(setup, e, bars[n]) == [];
    }
  }
}

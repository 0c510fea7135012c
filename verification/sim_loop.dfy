/** The replay loop object: one replayed bar through the live runtime per tick. */
module SimLoops {
  import opened Types
  import opened Brokers
  import opened Gateways
  import opened Risk
  import opened Runtimes
  import opened Simulation
  import opened TradingRuntimes

  class SimLoop {
    const runtime: TradingRuntime
    const broker: MockBroker
    const bars: seq<Quote>
    var cursor: nat

    ghost predicate Valid()
      reads this
    {
      runtime.Wired() && runtime.broker == Mock(broker) && cursor <= |bars|
    }

    constructor (config: Config, risk: RiskManager, bars: seq<Quote>)
      requires config.capacity > 0 && risk.limits == config.limits
      ensures Valid() && cursor == 0 && this.bars == bars && runtime.config == config && runtime.risk == risk
      ensures runtime.View() == Runtime(FreshDesk(MockVenue(EMPTY_BOOK)), EMPTY_TAPE)
    {
      var mock := new MockBroker();
      var r := new TradingRuntime(config, Mock(mock), risk);
      broker, runtime := mock, r;
      this.bars, cursor := bars, 0;
    }

    /** Replay one bar: price, quote, decision cycle, sync; nothing happens once the replay is exhausted. */
    method TickOnce() returns (ghost order: seq<string>)
      requires Valid()
      modifies this`cursor, runtime, runtime.machine, runtime.gateway, runtime.history, runtime.aggregator
      modifies runtime.risk, broker
      ensures Valid()
      ensures cursor == if old(cursor) < |bars| then old(cursor) + 1 else old(cursor)
      ensures old(cursor) == |bars| ==> runtime.View() == old(runtime.View())
      ensures old(cursor) < |bars| ==>
        var quote := bars[old(cursor)];
        && Enumerates(order, Decided(runtime.config, old(runtime.View()), quote).desk.openLocal.Keys)
        && runtime.View() == Tick(runtime.config, old(runtime.View()), quote, order)
    {
      order := [];
      if cursor < |bars| {
        cursor := cursor + 1;
        order := Replay(bars[cursor - 1]);
      }
    }

    method Replay(quote: Quote) returns (ghost order: seq<string>)
      requires Valid()
      modifies runtime, runtime.machine, runtime.gateway, runtime.history, runtime.aggregator, runtime.risk, broker
      ensures Enumerates(order, Decided(runtime.config, old(runtime.View()), quote).desk.openLocal.Keys)
      ensures runtime.View() == Tick(runtime.config, old(runtime.View()), quote, order)
    {
      ghost var start := runtime.View();
      broker.SetPrice(quote.symbol, quote.lastPrice);
      assert runtime.Desk() == WithVenue(start.desk, Priced(start.desk.exec.venue, quote.symbol, quote.lastPrice));
      assert runtime.Tape() == start.tape;
      var _ := runtime.ReceiveQuote(quote);
      var _ := runtime.RunDecisionCycle();
      assert runtime.View() == Decided(runtime.config, start, quote);
      var _, visited := runtime.SyncEverything();
      order := visited;
    }
  }
}

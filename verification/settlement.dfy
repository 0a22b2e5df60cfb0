/** The settlement of a day: every position is marked at its close and becomes closable. */
module Settlement {
  import opened CerebroStruct
  import opened PositionTracker
  import opened BrokerSpec
  import opened BrokerCore
  import opened TPlusOne
  import opened PositionPnl

  /** The close of the last kline of a symbol. */
  function LastClose(klines: seq<Kline>, y: Symbol): (c: Option<real>)
    decreases |klines|
  {
    if klines == [] then None
    else
      var n := |klines| - 1;
      if klines[n].symbol == y then Some(klines[n].close) else LastClose(klines[..n], y)
  }

  lemma {:induction false} LastCloseIs(klines: seq<Kline>, y: Symbol)
    ensures LastClose(klines, y).Some? <==> exists k <- klines :: k.symbol == y
    decreases |klines|
  {
    if klines != [] {
      var n := |klines| - 1;
      LastCloseIs(klines[..n], y);
      assert klines == klines[..n] + [klines[n]];
    }
  }

  lemma SettledMarks(p: Position, close: real)
    requires Sound(p)
    ensures var r := Settled(p, close);
            && r.quantity == p.quantity == r.closable && r.commissions == p.commissions && Basis(r) == Basis(p)
            && r.positionPnl == if p.quantity == 0.0 then 0.0 else close * p.quantity - Basis(p) - p.commissions
  {
    hide Marked;
    MarkedKeeps(p, close);
    EmptyMeans(p);
    if p.quantity != 0.0 {
      MarkedPnl(p, close);
    } else {
      assert Marked(p, close) == p by { EmptyUnmarked(p, close); }
    }
  }

  lemma EmptyUnmarked(p: Position, close: real)
    requires Sound(p) && p.quantity == 0.0
    ensures Marked(p, close) == p
  {
  }

  /** After the last kline of a symbol its position shows the profit at that close. */
  lemma {:induction false} SettlingMarks(s: State, klines: seq<Kline>, y: Symbol)
    requires Core(s)
    ensures LastClose(klines, y).Some? ==> Marks(SettlePositions(s, klines), y, LastClose(klines, y).value)
    decreases |klines|
  {
    hide Settled, Core, Basis, Sound;
    if klines != [] {
      var n := |klines| - 1;
      SettlingMarks(s, klines[..n], y);
      SettleCore(s, klines[..n]);
      var t := SettlePositions(s, klines[..n]);
      if klines[n].symbol == y && y in t.positions {
        SoundIn(t, y);
        SettledMarks(t.positions[y], klines[n].close);
      }
    }
  }

  lemma SoundIn(s: State, y: Symbol)
    requires Core(s) && y in s.positions
    ensures Sound(s.positions[y])
  {
  }

  /** After a settlement the profit of every symbol with a kline is that at its last close, and all of
      it may be sold; a symbol without one is as it was; and the account shows the sums. */
  lemma SettlementShows(s: State, klines: seq<Kline>, y: Symbol)
    requires Reachable(s)
    ensures var t := Step(s, Settle(klines));
            && (LastClose(klines, y).Some? ==>
                  && ShowsPnl(t, y, LastClose(klines, y).value)
                  && PositionOf(t, y).closable == PositionOf(t, y).quantity == PositionOf(s, y).quantity)
            && (LastClose(klines, y).None? ==> PositionOf(t, y) == PositionOf(s, y))
            && t.account == s.account.(dailyPnl := Total(t.positions, Pnl), marketValue := Total(t.positions, Basis))
  {
    hide Core, AllTraced, Total, SettlePositions, ShowsPnl, Marks;
    ReachableCore(s);
    ReachableTraced(s);
    StepCore(s, Settle(klines));
    StepTraced(s, Settle(klines));
    SettleCore(s, klines);
    NotHaltedIn(s);
    LastCloseIs(klines, y);
    if LastClose(klines, y).Some? {
      SettlingMarks(s, klines, y);
      SettleFrees(s, klines, y);
      SettledShows(s, Step(s, Settle(klines)), klines, y);
    } else {
      SettleOthers(s, klines, y);
    }
  }

  lemma NotHaltedIn(s: State)
    requires Core(s)
    ensures !s.halted
  {
  }

  lemma SettledShows(s: State, t: State, klines: seq<Kline>, y: Symbol)
    requires Core(t) && AllTraced(t) && t.positions == SettlePositions(s, klines).positions
    requires LastClose(klines, y).Some? && Marks(SettlePositions(s, klines), y, LastClose(klines, y).value)
    ensures ShowsPnl(t, y, LastClose(klines, y).value)
  {
    hide AllTraced, SettlePositions;
    HeldPnl(t, y, LastClose(klines, y).value);
  }
}

/** What the simplified options P&L estimate makes of price moves and of time. */
module FillEstimate {
  import opened FillModel

  predicate Priced(o: OptPosition) { o.entrySpot > 0.0 && o.maxRisk > 0.0 && o.maxReward > 0.0 }

  lemma Ratio(x: real, y: real, d: real)
    requires d > 0.0
    ensures x <= y ==> x / d <= y / d
    ensures Abs(x) <= Abs(y) ==> Abs(x / d) <= Abs(y / d)
    ensures -x / d == -(x / d)
  {
  }

  lemma Times2(a: real, b: real, k: real, c: real)
    requires a <= b && k >= 0.0 && c >= 0.0
    ensures a * k * c <= b * k * c
  {
  }

  const CALLS := {"long_call", "bull_call_spread"}
  const PUTS := {"long_put", "bear_put_spread"}

  lemma GainMoves(strategy: string, move: real, move': real, reward: real)
    requires reward >= 0.0
    ensures strategy in CALLS && move <= move' ==> Gain(strategy, move, reward) <= Gain(strategy, move', reward)
    ensures strategy in PUTS && move <= move' ==> Gain(strategy, move, reward) >= Gain(strategy, move', reward)
    ensures strategy !in CALLS + PUTS && Abs(move) <= Abs(move') ==> Gain(strategy, move, reward) <= Gain(strategy, move', reward)
  {
    if strategy in CALLS {
      if move <= move' { Times2(Positive(move), Positive(move'), reward, 2.5); }
    } else if strategy in PUTS {
      if move <= move' { Times2(Positive(-move'), Positive(-move), reward, 2.5); }
    } else if Abs(move) <= Abs(move') {
      Times2(Abs(move), Abs(move'), reward, 1.5);
    }
  }

  /** Directed debit positions: calls gain with the price of the underlying, puts lose with it. */
  lemma DirectedMoves(o: OptPosition, spot: real, spot': real)
    requires Priced(o) && spot <= spot'
    ensures o.strategy in CALLS ==> Estimate(o, spot) <= Estimate(o, spot')
    ensures o.strategy in PUTS ==> Estimate(o, spot) >= Estimate(o, spot')
  {
    Ratio(spot - o.entrySpot, spot' - o.entrySpot, o.entrySpot);
    GainMoves(o.strategy, Move(o, spot), Move(o, spot'), o.maxReward);
  }

  lemma CreditMoves(o: OptPosition, spot: real, spot': real)
    requires Priced(o) && o.strategy in CREDIT && Abs(Move(o, spot)) <= Abs(Move(o, spot'))
    ensures Estimate(o, spot) >= Estimate(o, spot')
  {
  }

  lemma VolatilityMoves(o: OptPosition, spot: real, spot': real)
    requires Priced(o) && o.strategy in VOLATILITY && o.strategy !in CREDIT && Abs(Move(o, spot)) <= Abs(Move(o, spot'))
    ensures Estimate(o, spot) <= Estimate(o, spot')
  {
  }

  /** All others see only the distance: credit positions lose with it, volatility positions and
    * undirected debit positions gain with it. */
  lemma DistanceMoves(o: OptPosition, spot: real, spot': real)
    requires Priced(o) && Abs(spot - o.entrySpot) <= Abs(spot' - o.entrySpot)
    ensures o.strategy in CREDIT ==> Estimate(o, spot) >= Estimate(o, spot')
    ensures o.strategy !in CREDIT + CALLS + PUTS ==> Estimate(o, spot) <= Estimate(o, spot')
  {
    Ratio(spot - o.entrySpot, spot' - o.entrySpot, o.entrySpot);
    if o.strategy in CREDIT {
      CreditMoves(o, spot, spot');
    } else if o.strategy in VOLATILITY {
      VolatilityMoves(o, spot, spot');
    } else {
      GainMoves(o.strategy, Move(o, spot), Move(o, spot'), o.maxReward);
    }
  }

  lemma AtLeast(x: real, y: real, d: real)
    requires d > 0.0
    ensures x / d >= y <==> x >= y * d
  {
  }

  /** The decay is a share of the life, complete exactly when all bars of the life are used up. */
  lemma DecayShare(o: OptPosition)
    ensures 0.0 <= Decay(o) <= 1.0
    ensures Decay(o) == 1.0 <==> o.barsHeld as real >= (if o.totalDte < 1 then 1 else o.totalDte) as real * BARS_PER_DAY
    ensures Decay(o) < 1.0 ==> Decay(o) * (if o.totalDte < 1 then 1 else o.totalDte) as real * 390.0 == o.barsHeld as real
  {
    var days, d := o.barsHeld as real / BARS_PER_DAY, (if o.totalDte < 1 then 1 else o.totalDte) as real;
    AtLeast(days, 0.0, d);
    AtLeast(days, 1.0, d);
    AtLeast(o.barsHeld as real, d, BARS_PER_DAY);
  }

  /** With the price unmoved the estimate is decay alone. */
  lemma StillValue(o: OptPosition)
    requires o.entrySpot > 0.0
    ensures Estimate(o, o.entrySpot) ==
              if o.strategy in {"bull_put_spread", "bear_call_spread", "iron_condor", "iron_butterfly"} then o.maxReward * Decay(o) * 0.7
              else if o.strategy in {"long_straddle", "long_strangle"} then -(o.maxRisk * Decay(o) * 0.5)
              else -(o.maxRisk * Decay(o) * 0.4)
  {
    assert Move(o, o.entrySpot) == 0.0;
  }

  lemma CreditMove(o: OptPosition, spot: real, size: real)
    requires o.entrySpot > 0.0 && o.strategy in CREDIT && size == Abs(Move(o, spot))
    ensures Estimate(o, spot) - Estimate(o, o.entrySpot) == -(size * o.maxRisk * 3.0)
  {
    assert Move(o, o.entrySpot) == 0.0;
  }

  lemma VolatilityMove(o: OptPosition, spot: real, size: real)
    requires o.entrySpot > 0.0 && o.strategy !in CREDIT && o.strategy in VOLATILITY && size == Abs(Move(o, spot))
    ensures Estimate(o, spot) - Estimate(o, o.entrySpot) == size * o.maxReward * 2.0
  {
    assert Move(o, o.entrySpot) == 0.0;
  }

  lemma DebitMove(o: OptPosition, spot: real)
    requires o.entrySpot > 0.0 && o.strategy !in CREDIT + VOLATILITY
    ensures Estimate(o, spot) - Estimate(o, o.entrySpot) == Gain(o.strategy, Move(o, spot), o.maxReward)
  {
    assert Move(o, o.entrySpot) == 0.0;
  }

  lemma GainValue(strategy: string, move: real, reward: real)
    ensures var size, up, down := if move >= 0.0 then move else -move, if move >= 0.0 then move else 0.0, if move >= 0.0 then 0.0 else -move;
            Gain(strategy, move, reward) ==
              if strategy in {"long_call", "bull_call_spread"} then up * reward * 2.5
              else if strategy in {"long_put", "bear_put_spread"} then down * reward * 2.5
              else size * reward * 1.5
  {
  }

  /** The multiple of the risk or reward that a relative move adds to it. */
  lemma MoveValue(o: OptPosition, spot: real)
    requires o.entrySpot > 0.0
    ensures var move := (spot - o.entrySpot) / o.entrySpot;
            var size, up, down := if move >= 0.0 then move else -move, if move >= 0.0 then move else 0.0, if move >= 0.0 then 0.0 else -move;
            Estimate(o, spot) - Estimate(o, o.entrySpot) ==
              if o.strategy in {"bull_put_spread", "bear_call_spread", "iron_condor", "iron_butterfly"} then -(size * o.maxRisk * 3.0)
              else if o.strategy in {"long_straddle", "long_strangle"} then size * o.maxReward * 2.0
              else if o.strategy in {"long_call", "bull_call_spread"} then up * o.maxReward * 2.5
              else if o.strategy in {"long_put", "bear_put_spread"} then down * o.maxReward * 2.5
              else size * o.maxReward * 1.5
  {
    var move := Move(o, spot);
    if o.strategy in CREDIT {
      CreditMove(o, spot, Abs(move));
    } else if o.strategy in VOLATILITY {
      VolatilityMove(o, spot, Abs(move));
    } else {
      DebitMove(o, spot);
      GainValue(o.strategy, move, o.maxReward);
    }
  }

  /** A position entered at no price is worth nothing. */
  lemma NoSpotNoValue(o: OptPosition, spot: real)
    ensures o.entrySpot <= 0.0 ==> Estimate(o, spot) == 0.0
  {
  }

  lemma KindsApart(strategy: string)
    ensures strategy in CREDIT ==> strategy !in VOLATILITY
  {
  }

  lemma SignOf(amount: real, z: real, product: real)
    requires amount > 0.0 && product == amount * z
    ensures product >= 0.0 <==> z >= 0.0
    ensures product <= 0.0 <==> z <= 0.0
  {
  }

  /** `cost` is the decayed part of an amount. */
  lemma DecayCosts(amount: real, d: real, cost: real)
    requires amount > 0.0 && 0.0 <= d <= 1.0 && cost == amount * d
    ensures 0.0 <= cost <= amount && (cost >= amount <==> d == 1.0)
    ensures 7.0 * cost >= 5.0 * amount <==> 7.0 * d >= 5.0
  {
    SignOf(amount, d, cost);
    SignOf(amount, d - 1.0, cost - amount);
    SignOf(amount, 7.0 * d - 5.0, 7.0 * cost - 5.0 * amount);
  }

  lemma StillCredit(o: OptPosition, gained: real)
    requires Priced(o) && o.strategy in CREDIT && gained == o.maxReward * Decay(o)
    ensures Estimate(o, o.entrySpot) == gained * 0.7 && o.maxReward * ProfitPct(o.strategy) == o.maxReward * 0.5
  {
  }

  lemma StillOthers(o: OptPosition, cost: real)
    requires Priced(o) && o.strategy !in CREDIT && cost == o.maxRisk * Decay(o)
    ensures Estimate(o, o.entrySpot) == -(cost * if o.strategy in VOLATILITY then 0.5 else 0.4)
    ensures o.maxReward * ProfitPct(o.strategy) > 0.0
  {
  }

  /** Whether the profit target and the stop loss of the estimate are met with the price unmoved. */
  lemma StillTargets(o: OptPosition)
    requires Priced(o)
    ensures Estimate(o, o.entrySpot) >= o.maxReward * ProfitPct(o.strategy) <==> (o.strategy in CREDIT && Decay(o) * 0.7 >= 0.5)
    ensures Estimate(o, o.entrySpot) <= -(o.maxRisk * 0.5) <==> (o.strategy in VOLATILITY && Decay(o) == 1.0)
  {
    var gained, cost := o.maxReward * Decay(o), o.maxRisk * Decay(o);
    KindsApart(o.strategy);
    DecayShare(o);
    DecayCosts(o.maxReward, Decay(o), gained);
    DecayCosts(o.maxRisk, Decay(o), cost);
    if o.strategy in CREDIT { StillCredit(o, gained); } else { StillOthers(o, cost); }
  }

  /** So with the price unmoved a credit position takes its profit exactly from five sevenths of its
    * life on and is never stopped, a volatility position is stopped exactly at the end of its life,
    * and a debit position is closed by neither. */
  lemma StillMarketExits(t: Ticker, o: OptPosition, x: Trade)
    requires Priced(o) && x in OptOne(t, o.entrySpot, o).done
    ensures var d := Decay(o.(barsHeld := o.barsHeld + 1));
            && (x.reason == ProfitTarget <==> (o.strategy in CREDIT && d * 0.7 >= 0.5))
            && (x.reason == StopLoss <==> (o.strategy in VOLATILITY && d == 1.0))
  {
    StillTargets(o.(barsHeld := o.barsHeld + 1));
  }
}

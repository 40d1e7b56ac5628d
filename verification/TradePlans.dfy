/**
 What the pipeline makes of a message, told by the columns of the tables it reads:
 when it acts and how, when it leaves the message for later, and when it drops it.
 */
module TradePlans {
  import opened Basics
  import opened TradeStore
  import opened TradeProtocol
  import opened TradeProgram
  import Z = SizingRisk

  /** The bot's row can be used at all. */
  ghost predicate Usable(bots: map<nat, Bot>, bot: nat) {
    bot in bots && bots[bot].active && bots[bot].credential
  }

  /** A trade of the signal is found. */
  ghost predicate Traded(trades: seq<Trade>, m: Message, o: Outside)
    requires m.Signal?
  {
    !o.tradeQueryFails && exists i :: 0 <= i < |trades| && trades[i].key == m.key
  }

  /** Unknown, or pending for more than a minute. */
  predicate Unclear(t: Trade, bot: nat, now: nat) {
    t.key.bot == bot && (t.status == Unknown || (t.status == Pending && t.createdAt + 60 < now))
  }

  /** Some trade of the bot is unclear, or nobody can tell. */
  ghost predicate Ambiguous(trades: seq<Trade>, bot: nat, now: nat, o: Outside) {
    o.countQueryFails || exists i :: 0 <= i < |trades| && Unclear(trades[i], bot, now)
  }

  /** Everything a buy's sizing and the bot's selling need is configured. */
  ghost predicate Configured(z: Z.Config) {
    && z.maxOrder != None && z.dailyCap != None && z.mode != Z.Unset
    && (z.mode == Z.PercentOfBalance ==> z.positionPct != None) && (z.mode == Z.FixedNotional ==> z.fixedNotional != None)
    && (z.sellEnabled ==> z.sellPct != None)
  }

  /** The switch is on; an exit is opted in, a buy has both caps and its sizing configured. */
  ghost predicate SwitchedOn(c: Config, b: Bot, m: Message, o: Outside)
    requires m.Signal?
  {
    && (m.side == Buy ==> Configured(o.sizing))
    && b.tradingEnabled
    && (m.side == Sell ==> b.sellEnabled)
    && (m.side == Buy ==> m.key.bot in c.limits && c.limits[m.key.bot].maxOrder.Some? && c.limits[m.key.bot].dailyCap.Some?)
  }

  /** The exchange's data were there, and sizing gives an order. */
  ghost predicate SizedTo(side: Side, o: Outside, requested: Option<real>) {
    && o.market.Some?
    && var x := o.market.value;
       if side == Buy then
         && Z.BuyQuantity(o.sizing, x.rules, x.price, x.freeQuote).Ok?
         && Z.RequestedNotional(o.sizing, x.freeQuote).Ok?
         && requested == Some(Z.RequestedNotional(o.sizing, x.freeQuote).value)
       else
         && Z.SellQuantity(o.sizing, x.rules, x.freeBase).Ok?
         && Z.SellQuantity(o.sizing, x.rules, x.freeBase).value.Some? && requested == None
  }

  lemma AmbiguousIs(trades: seq<Trade>, bot: nat, now: nat, o: Outside)
    ensures Ambiguous(trades, bot, now, o) <==> o.countQueryFails || Unresolved(trades, bot, now)
  {
    if Unresolved(trades, bot, now) {
      var i :| 0 <= i < |trades| && Blocking(trades[i], bot, now - THRESHOLD);
      assert Unclear(trades[i], bot, now);
    }
    if i :| 0 <= i < |trades| && Unclear(trades[i], bot, now) {
      assert Blocking(trades[i], bot, now - THRESHOLD);
    }
  }

  lemma SizedIs(side: Side, o: Outside, requested: Option<real>)
    ensures SizedTo(side, o, requested) <==> Sized(side, o.sizing, o.market) == Size(requested)
    ensures Sized(side, o.sizing, o.market).Retry? <==> o.market.None?
  {
    if o.market.Some? && side == Buy && Z.BuyQuantity(o.sizing, o.market.value.rules, o.market.value.price, o.market.value.freeQuote).Ok? {
      Z.BuyPasses(o.sizing, o.market.value.rules, o.market.value.price, o.market.value.freeQuote);
    }
    hide Z.BuyQuantity, Z.SellQuantity, Z.RequestedNotional;
  }

  /** The pipeline gets past the checks for earlier trades. */
  ghost predicate Considered(trades: seq<Trade>, bots: map<nat, Bot>, m: Message, now: nat, o: Outside)
    requires m.Signal?
  {
    Usable(bots, m.key.bot) && !Traded(trades, m, o) && !Ambiguous(trades, m.key.bot, now, o)
  }

  /**
   It acts exactly on a usable and switched-on bot without an earlier trade of the
   signal and without an ambiguous trade, if all checks pass and sizing gives an order;
   and then a bot in simulation fills, a live one places an approved order and offers
   any other.
   */
  lemma ActsExactlyIf(c: Config, trades: seq<Trade>, bots: map<nat, Bot>, m: Message, now: nat, o: Outside, requested: Option<real>)
    requires m.Signal?
    ensures var plan := PlanFor(c, trades, bots, m, now, o);
      var acts := Considered(trades, bots, m, now, o) && o.checks.Pass? && SwitchedOn(c, bots[m.key.bot], m, o) && SizedTo(m.side, o, requested);
      && (plan == Fill(requested) <==> acts && !bots[m.key.bot].live)
      && (plan == Place(requested) <==> acts && bots[m.key.bot].live && m.approved)
      && (acts && bots[m.key.bot].live && !m.approved ==> plan == Offer)
  {
    AmbiguousIs(trades, m.key.bot, now, o);
    SizedIs(m.side, o, requested);
    PlanIs(c, trades, bots, m, now, o);
    hide Sized, SizedTo, Unresolved, Ambiguous;
  }

  /** An offer, a repeat, and leaving for later, likewise; everything else is dropped. */
  lemma OtherwiseItIs(c: Config, trades: seq<Trade>, bots: map<nat, Bot>, m: Message, now: nat, o: Outside)
    requires m.Signal?
    ensures var plan := PlanFor(c, trades, bots, m, now, o);
      && (plan.Repeat? <==> Usable(bots, m.key.bot) && Traded(trades, m, o))
      && (plan.Offer? <==> Considered(trades, bots, m, now, o) && o.checks.Pass? && SwitchedOn(c, bots[m.key.bot], m, o)
                           && bots[m.key.bot].live && !m.approved && exists requested :: SizedTo(m.side, o, requested))
      && (plan.Later? <==> Usable(bots, m.key.bot) && !Traded(trades, m, o)
                           && (Ambiguous(trades, m.key.bot, now, o) || o.checks.Unreadable?
                               || (o.checks.Pass? && SwitchedOn(c, bots[m.key.bot], m, o) && o.market.None?)))
  {
    AmbiguousIs(trades, m.key.bot, now, o);
    PlanIs(c, trades, bots, m, now, o);
    var v := Sized(m.side, o.sizing, o.market);
    SizedIs(m.side, o, if v.Size? then v.requested else None);
    forall requested
      ensures SizedTo(m.side, o, requested) ==> v == Size(requested)
    {
      SizedIs(m.side, o, requested);
    }
    hide Sized, SizedTo, Unresolved, Ambiguous;
  }

  /** The switch comes first: a bot that is switched off never trades, offers or simulates, whatever else holds. */
  lemma SwitchedOffMeansNothing(c: Config, trades: seq<Trade>, bots: map<nat, Bot>, m: Message, now: nat, o: Outside)
    requires m.Signal? && m.key.bot in bots && !bots[m.key.bot].tradingEnabled
    ensures var plan := PlanFor(c, trades, bots, m, now, o);
      && TradesFor(c, trades, m, plan, now, o) == trades && OrdersFor(c, trades, m, plan, now, o) == 0
      && forall proposals :: ProposalsFor(proposals, m, plan, now, o) == proposals
  {
    PlanIs(c, trades, bots, m, now, o);
    hide Sized, Unresolved, HasKey, HasCid;
  }
}

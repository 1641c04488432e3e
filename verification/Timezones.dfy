/** A score product counts days in the account's own time, so a call that enters one
    settles on a timezone first. */
module Timezones {
  import opened Numbers
  import opened Types
  import opened Tickets
  import opened Accounts
  import opened Promises
  import opened Restakes
  import opened Contracts
  import opened Protocol

  /** Entering a score product keeps a timezone that is set and takes the offered one
      otherwise; entering any other product leaves it alone. */
  predicate SettlesOn(terms: Terms, before: Timezone, offered: Option<Timezone>, after: Timezone) {
    if terms.ScoreBased? || terms.TieredScoreBased? then
      if before.offset != -0x8000_0000_0000_0000 then after == before else offered == Some(after)
    else after == before
  }

  /** The calls that put deposits into a product, and whose. */
  predicate Enters(action: Action, a: AccountId) {
    match action
    case DoStake(receiver, _, _, _) => receiver == a
    case DoAirdrop(_, _, _, receivers, _, _) => a in receivers
    case DoRestake(b, _, _, _, _) => b == a
    case _ => false
  }

  lemma StakeSettles(env: Env, c: State, a: AccountId, ticket: Ticket, signature: Option<string>, amount: TokenAmount, now: Timestamp)
    requires KnownState(c) && Stake(env, c, a, ticket, signature, amount, now).Ok?
    ensures ticket.productId in c.products
    ensures var c' := Stake(env, c, a, ticket, signature, amount, now).value;
            && c' == c.(accounts := c'.accounts) && a in c'.accounts
            && SettlesOn(c.products[ticket.productId].terms, AccountOrNew(c, a, now).timezone, ticket.timezone, c'.accounts[a].timezone)
            && forall b :: b in c.accounts && b != a ==> b in c'.accounts && c'.accounts[b] == c.accounts[b]
  {
  }

  lemma ShareSettles(account: Account, products: map<ProductId, Product>, ticket: Ticket, amount: TokenAmount, booster: Score,
                     earnedAt: Option<Timestamp>, now: Timestamp)
    requires Known(account, products) && ticket.productId in products
    requires Airdropped(account, products, ticket, amount, booster, earnedAt, now).Ok?
    ensures SettlesOn(products[ticket.productId].terms, account.timezone, ticket.timezone,
                      Airdropped(account, products, ticket, amount, booster, earnedAt, now).value.timezone)
  {
  }

  lemma {:induction false} LastShare(c: State, ticket: Ticket, amount: TokenAmount, receivers: seq<AccountId>, booster: Score,
                                     earnedAt: Option<Timestamp>, now: Timestamp)
    returns (middle: State, share: Account)
    requires KnownState(c) && ticket.productId in c.products && receivers != []
    requires AirdropAll(c, ticket, amount, receivers, booster, earnedAt, now).Ok?
    ensures AirdropAll(c, ticket, amount, receivers[..|receivers| - 1], booster, earnedAt, now) == Ok(middle)
    ensures KnownState(middle) && middle.products == c.products
    ensures Airdropped(AccountOrNew(middle, receivers[|receivers| - 1], now), c.products, ticket, amount, booster, earnedAt, now) == Ok(share)
    ensures AirdropAll(c, ticket, amount, receivers, booster, earnedAt, now) == Ok(WithAccount(middle, receivers[|receivers| - 1], share))
  {
    var n := |receivers| - 1;
    middle := AirdropAll(c, ticket, amount, receivers[..n], booster, earnedAt, now).value;
    share := Airdropped(AccountOrNew(middle, receivers[n], now), c.products, ticket, amount, booster, earnedAt, now).value;
  }

  lemma {:induction false} AirdropSettles(c: State, ticket: Ticket, amount: TokenAmount, receivers: seq<AccountId>, booster: Score,
                                          earnedAt: Option<Timestamp>, now: Timestamp, a: AccountId)
    requires KnownState(c) && ticket.productId in c.products
    requires AirdropAll(c, ticket, amount, receivers, booster, earnedAt, now).Ok?
    ensures var c' := AirdropAll(c, ticket, amount, receivers, booster, earnedAt, now).value;
            if a in receivers then
              && a in c'.accounts
              && SettlesOn(c.products[ticket.productId].terms, AccountOrNew(c, a, now).timezone, ticket.timezone, c'.accounts[a].timezone)
            else AccountOf(c', a) == AccountOf(c, a)
  {
    if receivers != [] {
      var n := |receivers| - 1;
      var middle, share := LastShare(c, ticket, amount, receivers, booster, earnedAt, now);
      AirdropSettles(c, ticket, amount, receivers[..n], booster, earnedAt, now, a);
      LastOf(receivers, a);
      if receivers[n] == a {
        LastShareSettles(c, middle, ticket, amount, booster, earnedAt, now, a);
      }
    }
  }

  lemma LastOf(receivers: seq<AccountId>, a: AccountId)
    requires receivers != []
    ensures a in receivers <==> a in receivers[..|receivers| - 1] || receivers[|receivers| - 1] == a
  {
    assert receivers == receivers[..|receivers| - 1] + [receivers[|receivers| - 1]];
  }

  /** One share more, for a receiver who had some or none before. */
  lemma LastShareSettles(c: State, middle: State, ticket: Ticket, amount: TokenAmount, booster: Score, earnedAt: Option<Timestamp>, now: Timestamp,
                         a: AccountId)
    requires KnownState(middle) && middle.products == c.products && ticket.productId in c.products
    requires AccountOf(middle, a) == AccountOf(c, a)
             || SettlesOn(c.products[ticket.productId].terms, AccountOrNew(c, a, now).timezone, ticket.timezone, AccountOrNew(middle, a, now).timezone)
    requires Airdropped(AccountOrNew(middle, a, now), c.products, ticket, amount, booster, earnedAt, now).Ok?
    ensures SettlesOn(c.products[ticket.productId].terms, AccountOrNew(c, a, now).timezone, ticket.timezone,
                      Airdropped(AccountOrNew(middle, a, now), c.products, ticket, amount, booster, earnedAt, now).value.timezone)
  {
    ShareSettles(AccountOrNew(middle, a, now), c.products, ticket, amount, booster, earnedAt, now);
  }

  lemma PartsSettle(a: AccountId, account: Account, products: map<ProductId, Product>, parts: map<ProductId, Part>, ticket: Ticket,
                    amount: TokenAmount, total: TokenAmount, fee: TokenAmount, isSigned: bool, now: Timestamp)
    requires Known(account, products) && ticket.productId in products
    requires RestakeParts(a, account, products, parts, ticket, amount, total, fee, isSigned, now).Ok?
    ensures SettlesOn(products[ticket.productId].terms, account.timezone, ticket.timezone,
                      RestakeParts(a, account, products, parts, ticket, amount, total, fee, isSigned, now).value.account.timezone)
  {
  }

  lemma RestakeSettles(env: Env, c: State, a: AccountId, source: Source, ticket: Ticket, signature: Option<string>, target: Option<TokenAmount>,
                       now: Timestamp)
    requires KnownState(c) && CallRestake(env, c, a, source, ticket, signature, target, now).Ok?
    ensures ticket.productId in c.products
    ensures var c' := CallRestake(env, c, a, source, ticket, signature, target, now).value.state;
            && a in c.accounts && c' == c.(accounts := c.accounts[a := c'.accounts[a]])
            && SettlesOn(c.products[ticket.productId].terms, c.accounts[a].timezone, ticket.timezone, c'.accounts[a].timezone)
  {
    var parts, total, amount, fee, isSigned := RestakeIs(env, a, c.accounts[a], c.products, source, ticket, signature, target, now);
    PartsSettle(a, c.accounts[a], c.products, parts, ticket, amount, total, fee, isSigned, now);
  }

  /** A stake, an airdrop or a restake into a score product is accepted only with a
      timezone: the account's own, or else that of the ticket, which it then has. */
  lemma AcceptedCallsSettleOnATimezone(env: Env, w: World, action: Action, a: AccountId)
    requires Inv(w) && Enters(action, a) && Act(env, w, action).Ok?
    ensures action.ticket.productId in w.contract.products && a in Act(env, w, action).value.contract.accounts
    ensures SettlesOn(w.contract.products[action.ticket.productId].terms, AccountOrNew(w.contract, a, w.now).timezone, action.ticket.timezone,
                      Act(env, w, action).value.contract.accounts[a].timezone)
  {
    var c := w.contract;
    match action
    case DoStake(_, ticket, signature, amount) => StakeSettles(env, c, a, ticket, signature, amount, w.now);
    case DoAirdrop(ticket, _, amount, receivers, booster, earnedAt) =>
      AirdropSettles(c, ticket, amount / |receivers|, receivers, booster, earnedAt, w.now, a);
    case DoRestake(_, source, ticket, signature, target) => RestakeSettles(env, c, a, source, ticket, signature, target, w.now);
  }
}

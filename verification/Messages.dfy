/** Signed texts are unambiguous, and a signed stake is accepted once. */
module Messages {
  import opened Numbers
  import opened Types
  import opened Tickets
  import opened Accounts
  import opened Promises
  import opened Restakes
  import opened Contracts
  import opened Protocol
  import opened Safety

  // --- Numbers as text --------------------------------------------------------

  predicate CommaFree(text: string) {
    forall i :: 0 <= i < |text| ==> text[i] != ','
  }

  lemma {:induction false} DecimalIsCommaFree(n: nat)
    ensures CommaFree(Decimal(n)) && Decimal(n) != ""
  {
    if n >= 10 {
      DecimalIsCommaFree(n / 10);
    }
  }

  lemma {:induction false} DecimalIsInjective(m: nat, n: nat)
    requires Decimal(m) == Decimal(n)
    ensures m == n
  {
    DecimalIsCommaFree(m / 10);
    DecimalIsCommaFree(n / 10);
    var last := |Decimal(m)| - 1;
    assert Decimal(m)[last] == Digit(m % 10);
    assert Decimal(n)[last] == Digit(n % 10);
    if m >= 10 && n >= 10 {
      assert Decimal(m)[..last] == Decimal(m / 10) && Decimal(n)[..last] == Decimal(n / 10);
      DecimalIsInjective(m / 10, n / 10);
    }
  }

  // --- Splitting at commas ----------------------------------------------------

  lemma FieldEnds(a: string, x: string)
    requires CommaFree(a)
    ensures var s := a + "," + x; s[|a|] == ',' && forall i :: 0 <= i < |a| ==> s[i] != ','
  {
  }

  lemma FieldStarts(x: string, a: string)
    requires CommaFree(a)
    ensures var s := x + "," + a; s[|x|] == ',' && forall i :: |x| < i < |s| ==> s[i] != ','
  {
  }

  /** The first field ends at the first comma. */
  lemma FirstFieldIsUnique(a: string, x: string, b: string, y: string)
    requires CommaFree(a) && CommaFree(b)
    requires a + "," + x == b + "," + y
    ensures a == b && x == y
  {
    FieldEnds(a, x);
    FieldEnds(b, y);
    var s, t := a + "," + x, b + "," + y;
    assert |a| == |b|;
    assert a == s[..|a|] && b == t[..|b|];
    assert x == s[|a| + 1..] && y == t[|b| + 1..];
  }

  /** The last field starts after the last comma. */
  lemma LastFieldIsUnique(x: string, a: string, y: string, b: string)
    requires CommaFree(a) && CommaFree(b)
    requires x + "," + a == y + "," + b
    ensures x == y && a == b
  {
    FieldStarts(x, a);
    FieldStarts(y, b);
    var s, t := x + "," + a, y + "," + b;
    assert |x| == |y|;
    assert x == s[..|x|] && y == t[..|y|];
    assert a == s[|x| + 1..] && b == t[|y| + 1..];
  }

  // --- Deposit messages -------------------------------------------------------

  /** What follows the account names. */
  function Tail(product: ProductId, amount: TokenAmount, nonce: nat, validUntil: Timestamp): string {
    product + "," + (Decimal(amount) + "," + (Decimal(nonce) + "," + Decimal(validUntil)))
  }

  /** Read from the back, the tail gives its numbers, and what is left is the
      product, commas and all. */
  lemma TailIsInjective(p: ProductId, amount: TokenAmount, nonce: nat, validUntil: Timestamp,
                        p': ProductId, amount': TokenAmount, nonce': nat, validUntil': Timestamp)
    requires Tail(p, amount, nonce, validUntil) == Tail(p', amount', nonce', validUntil')
    ensures p == p' && amount == amount' && nonce == nonce' && validUntil == validUntil'
  {
    FromTheBack(p, Decimal(amount), Decimal(nonce), Decimal(validUntil));
    FromTheBack(p', Decimal(amount'), Decimal(nonce'), Decimal(validUntil'));
    DecimalIsCommaFree(amount);
    DecimalIsCommaFree(nonce);
    DecimalIsCommaFree(validUntil);
    DecimalIsCommaFree(amount');
    DecimalIsCommaFree(nonce');
    DecimalIsCommaFree(validUntil');
    LastFieldIsUnique(p + "," + Decimal(amount) + "," + Decimal(nonce), Decimal(validUntil),
                      p' + "," + Decimal(amount') + "," + Decimal(nonce'), Decimal(validUntil'));
    LastFieldIsUnique(p + "," + Decimal(amount), Decimal(nonce), p' + "," + Decimal(amount'), Decimal(nonce'));
    LastFieldIsUnique(p, Decimal(amount), p', Decimal(amount'));
    DecimalIsInjective(amount, amount');
    DecimalIsInjective(nonce, nonce');
    DecimalIsInjective(validUntil, validUntil');
  }

  lemma FromTheBack(p: string, a: string, b: string, c: string)
    ensures p + "," + (a + "," + (b + "," + c)) == p + "," + a + "," + b + "," + c
  {
  }

  lemma PurposesDiffer(a: Purpose, b: Purpose)
    ensures CommaFree(PurposeText(a))
    ensures PurposeText(a) == PurposeText(b) ==> a == b
  {
    assert PurposeText(ForDeposit)[0] == 'd' && PurposeText(ForRestake)[0] == 'r' && PurposeText(ForAirdrop)[0] == 'a';
  }

  /** A deposit message determines all seven of its fields, for account names
      without commas and any product id. */
  lemma DepositMessageIsInjective(purpose: Purpose, contractId: AccountId, receiver: AccountId, p: ProductId,
                                  amount: TokenAmount, validUntil: Timestamp, nonce: nat,
                                  purpose': Purpose, contractId': AccountId, receiver': AccountId, p': ProductId,
                                  amount': TokenAmount, validUntil': Timestamp, nonce': nat)
    requires CommaFree(contractId) && CommaFree(receiver) && CommaFree(contractId') && CommaFree(receiver')
    requires DepositMessage(purpose, contractId, receiver, p, amount, validUntil, nonce)
          == DepositMessage(purpose', contractId', receiver', p', amount', validUntil', nonce')
    ensures purpose == purpose' && contractId == contractId' && receiver == receiver' && p == p'
    ensures amount == amount' && validUntil == validUntil' && nonce == nonce'
  {
    PurposesDiffer(purpose, purpose');
    PurposesDiffer(purpose', purpose);
    var tail, tail' := Tail(p, amount, nonce, validUntil), Tail(p', amount', nonce', validUntil');
    FirstFieldIsUnique(PurposeText(purpose), contractId + "," + (receiver + "," + tail),
                       PurposeText(purpose'), contractId' + "," + (receiver' + "," + tail'));
    FirstFieldIsUnique(contractId, receiver + "," + tail, contractId', receiver' + "," + tail');
    FirstFieldIsUnique(receiver, tail, receiver', tail');
    TailIsInjective(p, amount, nonce, validUntil, p', amount', nonce', validUntil');
  }

  // --- Airdrop messages -------------------------------------------------------

  predicate NamesCommaFree(names: seq<string>) {
    forall i :: 0 <= i < |names| ==> CommaFree(names[i])
  }

  lemma {:induction false} JoinIsInjective(a: seq<string>, b: seq<string>)
    requires NamesCommaFree(a) && NamesCommaFree(b) && a != [] && b != []
    requires Join(a) == Join(b)
    ensures a == b
  {
    if |a| > 1 {
      JoinHasComma(a);
    }
    if |b| > 1 {
      JoinHasComma(b);
    }
    if |a| > 1 && |b| > 1 {
      FirstFieldIsUnique(a[0], Join(a[1..]), b[0], Join(b[1..]));
      JoinIsInjective(a[1..], b[1..]);
      assert a == [a[0]] + a[1..] && b == [b[0]] + b[1..];
    } else {
      assert a == [a[0]] && b == [b[0]];
    }
  }

  lemma JoinHasComma(names: seq<string>)
    requires |names| > 1 && NamesCommaFree(names)
    ensures !CommaFree(Join(names))
  {
    FieldEnds(names[0], Join(names[1..]));
  }

  lemma {:induction false} TextLeIsTotal(a: string, b: string)
    ensures TextLe(a, b) || TextLe(b, a)
    ensures TextLe(a, b) && TextLe(b, a) ==> a == b
  {
    if a != "" && b != "" {
      TextLeIsTotal(a[1..], b[1..]);
      assert a == [a[0]] + a[1..] && b == [b[0]] + b[1..];
    }
  }

  lemma {:induction false} TextLeIsTransitive(a: string, b: string, c: string)
    requires TextLe(a, b) && TextLe(b, c)
    ensures TextLe(a, c)
  {
    if a != "" && b[0] == a[0] && c[0] == b[0] {
      TextLeIsTransitive(a[1..], b[1..], c[1..]);
    }
  }

  predicate InTextOrder(names: seq<string>) {
    forall i, j :: 0 <= i < j < |names| ==> TextLe(names[i], names[j])
  }

  lemma {:induction false} InsertedStaysInOrder(x: string, names: seq<string>)
    requires InTextOrder(names)
    ensures InTextOrder(Inserted(x, names))
    ensures multiset(Inserted(x, names)) == multiset(names) + multiset{x}
  {
    if names != [] {
      TextLeIsTotal(x, names[0]);
      if TextLe(x, names[0]) {
        var all := [x] + names;
        forall j | 0 <= j < |names| ensures TextLe(x, names[j]) {
          if j > 0 {
            TextLeIsTransitive(x, names[0], names[j]);
          }
        }
      } else {
        InsertedStaysInOrder(x, names[1..]);
        var rest := Inserted(x, names[1..]);
        assert names == [names[0]] + names[1..];
        forall j | 0 <= j < |rest| ensures TextLe(names[0], rest[j]) {
          assert rest[j] in multiset(rest);
          if rest[j] != x {
            assert rest[j] in multiset(names[1..]);
            var i :| 0 <= i < |names[1..]| && names[1..][i] == rest[j];
            assert names[1..][i] == names[i + 1];
          }
        }
      }
    }
  }

  lemma {:induction false} SortedNamesAreInOrder(names: seq<string>)
    ensures InTextOrder(SortedNames(names))
    ensures multiset(SortedNames(names)) == multiset(names)
  {
    if names != [] {
      SortedNamesAreInOrder(names[1..]);
      InsertedStaysInOrder(names[0], SortedNames(names[1..]));
      assert names == [names[0]] + names[1..];
    }
  }

  lemma {:induction false} OrderIsUnique(a: seq<string>, b: seq<string>)
    requires InTextOrder(a) && InTextOrder(b) && multiset(a) == multiset(b)
    ensures a == b
  {
    assert |multiset(a)| == |a| && |multiset(b)| == |b|;
    if a != [] {
      FirstIsLeast(a, b);
      FirstIsLeast(b, a);
      TextLeIsTotal(a[0], b[0]);
      WithoutFirst(a);
      WithoutFirst(b);
      OrderIsUnique(a[1..], b[1..]);
    }
  }

  lemma FirstIsLeast(a: seq<string>, b: seq<string>)
    requires InTextOrder(a) && multiset(a) == multiset(b) && a != [] && b != []
    ensures TextLe(a[0], b[0])
  {
    assert b[0] in multiset(a);
    var j :| 0 <= j < |a| && a[j] == b[0];
    TextLeIsTotal(a[0], a[0]);
  }

  lemma WithoutFirst(names: seq<string>)
    requires names != []
    ensures names == [names[0]] + names[1..]
    ensures multiset(names[1..]) == multiset(names) - multiset{names[0]}
  {
    assert names == [names[0]] + names[1..];
  }

  lemma SameNamesElementwise(names: seq<string>, sorted: seq<string>)
    requires multiset(names) == multiset(sorted) && NamesCommaFree(names)
    ensures NamesCommaFree(sorted) && |sorted| == |names|
  {
    assert |multiset(names)| == |names| && |multiset(sorted)| == |sorted|;
    forall i | 0 <= i < |sorted| ensures CommaFree(sorted[i]) {
      assert sorted[i] in multiset(names);
    }
  }

  /** An airdrop message determines its fields and its receivers up to their order,
      and nothing less: two airdrops have the same text exactly when they agree on
      all of these. */
  lemma AirdropMessageIsInjective(contractId: AccountId, p: ProductId, amount: TokenAmount, receivers: seq<AccountId>, validUntil: Timestamp,
                                  contractId': AccountId, p': ProductId, amount': TokenAmount, receivers': seq<AccountId>, validUntil': Timestamp)
    requires CommaFree(contractId) && CommaFree(p) && NamesCommaFree(receivers) && receivers != []
    requires CommaFree(contractId') && CommaFree(p') && NamesCommaFree(receivers') && receivers' != []
    ensures AirdropMessage(contractId, p, amount, receivers, validUntil) == AirdropMessage(contractId', p', amount', receivers', validUntil')
       <==> contractId == contractId' && p == p' && amount == amount' && validUntil == validUntil' && multiset(receivers) == multiset(receivers')
  {
    SortedNamesAreInOrder(receivers);
    SortedNamesAreInOrder(receivers');
    if multiset(receivers) == multiset(receivers') {
      OrderIsUnique(SortedNames(receivers), SortedNames(receivers'));
    }
    if AirdropMessage(contractId, p, amount, receivers, validUntil) == AirdropMessage(contractId', p', amount', receivers', validUntil') {
      AirdropFields(contractId, p, amount, SortedNames(receivers), validUntil, contractId', p', amount', SortedNames(receivers'), validUntil',
                    receivers, receivers');
    }
  }

  function AirdropText(contractId: AccountId, p: ProductId, amount: TokenAmount, names: seq<AccountId>, validUntil: Timestamp): string {
    "airdrop" + "," + (contractId + "," + (p + "," + (Decimal(amount) + "," + (Decimal(validUntil) + "," + Join(names)))))
  }

  lemma AirdropFields(contractId: AccountId, p: ProductId, amount: TokenAmount, names: seq<AccountId>, validUntil: Timestamp,
                      contractId': AccountId, p': ProductId, amount': TokenAmount, names': seq<AccountId>, validUntil': Timestamp,
                      receivers: seq<AccountId>, receivers': seq<AccountId>)
    requires CommaFree(contractId) && CommaFree(p) && NamesCommaFree(receivers) && receivers != [] && multiset(names) == multiset(receivers)
    requires CommaFree(contractId') && CommaFree(p') && NamesCommaFree(receivers') && receivers' != [] && multiset(names') == multiset(receivers')
    requires AirdropText(contractId, p, amount, names, validUntil) == AirdropText(contractId', p', amount', names', validUntil')
    ensures contractId == contractId' && p == p' && amount == amount' && validUntil == validUntil' && names == names'
  {
    SameNamesElementwise(receivers, names);
    SameNamesElementwise(receivers', names');
    var last, last' := Decimal(validUntil) + "," + Join(names), Decimal(validUntil') + "," + Join(names');
    DecimalIsCommaFree(amount);
    DecimalIsCommaFree(validUntil);
    DecimalIsCommaFree(amount');
    DecimalIsCommaFree(validUntil');
    FirstFieldIsUnique("airdrop", contractId + "," + (p + "," + (Decimal(amount) + "," + last)),
                       "airdrop", contractId' + "," + (p' + "," + (Decimal(amount') + "," + last')));
    FirstFieldIsUnique(contractId, p + "," + (Decimal(amount) + "," + last), contractId', p' + "," + (Decimal(amount') + "," + last'));
    FirstFieldIsUnique(p, Decimal(amount) + "," + last, p', Decimal(amount') + "," + last');
    FirstFieldIsUnique(Decimal(amount), last, Decimal(amount'), last');
    FirstFieldIsUnique(Decimal(validUntil), Join(names), Decimal(validUntil'), Join(names'));
    DecimalIsInjective(amount, amount');
    DecimalIsInjective(validUntil, validUntil');
    JoinIsInjective(names, names');
  }

  /** A text signed for a stake or a restake is never the text of an airdrop. */
  lemma PurposesDoNotMix(purpose: Purpose, contractId: AccountId, receiver: AccountId, p: ProductId, amount: TokenAmount, validUntil: Timestamp,
                         nonce: nat, contractId': AccountId, p': ProductId, amount': TokenAmount, receivers: seq<AccountId>, validUntil': Timestamp)
    requires !purpose.ForAirdrop?
    ensures DepositMessage(purpose, contractId, receiver, p, amount, validUntil, nonce)
         != AirdropMessage(contractId', p', amount', receivers, validUntil')
  {
    assert PurposeText(purpose)[0] != "airdrop"[0];
    assert DepositMessage(purpose, contractId, receiver, p, amount, validUntil, nonce)[0] == PurposeText(purpose)[0];
    assert AirdropMessage(contractId', p', amount', receivers, validUntil')[0] == "airdrop"[0];
  }

  // --- Nonces -----------------------------------------------------------------

  function NonceOf(c: State, a: AccountId): nat {
    if a in c.accounts then c.accounts[a].nonce else 0
  }

  lemma {:induction false} AirdropKeepsNonces(c: State, ticket: Ticket, amount: TokenAmount, receivers: seq<AccountId>,
                                              booster: Score, earnedAt: Option<Timestamp>, now: Timestamp, a: AccountId)
    requires KnownState(c) && ticket.productId in c.products
    requires AirdropAll(c, ticket, amount, receivers, booster, earnedAt, now).Ok?
    ensures NonceOf(AirdropAll(c, ticket, amount, receivers, booster, earnedAt, now).value, a) == NonceOf(c, a)
  {
    if receivers != [] {
      AirdropKeepsNonces(c, ticket, amount, receivers[..|receivers| - 1], booster, earnedAt, now, a);
    }
  }

  lemma {:induction false} UpdatesKeepNonces(c: State, batch: seq<(AccountId, Update)>, now: Timestamp, a: AccountId)
    requires KnownState(c)
    requires UpdateAll(c, batch, now).Ok?
    ensures NonceOf(UpdateAll(c, batch, now).value, a) == NonceOf(c, a)
  {
    if batch != [] {
      UpdatesKeepNonces(c, batch[..|batch| - 1], now, a);
    }
  }

  lemma CallbackKeepsNonce(c: State, promise: Promise, isSuccess: bool, now: Timestamp, a: AccountId)
    requires Finish(c, promise, isSuccess, now).Ok?
    ensures NonceOf(c, a) <= NonceOf(Finish(c, promise, isSuccess, now).value, a)
  {
  }

  lemma OwnersCallKeepsNonce(env: Env, w: World, action: Action, a: AccountId)
    requires KnownState(w.contract)
    requires action.DoWithdraw? || action.DoWithdrawAll? || action.DoRestake? || action.DoClaim?
    requires Act(env, w, action).Ok?
    ensures NonceOf(w.contract, a) <= NonceOf(Act(env, w, action).value.contract, a)
  {
  }

  lemma OperatorKeepsNonce(env: Env, w: World, action: Action, a: AccountId)
    requires KnownState(w.contract)
    requires action.DoRegister? || action.DoSetEnabled? || action.DoSetPublicKey? || action.DoWithdrawFee?
             || action.DoMigrate? || action.DoSetTimezone? || action.DoSetFeature?
    requires Act(env, w, action).Ok?
    ensures NonceOf(w.contract, a) <= NonceOf(Act(env, w, action).value.contract, a)
  {
  }

  /** Nothing ever lowers a nonce. */
  lemma NonceNeverFalls(env: Env, w: World, action: Action, a: AccountId)
    requires KnownState(w.contract)
    requires Act(env, w, action).Ok?
    ensures NonceOf(w.contract, a) <= NonceOf(Act(env, w, action).value.contract, a)
  {
    if action.DoWithdraw? || action.DoWithdrawAll? || action.DoRestake? || action.DoClaim? {
      OwnersCallKeepsNonce(env, w, action, a);
    } else if action.DoStake? || action.DoAirdrop? || action.DoUpdateAll? || action.Resolve? {
      OtherKeepsNonce(env, w, action, a);
    } else {
      OperatorKeepsNonce(env, w, action, a);
    }
  }

  lemma OtherKeepsNonce(env: Env, w: World, action: Action, a: AccountId)
    requires KnownState(w.contract)
    requires action.DoStake? || action.DoAirdrop? || action.DoUpdateAll? || action.Resolve?
    requires Act(env, w, action).Ok?
    ensures NonceOf(w.contract, a) <= NonceOf(Act(env, w, action).value.contract, a)
  {
    match action
    case DoStake(_, _, _, _) =>
    case DoAirdrop(ticket, _, amount, receivers, booster, earnedAt) =>
      AirdropKeepsNonces(w.contract, ticket, amount / |receivers|, receivers, booster, earnedAt, w.now, a);
    case DoUpdateAll(batch) => UpdatesKeepNonces(w.contract, batch, w.now, a);
    case Resolve(id, isSuccess) => CallbackKeepsNonce(w.contract, w.pending[id], isSuccess, w.now, a);
  }

  lemma {:induction false} NonceNeverFallsOnRuns(env: Env, w: World, entries: seq<Entry>, a: AccountId)
    requires Inv(w)
    ensures NonceOf(w.contract, a) <= NonceOf(Run(env, w, entries).contract, a)
  {
    if entries != [] {
      var n := |entries| - 1;
      NonceNeverFallsOnRuns(env, w, entries[..n], a);
      var before := Run(env, w, entries[..n]);
      if IsAdmissible(before, entries[n].at, entries[n].action) {
        StepIsAct(env, before, entries[n]);
        var w0 := before.(now := entries[n].at);
        if Act(env, w0, entries[n].action).Ok? {
          NonceNeverFalls(env, w0, entries[n].action, a);
        }
      }
    }
  }

  /** The text a stake has to be signed with. */
  function MessageOf(env: Env, w: World, action: Action): string
    requires action.DoStake?
  {
    StakeMessage(env, action.receiver, AccountOf(w.contract, action.receiver), action.ticket, action.amount)
  }

  /** Once a stake has been accepted, no later stake on the run, by anyone, at any
      time, can be accepted with the same text. */
  lemma StakeMessageIsUsedOnce(env: Env, w: World, first: Action, entries: seq<Entry>, second: Action, at: Timestamp)
    requires Inv(w) && first.DoStake? && second.DoStake?
    requires CommaFree(env.contractId) && CommaFree(first.receiver) && CommaFree(second.receiver)
    requires Act(env, w, first).Ok?
    ensures Inv(Act(env, w, first).value)
    ensures var later := Run(env, Act(env, w, first).value, entries).(now := at);
            KnownState(later.contract) && (Act(env, later, second).Ok? ==> MessageOf(env, later, second) != MessageOf(env, w, first))
  {
    ActKeepsInv(env, w, first);
    var next := Act(env, w, first).value;
    var later := Run(env, next, entries).(now := at);
    var a := first.receiver;
    assert NonceOf(next.contract, a) == NonceOf(w.contract, a) + 1;
    NonceNeverFallsOnRuns(env, next, entries, a);
    if MessageOf(env, later, second) == MessageOf(env, w, first) {
      DepositMessageIsInjective(ForDeposit, env.contractId, second.receiver, second.ticket.productId, second.amount,
                                second.ticket.validUntil, NonceOf(later.contract, second.receiver),
                                ForDeposit, env.contractId, a, first.ticket.productId, first.amount,
                                first.ticket.validUntil, NonceOf(w.contract, a));
    }
  }

  // --- What an accepted call was signed for -----------------------------------

  /** A timely ticket, and a signature by the product's key of exactly this text. */
  predicate IsAuthorized(env: Env, product: Product, message: string, ticket: Ticket, signature: Option<string>, now: Timestamp) {
    && product.publicKey.Some? && signature.Some?
    && now <= ticket.validUntil <= now + 7 * MS_IN_DAY
    && env.verifies(product.publicKey.value, message, signature.value)
  }

  /** Stakes, airdrops and restakes into a protected product are accepted only if
      its key signed their exact text; and only into enabled products, within the
      caps. */
  lemma AcceptedCallsAreAuthorized(env: Env, w: World, action: Action)
    requires KnownState(w.contract)
    requires action.DoStake? || action.DoAirdrop? || action.DoRestake?
    requires Act(env, w, action).Ok?
    ensures var p := action.ticket.productId;
            && p in w.contract.products && w.contract.products[p].isEnabled
            && WithinCaps(w, action, w.contract.products[p])
            && (w.contract.products[p].publicKey.Some? ==> HasSignedText(env, w, action, w.contract.products[p]))
  {
    var p := action.ticket.productId;
    match action
    case DoStake(_, _, _, _) =>
      assert IsTextOf(env, w, action, MessageOf(env, w, action));
    case DoAirdrop(ticket, _, total, receivers, _, _) =>
      assert IsTextOf(env, w, action, AirdropMessage(env.contractId, p, total / |receivers|, receivers, ticket.validUntil));
    case DoRestake(a, source, ticket, signature, target) =>
      var parts, total, amount, fee, isSigned := RestakeIs(env, a, w.contract.accounts[a], w.contract.products, source, ticket, signature, target, w.now);
      RestakeIsSigned(env, a, w.contract.accounts[a], w.contract.products, source, ticket, signature, target, w.now);
      assert IsTextOf(env, w, action, RestakeMessage(env, a, w.contract.accounts[a], ticket, amount));
  }

  /** What every new deposit of the call amounts to, the product takes. */
  ghost predicate WithinCaps(w: World, action: Action, product: Product)
    requires KnownState(w.contract)
  {
    match action
    case DoStake(_, _, _, amount) => product.AcceptsAmount(amount)
    case DoAirdrop(_, _, total, receivers, _, _) => receivers != [] && product.AcceptsAmount(total / |receivers|)
    case DoRestake(a, source, _, _, target) =>
      && a in w.contract.accounts
      && Parts(w.contract.accounts[a], w.contract.products, source, w.now).Ok?
      && var total := TotalBalance(Parts(w.contract.accounts[a], w.contract.products, source, w.now).value);
         product.AcceptsAmount(target.GetOr(total))
    case _ => false
  }

  /** Some text of the call is the one the product's key signed. */
  ghost predicate HasSignedText(env: Env, w: World, action: Action, product: Product)
    requires KnownState(w.contract)
    requires action.DoStake? || action.DoAirdrop? || action.DoRestake?
  {
    exists message ::
      && IsTextOf(env, w, action, message)
      && IsAuthorized(env, product, message, action.ticket, action.signature, w.now)
  }

  function RestakeMessage(env: Env, a: AccountId, account: Account, ticket: Ticket, amount: TokenAmount): string {
    DepositMessage(ForRestake, env.contractId, a, ticket.productId, amount, ticket.validUntil, account.nonce)
  }

  /** The text an accepted call has to be signed with. */
  ghost predicate IsTextOf(env: Env, w: World, action: Action, message: string)
    requires KnownState(w.contract)
  {
    match action
    case DoStake(_, _, _, _) => message == MessageOf(env, w, action)
    case DoAirdrop(ticket, _, total, receivers, _, _) =>
      receivers != [] && message == AirdropMessage(env.contractId, ticket.productId, total / |receivers|, receivers, ticket.validUntil)
    case DoRestake(a, source, ticket, _, target) =>
      && a in w.contract.accounts
      && Parts(w.contract.accounts[a], w.contract.products, source, w.now).Ok?
      && var total := TotalBalance(Parts(w.contract.accounts[a], w.contract.products, source, w.now).value);
         message == RestakeMessage(env, a, w.contract.accounts[a], ticket, target.GetOr(total))
    case _ => false
  }

  lemma RestakeIsSigned(env: Env, a: AccountId, account: Account, products: map<ProductId, Product>, source: Source, ticket: Ticket,
                        signature: Option<string>, target: Option<TokenAmount>, now: Timestamp)
    requires Known(account, products)
    requires Restake(env, a, account, products, source, ticket, signature, target, now).Ok?
    ensures ticket.productId in products && products[ticket.productId].isEnabled
    ensures Parts(account, products, source, now).Ok?
    ensures var amount := target.GetOr(TotalBalance(Parts(account, products, source, now).value));
            Verified(env, products[ticket.productId], RestakeMessage(env, a, account, ticket, amount), ticket, signature, now)
  {
  }
}

/** The texts that are signed: which fields, in which order, and what the digits in
    them stand for. */
module Texts {
  import opened Numbers
  import opened Types
  import opened Tickets

  /** The number a text of digits stands for. */
  function ValueOf(digits: string): int {
    if digits == "" then 0 else
      var n := |digits| - 1;
      10 * ValueOf(digits[..n]) + (digits[n] as int - '0' as int)
  }

  lemma {:induction false} DecimalStandsForItself(n: nat)
    ensures ValueOf(Decimal(n)) == n
    ensures |Decimal(n)| > 1 ==> Decimal(n)[0] != '0'
  {
    if n < 10 {
      assert Decimal(n)[..0] == "";
    } else {
      DecimalStandsForItself(n / 10);
      assert Decimal(n)[..|Decimal(n)| - 1] == Decimal(n / 10);
      if |Decimal(n / 10)| == 1 {
        assert Decimal(n / 10)[..0] == "";
      }
    }
  }

  /** Fields with commas between them. */
  function Separated(fields: seq<string>): string {
    if fields == [] then ""
    else if |fields| == 1 then fields[0]
    else fields[0] + "," + Separated(fields[1..])
  }

  lemma FirstField(first: string, rest: seq<string>)
    requires rest != []
    ensures Separated([first] + rest) == first + "," + Separated(rest)
  {
    assert ([first] + rest)[1..] == rest;
  }

  /** The fields of a signed text, in their order. */
  lemma FieldsOfDepositMessage(purpose: Purpose, contractId: AccountId, receiver: AccountId, product: ProductId, amount: TokenAmount,
                               validUntil: Timestamp, nonce: nat)
    ensures DepositMessage(purpose, contractId, receiver, product, amount, validUntil, nonce)
         == Separated([match purpose case ForDeposit => "deposit" case ForRestake => "restake" case ForAirdrop => "airdrop"]
                      + ([contractId] + ([receiver] + ([product] + ([Decimal(amount)] + ([Decimal(nonce)] + [Decimal(validUntil)]))))))
  {
    FirstField(Decimal(nonce), [Decimal(validUntil)]);
    FirstField(Decimal(amount), [Decimal(nonce)] + [Decimal(validUntil)]);
    FirstField(product, [Decimal(amount)] + ([Decimal(nonce)] + [Decimal(validUntil)]));
    FirstField(receiver, [product] + ([Decimal(amount)] + ([Decimal(nonce)] + [Decimal(validUntil)])));
    FirstField(contractId, [receiver] + ([product] + ([Decimal(amount)] + ([Decimal(nonce)] + [Decimal(validUntil)]))));
    FirstField(PurposeText(purpose), [contractId] + ([receiver] + ([product] + ([Decimal(amount)] + ([Decimal(nonce)] + [Decimal(validUntil)])))));
  }

  lemma {:induction false} JoinSeparates(fields: seq<string>)
    ensures Join(fields) == Separated(fields)
  {
    if |fields| > 1 {
      JoinSeparates(fields[1..]);
    }
  }

  /** The receivers come last, as many fields as there are receivers. */
  lemma FieldsOfAirdropMessage(contractId: AccountId, product: ProductId, amount: TokenAmount, receivers: seq<AccountId>, validUntil: Timestamp)
    requires receivers != []
    ensures |SortedNames(receivers)| == |receivers|
    ensures AirdropMessage(contractId, product, amount, receivers, validUntil)
         == Separated(["airdrop"] + ([contractId] + ([product] + ([Decimal(amount)] + ([Decimal(validUntil)] + SortedNames(receivers))))))
  {
    var names := SortedNames(receivers);
    NamesAreKept(receivers);
    JoinSeparates(names);
    FirstField(Decimal(validUntil), names);
    FirstField(Decimal(amount), [Decimal(validUntil)] + names);
    FirstField(product, [Decimal(amount)] + ([Decimal(validUntil)] + names));
    FirstField(contractId, [product] + ([Decimal(amount)] + ([Decimal(validUntil)] + names)));
    FirstField("airdrop", [contractId] + ([product] + ([Decimal(amount)] + ([Decimal(validUntil)] + names))));
  }

  lemma {:induction false} NamesAreKept(names: seq<string>)
    ensures |SortedNames(names)| == |names|
  {
    if names != [] {
      NamesAreKept(names[1..]);
      OneMoreName(names[0], SortedNames(names[1..]));
    }
  }

  lemma {:induction false} OneMoreName(x: string, sorted: seq<string>)
    ensures |Inserted(x, sorted)| == |sorted| + 1
  {
    if sorted != [] && !TextLe(x, sorted[0]) {
      OneMoreName(x, sorted[1..]);
    }
  }

  /** Names come in alphabetical order. */
  lemma AliceComesFirst()
    ensures SortedNames(["bob", "alice"]) == ["alice", "bob"]
  {
    var names := ["bob", "alice"];
    assert names[1..] == ["alice"] && names[1..][1..] == [];
    assert SortedNames(["alice"]) == ["alice"];
    assert !TextLe("bob", "alice");
    assert ["alice"][1..] == [];
    assert Inserted("bob", []) == ["bob"];
  }
}

/** Signed tickets: the text that is signed for a stake, a restake or an airdrop,
    and when a call counts as verified. */
module Tickets {
  import opened Numbers
  import opened Types

  datatype Purpose = ForDeposit | ForRestake | ForAirdrop

  datatype Ticket = Ticket(productId: ProductId, validUntil: Timestamp, timezone: Option<Timezone>)

  /** The contract's own account, and the signature check over key, message and
      signature, which stays abstract. */
  datatype Env = Env(contractId: AccountId, verifies: (string, string, string) -> bool)

  const MAX_TICKET_LIFETIME: nat := 7 * MS_IN_DAY

  // --- Texts ------------------------------------------------------------------

  function Digit(d: nat): char
    requires d < 10
  {
    '0' + d as char
  }

  function Decimal(n: nat): string {
    if n < 10 then [Digit(n)] else Decimal(n / 10) + [Digit(n % 10)]
  }

  function PurposeText(purpose: Purpose): string {
    match purpose
    case ForDeposit => "deposit"
    case ForRestake => "restake"
    case ForAirdrop => "airdrop"
  }

  function DepositMessage(purpose: Purpose, contractId: AccountId, receiver: AccountId, product: ProductId,
                          amount: TokenAmount, validUntil: Timestamp, nonce: nat): string
  {
    PurposeText(purpose) + "," + (contractId + "," + (receiver + "," + (product + "," + (
      Decimal(amount) + "," + (Decimal(nonce) + "," + Decimal(validUntil))))))
  }

  function Join(parts: seq<string>): string {
    if parts == [] then ""
    else if |parts| == 1 then parts[0]
    else parts[0] + "," + Join(parts[1..])
  }

  /** Order on account names, character by character. */
  predicate TextLe(a: string, b: string) {
    a == "" || (b != "" && (a[0] < b[0] || (a[0] == b[0] && TextLe(a[1..], b[1..]))))
  }

  function Inserted(x: string, sorted: seq<string>): seq<string> {
    if sorted == [] || TextLe(x, sorted[0]) then [x] + sorted else [sorted[0]] + Inserted(x, sorted[1..])
  }

  function SortedNames(names: seq<string>): seq<string> {
    if names == [] then [] else Inserted(names[0], SortedNames(names[1..]))
  }

  function AirdropMessage(contractId: AccountId, product: ProductId, amount: TokenAmount,
                          receivers: seq<AccountId>, validUntil: Timestamp): string
  {
    "airdrop" + "," + (contractId + "," + (product + "," + (
      Decimal(amount) + "," + (Decimal(validUntil) + "," + Join(SortedNames(receivers))))))
  }

  // --- Verification -----------------------------------------------------------

  predicate Timely(ticket: Ticket, now: Timestamp) {
    now <= ticket.validUntil <= now + MAX_TICKET_LIFETIME
  }

  /** An unprotected product needs no signature; a protected one needs a timely
      ticket and a signature of exactly this message. */
  predicate Verified(env: Env, product: Product, message: string, ticket: Ticket, signature: Option<string>, now: Timestamp) {
    product.publicKey.Some? ==>
      && signature.Some?
      && Timely(ticket, now)
      && env.verifies(product.publicKey.value, message, signature.value)
  }
}

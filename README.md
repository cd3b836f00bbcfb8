# Nina royalty ledger in Dafny

This project models the royalty ledger of the Nina royalty program, a Solana
program written in Rust with Anchor. The ledger is one `Royalty` account. It
holds:

- the keys of the account's authority, escrow token account and signer;
- a resale percentage, which is stored but never read;
- five sale counters: the total collected, and a count and a total for each of
  primary and secondary sales;
- a ring of ten `RoyaltyRecipient` slots, addressed by two cursors, `head`
  and `tail`, that only ever increase.

Each recipient holds a share in millionths (1,000,000 = 100%), an `owed`
balance and a lifetime `collected` total.

The model has three modules:

- `Ledger` (`ledger.dfy`) holds the values: keys, recipient slots, errors, and
  the `Option` and `Result` wrappers. It also holds the functions that specify
  the record's helpers: `IndexOf` (cursor to slot), `FirstMatch` (lookup by
  key), `ShareSum` (sum of all ten shares) and `TransferShare` (the slots
  after a share transfer). Lemmas state how the share sum behaves under slot
  updates and transfers.
- `Accrual` (`accrual.dfy`) holds the rule that credits a deposit to the
  recipients, as the program computes it. It also holds the proportional rule
  that the code evidently meant (see Findings), with what each rule
  guarantees for a whole ring.
- `RoyaltyProgram` (`royalty.dfy`) holds the class `Royalty`. Its fields are
  the account's fields, and it has a `const` array of ten slots. Its methods
  are the record's helpers `append`, `update_royalty_recipient_owed`,
  `find_royalty_recipient` and `royalty_equals_1000000`, plus the bodies of
  the four instructions:
  - `initialize_royalty`
  - `process_royalty_deposit`
  - `collect_royalty`
  - `add_royalty_recipient`

  Each loop of the source is a `while` loop with its invariants. Each
  instruction's `ensures` states the whole new state in terms of the
  `Ledger` and `Accrual` functions.

Modelling decisions:

- **Token transfers.** Each token transfer through the token program becomes a
  `transferSucceeds` parameter. When it is false, the instruction fails with
  `TokenTransferFailed`.
- **Failed lookup.** In `collect_royalty` and `add_royalty_recipient`, a
  lookup that finds no slot hits `unwrap`, and the instruction panics. The
  model returns `Err(RecipientNotFound)` instead. The declared error
  `InvalidRoyaltyRecipient` is never raised by the code, so the model does not
  use it.
- **Failed instructions.** The runtime discards every account write of an
  instruction that fails, so an instruction that returns an error leaves the
  account as it found it. `add_royalty_recipient` writes to the record before
  each of its two checks. The collect at lines 145-146 comes before the share
  check at line 149. The split and append at lines 154-166 come after that
  check and before the sum check at line 169. `AddRoyaltyRecipient` performs
  those writes in the same order. When a check fails, it restores the snapshot
  taken on entry (`Discard`).
- **Behaviours of the code that the model keeps as written:**
  - The share is divided by 1,000,000 before it multiplies the deposit
    (line 259), not after.
  - A missing recipient is a panic, not a named error.
  - Writes happen before validation. The runtime's rollback hides this.
  - `append` has no capacity check. It silently overwrites slot
    `head % 10`. `tail` advances when the ring is full but is read by nothing
    else: lookups and the share sum scan all ten slots.
  - The overwrite is nevertheless safe. From a 100% state, the sum check
    after the append passes exactly when the overwritten slot held no share.
    A slot without a share never owes anything (`NoStrandedOwed`), so an
    overwrite that survives the check loses no owed balance
    (`TransferEvictsNothingOwed`).

## Model

| member | source | states |
|---|---|---|
| `Ledger.IndexOf` | programs/nina-royalty-program/src/lib.rs:287-289 | a cursor designates one of the ten slots, and a cursor below ten designates its own slot |
| `Ledger.NextCollidesWithTail` | programs/nina-royalty-program/src/lib.rs:250-252 | with `tail <= head <= tail + 9`, the slot after `head` equals the slot of `tail` exactly when `head == tail + 9`, i.e. when the ring is full |
| `RoyaltyProgram.Royalty.Append` | programs/nina-royalty-program/src/lib.rs:248-254 | writes the entry at slot `head % 10`, leaves the other nine slots unchanged, raises `head` by exactly 1, raises `tail` by 1 exactly when the ring was full, and keeps `tail <= head <= tail + 9` |
| `Accrual.AccrueOne` | programs/nina-royalty-program/src/lib.rs:258-260 | a deposit never touches share, collected or keys and never lowers `owed`; a slot with a share below 100% (zero included) is left unchanged; a slot holding exactly 100% gains exactly the deposit |
| `Accrual.Accrue` | programs/nina-royalty-program/src/lib.rs:256-262 | crediting the ring keeps its ten slots |
| `RoyaltyProgram.Royalty.UpdateRoyaltyRecipientOwed` | programs/nina-royalty-program/src/lib.rs:256-262 | every slot ends as `AccrueOne` of its old value |
| `Accrual.AccrueCredit` | programs/nina-royalty-program/src/lib.rs:256-262 | a deposit raises the total owed by `amount` once for every whole 100% unit among the shares |
| `Accrual.DepositCreditAsWritten` | programs/nina-royalty-program/src/lib.rs:259 | with shares summing to 100%, the total owed grows by the whole deposit if one recipient holds 100%, and by nothing otherwise |
| `Accrual.SplitShareDepositIsLost` | programs/nina-royalty-program/src/lib.rs:259 | recipients at 75% and 25% (sum 100%) gain nothing from a deposit of 1,000 |
| `Accrual.IntendedAccrueOne` | programs/nina-royalty-program/src/lib.rs:259 | the proportional rule gains `floor(amount * share / 1,000,000)` and changes nothing else |
| `Accrual.IntendedCreditBounds` | programs/nina-royalty-program/src/lib.rs:256-262 | under the proportional rule, gain × 1,000,000 is at most `amount × sum of shares`, and the shortfall is below one unit per slot |
| `Accrual.DepositCreditIntended` | programs/nina-royalty-program/src/lib.rs:256-262 | under the proportional rule with shares summing to 100%, the total owed grows by at most the deposit and by more than the deposit minus the slot count |
| `Ledger.FirstMatch` | programs/nina-royalty-program/src/lib.rs:264-271 | the lowest-indexed slot whose authority is the key, and None exactly when no slot has it |
| `RoyaltyProgram.Royalty.FindRoyaltyRecipient` | programs/nina-royalty-program/src/lib.rs:264-271 | the linear scan returns the `FirstMatch` of the ten slots |
| `Ledger.ShareSumUpdate` | programs/nina-royalty-program/src/lib.rs:274-277 | replacing one slot changes the sum of shares by the new share minus the old one |
| `Ledger.ShareSumSameShares` | programs/nina-royalty-program/src/lib.rs:274-277 | two rings with the same shares slot by slot have the same share sum |
| `Ledger.ZeroSharesSumToZero` | programs/nina-royalty-program/src/lib.rs:274-277 | slots that hold no share add up to zero |
| `RoyaltyProgram.Royalty.RoyaltyEquals1000000` | programs/nina-royalty-program/src/lib.rs:273-285 | true if and only if the shares of all ten slots, occupied or not, sum to 1,000,000 |
| `RoyaltyProgram.Royalty.Allocate` | programs/nina-royalty-program/src/lib.rs:230-245 | a freshly allocated account: ten slots, each the all-zero slot; the key fields are the all-zero key; counters, resale percentage, nonce and cursors are 0 |
| `RoyaltyProgram.Royalty.InitializeRoyalty` | programs/nina-royalty-program/src/lib.rs:29-51 | stores the keys, resale percentage and nonce; zeroes the five counters; appends the authority with share 1,000,000 and zero owed and collected. On a zero-filled account, slot 0 is that entry and the share sum is 1,000,000 |
| `RoyaltyProgram.Royalty.ProcessRoyaltyDeposit` | programs/nina-royalty-program/src/lib.rs:61-84 | a failed token transfer changes nothing. Otherwise it adds `amount` to `total_collected`; it raises exactly one sale counter by 1 and adds `amount` to that counter's total, leaving the other pair unchanged; and it credits the ring with `Accrue`. The share sum and `total_collected == primary_sale_total + secondary_sale_total` are preserved |
| `Ledger.Collected` | programs/nina-royalty-program/src/lib.rs:113-114 | after collecting, `owed` is 0 and `collected` grew by the old `owed`; the share is unchanged; a slot owing nothing is left as it is |
| `RoyaltyProgram.Royalty.CollectRoyalty` | programs/nina-royalty-program/src/lib.rs:93-116 | with no matching slot it fails with `RecipientNotFound`, and with a failed transfer it fails with `TokenTransferFailed`; failure changes nothing. Otherwise it pays the first matching slot's `owed` and replaces only that slot by its `Collected` form. Paying 0 changes nothing |
| `Ledger.CollectIsIdempotent` | programs/nina-royalty-program/src/lib.rs:110-114 | after one collect the key still finds the same slot, which owes 0, so a second collect changes nothing |
| `Ledger.TransferShare` | programs/nina-royalty-program/src/lib.rs:145-166 | the new entry sits at the head slot. If that slot is not the caller's, the caller's share drops by exactly the transferred amount, its owed is 0 and its collected grew by its old owed. Every other slot is unchanged |
| `Ledger.ShareSumAfterTransfer` | programs/nina-royalty-program/src/lib.rs:154-169 | a transfer keeps the share sum except for the share still held by the slot the append overwrote |
| `Ledger.TransferKeepsFullShare` | programs/nina-royalty-program/src/lib.rs:149-173 | from a 100% state, the sum check after a transfer passes if and only if the overwritten slot held share 0 after the caller's debit |
| `Ledger.TransferEvictsNothingOwed` | programs/nina-royalty-program/src/lib.rs:157-173 | when the sum check passes from a 100% state in which zero-share slots owe nothing, the overwritten slot had neither share nor owed balance, and zero-share slots still owe nothing afterwards |
| `RoyaltyProgram.Royalty.AddRoyaltyRecipient` | programs/nina-royalty-program/src/lib.rs:125-173 | possible outcomes: `RecipientNotFound`; `TokenTransferFailed`; `RoyaltyTransferTooLarge` when the transfer exceeds the caller's share; otherwise success if and only if the `TransferShare` ring sums to 100%, else `RoyaltyExceeds100Percent`. On success the ring becomes that ring, `head` rises by 1 and the caller's old owed is paid; on any error nothing changes |

## Findings

| source | as written | input that shows it | evidently intended | confidence | as-written member | corrected member |
|---|---|---|---|---|---|---|
| programs/nina-royalty-program/src/lib.rs:259 | `owed += amount * (percent_share / 1000000)` divides first, so any share below 100% truncates to 0 and accrues nothing | two recipients at 750,000 and 250,000, as the repository's test leaves them, and a deposit of 1,000: neither gains anything | `amount * percent_share / 1000000`, the proportional cut with a rounding loss below one unit per slot | high; not executed | `Accrual.SplitShareDepositIsLost` | `Accrual.DepositCreditIntended` |

`Accrual.DepositCreditAsWritten` gives the general form of the as-written
behaviour. `Accrual.IntendedAccrueOne` and `Accrual.IntendedCreditBounds`
define and bound the corrected rule. The class methods keep the rule as
written, so that they describe the deployed program. The corrected rule
stands beside it and is not wired into `ProcessRoyaltyDeposit`.

## Left out

- Token transfers through the token program (lib.rs:63-71, 98-110, 130-142) become the boolean `transferSucceeds`. Token-account balances are not modelled, and neither is the escrow holding what deposits bring in.
- The PDA signer seeds and the `nonce` argument of `collect_royalty` and `add_royalty_recipient` (lib.rs:104-108, 136-140) are left out: key derivation belongs to the runtime. The `nonce` stored at initialisation is kept as a field.
- Anchor account validation (lib.rs:177-228), `load_init`/`load_mut`, the `zero_copy` layout and the rent sysvar are left out. The only trace of them is `Allocate`, which yields the zero-filled account that `#[account(init)]` hands over. No signer check is modelled: `caller` is whatever authority key the instruction is given. The source's `CollectRoyalty` and `AddRoyaltyRecipient` account structs do not require that key to sign either.
- `resale_percentage` is stored by `InitializeRoyalty` and read by nothing.
- The recipients' `royalty` and `royalty_recipient_usdc_token_account` fields are stored as opaque keys only.
- RoyaltyProgram.Royalty.ProcessRoyaltyDeposit: counters and totals are unbounded `nat`s. The u64 `+=` overflow (a panic or a wrap-around) is not modelled.
- RoyaltyProgram.Royalty.UpdateRoyaltyRecipientOwed: `owed` and the product `amount * (percent_share / 1000000)` are unbounded. u64 overflow is not modelled.
- RoyaltyProgram.Royalty.CollectRoyalty: `collected` is unbounded. u64 overflow is not modelled.
- RoyaltyProgram.Royalty.Append: `head` and `tail` are unbounded. u64 overflow of the cursors is not modelled.
- RoyaltyProgram.Royalty.RoyaltyEquals1000000: the accumulator of lib.rs:274 is an unbounded `nat`. Its u64 overflow is not modelled; it cannot arise in reachable states, where every share is at most 1,000,000.
- `tests/nina-royalty-program.js` drives a live validator. It serves only as evidence for the properties above.

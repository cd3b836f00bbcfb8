/** Values of the royalty ledger: keys, recipient slots, errors, and the
    functions that specify the slot helpers of a `Royalty` record
    (lookup by key, sum of shares, cursor-to-slot mapping, share transfer). */
module Ledger {

  /** Number of recipient slots embedded in every `Royalty` record. */
  const Capacity: nat := 10

  /** Fixed-point scale of `percentShare`: 1,000,000 stands for 100%. */
  const Million: nat := 1000000

  /** A 32-byte public key. The ledger only ever compares keys for equality. */
  type Pubkey = k: seq<bv8> | |k| == 32 witness seq(32, _ => 0 as bv8)

  /** The all-zero key held by every key field of a freshly allocated account. */
  const ZeroKey: Pubkey := seq(32, _ => 0 as bv8)

  /** One slot of the recipient ring. `royalty` and `usdcTokenAccount` are
      stored but never read by the ledger. */
  datatype Recipient = Recipient(
    authority: Pubkey,
    royalty: Pubkey,
    usdcTokenAccount: Pubkey,
    percentShare: nat,
    owed: nat,
    collected: nat)

  /** The content of a slot in a zero-filled account. */
  const EmptySlot: Recipient := Recipient(ZeroKey, ZeroKey, ZeroKey, 0, 0, 0)

  /** Why an instruction fails. `RecipientNotFound` stands for the panic of
      `unwrap` on a failed lookup; `TokenTransferFailed` for an error returned
      by the token program. */
  datatype Error =
    | RecipientNotFound
    | TokenTransferFailed
    | RoyaltyTransferTooLarge
    | RoyaltyExceeds100Percent

  datatype Option<T> = None | Some(value: T)

  datatype Result<T> = Ok(value: T) | Err(error: Error)

  /** The slot that a monotonically increasing cursor designates. */
  function IndexOf(counter: nat): (i: nat)
    ensures i < Capacity
    ensures counter < Capacity ==> i == counter
  {
    counter % Capacity
  }

  /** With the cursors at most nine apart, the slot after `head` is the slot
      of `tail` exactly when the window is full: this is when `append`
      advances `tail`. */
  lemma NextCollidesWithTail(head: nat, tail: nat)
    requires tail <= head <= tail + Capacity - 1
    ensures IndexOf(head + 1) == IndexOf(tail) <==> head == tail + Capacity - 1
  {
  }

  /** Sum of `percentShare` over every slot, occupied or not. */
  function ShareSum(s: seq<Recipient>): nat
  {
    if |s| == 0 then 0 else ShareSum(s[..|s| - 1]) + s[|s| - 1].percentShare
  }

  /** Replacing one slot changes the sum by the difference of the two shares. */
  lemma {:induction false} ShareSumUpdate(s: seq<Recipient>, i: nat, r: Recipient)
    requires i < |s|
    ensures ShareSum(s[i := r]) + s[i].percentShare == ShareSum(s) + r.percentShare
  {
    var n := |s| - 1;
    if i < n {
      assert s[i := r][..n] == s[..n][i := r];
      ShareSumUpdate(s[..n], i, r);
    } else {
      assert s[i := r][..n] == s[..n];
    }
  }

  /** The sum depends only on the shares. */
  lemma {:induction false} ShareSumSameShares(s: seq<Recipient>, u: seq<Recipient>)
    requires |s| == |u|
    requires forall i :: 0 <= i < |s| ==> s[i].percentShare == u[i].percentShare
    ensures ShareSum(s) == ShareSum(u)
  {
    if |s| > 0 {
      ShareSumSameShares(s[..|s| - 1], u[..|u| - 1]);
    }
  }

  /** Slots that hold no share add up to nothing. */
  lemma {:induction false} ZeroSharesSumToZero(s: seq<Recipient>)
    requires forall i :: 0 <= i < |s| ==> s[i].percentShare == 0
    ensures ShareSum(s) == 0
  {
    if |s| > 0 {
      ZeroSharesSumToZero(s[..|s| - 1]);
    }
  }

  /** No single slot holds more than the sum. */
  lemma {:induction false} ShareAtMostSum(s: seq<Recipient>, i: nat)
    requires i < |s|
    ensures s[i].percentShare <= ShareSum(s)
  {
    if i < |s| - 1 {
      ShareAtMostSum(s[..|s| - 1], i);
    }
  }

  /** The lowest-indexed slot whose authority is `key`, or None when no slot has it. */
  function FirstMatch(s: seq<Recipient>, key: Pubkey): (r: Option<nat>)
    ensures r.Some? ==> r.value < |s| && s[r.value].authority == key
    ensures r.Some? ==> forall j :: 0 <= j < r.value ==> s[j].authority != key
    ensures r.None? <==> forall j :: 0 <= j < |s| ==> s[j].authority != key
  {
    if |s| == 0 then None
    else if s[0].authority == key then Some(0)
    else match FirstMatch(s[1..], key)
      case None => None
      case Some(i) => Some(i + 1)
  }

  /** A slot after its owed balance is paid out. */
  function Collected(r: Recipient): (c: Recipient)
    ensures c.owed == 0 && c.collected == r.collected + r.owed
    ensures c.percentShare == r.percentShare && c.authority == r.authority
    ensures r.owed == 0 ==> c == r
  {
    r.(collected := r.collected + r.owed, owed := 0)
  }

  /** Collecting does not change which slot a key finds, so a second collect
      with no deposit in between pays nothing and changes nothing. */
  lemma CollectIsIdempotent(s: seq<Recipient>, key: Pubkey)
    requires FirstMatch(s, key).Some?
    ensures var i := FirstMatch(s, key).value;
            var once := s[i := Collected(s[i])];
            FirstMatch(once, key) == Some(i) && once[i].owed == 0 &&
            once[i := Collected(once[i])] == once
  {
  }

  /** Every slot without a share has nothing owed to it. */
  ghost predicate NoStrandedOwed(s: seq<Recipient>)
  {
    forall i :: 0 <= i < |s| && s[i].percentShare == 0 ==> s[i].owed == 0
  }

  /** The slots after the recipient in slot `c` collects, gives up `t` of its
      share, and the new recipient `entry` is written at slot `h`. */
  function TransferShare(s: seq<Recipient>, c: nat, h: nat, t: nat, entry: Recipient): (u: seq<Recipient>)
    requires c < |s| && h < |s| && t <= s[c].percentShare
    ensures |u| == |s| && u[h] == entry
    ensures h != c ==> u[c].percentShare == s[c].percentShare - t && u[c].owed == 0
    ensures h != c ==> u[c].collected == s[c].collected + s[c].owed
    ensures forall j :: 0 <= j < |s| && j != c && j != h ==> u[j] == s[j]
  {
    s[c := Collected(s[c]).(percentShare := s[c].percentShare - t)][h := entry]
  }

  /** What the slot at `h` holds just before `entry` overwrites it. */
  function Overwritten(s: seq<Recipient>, c: nat, h: nat, t: nat): Recipient
    requires c < |s| && h < |s| && t <= s[c].percentShare
  {
    if h == c then Collected(s[c]).(percentShare := s[c].percentShare - t) else s[h]
  }

  /** A transfer moves `t` from one slot to another and loses whatever share
      the overwritten slot still held. */
  lemma {:induction false} ShareSumAfterTransfer(s: seq<Recipient>, c: nat, h: nat, t: nat, entry: Recipient)
    requires c < |s| && h < |s| && t <= s[c].percentShare
    requires entry.percentShare == t
    ensures ShareSum(TransferShare(s, c, h, t, entry)) + Overwritten(s, c, h, t).percentShare
            == ShareSum(s)
  {
    var d := Collected(s[c]).(percentShare := s[c].percentShare - t);
    var debited := s[c := d];
    var after := debited[h := entry];
    ShareSumUpdate(s, c, d);
    ShareSumUpdate(debited, h, entry);
    var before, mid, end := ShareSum(s), ShareSum(debited), ShareSum(after);
    assert mid + s[c].percentShare == before + s[c].percentShare - t;
    assert end + debited[h].percentShare == mid + t;
    assert after == TransferShare(s, c, h, t, entry);
    assert debited[h] == Overwritten(s, c, h, t);
    assert end + debited[h].percentShare == before;
  }

  /** From a 100% state, the sum check after a transfer passes exactly when the
      overwritten slot no longer held any share. */
  lemma {:induction false} TransferKeepsFullShare(s: seq<Recipient>, c: nat, h: nat, t: nat, entry: Recipient)
    requires c < |s| && h < |s| && t <= s[c].percentShare
    requires entry.percentShare == t
    requires ShareSum(s) == Million
    ensures ShareSum(TransferShare(s, c, h, t, entry)) == Million
            <==> Overwritten(s, c, h, t).percentShare == 0
  {
    ShareSumAfterTransfer(s, c, h, t, entry);
  }

  /** When a transfer from a 100% state passes the sum check, the recipient it
      overwrites held neither share nor owed balance: the ring's silent
      overwrite loses no money as long as every zero-share slot owes nothing. */
  lemma {:induction false} TransferEvictsNothingOwed(s: seq<Recipient>, c: nat, h: nat, t: nat, entry: Recipient)
    requires c < |s| && h < |s| && t <= s[c].percentShare
    requires entry.percentShare == t && entry.owed == 0
    requires ShareSum(s) == Million && NoStrandedOwed(s)
    requires ShareSum(TransferShare(s, c, h, t, entry)) == Million
    ensures Overwritten(s, c, h, t).percentShare == 0 && Overwritten(s, c, h, t).owed == 0
    ensures NoStrandedOwed(TransferShare(s, c, h, t, entry))
  {
    TransferKeepsFullShare(s, c, h, t, entry);
  }
}

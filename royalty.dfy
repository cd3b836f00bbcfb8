/** The `Royalty` account: aggregate sale counters and a ring of ten
    recipient slots addressed by the cursors `head` and `tail`, with the
    record's helpers and the bodies of the four instructions that change it.

    The token program is not modelled: each instruction that moves tokens
    takes `transferSucceeds`, the outcome of that transfer. An instruction
    that returns an error leaves the account as it found it, because the
    runtime discards the writes of a failed instruction. */
module RoyaltyProgram {
  import opened Ledger
  import opened Accrual

  class Royalty {
    /** The account's own address, stored in the `royalty` field of every
        recipient the instructions create. */
    const address: Pubkey
    var authority: Pubkey
    var royaltyUsdcTokenAccount: Pubkey
    var royaltySigner: Pubkey
    var resalePercentage: nat
    var totalCollected: nat
    var primarySaleCounter: nat
    var primarySaleTotal: nat
    var secondarySaleCounter: nat
    var secondarySaleTotal: nat
    var nonce: bv8
    var head: nat
    var tail: nat
    const royaltyRecipients: array<Recipient>

    /** Ten slots, the cursors at most nine apart, and every deposit counted
        as either primary or secondary. */
    ghost predicate Valid()
      reads this
    {
      royaltyRecipients.Length == Capacity &&
      tail <= head <= tail + Capacity - 1 &&
      totalCollected == primarySaleTotal + secondarySaleTotal
    }

    /** The state of an account the system has just allocated: all zero. */
    ghost predicate Zeroed()
      reads this, royaltyRecipients
    {
      head == 0 && tail == 0 &&
      forall i :: 0 <= i < royaltyRecipients.Length ==> royaltyRecipients[i] == EmptySlot
    }

    /** A freshly allocated, zero-filled account at `address`. */
    constructor Allocate(address: Pubkey)
      ensures Valid() && Zeroed() && fresh(royaltyRecipients)
      ensures this.address == address
      ensures totalCollected == primarySaleCounter == primarySaleTotal == 0
      ensures secondarySaleCounter == secondarySaleTotal == resalePercentage == 0
      ensures authority == royaltyUsdcTokenAccount == royaltySigner == ZeroKey && nonce == 0
    {
      this.address := address;
      authority, royaltyUsdcTokenAccount, royaltySigner := ZeroKey, ZeroKey, ZeroKey;
      resalePercentage, totalCollected := 0, 0;
      primarySaleCounter, primarySaleTotal := 0, 0;
      secondarySaleCounter, secondarySaleTotal := 0, 0;
      nonce, head, tail := 0, 0, 0;
      royaltyRecipients := new Recipient[Capacity](_ => EmptySlot);
    }

    /** Writes `entry` at the slot of `head`, advances `tail` when the ring is
        full, and advances `head`. */
    method Append(entry: Recipient)
      requires Valid()
      modifies this`head, this`tail, royaltyRecipients
      ensures Valid()
      ensures royaltyRecipients[..] == old(royaltyRecipients[..])[IndexOf(old(head)) := entry]
      ensures head == old(head) + 1
      ensures tail == if old(head) == old(tail) + Capacity - 1 then old(tail) + 1 else old(tail)
    {
      NextCollidesWithTail(head, tail);
      royaltyRecipients[IndexOf(head)] := entry;
      if IndexOf(head + 1) == IndexOf(tail) {
        tail := tail + 1;
      }
      head := head + 1;
    }

    /** Credits every slot that holds a share with its cut of `amount`. */
    method UpdateRoyaltyRecipientOwed(amount: nat)
      requires Valid()
      modifies royaltyRecipients
      ensures royaltyRecipients[..] == Accrue(old(royaltyRecipients[..]), amount)
    {
      var i := 0;
      while i < royaltyRecipients.Length
        invariant 0 <= i <= royaltyRecipients.Length
        invariant forall j :: 0 <= j < i ==> royaltyRecipients[j] == AccrueOne(old(royaltyRecipients[j]), amount)
        invariant forall j :: i <= j < royaltyRecipients.Length ==> royaltyRecipients[j] == old(royaltyRecipients[j])
      {
        var r := royaltyRecipients[i];
        if r.percentShare > 0 {
          royaltyRecipients[i] := r.(owed := r.owed + amount * (r.percentShare / Million));
        }
        i := i + 1;
      }
    }

    /** The first slot, in index order, whose authority is `key`. */
    method FindRoyaltyRecipient(key: Pubkey) returns (found: Option<nat>)
      requires Valid()
      ensures found == FirstMatch(royaltyRecipients[..], key)
    {
      var i := 0;
      while i < royaltyRecipients.Length
        invariant 0 <= i <= royaltyRecipients.Length
        invariant forall j :: 0 <= j < i ==> royaltyRecipients[j].authority != key
      {
        if royaltyRecipients[i].authority == key {
          return Some(i);
        }
        i := i + 1;
      }
      return None;
    }

    /** Whether the shares of all ten slots add up to exactly 100%. */
    method RoyaltyEquals1000000() returns (b: bool)
      requires Valid()
      ensures b <==> ShareSum(royaltyRecipients[..]) == Million
    {
      var counter := 0;
      var i := 0;
      while i < royaltyRecipients.Length
        invariant 0 <= i <= royaltyRecipients.Length
        invariant counter == ShareSum(royaltyRecipients[..i])
      {
        assert royaltyRecipients[..i + 1][..i] == royaltyRecipients[..i];
        counter := counter + royaltyRecipients[i].percentShare;
        i := i + 1;
      }
      assert royaltyRecipients[..i] == royaltyRecipients[..];
      b := counter == Million;
    }

    /** Puts the slots and cursors back as they were when an instruction
        started: the runtime's discarding of a failed instruction's writes. */
    method Discard(slots: seq<Recipient>, savedHead: nat, savedTail: nat)
      requires royaltyRecipients.Length == |slots|
      modifies this`head, this`tail, royaltyRecipients
      ensures royaltyRecipients[..] == slots && head == savedHead && tail == savedTail
    {
      forall i | 0 <= i < royaltyRecipients.Length {
        royaltyRecipients[i] := slots[i];
      }
      head, tail := savedHead, savedTail;
    }

    /** Sets the account's keys and configuration, zeroes the counters and
        appends the authority as the one recipient with a 100% share. */
    method InitializeRoyalty(authority: Pubkey, authorityUsdcTokenAccount: Pubkey,
                             royaltyUsdcTokenAccount: Pubkey, royaltySigner: Pubkey,
                             resalePercentage: nat, nonce: bv8)
      requires Valid()
      modifies this, royaltyRecipients
      ensures Valid()
      ensures this.authority == authority && this.royaltySigner == royaltySigner
      ensures this.royaltyUsdcTokenAccount == royaltyUsdcTokenAccount
      ensures this.resalePercentage == resalePercentage && this.nonce == nonce
      ensures totalCollected == primarySaleCounter == primarySaleTotal == 0
      ensures secondarySaleCounter == secondarySaleTotal == 0
      ensures royaltyRecipients[..] == old(royaltyRecipients[..])[IndexOf(old(head)) :=
                Recipient(authority, address, authorityUsdcTokenAccount, Million, 0, 0)]
      ensures head == old(head) + 1
      ensures tail == if old(head) == old(tail) + Capacity - 1 then old(tail) + 1 else old(tail)
      ensures NoStrandedOwed(old(royaltyRecipients[..])) ==> NoStrandedOwed(royaltyRecipients[..])
      ensures old(Zeroed()) ==>
                royaltyRecipients[0] == Recipient(authority, address, authorityUsdcTokenAccount, Million, 0, 0) &&
                ShareSum(royaltyRecipients[..]) == Million && NoStrandedOwed(royaltyRecipients[..])
    {
      ghost var before := royaltyRecipients[..];
      ghost var wasZeroed := Zeroed();
      this.authority := authority;
      this.royaltyUsdcTokenAccount := royaltyUsdcTokenAccount;
      this.royaltySigner := royaltySigner;
      this.resalePercentage := resalePercentage;
      totalCollected := 0;
      primarySaleCounter := 0;
      primarySaleTotal := 0;
      secondarySaleCounter := 0;
      secondarySaleTotal := 0;
      this.nonce := nonce;
      var entry := Recipient(authority, address, authorityUsdcTokenAccount, Million, 0, 0);
      Append(entry);
      if wasZeroed {
        ZeroSharesSumToZero(before);
        ShareSumUpdate(before, 0, entry);
      }
    }

    /** Counts a deposit of `amount` as a primary or a secondary sale and
        credits the recipients. */
    method ProcessRoyaltyDeposit(isPrimary: bool, amount: nat, transferSucceeds: bool)
      returns (r: Result<()>)
      requires Valid()
      modifies this`totalCollected, this`primarySaleCounter, this`primarySaleTotal,
               this`secondarySaleCounter, this`secondarySaleTotal, royaltyRecipients
      ensures Valid()
      ensures r.Ok? <==> transferSucceeds
      ensures r.Err? ==> r.error == TokenTransferFailed
      ensures r.Err? ==> royaltyRecipients[..] == old(royaltyRecipients[..]) &&
                         totalCollected == old(totalCollected) &&
                         primarySaleCounter == old(primarySaleCounter) &&
                         primarySaleTotal == old(primarySaleTotal) &&
                         secondarySaleCounter == old(secondarySaleCounter) &&
                         secondarySaleTotal == old(secondarySaleTotal)
      ensures r.Ok? ==> totalCollected == old(totalCollected) + amount
      ensures r.Ok? && isPrimary ==>
                primarySaleCounter == old(primarySaleCounter) + 1 &&
                primarySaleTotal == old(primarySaleTotal) + amount &&
                secondarySaleCounter == old(secondarySaleCounter) &&
                secondarySaleTotal == old(secondarySaleTotal)
      ensures r.Ok? && !isPrimary ==>
                secondarySaleCounter == old(secondarySaleCounter) + 1 &&
                secondarySaleTotal == old(secondarySaleTotal) + amount &&
                primarySaleCounter == old(primarySaleCounter) &&
                primarySaleTotal == old(primarySaleTotal)
      ensures r.Ok? ==> royaltyRecipients[..] == Accrue(old(royaltyRecipients[..]), amount)
      ensures ShareSum(royaltyRecipients[..]) == old(ShareSum(royaltyRecipients[..]))
      ensures NoStrandedOwed(old(royaltyRecipients[..])) ==> NoStrandedOwed(royaltyRecipients[..])
    {
      if !transferSucceeds {
        return Err(TokenTransferFailed);
      }
      totalCollected := totalCollected + amount;
      if isPrimary {
        primarySaleCounter := primarySaleCounter + 1;
        primarySaleTotal := primarySaleTotal + amount;
      } else {
        secondarySaleCounter := secondarySaleCounter + 1;
        secondarySaleTotal := secondarySaleTotal + amount;
      }
      ghost var before := royaltyRecipients[..];
      UpdateRoyaltyRecipientOwed(amount);
      ShareSumSameShares(before, royaltyRecipients[..]);
      r := Ok(());
    }

    /** Pays the caller's owed balance out of escrow and records it as
        collected; the result is the amount paid. */
    method CollectRoyalty(caller: Pubkey, transferSucceeds: bool) returns (r: Result<nat>)
      requires Valid()
      modifies royaltyRecipients
      ensures Valid()
      ensures FirstMatch(old(royaltyRecipients[..]), caller).None? ==> r == Err(RecipientNotFound)
      ensures FirstMatch(old(royaltyRecipients[..]), caller).Some? && !transferSucceeds ==>
                r == Err(TokenTransferFailed)
      ensures r.Ok? <==> FirstMatch(old(royaltyRecipients[..]), caller).Some? && transferSucceeds
      ensures r.Err? ==> royaltyRecipients[..] == old(royaltyRecipients[..])
      ensures r.Ok? ==>
                var i := FirstMatch(old(royaltyRecipients[..]), caller).value;
                r.value == old(royaltyRecipients[i].owed) &&
                royaltyRecipients[..] == old(royaltyRecipients[..])[i := Collected(old(royaltyRecipients[i]))]
      ensures r.Ok? && r.value == 0 ==> royaltyRecipients[..] == old(royaltyRecipients[..])
      ensures ShareSum(royaltyRecipients[..]) == old(ShareSum(royaltyRecipients[..]))
      ensures NoStrandedOwed(old(royaltyRecipients[..])) ==> NoStrandedOwed(royaltyRecipients[..])
    {
      var found := FindRoyaltyRecipient(caller);
      if found.None? {
        return Err(RecipientNotFound);
      }
      var i := found.value;
      if !transferSucceeds {
        return Err(TokenTransferFailed);
      }
      ghost var before := royaltyRecipients[..];
      var paid := royaltyRecipients[i].owed;
      royaltyRecipients[i] := Collected(royaltyRecipients[i]);
      assert royaltyRecipients[..] == before[i := Collected(before[i])];
      ShareSumSameShares(before, royaltyRecipients[..]);
      r := Ok(paid);
    }

    /** The caller collects, gives `percentShareToTransfer` of its share to a
        new recipient appended to the ring, and the shares must still add up
        to 100%; the result is the amount the caller was paid. */
    method AddRoyaltyRecipient(caller: Pubkey, newRecipient: Pubkey, newRecipientUsdcTokenAccount: Pubkey,
                               percentShareToTransfer: nat, transferSucceeds: bool)
      returns (r: Result<nat>)
      requires Valid()
      modifies this`head, this`tail, royaltyRecipients
      ensures Valid()
      ensures FirstMatch(old(royaltyRecipients[..]), caller).None? ==> r == Err(RecipientNotFound)
      ensures FirstMatch(old(royaltyRecipients[..]), caller).Some? && !transferSucceeds ==>
                r == Err(TokenTransferFailed)
      ensures FirstMatch(old(royaltyRecipients[..]), caller).Some? && transferSucceeds ==>
                var c := FirstMatch(old(royaltyRecipients[..]), caller).value;
                (percentShareToTransfer > old(royaltyRecipients[c].percentShare) ==>
                   r == Err(RoyaltyTransferTooLarge)) &&
                (percentShareToTransfer <= old(royaltyRecipients[c].percentShare) ==>
                   var after := TransferShare(old(royaltyRecipients[..]), c, IndexOf(old(head)), percentShareToTransfer,
                                  Recipient(newRecipient, address, newRecipientUsdcTokenAccount, percentShareToTransfer, 0, 0));
                   (ShareSum(after) == Million ==> r == Ok(old(royaltyRecipients[c].owed)) && royaltyRecipients[..] == after) &&
                   (ShareSum(after) != Million ==> r == Err(RoyaltyExceeds100Percent)))
      ensures r.Err? ==> royaltyRecipients[..] == old(royaltyRecipients[..]) && head == old(head) && tail == old(tail)
      ensures r.Ok? ==> head == old(head) + 1 && ShareSum(royaltyRecipients[..]) == Million
      ensures r.Ok? ==> tail == if old(head) == old(tail) + Capacity - 1 then old(tail) + 1 else old(tail)
      ensures r.Ok? && old(ShareSum(royaltyRecipients[..])) == Million && NoStrandedOwed(old(royaltyRecipients[..])) ==>
                NoStrandedOwed(royaltyRecipients[..])
    {
      var found := FindRoyaltyRecipient(caller);
      if found.None? {
        return Err(RecipientNotFound);
      }
      var c := found.value;
      if !transferSucceeds {
        return Err(TokenTransferFailed);
      }
      var savedSlots, savedHead, savedTail := royaltyRecipients[..], head, tail;
      var paid := royaltyRecipients[c].owed;
      royaltyRecipients[c] := Collected(royaltyRecipients[c]);
      if percentShareToTransfer > royaltyRecipients[c].percentShare {
        Discard(savedSlots, savedHead, savedTail);
        return Err(RoyaltyTransferTooLarge);
      }
      royaltyRecipients[c] := royaltyRecipients[c].(percentShare := royaltyRecipients[c].percentShare - percentShareToTransfer);
      var entry := Recipient(newRecipient, address, newRecipientUsdcTokenAccount, percentShareToTransfer, 0, 0);
      Append(entry);
      assert royaltyRecipients[..] == TransferShare(savedSlots, c, IndexOf(savedHead), percentShareToTransfer, entry);
      var ok := RoyaltyEquals1000000();
      if ok {
        r := Ok(paid);
        if ShareSum(savedSlots) == Million && NoStrandedOwed(savedSlots) {
          TransferEvictsNothingOwed(savedSlots, c, IndexOf(savedHead), percentShareToTransfer, entry);
        }
      } else {
        Discard(savedSlots, savedHead, savedTail);
        r := Err(RoyaltyExceeds100Percent);
      }
    }
  }
}

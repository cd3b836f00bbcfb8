/** How a deposit is credited to the recipients' `owed` balances: the rule
    the program applies (the share is divided by 1,000,000 before it
    multiplies the amount), and the proportional rule that order of
    operations evidently meant, each with what it guarantees for a whole
    ring of slots. */
module Accrual {
  import opened Ledger

  /** One slot credited with its cut of a deposit of `amount`, as the program
      computes it: `amount * (percentShare / 1,000,000)`. */
  function AccrueOne(r: Recipient, amount: nat): (a: Recipient)
    ensures a.authority == r.authority && a.royalty == r.royalty
    ensures a.usdcTokenAccount == r.usdcTokenAccount
    ensures a.percentShare == r.percentShare && a.collected == r.collected
    ensures r.owed <= a.owed
    ensures r.percentShare < Million ==> a == r
    ensures r.percentShare == Million ==> a.owed == r.owed + amount
  {
    if r.percentShare > 0 then r.(owed := r.owed + amount * (r.percentShare / Million)) else r
  }

  /** Every slot credited by `AccrueOne`. */
  function Accrue(s: seq<Recipient>, amount: nat): (u: seq<Recipient>)
    ensures |u| == |s|
  {
    seq(|s|, i requires 0 <= i < |s| => AccrueOne(s[i], amount))
  }

  /** Sum of the `owed` balances of every slot. */
  function OwedSum(s: seq<Recipient>): nat
  {
    if |s| == 0 then 0 else OwedSum(s[..|s| - 1]) + s[|s| - 1].owed
  }

  /** Number of whole 100% units among the shares: what the program's rule
      multiplies each deposit by. */
  function WholeShares(s: seq<Recipient>): nat
  {
    if |s| == 0 then 0 else WholeShares(s[..|s| - 1]) + s[|s| - 1].percentShare / Million
  }

  /** A deposit raises the total owed by `amount` once per whole 100% share. */
  lemma {:induction false} AccrueCredit(s: seq<Recipient>, amount: nat)
    ensures OwedSum(Accrue(s, amount)) == OwedSum(s) + amount * WholeShares(s)
  {
    if |s| > 0 {
      var n := |s| - 1;
      var u := Accrue(s, amount);
      assert u[..n] == Accrue(s[..n], amount);
      AccrueCredit(s[..n], amount);
      var w, q := WholeShares(s[..n]), s[n].percentShare / Million;
      var aw, aq := amount * w, amount * q;
      assert u[n].owed == s[n].owed + aq;
      assert OwedSum(u) == OwedSum(s[..n]) + aw + s[n].owed + aq;
      assert WholeShares(s) == w + q;
      Distribute(amount, w, q);
    }
  }

  /** Proof step: multiplication distributes over a sum. */
  lemma Distribute(a: nat, x: nat, y: nat)
    ensures a * (x + y) == a * x + a * y
  {
  }

  /** The whole 100% units, times 1,000,000, never exceed the share sum. */
  lemma {:induction false} WholeSharesBelowSum(s: seq<Recipient>)
    ensures WholeShares(s) * Million <= ShareSum(s)
  {
    if |s| > 0 {
      var n := |s| - 1;
      WholeSharesBelowSum(s[..n]);
      var p := s[n].percentShare;
      assert (p / Million) * Million <= p;
      assert (WholeShares(s[..n]) + p / Million) * Million
          == WholeShares(s[..n]) * Million + (p / Million) * Million;
    }
  }

  /** A slot holding exactly 100% contributes one whole unit. */
  lemma {:induction false} FullHolderCounts(s: seq<Recipient>, i: nat)
    requires i < |s| && s[i].percentShare == Million
    ensures WholeShares(s) >= 1
  {
    if i < |s| - 1 {
      FullHolderCounts(s[..|s| - 1], i);
    }
  }

  /** With every share below 100%, there are no whole units at all. */
  lemma {:induction false} NoFullShareNoWhole(s: seq<Recipient>)
    requires forall i :: 0 <= i < |s| ==> s[i].percentShare < Million
    ensures WholeShares(s) == 0
  {
    if |s| > 0 {
      NoFullShareNoWhole(s[..|s| - 1]);
    }
  }

  /** Whether some slot holds the entire 100% share. */
  ghost predicate HasFullHolder(s: seq<Recipient>)
  {
    exists i :: 0 <= i < |s| && s[i].percentShare == Million
  }

  /** Under the 100% invariant the program credits a deposit in full when one
      recipient holds the entire share and credits nothing at all otherwise. */
  lemma DepositCreditAsWritten(s: seq<Recipient>, amount: nat)
    requires ShareSum(s) == Million
    ensures OwedSum(Accrue(s, amount)) == OwedSum(s) + (if HasFullHolder(s) then amount else 0)
  {
    AccrueCredit(s, amount);
    if HasFullHolder(s) {
      var i :| 0 <= i < |s| && s[i].percentShare == Million;
      FullHolderCounts(s, i);
      WholeSharesBelowSum(s);
      assert WholeShares(s) == 1;
    } else {
      forall i | 0 <= i < |s| ensures s[i].percentShare < Million {
        ShareAtMostSum(s, i);
      }
      NoFullShareNoWhole(s);
    }
  }

  /** Two recipients splitting 75% / 25% (the split the repository's test sets
      up) gain nothing from a deposit of 1,000 under the program's rule. */
  lemma SplitShareDepositIsLost(a: Pubkey, b: Pubkey, account: Pubkey, usdcA: Pubkey, usdcB: Pubkey)
    ensures var s := [Recipient(a, account, usdcA, 750000, 0, 0), Recipient(b, account, usdcB, 250000, 0, 0)];
            ShareSum(s) == Million && OwedSum(Accrue(s, 1000)) == 0
  {
    var s := [Recipient(a, account, usdcA, 750000, 0, 0), Recipient(b, account, usdcB, 250000, 0, 0)];
    assert s[..1] == [s[0]] && s[..1][..0] == [];
    assert ShareSum(s[..1]) == 750000 && OwedSum(s[..1]) == 0;
    assert ShareSum(s) == Million && OwedSum(s) == 0;
    assert !HasFullHolder(s);
    DepositCreditAsWritten(s, 1000);
  }

  /** One slot credited with `amount * percentShare / 1,000,000`: the
      proportional cut, rounded down. */
  function IntendedAccrueOne(r: Recipient, amount: nat): (a: Recipient)
    ensures a.authority == r.authority && a.royalty == r.royalty
    ensures a.usdcTokenAccount == r.usdcTokenAccount
    ensures a.percentShare == r.percentShare && a.collected == r.collected
    ensures r.owed <= a.owed
    ensures (a.owed - r.owed) * Million <= amount * r.percentShare
    ensures amount * r.percentShare < (a.owed - r.owed + 1) * Million
  {
    if r.percentShare > 0 then r.(owed := r.owed + amount * r.percentShare / Million) else r
  }

  /** Every slot credited by `IntendedAccrueOne`. */
  function IntendedAccrue(s: seq<Recipient>, amount: nat): (u: seq<Recipient>)
    ensures |u| == |s|
  {
    seq(|s|, i requires 0 <= i < |s| => IntendedAccrueOne(s[i], amount))
  }

  /** The proportional rule credits at most the deposit, and loses less than
      one unit per slot to rounding. */
  lemma {:induction false} IntendedCreditBounds(s: seq<Recipient>, amount: nat)
    ensures OwedSum(s) <= OwedSum(IntendedAccrue(s, amount))
    ensures (OwedSum(IntendedAccrue(s, amount)) - OwedSum(s)) * Million <= amount * ShareSum(s)
    ensures amount * ShareSum(s)
            <= (OwedSum(IntendedAccrue(s, amount)) - OwedSum(s)) * Million + |s| * (Million - 1)
  {
    if |s| > 0 {
      var n := |s| - 1;
      assert IntendedAccrue(s, amount)[..n] == IntendedAccrue(s[..n], amount);
      IntendedCreditBounds(s[..n], amount);
      var g0 := OwedSum(IntendedAccrue(s[..n], amount)) - OwedSum(s[..n]);
      var g1 := IntendedAccrueOne(s[n], amount).owed - s[n].owed;
      var p0, p1 := ShareSum(s[..n]), s[n].percentShare;
      assert OwedSum(IntendedAccrue(s, amount)) - OwedSum(s) == g0 + g1;
      assert amount * ShareSum(s) == amount * p0 + amount * p1;
      assert (g0 + g1) * Million == g0 * Million + g1 * Million;
      assert |s| * (Million - 1) == n * (Million - 1) + (Million - 1);
    }
  }

  /** Under the 100% invariant the proportional rule credits the deposit up to
      a rounding loss smaller than the number of slots. */
  lemma DepositCreditIntended(s: seq<Recipient>, amount: nat)
    requires ShareSum(s) == Million
    ensures OwedSum(IntendedAccrue(s, amount)) <= OwedSum(s) + amount
    ensures OwedSum(s) + amount < OwedSum(IntendedAccrue(s, amount)) + |s|
  {
    IntendedCreditBounds(s, amount);
    var g := OwedSum(IntendedAccrue(s, amount)) - OwedSum(s);
    assert g * Million <= amount * Million;
    assert amount * Million < (g + |s|) * Million;
  }
}

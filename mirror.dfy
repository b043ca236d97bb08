/**
 * The mirror contract: it issues synth totems 1:1 against base totems it holds in custody.
 *
 * The `pairings` table maps each synth ticker to its base ticker and to the amount of
 * base attributed to it (`baseLocked`). Several synths may share one base; the sum of
 * `baseLocked` over those siblings is the base the contract has already accounted for.
 * Actions read the chain through the Totems helpers and record the actions they send
 * (transfers and burns) in `effects` instead of executing them.
 */
module Mirror {
  import opened Wrappers
  import opened Totems

  /** A row of the `pairings` table, keyed by `synthTicker` and indexed by `baseTicker`. */
  datatype Pairing = Pairing(synthTicker: SymbolCode, baseTicker: SymbolCode, baseLocked: Asset)

  type Table = map<SymbolCode, Pairing>

  /** An inline action the contract sends. */
  datatype Effect =
    | Transfer(contract: Name, from: Name, to: Name, quantity: Asset)
    | Burn(contract: Name, owner: Name, quantity: Asset)

  /** The `check` failures of the mirror actions. */
  datatype MirrorError =
    | BaseTotemMissing
    | SynthTotemMissing
    | MissingAuthority(account: Name)
    | CreatorMismatch
    | PrecisionMismatch
    | SameTicker
    | DuplicatePairing
    | NotFromTotems
    | Library(cause: Error)
    | PaymentNotAccepted
    | NoPairing
    | NotCreator
    | NothingToMint
    | InsufficientReserves

  /** The synths backed by `base`: the range of the `bybase` index for that ticker. */
  function Siblings(table: Table, base: SymbolCode): set<SymbolCode> {
    set k | k in table && table[k].baseTicker == base
  }

  /** The sum of `baseLocked` over the rows `keys`. */
  ghost function Tracked(table: Table, keys: set<SymbolCode>): int
    requires keys <= table.Keys
    decreases keys
  {
    if keys == {} then 0
    else
      var k :| k in keys;
      table[k].baseLocked.amount + Tracked(table, keys - {k})
  }

  /** The base already accounted for: `baseLocked` summed over every synth backed by `base`. */
  ghost function TotalTracked(table: Table, base: SymbolCode): int {
    Tracked(table, Siblings(table, base))
  }

  /**
   * The base the contract holds in custody, as `get_balance` reports it. The precision
   * given here is immaterial: balance rows are keyed by ticker code alone, so `Mint`,
   * which asks with the synth's precision, reads the same amount.
   */
  ghost function Custody(chain: Chain, self: Name, base: SymbolCode): int {
    GetBalance(chain, self, Symbol(base, 0), TotemsContract).amount
  }

  /** The safety invariant: no base is accounted for beyond what is held in custody. */
  ghost predicate Backed(chain: Chain, self: Name, table: Table) {
    forall b :: TotalTracked(table, b) <= Custody(chain, self, b)
  }

  /** The row `p` with `d` more base attributed to it. */
  function Credit(p: Pairing, d: int): Pairing {
    p.(baseLocked := p.baseLocked.(amount := p.baseLocked.amount + d))
  }

  /** Any row may be taken out of a sum first: the sum does not depend on the order. */
  lemma {:induction false} TrackedRemove(table: Table, keys: set<SymbolCode>, k: SymbolCode)
    requires keys <= table.Keys && k in keys
    ensures Tracked(table, keys) == table[k].baseLocked.amount + Tracked(table, keys - {k})
    decreases keys
  {
    var j :| j in keys && Tracked(table, keys) == table[j].baseLocked.amount + Tracked(table, keys - {j});
    if j != k {
      TrackedRemove(table, keys - {j}, k);
      TrackedRemove(table, keys - {k}, j);
      assert keys - {j} - {k} == keys - {k} - {j};
    }
  }

  /** Two tables whose rows `keys` lock the same amounts have the same sum over them. */
  lemma {:induction false} TrackedAgree(t: Table, u: Table, keys: set<SymbolCode>)
    requires keys <= t.Keys && keys <= u.Keys
    requires forall k :: k in keys ==> t[k].baseLocked.amount == u[k].baseLocked.amount
    ensures Tracked(t, keys) == Tracked(u, keys)
    decreases keys
  {
    if keys != {} {
      var k :| k in keys;
      TrackedRemove(t, keys, k);
      TrackedRemove(u, keys, k);
      TrackedAgree(t, u, keys - {k});
    }
  }

  /** Replacing one row among `keys` changes their sum by the change in that row alone. */
  lemma TrackedReplace(table: Table, keys: set<SymbolCode>, k: SymbolCode, p: Pairing)
    requires keys <= table.Keys && k in keys
    ensures Tracked(table[k := p], keys) ==
            Tracked(table, keys) - table[k].baseLocked.amount + p.baseLocked.amount
  {
    TrackedRemove(table, keys, k);
    TrackedRemove(table[k := p], keys, k);
    TrackedAgree(table, table[k := p], keys - {k});
  }

  /**
   * Crediting (or debiting) one row by `d` moves the tracked total of its base by exactly
   * `d` and leaves the total of every other base as it was.
   */
  lemma AdjustTotals(table: Table, k: SymbolCode, d: int, b: SymbolCode)
    requires k in table
    ensures TotalTracked(table[k := Credit(table[k], d)], b) ==
            TotalTracked(table, b) + (if b == table[k].baseTicker then d else 0)
  {
    var u := table[k := Credit(table[k], d)];
    assert Siblings(u, b) == Siblings(table, b);
    if b == table[k].baseTicker {
      TrackedReplace(table, Siblings(table, b), k, Credit(table[k], d));
    } else {
      TrackedAgree(table, u, Siblings(table, b));
    }
  }

  /** A new row locking nothing leaves the tracked total of every base as it was. */
  lemma InsertUnlocked(table: Table, k: SymbolCode, p: Pairing, b: SymbolCode)
    requires k !in table && p.baseLocked.amount == 0
    ensures TotalTracked(table[k := p], b) == TotalTracked(table, b)
  {
    var u := table[k := p];
    if p.baseTicker == b {
      assert Siblings(u, b) == Siblings(table, b) + {k};
      TrackedRemove(u, Siblings(u, b), k);
      assert Siblings(u, b) - {k} == Siblings(table, b);
    } else {
      assert Siblings(u, b) == Siblings(table, b);
    }
    TrackedAgree(table, u, Siblings(table, b));
  }

  class MirrorContract {
    /** The account the contract is deployed on (`get_self()`). */
    const self: Name
    /** The `pairings` table. */
    var pairings: Table
    /** The inline actions sent so far, oldest first. */
    var effects: seq<Effect>

    /**
     * Every row is stored under its synth ticker, is backed by a different ticker, locks
     * a non-negative amount and locks it in its base ticker.
     */
    ghost predicate Valid()
      reads this
    {
      forall k :: k in pairings ==>
        && pairings[k].synthTicker == k
        && pairings[k].baseTicker != k
        && pairings[k].baseLocked.amount >= 0
        && pairings[k].baseLocked.sym.code == pairings[k].baseTicker
    }

    /** A freshly deployed contract has no pairings and has sent nothing. */
    constructor (self: Name)
      ensures Valid() && this.self == self
      ensures pairings == map[] && effects == []
      ensures forall b :: TotalTracked(pairings, b) == 0
    {
      this.self := self;
      pairings := map[];
      effects := [];
    }

    /**
     * The loop of `mint` over the `bybase` index: the sum of `baseLocked` over every
     * pairing backed by `base`.
     */
    method SumBaseLocked(base: SymbolCode) returns (total: int)
      ensures total == TotalTracked(pairings, base)
    {
      var todo := Siblings(pairings, base);
      ghost var done: set<SymbolCode> := {};
      total := 0;
      while todo != {}
        invariant todo !! done && todo + done == Siblings(pairings, base)
        invariant total == Tracked(pairings, done)
        decreases |todo|
      {
        var k :| k in todo;
        total := total + pairings[k].baseLocked.amount;
        TrackedRemove(pairings, done + {k}, k);
        assert done + {k} - {k} == done;
        todo, done := todo - {k}, done + {k};
      }
    }

    /**
     * `setup`: pair the synth totem `synth` with the base totem `base`. `auth` is the set
     * of accounts whose authority the transaction carries.
     */
    method Setup(chain: Chain, auth: set<Name>, synth: Symbol, base: Symbol) returns (r: Outcome<MirrorError>)
      requires Valid()
      modifies this
      ensures Valid() && effects == old(effects)
      ensures base.code !in chain.totems ==> r == Fail(BaseTotemMissing)
      ensures base.code in chain.totems && synth.code !in chain.totems ==> r == Fail(SynthTotemMissing)
      ensures base.code in chain.totems && synth.code in chain.totems ==>
        var creator := chain.totems[base.code].creator;
        && (creator !in auth ==> r == Fail(MissingAuthority(creator)))
        && (creator in auth && chain.totems[synth.code].creator != creator ==> r == Fail(CreatorMismatch))
      ensures r.Pass? <==>
        && base.code in chain.totems && synth.code in chain.totems
        && chain.totems[base.code].creator in auth
        && chain.totems[synth.code].creator == chain.totems[base.code].creator
        && synth.precision == base.precision
        && synth != base
        && synth.code !in old(pairings)
      ensures base.code in chain.totems && synth.code in chain.totems
              && chain.totems[base.code].creator in auth
              && chain.totems[synth.code].creator == chain.totems[base.code].creator ==>
        && (synth.precision != base.precision ==> r == Fail(PrecisionMismatch))
        && (synth.precision == base.precision && synth == base ==> r == Fail(SameTicker))
        && (synth.precision == base.precision && synth != base && synth.code in old(pairings) ==>
              r == Fail(DuplicatePairing))
      ensures r.Fail? ==> pairings == old(pairings)
      ensures r.Pass? ==>
        && pairings.Keys == old(pairings).Keys + {synth.code}
        && pairings[synth.code] == Pairing(synth.code, base.code, Asset(0, base))
        && (forall k :: k in old(pairings) ==> pairings[k] == old(pairings)[k])
        && (forall b :: TotalTracked(pairings, b) == TotalTracked(old(pairings), b))
    {
      var baseTotem := GetTotem(chain, base.code);
      if baseTotem.None? { return Fail(BaseTotemMissing); }
      var synthTotem := GetTotem(chain, synth.code);
      if synthTotem.None? { return Fail(SynthTotemMissing); }
      if baseTotem.value.creator !in auth { return Fail(MissingAuthority(baseTotem.value.creator)); }
      if baseTotem.value.creator != synthTotem.value.creator { return Fail(CreatorMismatch); }
      if synth.precision != base.precision { return Fail(PrecisionMismatch); }
      if synth == base { return Fail(SameTicker); }
      if synth.code in pairings { return Fail(DuplicatePairing); }

      var row := Pairing(synth.code, base.code, Asset(0, base));
      forall b ensures TotalTracked(pairings[synth.code := row], b) == TotalTracked(pairings, b) {
        InsertUnlocked(pairings, synth.code, row, b);
      }
      pairings := pairings[synth.code := row];
      r := Pass;
    }

    /**
     * `mint`, called by the Totems contract when `minter` mints the synth of `quantity`
     * through this mod. `sender` is the contract that sent the call. Only the symbol of
     * `quantity` is used: the amount minted is the base deposited but not yet tracked.
     */
    method Mint(chain: Chain, sender: Name, minter: Name, quantity: Asset, payment: Asset)
      returns (r: Outcome<MirrorError>)
      requires Valid()
      modifies this
      ensures Valid()
      ensures sender != TotemsContract ==> r == Fail(NotFromTotems)
      ensures sender == TotemsContract && !Licensed(chain, quantity.sym.code, self) ==>
                r == Fail(Library(ModNotLicensed(self)))
      ensures sender == TotemsContract && Licensed(chain, quantity.sym.code, self) ==>
        && (payment.amount != 0 ==> r == Fail(PaymentNotAccepted))
        && (payment.amount == 0 && quantity.sym.code !in old(pairings) ==> r == Fail(NoPairing))
      ensures sender == TotemsContract && Licensed(chain, quantity.sym.code, self)
              && payment.amount == 0 && quantity.sym.code in old(pairings) ==>
        && (quantity.sym.code !in chain.totems ==> r == Fail(SynthTotemMissing))
        && (quantity.sym.code in chain.totems && minter != chain.totems[quantity.sym.code].creator ==>
              r == Fail(NotCreator))
        && (quantity.sym.code in chain.totems && minter == chain.totems[quantity.sym.code].creator ==>
              var base := old(pairings)[quantity.sym.code].baseTicker;
              var delta := Custody(chain, self, base) - TotalTracked(old(pairings), base);
              && (delta <= 0 ==> r == Fail(NothingToMint))
              && (delta > 0 ==> r == Pass))
      ensures r.Fail? ==> pairings == old(pairings) && effects == old(effects)
      ensures r.Pass? ==>
        var k := quantity.sym.code;
        var base := old(pairings)[k].baseTicker;
        var delta := Custody(chain, self, base) - TotalTracked(old(pairings), base);
        && k in old(pairings) && delta > 0
        && pairings == old(pairings)[k := Credit(old(pairings)[k], delta)]
        && TotalTracked(pairings, base) == Custody(chain, self, base)
        && (forall b :: b != base ==> TotalTracked(pairings, b) == TotalTracked(old(pairings), b))
        && (Backed(chain, self, old(pairings)) ==> Backed(chain, self, pairings))
        && effects == old(effects) + [Transfer(TotemsContract, self, minter, Asset(delta, quantity.sym))]
    {
      if sender != TotemsContract { return Fail(NotFromTotems); }
      var license := CheckLicense(chain, quantity.sym.code, self);
      if license.Fail? { return Fail(Library(license.error)); }
      if payment.amount != 0 { return Fail(PaymentNotAccepted); }

      var synthSym := quantity.sym;
      if synthSym.code !in pairings { return Fail(NoPairing); }
      var pair := pairings[synthSym.code];

      var synthTotem := GetTotem(chain, synthSym.code);
      if synthTotem.None? { return Fail(SynthTotemMissing); }
      if minter != synthTotem.value.creator { return Fail(NotCreator); }

      var baseSym := Symbol(pair.baseTicker, synthSym.precision);
      var totalTracked := SumBaseLocked(pair.baseTicker);
      var actualBalance := GetBalance(chain, self, baseSym, TotemsContract);
      var delta := actualBalance.amount - totalTracked;
      if delta <= 0 { return Fail(NothingToMint); }

      ghost var before := pairings;
      forall b ensures TotalTracked(before[synthSym.code := Credit(pair, delta)], b) ==
                       TotalTracked(before, b) + (if b == pair.baseTicker then delta else 0) {
        AdjustTotals(before, synthSym.code, delta, b);
      }
      pairings := pairings[synthSym.code := Credit(pair, delta)];
      effects := effects + [Transfer(TotemsContract, self, minter, Asset(delta, synthSym))];
      r := Pass;
    }

    /**
     * `on_transfer`, the notification of a Totems transfer of `quantity` from `from` to
     * `to`. A synth sent to the contract is redeemed: the same amount of base goes back to
     * the sender and the synth is burned. Anything else is accepted without effect.
     */
    method OnTransfer(chain: Chain, from: Name, to: Name, quantity: Asset) returns (r: Outcome<MirrorError>)
      requires Valid()
      modifies this
      ensures Valid()
      ensures to != self || from == self || quantity.sym.code !in old(pairings) ==>
                r == Pass && pairings == old(pairings) && effects == old(effects)
      ensures to == self && from != self && quantity.sym.code in old(pairings) ==>
        && (!Licensed(chain, quantity.sym.code, self) ==> r == Fail(Library(ModNotLicensed(self))))
        && (Licensed(chain, quantity.sym.code, self) ==>
              r == (if old(pairings)[quantity.sym.code].baseLocked.amount < quantity.amount
                    then Fail(InsufficientReserves) else Pass))
      ensures r.Fail? ==> pairings == old(pairings) && effects == old(effects)
      ensures r.Pass? && to == self && from != self && quantity.sym.code in old(pairings) ==>
        var k := quantity.sym.code;
        var base := old(pairings)[k].baseTicker;
        && old(pairings)[k].baseLocked.amount >= quantity.amount
        && pairings == old(pairings)[k := Credit(old(pairings)[k], -quantity.amount)]
        && pairings[k].baseLocked.amount >= 0
        && TotalTracked(pairings, base) == TotalTracked(old(pairings), base) - quantity.amount
        && (forall b :: b != base ==> TotalTracked(pairings, b) == TotalTracked(old(pairings), b))
        && (Backed(chain, self, old(pairings)) ==>
              TotalTracked(pairings, base) <= Custody(chain, self, base) - quantity.amount)
        && effects == old(effects) + [
             Transfer(TotemsContract, self, from, Asset(quantity.amount, Symbol(base, quantity.sym.precision))),
             Burn(TotemsContract, self, quantity)]
    {
      if to != self || from == self { return Pass; }

      var synthSym := quantity.sym;
      if synthSym.code !in pairings {
        return Pass;  // not a synth: a base deposit awaiting a mint
      }
      var pair := pairings[synthSym.code];

      var license := CheckLicense(chain, quantity.sym.code, self);
      if license.Fail? { return Fail(Library(license.error)); }

      var baseSym := Symbol(pair.baseTicker, synthSym.precision);
      if pair.baseLocked.amount < quantity.amount { return Fail(InsufficientReserves); }

      ghost var before := pairings;
      forall b ensures TotalTracked(before[synthSym.code := Credit(pair, -quantity.amount)], b) ==
                       TotalTracked(before, b) + (if b == pair.baseTicker then -quantity.amount else 0) {
        AdjustTotals(before, synthSym.code, -quantity.amount, b);
      }
      pairings := pairings[synthSym.code := Credit(pair, -quantity.amount)];
      effects := effects + [
        Transfer(TotemsContract, self, from, Asset(quantity.amount, baseSym)),
        Burn(TotemsContract, self, quantity)];
      r := Pass;
    }
  }
}

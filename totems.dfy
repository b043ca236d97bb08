/**
 * The Totems library helpers that the mirror contract reads the chain through.
 *
 * The Totems contract's tables (totems, balances, licenses), the mod market's `mods`
 * table and the set of existing accounts are gathered in one value, `Chain`. Every
 * helper is a lookup over it.
 */
module Totems {
  import opened Wrappers

  type Name = string
  type SymbolCode = string

  /** The accounts the library hard-codes. Only their identities matter here. */
  const TotemsContract: Name := "totemstotems"
  const MarketContract: Name := "modsmodsmods"
  const ProxyModContract: Name := "totemodproxy"

  /** An eosio symbol: a ticker code and a number of decimal places. */
  datatype Symbol = Symbol(code: SymbolCode, precision: nat)

  /** An eosio asset. Amounts are mathematical integers. */
  datatype Asset = Asset(amount: int, sym: Symbol)

  /** A row of the Totems contract's `totems` table, keyed by the code of `maxSupply`. */
  datatype Totem = Totem(creator: Name, supply: Asset, maxSupply: Asset)

  /** One action a mod requires for a hook (its field layout is not modelled). */
  datatype RequiredAction = RequiredAction(contract: Name, action: Name, purpose: string)

  /** The actions a mod requires for one hook. */
  datatype RequiredHook = RequiredHook(hook: Name, actions: seq<RequiredAction>)

  /**
   * A row of the market's `mods` table, keyed by `contract`. `hooks` lists the mod's
   * hook set in its iteration order.
   */
  datatype Mod = Mod(contract: Name, seller: Name, price: nat, hooks: seq<Name>,
                     requiredActions: seq<RequiredHook>)

  /** A row of a `licenses` table: table owner `contract`, scope `ticker`, key `mod`. */
  datatype LicenseRow = LicenseRow(contract: Name, ticker: SymbolCode, mod: Name)

  /** The key of a balance row: table owner `contract`, scope `owner`, key `code`. */
  datatype BalanceKey = BalanceKey(contract: Name, owner: Name, code: SymbolCode)

  /** The chain state the library reads. */
  datatype Chain = Chain(
    totems: map<SymbolCode, Totem>,
    balances: map<BalanceKey, Asset>,
    licenses: set<LicenseRow>,
    mods: map<Name, Mod>,
    accounts: set<Name>)

  /** The `check` failures of the library helpers. */
  datatype Error =
    | TotemMissing
    | ModNotLicensed(mod: Name)
    | ModNotPublished(mod: Name)
    | HookNotSupported(hook: Name)

  /** Every table row is stored under its own primary key. */
  ghost predicate WellKeyed(chain: Chain) {
    && (forall c :: c in chain.totems ==> chain.totems[c].maxSupply.sym.code == c)
    && (forall k :: k in chain.balances ==> chain.balances[k].sym.code == k.code)
    && (forall m :: m in chain.mods ==> chain.mods[m].contract == m)
  }

  /** The market's mod for `contract`, or none when it is not published. */
  function GetMod(chain: Chain, contract: Name): (r: Option<Mod>)
    ensures r.None? <==> contract !in chain.mods
    ensures r.Some? ==> r.value == chain.mods[contract]
    ensures r.Some? && WellKeyed(chain) ==> r.value.contract == contract
  {
    if contract in chain.mods then Some(chain.mods[contract]) else None
  }

  /** The totem whose ticker is `code`, or none when no such totem exists. */
  function GetTotem(chain: Chain, code: SymbolCode): (r: Option<Totem>)
    ensures r.None? <==> code !in chain.totems
    ensures r.Some? ==> r.value == chain.totems[code]
    ensures r.Some? && WellKeyed(chain) ==> r.value.maxSupply.sym.code == code
  {
    if code in chain.totems then Some(chain.totems[code]) else None
  }

  /** The creator of the totem `code`; fails when there is no such totem. */
  function GetTotemCreator(chain: Chain, code: SymbolCode): (r: Result<Name, Error>)
    ensures r.Failure? <==> code !in chain.totems
    ensures r.Failure? ==> r.error == TotemMissing
    ensures r.Success? ==> r.value == chain.totems[code].creator
  {
    var totem := GetTotem(chain, code);
    if totem.None? then Failure(TotemMissing) else Success(totem.value.creator)
  }

  /**
   * The balance of `owner` in the token `ticker` held by `contract`; an account without
   * a row holds zero of the requested symbol.
   */
  function GetBalance(chain: Chain, owner: Name, ticker: Symbol, contract: Name): (r: Asset)
    ensures BalanceKey(contract, owner, ticker.code) !in chain.balances ==> r == Asset(0, ticker)
    ensures BalanceKey(contract, owner, ticker.code) in chain.balances ==>
              r == chain.balances[BalanceKey(contract, owner, ticker.code)]
    ensures WellKeyed(chain) ==> r.sym.code == ticker.code
  {
    var key := BalanceKey(contract, owner, ticker.code);
    if key !in chain.balances then Asset(0, ticker) else chain.balances[key]
  }

  /**
   * Whether `mod` holds a license for `ticker`: in the Totems contract's license table,
   * or in the proxy's when the proxy account exists.
   */
  ghost predicate Licensed(chain: Chain, ticker: SymbolCode, mod: Name) {
    || LicenseRow(TotemsContract, ticker, mod) in chain.licenses
    || (ProxyModContract in chain.accounts && LicenseRow(ProxyModContract, ticker, mod) in chain.licenses)
  }

  /** Passes when `mod` is licensed for `ticker`, and fails naming the mod otherwise. */
  function CheckLicense(chain: Chain, ticker: SymbolCode, mod: Name): (r: Outcome<Error>)
    ensures r.Pass? <==> Licensed(chain, ticker, mod)
    ensures r.Fail? ==> r.error == ModNotLicensed(mod)
  {
    if LicenseRow(TotemsContract, ticker, mod) in chain.licenses then Pass
    else if ProxyModContract in chain.accounts
         && LicenseRow(ProxyModContract, ticker, mod) in chain.licenses then Pass
    else Fail(ModNotLicensed(mod))
  }

  /**
   * The position `std::find` stops at when looking for `x` in `s`: the first occurrence
   * of `x`, or `|s|` (the end) when there is none.
   */
  function FindIndex(s: seq<Name>, x: Name): (i: nat)
    ensures i <= |s|
    ensures i < |s| ==> s[i] == x
    ensures forall j :: 0 <= j < i ==> s[j] != x
  {
    if s == [] then 0
    else if s[0] == x then 0
    else 1 + FindIndex(s[1..], x)
  }

  /** Whether the mod declares `hook` among its hooks. */
  function HasHook(mod: Mod, hook: Name): (b: bool)
    ensures b <==> hook in mod.hooks
  {
    FindIndex(mod.hooks, hook) != |mod.hooks|
  }

  /** A mod may be required for `hook` when it is published and declares that hook. */
  ghost predicate Supports(chain: Chain, name: Name, hook: Name) {
    name in chain.mods && HasHook(chain.mods[name], hook)
  }

  /** The error `get_required_actions` reports for a mod that does not support `hook`. */
  ghost function Rejection(chain: Chain, name: Name, hook: Name): Error {
    if name !in chain.mods then ModNotPublished(name) else HookNotSupported(hook)
  }

  /** The actions of every entry of `hooks` for `hook`, in order. */
  ghost function HookActions(hooks: seq<RequiredHook>, hook: Name): seq<RequiredAction> {
    if hooks == [] then []
    else
      var last := hooks[|hooks| - 1];
      HookActions(hooks[..|hooks| - 1], hook) + (if last.hook == hook then last.actions else [])
  }

  /**
   * What `get_required_actions` produces for the mods `names`, taken left to right: the
   * first mod that is unpublished or lacks the hook aborts, otherwise each mod's actions
   * for the hook follow those of the mods before it.
   */
  ghost function RequiredActions(chain: Chain, hook: Name, names: seq<Name>): Result<seq<RequiredAction>, Error> {
    if names == [] then Success([])
    else
      match RequiredActions(chain, hook, names[..|names| - 1])
      case Failure(e) => Failure(e)
      case Success(acc) =>
        var name := names[|names| - 1];
        if !Supports(chain, name, hook) then Failure(Rejection(chain, name, hook))
        else Success(acc + HookActions(chain.mods[name].requiredActions, hook))
  }

  /** An action is collected for `hook` exactly when some entry for that hook lists it. */
  lemma {:induction false} HookActionsMember(hooks: seq<RequiredHook>, hook: Name, a: RequiredAction)
    ensures a in HookActions(hooks, hook) <==>
            exists j :: 0 <= j < |hooks| && hooks[j].hook == hook && a in hooks[j].actions
  {
    if hooks != [] {
      var init := hooks[..|hooks| - 1];
      HookActionsMember(init, hook, a);
      if a in HookActions(hooks, hook) && a !in HookActions(init, hook) {
        assert hooks[|hooks| - 1].hook == hook && a in hooks[|hooks| - 1].actions;
      }
      if exists j :: 0 <= j < |hooks| && hooks[j].hook == hook && a in hooks[j].actions {
        var j :| 0 <= j < |hooks| && hooks[j].hook == hook && a in hooks[j].actions;
        if j < |hooks| - 1 {
          assert init[j] == hooks[j];
        }
      }
    }
  }

  /** Once a prefix of the mod list fails, the whole list fails with the same error. */
  lemma {:induction false} PrefixFailure(chain: Chain, hook: Name, names: seq<Name>, k: nat)
    requires k <= |names|
    requires RequiredActions(chain, hook, names[..k]).Failure?
    ensures RequiredActions(chain, hook, names) == RequiredActions(chain, hook, names[..k])
    decreases |names| - k
  {
    if k == |names| {
      assert names[..k] == names;
    } else {
      var init := names[..|names| - 1];
      assert init[..k] == names[..k];
      PrefixFailure(chain, hook, init, k);
    }
  }

  /** `get_required_actions` fails exactly when some listed mod is unpublished or lacks the hook. */
  lemma {:induction false} RequiredActionsFailsIff(chain: Chain, hook: Name, names: seq<Name>)
    ensures RequiredActions(chain, hook, names).Failure? <==>
            exists i :: 0 <= i < |names| && !Supports(chain, names[i], hook)
  {
    if names != [] {
      var init := names[..|names| - 1];
      RequiredActionsFailsIff(chain, hook, init);
      if exists i :: 0 <= i < |init| && !Supports(chain, init[i], hook) {
        var i :| 0 <= i < |init| && !Supports(chain, init[i], hook);
        assert names[i] == init[i];
      }
      if exists i :: 0 <= i < |names| && !Supports(chain, names[i], hook) {
        var i :| 0 <= i < |names| && !Supports(chain, names[i], hook);
        if i < |init| {
          assert init[i] == names[i];
        }
      }
    }
  }

  /** The error reported is the one for the first mod in the list that is not usable. */
  lemma FirstRejection(chain: Chain, hook: Name, names: seq<Name>, i: nat)
    requires i < |names| && !Supports(chain, names[i], hook)
    requires forall j :: 0 <= j < i ==> Supports(chain, names[j], hook)
    ensures RequiredActions(chain, hook, names) == Failure(Rejection(chain, names[i], hook))
  {
    var prefix := names[..i];
    RequiredActionsFailsIff(chain, hook, prefix);
    assert !exists j :: 0 <= j < |prefix| && !Supports(chain, prefix[j], hook) by {
      forall j | 0 <= j < |prefix| ensures Supports(chain, prefix[j], hook) {
        assert prefix[j] == names[j];
      }
    }
    assert names[..i + 1][..i] == prefix;
    PrefixFailure(chain, hook, names, i + 1);
  }

  /**
   * Listing the mods `a` and then `b` gives `a`'s actions followed by `b`'s; a failure in
   * `a` is reported before one in `b`.
   */
  lemma {:induction false} RequiredActionsAppend(chain: Chain, hook: Name, a: seq<Name>, b: seq<Name>)
    ensures RequiredActions(chain, hook, a).Failure? ==>
              RequiredActions(chain, hook, a + b) == RequiredActions(chain, hook, a)
    ensures RequiredActions(chain, hook, a).Success? && RequiredActions(chain, hook, b).Failure? ==>
              RequiredActions(chain, hook, a + b) == RequiredActions(chain, hook, b)
    ensures RequiredActions(chain, hook, a).Success? && RequiredActions(chain, hook, b).Success? ==>
              RequiredActions(chain, hook, a + b) ==
                Success(RequiredActions(chain, hook, a).value + RequiredActions(chain, hook, b).value)
    decreases |b|
  {
    if b == [] {
      assert a + b == a;
      if RequiredActions(chain, hook, a).Success? {
        assert RequiredActions(chain, hook, a).value + [] == RequiredActions(chain, hook, a).value;
      }
    } else {
      var binit, last := b[..|b| - 1], b[|b| - 1];
      var ab, abinit := a + b, a + binit;
      assert ab[..|ab| - 1] == abinit && ab[|ab| - 1] == last;
      RequiredActionsAppend(chain, hook, a, binit);
      var ra, rb := RequiredActions(chain, hook, a), RequiredActions(chain, hook, binit);
      if ra.Success? && rb.Success? && Supports(chain, last, hook) {
        var h := HookActions(chain.mods[last].requiredActions, hook);
        assert RequiredActions(chain, hook, abinit) == Success(ra.value + rb.value);
        assert RequiredActions(chain, hook, b) == Success(rb.value + h);
        assert ra.value + rb.value + h == ra.value + (rb.value + h);
      }
    }
  }

  /**
   * `get_required_actions`: for each mod in order, check that it is published and has the
   * hook, then append the actions of each of its entries for that hook.
   */
  method GetRequiredActions(chain: Chain, hook: Name, names: seq<Name>)
    returns (r: Result<seq<RequiredAction>, Error>)
    ensures r == RequiredActions(chain, hook, names)
  {
    var required: seq<RequiredAction> := [];
    var i := 0;
    while i < |names|
      invariant 0 <= i <= |names|
      invariant RequiredActions(chain, hook, names[..i]) == Success(required)
    {
      var name := names[i];
      var mod := GetMod(chain, name);
      assert names[..i + 1][..i] == names[..i];
      if mod.None? {
        PrefixFailure(chain, hook, names, i + 1);
        return Failure(ModNotPublished(name));
      }
      if !HasHook(mod.value, hook) {
        PrefixFailure(chain, hook, names, i + 1);
        return Failure(HookNotSupported(hook));
      }
      var hooks := mod.value.requiredActions;
      ghost var before := required;
      var j := 0;
      while j < |hooks|
        invariant 0 <= j <= |hooks|
        invariant required == before + HookActions(hooks[..j], hook)
      {
        assert hooks[..j + 1][..j] == hooks[..j];
        if hooks[j].hook == hook {
          required := required + hooks[j].actions;
        }
        j := j + 1;
      }
      assert hooks[..j] == hooks;
      i := i + 1;
    }
    assert names[..i] == names;
    r := Success(required);
  }
}

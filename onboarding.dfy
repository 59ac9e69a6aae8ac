/** The onboarding page: the coin form, its validity check, the simulated
    wallet address, and the final write of one coin and its paired
    "creation" transaction to the store. The wizard's states are the ones the
    page declares: details, wallet, liquidity and creating. */
module Onboarding {
  import opened Wrappers
  import opened Ledger
  import opened Storage
  import Auth

  /** The form state. `image` is the object URL of the chosen file, if any. */
  datatype FormData = FormData(
    id: string, name: string, image: Option<string>, description: string,
    platform: string, walletConnected: bool, liquidityAmount: real,
    socialLinks: SocialLinks)

  /** The form the page starts with: an id drawn once, and liquidity 1. */
  function InitialForm(id: string): (f: FormData)
    ensures f.id == id && f.liquidityAmount == 1.0 && !f.walletConnected
  {
    FormData(id, "", None, "", "", false, 1.0, NoSocialLinks)
  }

  /** A `Partial<typeof formData>`: the fields an update supplies. */
  datatype FormPatch = FormPatch(
    id: Option<string>, name: Option<string>, image: Option<Option<string>>,
    description: Option<string>, platform: Option<string>,
    walletConnected: Option<bool>, liquidityAmount: Option<real>,
    socialLinks: Option<SocialLinks>)

  const EmptyPatch := FormPatch(None, None, None, None, None, None, None, None)

  /** `{ ...prev, ...data }`: every supplied field is overwritten, every other
      field keeps its value. */
  function Patch(f: FormData, p: FormPatch): (g: FormData)
    ensures g.id == (if p.id.Some? then p.id.value else f.id)
    ensures g.name == (if p.name.Some? then p.name.value else f.name)
    ensures g.image == (if p.image.Some? then p.image.value else f.image)
    ensures g.description == (if p.description.Some? then p.description.value else f.description)
    ensures g.platform == (if p.platform.Some? then p.platform.value else f.platform)
    ensures g.walletConnected == (if p.walletConnected.Some? then p.walletConnected.value else f.walletConnected)
    ensures g.liquidityAmount == (if p.liquidityAmount.Some? then p.liquidityAmount.value else f.liquidityAmount)
    ensures g.socialLinks == (if p.socialLinks.Some? then p.socialLinks.value else f.socialLinks)
  {
    FormData(
      if p.id.Some? then p.id.value else f.id,
      if p.name.Some? then p.name.value else f.name,
      if p.image.Some? then p.image.value else f.image,
      if p.description.Some? then p.description.value else f.description,
      if p.platform.Some? then p.platform.value else f.platform,
      if p.walletConnected.Some? then p.walletConnected.value else f.walletConnected,
      if p.liquidityAmount.Some? then p.liquidityAmount.value else f.liquidityAmount,
      if p.socialLinks.Some? then p.socialLinks.value else f.socialLinks)
  }

  // ---------------------------------------------------------------------
  // Validity

  /** The characters `String.prototype.trim` strips: the white space and
      line terminators of ECMAScript. */
  predicate IsSpace(ch: char) {
    var c := ch as int;
    c == 0x09 || c == 0x0A || c == 0x0B || c == 0x0C || c == 0x0D || c == 0x20
    || c == 0xA0 || c == 0x1680 || (0x2000 <= c <= 0x200A) || c == 0x2028 || c == 0x2029
    || c == 0x202F || c == 0x205F || c == 0x3000 || c == 0xFEFF
  }

  predicate Blank(s: string) {
    forall i :: 0 <= i < |s| ==> IsSpace(s[i])
  }

  /** Drops leading white space: the result is a suffix whose first character,
      if any, is not white space, and everything dropped was white space. */
  function TrimStart(s: string): (r: string)
    ensures |r| <= |s| && r == s[|s| - |r|..]
    ensures Blank(s[..|s| - |r|])
    ensures r != "" ==> !IsSpace(r[0])
    decreases |s|
  {
    if |s| > 0 && IsSpace(s[0]) then
      var r := TrimStart(s[1..]);
      assert s[..|s| - |r|] == [s[0]] + s[1..][..|s| - 1 - |r|];
      r
    else s
  }

  /** Drops trailing white space: the result is a prefix whose last
      character, if any, is not white space, and everything dropped was white space. */
  function TrimEnd(s: string): (r: string)
    ensures |r| <= |s| && r == s[..|r|]
    ensures Blank(s[|r|..])
    ensures r != "" ==> !IsSpace(r[|r| - 1])
    decreases |s|
  {
    if |s| > 0 && IsSpace(s[|s| - 1]) then
      var r := TrimEnd(s[..|s| - 1]);
      assert s[|r|..] == s[..|s| - 1][|r|..] + [s[|s| - 1]];
      r
    else s
  }

  function Trim(s: string): string {
    TrimEnd(TrimStart(s))
  }

  /** A string trims to nothing exactly when it is all white space. */
  lemma TrimEmptyIffBlank(s: string)
    ensures Trim(s) == "" <==> Blank(s)
  {
    var t := TrimStart(s);
    var dropped := s[..|s| - |t|];
    assert s == dropped + t;
    if Trim(s) == "" {
      assert t[0..] == t;
      if t != "" {
        assert false;
      }
      assert dropped == s;
    } else {
      var r := Trim(s);
      assert r == t[..|r|];
      assert r[0] == t[0];
      assert s[|dropped|] == t[0];
    }
  }

  /** `isFormValid`: the name has a character that is not white space and a
      platform is chosen. */
  function FormValid(f: FormData): (ok: bool)
    ensures ok <==> (exists i :: 0 <= i < |f.name| && !IsSpace(f.name[i])) && f.platform != ""
  {
    TrimEmptyIffBlank(f.name);
    Trim(f.name) != "" && f.platform != ""
  }

  // ---------------------------------------------------------------------
  // Simulated wallet address

  /** Base58: the digits and letters without 0, O, I and l, written as its
      six runs of consecutive characters; joined they spell the page's
      alphabet `123456789ABCDEFGHJKLMNPQRSTUVWXYZabcdefghijkmnopqrstuvwxyz`. */
  const Digits: string := "123456789"
  const UpperAToH: string := "ABCDEFGH"
  const UpperJToN: string := "JKLMN"
  const UpperPToZ: string := "PQRSTUVWXYZ"
  const LowerAToK: string := "abcdefghijk"
  const LowerMToZ: string := "mnopqrstuvwxyz"
  const SolanaAlphabet: string := Digits + UpperAToH + UpperJToN + UpperPToZ + LowerAToK + LowerMToZ
  const AddressLength: nat := 44

  /** `s` is the run of consecutive characters from `lo` to `hi`. */
  predicate Run(s: string, lo: char, hi: char) {
    && |s| == hi as int - lo as int + 1
    && forall i :: 0 <= i < |s| ==> s[i] as int == lo as int + i
  }

  /** The character code at position i of the alphabet, run by run. */
  function AlphabetCode(i: nat): int {
    if i < 9 then '1' as int + i
    else if i < 17 then 'A' as int + (i - 9)
    else if i < 22 then 'J' as int + (i - 17)
    else if i < 33 then 'P' as int + (i - 22)
    else if i < 44 then 'a' as int + (i - 33)
    else 'm' as int + (i - 44)
  }

  lemma AlphabetAt(i: nat)
    requires i < |SolanaAlphabet|
    ensures SolanaAlphabet[i] as int == AlphabetCode(i)
  {
    assert Run(Digits, '1', '9') && Run(UpperAToH, 'A', 'H') && Run(UpperJToN, 'J', 'N');
    assert Run(UpperPToZ, 'P', 'Z') && Run(LowerAToK, 'a', 'k') && Run(LowerMToZ, 'm', 'z');
    if i < 9 { assert SolanaAlphabet[i] == Digits[i]; }
    else if i < 17 { assert SolanaAlphabet[i] == UpperAToH[i - 9]; }
    else if i < 22 { assert SolanaAlphabet[i] == UpperJToN[i - 17]; }
    else if i < 33 { assert SolanaAlphabet[i] == UpperPToZ[i - 22]; }
    else if i < 44 { assert SolanaAlphabet[i] == LowerAToK[i - 33]; }
    else { assert SolanaAlphabet[i] == LowerMToZ[i - 44]; }
  }

  /** The alphabet has 58 characters in strictly rising order, hence all
      distinct, and none of them is 0, O, I or l. */
  lemma AlphabetShape()
    ensures |SolanaAlphabet| == 58
    ensures forall i, j :: 0 <= i < j < |SolanaAlphabet| ==> SolanaAlphabet[i] < SolanaAlphabet[j]
    ensures '0' !in SolanaAlphabet && 'O' !in SolanaAlphabet
    ensures 'I' !in SolanaAlphabet && 'l' !in SolanaAlphabet
  {
    forall i, j | 0 <= i < j < |SolanaAlphabet| ensures SolanaAlphabet[i] < SolanaAlphabet[j] {
      AlphabetAt(i);
      AlphabetAt(j);
    }
    forall i | 0 <= i < |SolanaAlphabet|
      ensures SolanaAlphabet[i] != '0' && SolanaAlphabet[i] != 'O'
      ensures SolanaAlphabet[i] != 'I' && SolanaAlphabet[i] != 'l'
    {
      AlphabetAt(i);
    }
  }

  /** `generateSolanaAddress`, with `picks[i]` the index that
      `Math.floor(Math.random() * chars.length)` drew at step i. */
  method GenerateSolanaAddress(picks: seq<int>) returns (address: string)
    requires |picks| == AddressLength
    requires forall i :: 0 <= i < |picks| ==> 0 <= picks[i] < |SolanaAlphabet|
    ensures |address| == AddressLength
    ensures forall i :: 0 <= i < |address| ==> address[i] == SolanaAlphabet[picks[i]]
    ensures forall i :: 0 <= i < |address| ==> address[i] in SolanaAlphabet
  {
    address := "";
    var i := 0;
    while i < AddressLength
      invariant 0 <= i <= AddressLength
      invariant |address| == i
      invariant forall j :: 0 <= j < i ==> address[j] == SolanaAlphabet[picks[j]]
    {
      address := address + [SolanaAlphabet[picks[i]]];
      i := i + 1;
    }
  }

  // ---------------------------------------------------------------------
  // The records the wizard writes

  /** `formData.name || "Unnamed Coin"` */
  function CoinName(f: FormData): (name: string)
    ensures name != ""
    ensures f.name != "" ==> name == f.name
  {
    if f.name != "" then f.name else "Unnamed Coin"
  }

  const Placeholder: string := "/placeholder.svg?height=40&width=40"

  /** The coin `handleCreateCoin` stores for the signed-in user. */
  function NewCoin(f: FormData, userId: string, now: int): (c: Coin)
    ensures c.id == f.id && c.userId == userId && c.name == CoinName(f)
    ensures c.investment == f.liquidityAmount && c.profit == 0.0 && c.pnl == 0.0
    ensures c.platform == (if f.platform == "raydium" then "Raydium" else "Pump.fun")
  {
    Coin(f.id, userId, CoinName(f),
         if f.image.Some? then f.image.value else Placeholder,
         f.liquidityAmount, 0.0,
         if f.platform == "raydium" then "Raydium" else "Pump.fun",
         now, 0.0, f.socialLinks)
  }

  /** The "creation" transaction logged beside it. */
  function CreationTx(f: FormData, userId: string, txId: string, now: int): Tx {
    Tx(txId, userId, f.id, CoinName(f), Creation, f.liquidityAmount, now)
  }

  /** The two records written together describe the same coin: same id,
      owner and name, and the logged amount is the coin's whole liquidity.
      A positive amount gives a healthy coin. */
  lemma CreationPairAgrees(f: FormData, userId: string, txId: string, now: int)
    ensures var c := NewCoin(f, userId, now);
            var t := CreationTx(f, userId, txId, now);
            && t.kind == Creation && t.coinId == c.id && t.userId == c.userId
            && t.coinName == c.name && t.amount == Liquidity(c)
            && (f.liquidityAmount > 0.0 ==> Healthy(c))
  {
  }

  /** Prepending a coin with a fresh id and positive liquidity keeps the
      stored collection well formed. */
  lemma PrependFresh(coins: seq<Coin>, c: Coin)
    requires WellFormed(coins) && FindCoin(coins, c.id).None? && Healthy(c)
    ensures WellFormed([c] + coins)
  {
    var r := [c] + coins;
    forall i | 1 <= i < |r| ensures r[i] == coins[i - 1] {
    }
  }

  datatype Step = DetailsStep | WalletStep | LiquidityStep | CreatingStep

  class Wizard {
    const store: Store
    const user: Option<Auth.User>          // the auth context's current user
    var form: FormData
    var step: Step
    var walletModalOpen: bool
    var walletConnected: bool
    var walletConnecting: bool
    var walletAddress: Option<string>

    /** A fresh page: `formId` is the id `generateId` drew for the form. */
    constructor (store: Store, user: Option<Auth.User>, formId: string)
      ensures this.store == store && this.user == user
      ensures form == InitialForm(formId) && step == DetailsStep
      ensures !walletModalOpen && !walletConnected && !walletConnecting && walletAddress.None?
    {
      this.store, this.user := store, user;
      form, step := InitialForm(formId), DetailsStep;
      walletModalOpen, walletConnected, walletConnecting, walletAddress := false, false, false, None;
    }

    /** `updateFormData` */
    method UpdateFormData(patch: FormPatch)
      modifies this`form
      ensures form == Patch(old(form), patch)
    {
      form := Patch(form, patch);
    }

    /** `handleSubmit`: an invalid form leaves the wallet dialog as it was; a
        valid one opens it. */
    method HandleSubmit()
      modifies this`walletModalOpen
      ensures !FormValid(form) ==> walletModalOpen == old(walletModalOpen)
      ensures FormValid(form) ==> walletModalOpen
    {
      if !FormValid(form) {
        return;  // "Missing information"
      }
      walletModalOpen := true;
    }

    /** `connectWallet` with its two delays collapsed: the address generated
        from `picks` is shown, the wallet counts as connected in the page and
        in the form, the dialog closes and the liquidity step follows. */
    method ConnectWallet(picks: seq<int>)
      requires |picks| == AddressLength
      requires forall i :: 0 <= i < |picks| ==> 0 <= picks[i] < |SolanaAlphabet|
      modifies this`walletConnecting, this`walletAddress, this`walletConnected, this`form
      modifies this`walletModalOpen, this`step
      ensures walletAddress.Some? && |walletAddress.value| == AddressLength
      ensures forall i :: 0 <= i < AddressLength ==> walletAddress.value[i] == SolanaAlphabet[picks[i]]
      ensures walletConnected && !walletConnecting && !walletModalOpen && step == LiquidityStep
      ensures form == old(form).(walletConnected := true)
    {
      walletConnecting := true;
      var address := GenerateSolanaAddress(picks);
      walletAddress := Some(address);
      walletConnected := true;
      UpdateFormData(EmptyPatch.(walletConnected := Some(true)));
      walletConnecting := false;
      walletModalOpen := false;
      step := LiquidityStep;
    }

    /** `handleCreateCoin`: with nobody signed in neither collection is
        written; otherwise one coin and its paired creation transaction are
        put in front of the stored lists. */
    method HandleCreateCoin(txId: string, now: int)
      requires store.Valid()
      requires user.Some? ==> form.liquidityAmount > 0.0 && FindCoin(store.coins, form.id).None?
      modifies store
      ensures store.Valid()
      ensures user.None? ==> store.coins == old(store.coins) && store.transactions == old(store.transactions)
      ensures user.Some? ==> store.coins == [NewCoin(form, user.value.id, now)] + old(store.coins)
      ensures user.Some? ==> store.transactions == [CreationTx(form, user.value.id, txId, now)] + old(store.transactions)
    {
      if user.None? {
        return;  // "Authentication required"
      }
      var coin := NewCoin(form, user.value.id, now);
      CreationPairAgrees(form, user.value.id, txId, now);
      PrependFresh(store.coins, coin);
      store.coins := [coin] + store.coins;
      store.transactions := [CreationTx(form, user.value.id, txId, now)] + store.transactions;
    }

    /** `handleFinishCreation`, reachable from the liquidity step's button,
        which is disabled while the amount is not positive. */
    method HandleFinishCreation(txId: string, now: int)
      requires step == LiquidityStep && form.liquidityAmount > 0.0
      requires store.Valid()
      requires user.Some? ==> FindCoin(store.coins, form.id).None?
      modifies this`step, store
      ensures step == CreatingStep && store.Valid()
      ensures user.None? ==> store.coins == old(store.coins) && store.transactions == old(store.transactions)
      ensures user.Some? ==> store.coins == [NewCoin(form, user.value.id, now)] + old(store.coins)
      ensures user.Some? ==> store.transactions == [CreationTx(form, user.value.id, txId, now)] + old(store.transactions)
    {
      step := CreatingStep;
      HandleCreateCoin(txId, now);
    }
  }
}

/** What the registry guarantees: the outcomes of mint and license purchase,
    the consistency of the tables across any run of commands, and what the
    queries return. */
module ContractProofs {
  import opened Host
  import opened Cw721
  import opened State
  import opened Paging
  import opened Contract
  import Msg

  // ------------------------------------------------------------------ mint

  /** A taken token id fails with `Claimed` before any table is written. */
  lemma MintTakenTokenId(t: Tables, info: MessageInfo, msg: Msg.MintMsg)
    requires msg.tokenId in t.tokens
    ensures MintSteps(t, info, msg) == Staged(t, Err(Claimed))
    ensures Apply(t, info, Msg.Mint(msg)) == t
  {
  }

  /** A mint succeeds exactly when neither the token id nor the ISCC code is
      taken; otherwise it fails with `Claimed`. */
  lemma MintSucceedsIff(t: Tables, info: MessageInfo, msg: Msg.MintMsg)
    ensures MintSteps(t, info, msg).result.Ok? <==> msg.tokenId !in t.tokens && msg.isccCode !in t.iscc
    ensures MintSteps(t, info, msg).result.Err? ==> MintSteps(t, info, msg).result.error == Claimed
  {
  }

  /** A successful mint: the token is owned by the sender with no approvals,
      the counter rises by one, the ISCC data, the ISCC claim (holding the code
      itself) and the licensing terms are saved under their keys, and nothing
      else changes. */
  lemma MintSuccess(t: Tables, info: MessageInfo, msg: Msg.MintMsg)
    requires MintSteps(t, info, msg).result.Ok?
    ensures var t' := Apply(t, info, Msg.Mint(msg));
      && t'.tokens == t.tokens[msg.tokenId := TokenInfo(info.sender, [], msg.name, msg.description.GetOr(""), msg.image)]
      && t'.numTokens == t.numTokens + 1
      && t'.isccData == t.isccData[msg.isccCode := IsccData(msg.tokenId, msg.isccCode, msg.tophash)]
      && t'.iscc == t.iscc[msg.isccCode := msg.isccCode]
      && t'.licensing == t.licensing[msg.tokenId := Licensing(msg.tokenId, msg.licenseUrl, msg.licensePrice)]
      && t'.license == t.license
      && t'.operators == t.operators
      && t'.contractInfo == t.contractInfo
  {
  }

  /** The write order is not atomic: when the ISCC code is taken, the token,
      the counter and the ISCC data have already been written when the
      handler fails (the ISCC data record of the earlier claimant is even
      overwritten), and only the host's rollback undoes them. */
  lemma MintTakenIsccCode(t: Tables, info: MessageInfo, msg: Msg.MintMsg)
    requires msg.tokenId !in t.tokens && msg.isccCode in t.iscc
    ensures var s := MintSteps(t, info, msg);
      && s.result == Err(Claimed)
      && s.writes.tokens == t.tokens[msg.tokenId := NewToken(info, msg)]
      && s.writes.numTokens == t.numTokens + 1
      && s.writes.isccData == t.isccData[msg.isccCode := IsccData(msg.tokenId, msg.isccCode, msg.tophash)]
      && s.writes.iscc == t.iscc
      && s.writes.licensing == t.licensing
      && Commit(t, s) == t
  {
  }

  /** The message's `owner` field has no effect on what a mint does. */
  lemma MintIgnoresOwnerField(t: Tables, info: MessageInfo, msg: Msg.MintMsg, other: string)
    ensures MintSteps(t, info, msg.(owner := other)) == MintSteps(t, info, msg)
  {
  }

  /** Minting the same ISCC code twice: the second mint fails with `Claimed`
      and the one ISCC data record for the code is the first mint's. */
  lemma MintSameIsccTwice(t: Tables, info1: MessageInfo, m1: Msg.MintMsg, info2: MessageInfo, m2: Msg.MintMsg)
    requires MintSteps(t, info1, m1).result.Ok?
    requires m2.isccCode == m1.isccCode
    ensures var t1 := Apply(t, info1, Msg.Mint(m1));
      && Dispatch(t1, info2, Msg.Mint(m2)) == Handled(Err(Claimed))
      && Apply(t1, info2, Msg.Mint(m2)) == t1
      && t1.isccData[m1.isccCode] == IsccData(m1.tokenId, m1.isccCode, m1.tophash)
  {
  }

  /** Minting the same token id twice: the second mint fails with `Claimed`
      and leaves no ISCC data behind for its own code. */
  lemma MintSameTokenTwice(t: Tables, info1: MessageInfo, m1: Msg.MintMsg, info2: MessageInfo, m2: Msg.MintMsg)
    requires MintSteps(t, info1, m1).result.Ok?
    requires m2.tokenId == m1.tokenId && m2.isccCode != m1.isccCode && m2.isccCode !in t.isccData
    ensures var t1 := Apply(t, info1, Msg.Mint(m1));
      && Dispatch(t1, info2, Msg.Mint(m2)) == Handled(Err(Claimed))
      && m2.isccCode !in Apply(t1, info2, Msg.Mint(m2)).isccData
  {
  }

  // ------------------------------------------------------ license purchase

  /** Without licensing terms for the token the purchase fails with `NotFound`. */
  lemma LicenseWithoutTerms(t: Tables, info: MessageInfo, tokenId: string, price: Coin)
    requires tokenId !in t.licensing
    ensures LicenseSteps(t, info, tokenId, price) == Staged(t, Err(NotFound))
  {
  }

  /** Sending no funds aborts the purchase: the handler reads the first coin. */
  lemma LicenseWithoutFunds(t: Tables, info: MessageInfo, tokenId: string, price: Coin)
    requires tokenId in t.licensing && info.funds == []
    ensures LicenseSteps(t, info, tokenId, price) == Staged(t, Err(Panic))
  {
  }

  /** The payment check looks at the first coin only: the purchase fails with
      `Unauthorized` exactly when its denomination differs from the price's or
      its amount is below the price's; an equal or larger amount succeeds. */
  lemma LicensePaymentCheck(t: Tables, info: MessageInfo, tokenId: string, price: Coin)
    requires tokenId in t.licensing && tokenId in t.tokens && info.funds != []
    ensures var terms := t.licensing[tokenId].price;
      var paid := info.funds[0];
      && (LicenseSteps(t, info, tokenId, price).result == Err(Unauthorized)
          <==> paid.denom != terms.denom || paid.amount < terms.amount)
      && (LicenseSteps(t, info, tokenId, price).result.Ok?
          <==> paid.denom == terms.denom && paid.amount >= terms.amount)
  {
  }

  /** A failed purchase writes nothing, even before the rollback. */
  lemma LicenseFailureWritesNothing(t: Tables, info: MessageInfo, tokenId: string, price: Coin)
    requires LicenseSteps(t, info, tokenId, price).result.Err?
    ensures LicenseSteps(t, info, tokenId, price).writes == t
  {
  }

  /** A successful purchase upserts exactly the record for (sender, token),
      holding the price the caller named, changes no other table, and hands
      the host no transfer. */
  lemma LicenseSuccess(t: Tables, info: MessageInfo, tokenId: string, price: Coin)
    requires LicenseSteps(t, info, tokenId, price).result.Ok?
    ensures Apply(t, info, Msg.License(tokenId, price))
      == t.(license := t.license[LicenseKey(info.sender, tokenId) := License(tokenId, info.sender, price)])
    ensures LicenseSteps(t, info, tokenId, price).result.value.messages == []
  {
  }

  /** A second purchase by the same licensee of the same token overwrites the
      first record: the table keeps one entry for the pair. */
  lemma RepeatPurchaseOverwrites(t: Tables, info: MessageInfo, tokenId: string, p1: Coin, p2: Coin)
    requires LicenseSteps(t, info, tokenId, p1).result.Ok?
    ensures var t1 := Apply(t, info, Msg.License(tokenId, p1));
      var t2 := Apply(t1, info, Msg.License(tokenId, p2));
      && LicenseSteps(t1, info, tokenId, p2).result.Ok?
      && t2.license[LicenseKey(info.sender, tokenId)] == License(tokenId, info.sender, p2)
      && t2.license.Keys == t1.license.Keys
  {
  }

  // -------------------------------------------------------------- dispatch

  /** Only `Mint` and `License` are handled here; the other six commands are
      passed on and this contract writes nothing for them. */
  lemma DispatchHandlesTwo(t: Tables, info: MessageInfo, msg: Msg.ExecuteMsg)
    ensures Dispatch(t, info, msg).Handled? <==> msg.Mint? || msg.License?
    ensures Dispatch(t, info, msg).Delegated? ==> Apply(t, info, msg) == t
    ensures Dispatch(t, info, msg).Handled? && Dispatch(t, info, msg).result.Err? ==> Apply(t, info, msg) == t
  {
  }

  // ----------------------------------------------------------- consistency

  /** No two ISCC codes name the same token. */
  ghost predicate IsccInjective(isccData: map<string, IsccData>) {
    forall c1, c2 :: c1 in isccData && c2 in isccData && c1 != c2 ==> isccData[c1].tokenId != isccData[c2].tokenId
  }

  /** Each ISCC data record sits under its own code and names a live token. */
  ghost predicate IsccDataLinked(isccData: map<string, IsccData>, tokens: map<string, TokenInfo>) {
    forall c :: c in isccData ==> isccData[c].isccCode == c && isccData[c].tokenId in tokens
  }

  /** Every token has an ISCC data record that names it: with
      `IsccInjective`, codes and tokens are in one-to-one correspondence. */
  ghost predicate TokensIndexed(isccData: map<string, IsccData>, tokens: map<string, TokenInfo>) {
    forall id :: id in tokens ==> exists c :: c in isccData && isccData[c].tokenId == id
  }

  /** Every token has licensing terms, keyed by its id. */
  ghost predicate TermsCoverTokens(licensing: map<string, Licensing>, tokens: map<string, TokenInfo>) {
    && licensing.Keys == tokens.Keys
    && forall id :: id in licensing ==> licensing[id].tokenId == id
  }

  /** Each license sits under (its licensee, its token), a token with terms. */
  ghost predicate LicensesKeyed(license: map<LicenseKey, License>, licensing: map<string, Licensing>) {
    forall k :: k in license ==> license[k].licensee == k.licensee && license[k].tokenId == k.tokenId && k.tokenId in licensing
  }

  /** ISCC data and ISCC claims cover the same codes; a claim holds its code. */
  ghost predicate ClaimsHoldCodes(iscc: map<string, string>, isccData: map<string, IsccData>) {
    && isccData.Keys == iscc.Keys
    && forall c :: c in iscc ==> iscc[c] == c
  }

  /** How the tables hang together after any run of commands. */
  ghost predicate Consistent(t: Tables) {
    // the counter counts the tokens
    && t.numTokens == |t.tokens|
    && TermsCoverTokens(t.licensing, t.tokens)
    && ClaimsHoldCodes(t.iscc, t.isccData)
    && IsccDataLinked(t.isccData, t.tokens)
    && IsccInjective(t.isccData)
    && TokensIndexed(t.isccData, t.tokens)
    && LicensesKeyed(t.license, t.licensing)
  }

  lemma InstantiatedConsistent(info: ContractInfo)
    ensures Consistent(Instantiated(info))
  {
  }

  /** A record for a fresh token keeps the ISCC data injective. */
  lemma FreshTokenKeepsInjective(isccData: map<string, IsccData>, tokens: map<string, TokenInfo>, code: string, d: IsccData)
    requires IsccInjective(isccData) && IsccDataLinked(isccData, tokens)
    requires d.tokenId !in tokens
    ensures IsccInjective(isccData[code := d])
  {
    var m := isccData[code := d];
    forall c1, c2 | c1 in m && c2 in m && c1 != c2
      ensures m[c1].tokenId != m[c2].tokenId
    {
      if c1 == code {
        assert isccData[c2].tokenId in tokens;
      } else if c2 == code {
        assert isccData[c1].tokenId in tokens;
      }
    }
  }

  lemma TermsAfterMint(licensing: map<string, Licensing>, tokens: map<string, TokenInfo>, token: TokenInfo, terms: Licensing)
    requires TermsCoverTokens(licensing, tokens)
    ensures TermsCoverTokens(licensing[terms.tokenId := terms], tokens[terms.tokenId := token])
  {
  }

  lemma ClaimsAfterMint(iscc: map<string, string>, isccData: map<string, IsccData>, d: IsccData)
    requires ClaimsHoldCodes(iscc, isccData)
    ensures ClaimsHoldCodes(iscc[d.isccCode := d.isccCode], isccData[d.isccCode := d])
  {
  }

  lemma LinkedAfterMint(isccData: map<string, IsccData>, tokens: map<string, TokenInfo>, d: IsccData, token: TokenInfo)
    requires IsccDataLinked(isccData, tokens)
    ensures IsccDataLinked(isccData[d.isccCode := d], tokens[d.tokenId := token])
  {
  }

  lemma IndexedAfterMint(isccData: map<string, IsccData>, tokens: map<string, TokenInfo>, d: IsccData, token: TokenInfo)
    requires TokensIndexed(isccData, tokens) && d.isccCode !in isccData
    ensures TokensIndexed(isccData[d.isccCode := d], tokens[d.tokenId := token])
  {
    var m := isccData[d.isccCode := d];
    var tokens' := tokens[d.tokenId := token];
    forall id | id in tokens'
      ensures exists c :: c in m && m[c].tokenId == id
    {
      if id == d.tokenId {
        assert m[d.isccCode].tokenId == id;
      } else {
        var c :| c in isccData && isccData[c].tokenId == id;
        assert m[c].tokenId == id;
      }
    }
  }

  lemma LicensesAfterMint(license: map<LicenseKey, License>, licensing: map<string, Licensing>, terms: Licensing)
    requires LicensesKeyed(license, licensing)
    ensures LicensesKeyed(license, licensing[terms.tokenId := terms])
  {
  }

  /** The tables a successful mint leaves are consistent. */
  lemma MintedConsistent(t: Tables, token: TokenInfo, d: IsccData, terms: Licensing)
    requires Consistent(t)
    requires d.tokenId !in t.tokens && d.isccCode !in t.iscc && terms.tokenId == d.tokenId
    ensures Consistent(Tables(t.tokens[d.tokenId := token], t.numTokens + 1, t.isccData[d.isccCode := d],
                              t.iscc[d.isccCode := d.isccCode], t.licensing[d.tokenId := terms],
                              t.license, t.operators, t.contractInfo))
  {
    TermsAfterMint(t.licensing, t.tokens, token, terms);
    ClaimsAfterMint(t.iscc, t.isccData, d);
    LinkedAfterMint(t.isccData, t.tokens, d, token);
    FreshTokenKeepsInjective(t.isccData, t.tokens, d.isccCode, d);
    IndexedAfterMint(t.isccData, t.tokens, d, token);
    LicensesAfterMint(t.license, t.licensing, terms);
  }

  lemma MintPreservesConsistent(t: Tables, info: MessageInfo, msg: Msg.MintMsg)
    requires Consistent(t)
    ensures Consistent(Apply(t, info, Msg.Mint(msg)))
  {
    if MintSteps(t, info, msg).result.Ok? {
      MintSuccess(t, info, msg);
      MintedConsistent(t, NewToken(info, msg),
        IsccData(msg.tokenId, msg.isccCode, msg.tophash), Licensing(msg.tokenId, msg.licenseUrl, msg.licensePrice));
    }
  }

  lemma LicensePreservesConsistent(t: Tables, info: MessageInfo, tokenId: string, price: Coin)
    requires Consistent(t)
    ensures Consistent(Apply(t, info, Msg.License(tokenId, price)))
  {
    var s := LicenseSteps(t, info, tokenId, price);
    if s.result.Ok? {
      var key := LicenseKey(info.sender, tokenId);
      assert s.writes == t.(license := t.license[key := License(tokenId, info.sender, price)]);
      LicensesAfterPurchase(t.license, t.licensing, key, License(tokenId, info.sender, price));
    }
  }

  lemma LicensesAfterPurchase(license: map<LicenseKey, License>, licensing: map<string, Licensing>, key: LicenseKey, l: License)
    requires LicensesKeyed(license, licensing)
    requires l.licensee == key.licensee && l.tokenId == key.tokenId && key.tokenId in licensing
    ensures LicensesKeyed(license[key := l], licensing)
  {
  }

  /** Every command keeps the tables consistent, as far as this contract
      writes them. */
  lemma ApplyPreservesConsistent(t: Tables, info: MessageInfo, msg: Msg.ExecuteMsg)
    requires Consistent(t)
    ensures Consistent(Apply(t, info, msg))
  {
    match msg
    case Mint(m) => MintPreservesConsistent(t, info, m);
    case License(tokenId, price) => LicensePreservesConsistent(t, info, tokenId, price);
    case _ =>
  }

  /** In consistent tables the token of a terms record always exists, so a
      purchase with funds succeeds exactly when the first coin pays the price. */
  lemma ConsistentPurchase(t: Tables, info: MessageInfo, tokenId: string, price: Coin)
    requires Consistent(t) && tokenId in t.licensing && info.funds != []
    ensures LicenseSteps(t, info, tokenId, price).result.Ok?
      <==> info.funds[0].denom == t.licensing[tokenId].price.denom && info.funds[0].amount >= t.licensing[tokenId].price.amount
  {
    assert tokenId in t.tokens;
  }

  // ------------------------------------------------------------------ runs

  /** A token's new owner and approvals. */
  datatype Access = Access(owner: Addr, approvals: seq<Approval>)

  /** What a cw721-base handler (transfer, send, approve, revoke, approve all,
      revoke all) may write: the owner and approvals of existing tokens, and
      the operator table. Their rules are those of the cw721-base crate; a run
      takes their writes as given. */
  datatype AccessWrites = AccessWrites(access: map<string, Access>, operators: map<Addr, map<Addr, Expiration>>)

  /** The tables after a delegated command wrote `w`. */
  function Delegate(t: Tables, w: AccessWrites): (t': Tables)
    ensures t'.tokens.Keys == t.tokens.Keys
    ensures forall id :: id in t.tokens ==>
      t'.tokens[id] == t.tokens[id].(owner := t'.tokens[id].owner, approvals := t'.tokens[id].approvals)
    ensures t' == t.(tokens := t'.tokens, operators := t'.operators)
  {
    var tokens := map id | id in t.tokens ::
      if id in w.access then t.tokens[id].(owner := w.access[id].owner, approvals := w.access[id].approvals)
      else t.tokens[id];
    t.(tokens := tokens, operators := w.operators)
  }

  /** One command as the host delivers it; `delegated` is what the cw721-base
      handler writes when the command is one of the six passed on. */
  datatype Command = Command(info: MessageInfo, msg: Msg.ExecuteMsg, delegated: AccessWrites)

  /** The storage after one command: this contract's own handlers, or the
      delegated writes. */
  function Step(t: Tables, c: Command): Tables {
    if c.msg.Mint? || c.msg.License? then Apply(t, c.info, c.msg) else Delegate(t, c.delegated)
  }

  /** The storage after a run of commands. */
  function Run(t: Tables, cmds: seq<Command>): Tables
    decreases |cmds|
  {
    if cmds == [] then t else Run(Step(t, cmds[0]), cmds[1..])
  }

  /** The number of mints in a run that succeed. */
  function SuccessfulMints(t: Tables, cmds: seq<Command>): nat
    decreases |cmds|
  {
    if cmds == [] then 0
    else
      var c := cmds[0];
      var counted := if c.msg.Mint? && Dispatch(t, c.info, c.msg) == Handled(Ok(Response([]))) then 1 else 0;
      counted + SuccessfulMints(Step(t, c), cmds[1..])
  }

  /** Delegated writes touch no table the consistency of the registry reads. */
  lemma DelegatePreservesConsistent(t: Tables, w: AccessWrites)
    requires Consistent(t)
    ensures Consistent(Delegate(t, w))
  {
    var t' := Delegate(t, w);
    assert |t'.tokens| == |t'.tokens.Keys| == |t.tokens.Keys| == |t.tokens|;
  }

  /** Every step of a run keeps the tables consistent. */
  lemma StepPreservesConsistent(t: Tables, c: Command)
    requires Consistent(t)
    ensures Consistent(Step(t, c))
  {
    if c.msg.Mint? || c.msg.License? {
      ApplyPreservesConsistent(t, c.info, c.msg);
    } else {
      DelegatePreservesConsistent(t, c.delegated);
    }
  }

  /** Any run from consistent tables ends in consistent tables: in particular
      every ISCC data record names a token that exists and has terms. */
  lemma {:induction false} RunPreservesConsistent(t: Tables, cmds: seq<Command>)
    requires Consistent(t)
    ensures Consistent(Run(t, cmds))
    ensures forall c :: c in Run(t, cmds).isccData ==>
      Run(t, cmds).isccData[c].tokenId in Run(t, cmds).tokens && Run(t, cmds).isccData[c].tokenId in Run(t, cmds).licensing
    decreases |cmds|
  {
    if cmds != [] {
      StepPreservesConsistent(t, cmds[0]);
      RunPreservesConsistent(Step(t, cmds[0]), cmds[1..]);
    }
  }

  /** One step raises the counter exactly when it is a successful mint. */
  lemma StepCountsMint(t: Tables, c: Command)
    ensures Step(t, c).numTokens
      == t.numTokens + if c.msg.Mint? && Dispatch(t, c.info, c.msg) == Handled(Ok(Response([]))) then 1 else 0
  {
    if c.msg.Mint? {
      MintSucceedsIff(t, c.info, c.msg.mint);
    }
  }

  /** The counter reports the number of successful mints. */
  lemma {:induction false} RunCountsMints(t: Tables, cmds: seq<Command>)
    ensures Run(t, cmds).numTokens == t.numTokens + SuccessfulMints(t, cmds)
    decreases |cmds|
  {
    if cmds != [] {
      StepCountsMint(t, cmds[0]);
      RunCountsMints(Step(t, cmds[0]), cmds[1..]);
    }
  }

  /** From instantiation, `NumTokens` answers the number of successful mints,
      which is also the number of tokens. */
  lemma NumTokensCountsMints(info: ContractInfo, block: BlockInfo, cmds: seq<Command>)
    ensures var t := Run(Instantiated(info), cmds);
      && Query(t, block, Msg.NumTokens) == Ok(NumTokensResult(SuccessfulMints(Instantiated(info), cmds)))
      && t.numTokens == |t.tokens|
  {
    RunCountsMints(Instantiated(info), cmds);
    InstantiatedConsistent(info);
    RunPreservesConsistent(Instantiated(info), cmds);
  }

  /** No command writes the contract's name and symbol. */
  lemma {:induction false} RunKeepsContractInfo(t: Tables, cmds: seq<Command>)
    ensures Run(t, cmds).contractInfo == t.contractInfo
    decreases |cmds|
  {
    if cmds != [] {
      RunKeepsContractInfo(Step(t, cmds[0]), cmds[1..]);
    }
  }

  /** `ContractInfo` answers the name and symbol given at instantiation, after
      any run of commands. */
  lemma ContractInfoAfterRun(msg: Msg.InstantiateMsg, block: BlockInfo, cmds: seq<Command>)
    ensures var t := Run(Instantiated(ContractInfo(msg.name, msg.symbol)), cmds);
      Query(t, block, Msg.ContractInfo) == Ok(ContractInfoResult(ContractInfo(msg.name, msg.symbol)))
  {
    RunKeepsContractInfo(Instantiated(ContractInfo(msg.name, msg.symbol)), cmds);
  }

  // --------------------------------------------------------------- queries

  /** After a successful mint the token's owner is the sender, it has no
      approvals, and its descriptive fields are the message's. */
  lemma MintThenQuery(t: Tables, info: MessageInfo, msg: Msg.MintMsg, block: BlockInfo, includeExpired: bool)
    requires MintSteps(t, info, msg).result.Ok?
    ensures var t' := Apply(t, info, Msg.Mint(msg));
      && QueryOwnerOf(t', block, msg.tokenId, includeExpired) == Ok(OwnerOfResponse(info.sender, []))
      && QueryNftInfo(t', msg.tokenId) == Ok(NftInfoResponse(msg.name, msg.description.GetOr(""), msg.image))
  {
    var t' := Apply(t, info, Msg.Mint(msg));
    assert HumanizeApprovals(block, t'.tokens[msg.tokenId], includeExpired) == [];
  }

  /** An unset `include_expired` is read as false. */
  lemma IncludeExpiredDefault(t: Tables, block: BlockInfo, tokenId: string, owner: Addr, startAfter: Option<Addr>, limit: Option<nat>)
    ensures Query(t, block, Msg.OwnerOf(tokenId, None)) == Query(t, block, Msg.OwnerOf(tokenId, Some(false)))
    ensures Query(t, block, Msg.AllNftInfo(tokenId, None)) == Query(t, block, Msg.AllNftInfo(tokenId, Some(false)))
    ensures Query(t, block, Msg.ApprovedForAll(owner, None, startAfter, limit))
      == Query(t, block, Msg.ApprovedForAll(owner, Some(false), startAfter, limit))
  {
  }

  /** `OwnerOf` of a token that does not exist is an error. */
  lemma OwnerOfMissing(t: Tables, block: BlockInfo, tokenId: string, includeExpired: Option<bool>)
    requires tokenId !in t.tokens
    ensures Query(t, block, Msg.OwnerOf(tokenId, includeExpired)) == Err(NotFound)
  {
  }

  /** Resolving by ISCC code is declared but has no handler. */
  lemma ResolveUnhandled(t: Tables, block: BlockInfo, code: string)
    ensures Query(t, block, Msg.GetByIsccCode(code)).Err?
  {
  }

  /** An owner with no tokens gets an empty list. */
  lemma TokensOfStranger(t: Tables, owner: Addr, startAfter: Option<string>, limit: Option<nat>)
    requires forall id :: id in t.tokens ==> t.tokens[id].owner != owner
    ensures QueryTokens(t, owner, startAfter, limit) == []
  {
    assert OwnedBy(t.tokens, owner) == {};
  }

  /** `Tokens` and `AllTokens` return the smallest qualifying ids: an id after
      the cursor that a page leaves out lies beyond a full page. */
  lemma TokensSmallest(t: Tables, owner: Addr, startAfter: Option<string>, limit: Option<nat>, id: string)
    requires id in t.tokens && t.tokens[id].owner == owner
    requires startAfter.None? || KeyLess(startAfter.value, id)
    requires id !in QueryTokens(t, owner, startAfter, limit)
    ensures |QueryTokens(t, owner, startAfter, limit)| == EffectiveLimit(limit)
    ensures forall x :: x in QueryTokens(t, owner, startAfter, limit) ==> KeyLess(x, id)
  {
    PageSmallest(OwnedBy(t.tokens, owner), startAfter, limit, id);
  }

  lemma AllTokensSmallest(t: Tables, startAfter: Option<string>, limit: Option<nat>, id: string)
    requires id in t.tokens
    requires startAfter.None? || KeyLess(startAfter.value, id)
    requires id !in QueryAllTokens(t, startAfter, limit)
    ensures |QueryAllTokens(t, startAfter, limit)| == EffectiveLimit(limit)
    ensures forall x :: x in QueryAllTokens(t, startAfter, limit) ==> KeyLess(x, id)
  {
    PageSmallest(t.tokens.Keys, startAfter, limit, id);
  }

  /** `ApprovedForAll` filters out expired operators before it cuts the page:
      a live operator after the cursor that the page leaves out lies beyond
      a full page of live operators. */
  lemma ApprovalsSmallest(t: Tables, block: BlockInfo, owner: Addr, includeExpired: bool,
                          startAfter: Option<Addr>, limit: Option<nat>, k: Addr)
    requires k in OperatorsOf(t, owner)
    requires startAfter.None? || KeyLess(startAfter.value, k)
    requires includeExpired || !IsExpired(OperatorsOf(t, owner)[k], block)
    requires forall i :: 0 <= i < |QueryAllApprovals(t, block, owner, includeExpired, startAfter, limit)| ==>
      QueryAllApprovals(t, block, owner, includeExpired, startAfter, limit)[i].spender != k
    ensures |QueryAllApprovals(t, block, owner, includeExpired, startAfter, limit)| == EffectiveLimit(limit)
    ensures forall i :: 0 <= i < |QueryAllApprovals(t, block, owner, includeExpired, startAfter, limit)| ==>
      KeyLess(QueryAllApprovals(t, block, owner, includeExpired, startAfter, limit)[i].spender, k)
  {
    var r := QueryAllApprovals(t, block, owner, includeExpired, startAfter, limit);
    var ops := OperatorsOf(t, owner);
    var scan := Ascending(After(ops.Keys, startAfter));
    var live := LiveOperators(scan, ops, block, includeExpired);
    var page := Take(live, EffectiveLimit(limit));
    assert |r| == |page| && forall i :: 0 <= i < |r| ==> r[i].spender == page[i];
    assert k in After(ops.Keys, startAfter);
    assert k in live;
    forall i | 0 <= i < |page|
      ensures page[i] != k
    {
      assert r[i].spender == page[i];
    }
    TakeSmallest(live, EffectiveLimit(limit), k);
  }

  // ----------------------------------------------------- an end-to-end run

  /** Mint "t1" for "iscc1" at 1000uatom; a purchase with 1000uatom succeeds and
      records the license (with no transfer handed to the host); a second
      purchase by the same licensee with 500uatom fails and changes nothing. */
  lemma EndToEnd(contract: ContractInfo, minter: Addr, licensee: Addr)
    ensures var price := Coin("uatom", 1000);
      var m := Msg.MintMsg("t1", "iscc1", "tophash", "someone", "asset", None, "image", "url", price);
      var t0 := Instantiated(contract);
      var t1 := Apply(t0, MessageInfo(minter, []), Msg.Mint(m));
      var buy := MessageInfo(licensee, [price]);
      var t2 := Apply(t1, buy, Msg.License("t1", price));
      var cheap := MessageInfo(licensee, [Coin("uatom", 500)]);
      && Dispatch(t0, MessageInfo(minter, []), Msg.Mint(m)) == Handled(Ok(Response([])))
      && Dispatch(t1, buy, Msg.License("t1", price)) == Handled(Ok(Response([])))
      && t2.license[LicenseKey(licensee, "t1")] == License("t1", licensee, price)
      && Dispatch(t2, cheap, Msg.License("t1", price)) == Handled(Err(Unauthorized))
      && Apply(t2, cheap, Msg.License("t1", price)) == t2
  {
  }
}

/** The licensing registry: the store, the two commands it handles itself
    (mint and license purchase), the dispatch of the other six to the cw721-base
    handlers, and the read-only queries. */
module Contract {
  import opened Host
  import opened Cw721
  import opened State
  import opened Paging
  import Msg

  /** Where a command stopped: the storage with every write made up to that
      point, and the outcome. The host keeps the writes only on success. */
  datatype Staged = Staged(writes: Tables, result: Result<Response, ContractError>)

  /** The host's transaction boundary: a failed command leaves no write behind. */
  function Commit(before: Tables, s: Staged): Tables {
    if s.result.Ok? then s.writes else before
  }

  /** The token record a mint creates: owned by the sender of the command
      (the message's own `owner` field plays no part), no approvals, and an
      absent description stored as empty. */
  function NewToken(info: MessageInfo, msg: Msg.MintMsg): TokenInfo {
    TokenInfo(info.sender, [], msg.name, msg.description.GetOr(""), msg.image)
  }

  /** The first three writes of a mint: the token record under its id, the
      bumped counter, and the ISCC data under its code. */
  function MintCreated(t: Tables, info: MessageInfo, msg: Msg.MintMsg): Tables {
    t.(tokens := t.tokens[msg.tokenId := NewToken(info, msg)],
       numTokens := t.numTokens + 1,
       isccData := t.isccData[msg.isccCode := IsccData(msg.tokenId, msg.isccCode, msg.tophash)])
  }

  /** The last two writes of a mint: the claim of the ISCC code (holding the
      code itself) and the licensing terms. */
  function MintRegistered(t: Tables, msg: Msg.MintMsg): Tables {
    t.(iscc := t.iscc[msg.isccCode := msg.isccCode],
       licensing := t.licensing[msg.tokenId := Licensing(msg.tokenId, msg.licenseUrl, msg.licensePrice)])
  }

  /** The writes of a mint, in the order the handler makes them: claim the
      token id, bump the counter, save the ISCC data, claim the ISCC code,
      save the licensing terms. There is no check on who may mint. */
  function MintSteps(t: Tables, info: MessageInfo, msg: Msg.MintMsg): (s: Staged)
    ensures s.writes.license == t.license && s.writes.operators == t.operators
    ensures s.writes.contractInfo == t.contractInfo
  {
    if msg.tokenId in t.tokens then Staged(t, Err(Claimed))
    else
      var created := MintCreated(t, info, msg);
      if msg.isccCode in created.iscc then Staged(created, Err(Claimed))
      else Staged(MintRegistered(created, msg), Ok(Response([])))
  }

  /** A license purchase: load the terms, check the first coin sent against
      the price, load the token, record the license with the price the caller
      named. The transfer to the owner is built and then dropped, so the
      response carries no message. */
  function LicenseSteps(t: Tables, info: MessageInfo, tokenId: string, price: Coin): (s: Staged)
    ensures s.result.Ok? ==> tokenId in t.licensing && tokenId in t.tokens && |info.funds| > 0
    ensures s.result.Ok? ==> s.writes.license.Keys == t.license.Keys + {LicenseKey(info.sender, tokenId)}
    ensures s.writes == t.(license := s.writes.license)
  {
    if tokenId !in t.licensing then Staged(t, Err(NotFound))
    else
      var terms := t.licensing[tokenId];
      if |info.funds| == 0 then Staged(t, Err(Panic))
      else if info.funds[0].denom != terms.price.denom || info.funds[0].amount < terms.price.amount then
        Staged(t, Err(Unauthorized))
      else if tokenId !in t.tokens then Staged(t, Err(NotFound))
      else
        var key := LicenseKey(info.sender, tokenId);
        Staged(t.(license := t.license[key := License(tokenId, info.sender, price)]), Ok(Response([])))
  }

  /** How the dispatch treats a command: handled here with an outcome, or
      handed to the cw721-base handlers, whose effect is outside this model. */
  datatype Handling = Handled(result: Result<Response, ContractError>) | Delegated

  function Steps(t: Tables, info: MessageInfo, msg: Msg.ExecuteMsg): Staged
    requires msg.Mint? || msg.License?
  {
    match msg
    case Mint(m) => MintSteps(t, info, m)
    case License(tokenId, price) => LicenseSteps(t, info, tokenId, price)
  }

  /** The outcome of one command. */
  function Dispatch(t: Tables, info: MessageInfo, msg: Msg.ExecuteMsg): Handling {
    if msg.Mint? || msg.License? then Handled(Steps(t, info, msg).result) else Delegated
  }

  /** The storage after one command, as far as this contract writes it. */
  function Apply(t: Tables, info: MessageInfo, msg: Msg.ExecuteMsg): Tables {
    if msg.Mint? || msg.License? then Commit(t, Steps(t, info, msg)) else t
  }

  /** The contract's storage, updated in place by the command handlers. */
  class Store {
    var tokens: map<string, TokenInfo>
    var numTokens: nat
    var isccData: map<string, IsccData>
    var iscc: map<string, string>
    var licensing: map<string, Licensing>
    var license: map<LicenseKey, License>
    var operators: map<Addr, map<Addr, Expiration>>
    var contractInfo: ContractInfo

    /** The read-only view queries see. */
    function View(): Tables
      reads this
    {
      Tables(tokens, numTokens, isccData, iscc, licensing, license, operators, contractInfo)
    }

    /** Instantiation: save the contract's name and symbol; all tables empty. */
    constructor (msg: Msg.InstantiateMsg)
      ensures View() == Instantiated(ContractInfo(msg.name, msg.symbol))
    {
      tokens, numTokens := map[], 0;
      isccData, iscc := map[], map[];
      licensing, license := map[], map[];
      operators := map[];
      contractInfo := ContractInfo(msg.name, msg.symbol);
    }

    /** The host's rollback: put every table back as it was. */
    method Restore(saved: Tables)
      modifies this
      ensures View() == saved
    {
      tokens, numTokens := saved.tokens, saved.numTokens;
      isccData, iscc := saved.isccData, saved.iscc;
      licensing, license := saved.licensing, saved.license;
      operators, contractInfo := saved.operators, saved.contractInfo;
    }

    /** `execute_mint`: writes the tables one after the other; a failure rolls
        every write back. `staged` is the storage at the point the handler
        stopped, before any rollback. */
    method ExecuteMint(info: MessageInfo, msg: Msg.MintMsg) returns (r: Result<Response, ContractError>, ghost staged: Tables)
      modifies this
      ensures Staged(staged, r) == MintSteps(old(View()), info, msg)
      ensures View() == Commit(old(View()), MintSteps(old(View()), info, msg))
    {
      var saved := View();
      // create the token, unless the id is taken
      if msg.tokenId in tokens {
        r, staged := Err(Claimed), View();
        return;
      }
      tokens := tokens[msg.tokenId := NewToken(info, msg)];
      numTokens := numTokens + 1;
      isccData := isccData[msg.isccCode := IsccData(msg.tokenId, msg.isccCode, msg.tophash)];
      ghost var created := View();
      assert created == MintCreated(saved, info, msg);
      // claim the ISCC code, unless it is taken
      if msg.isccCode in iscc {
        r, staged := Err(Claimed), created;
        Restore(saved);
        return;
      }
      iscc := iscc[msg.isccCode := msg.isccCode];
      licensing := licensing[msg.tokenId := Licensing(msg.tokenId, msg.licenseUrl, msg.licensePrice)];
      r, staged := Ok(Response([])), View();
      assert staged == MintRegistered(created, msg);
    }

    /** `execute_licensing`: every check comes before the one write. */
    method ExecuteLicensing(info: MessageInfo, tokenId: string, price: Coin) returns (r: Result<Response, ContractError>)
      modifies this
      ensures r == LicenseSteps(old(View()), info, tokenId, price).result
      ensures View() == Commit(old(View()), LicenseSteps(old(View()), info, tokenId, price))
    {
      if tokenId !in licensing {
        return Err(NotFound);
      }
      var terms := licensing[tokenId];
      if |info.funds| == 0 {
        return Err(Panic);
      }
      if info.funds[0].denom != terms.price.denom || info.funds[0].amount < terms.price.amount {
        return Err(Unauthorized);
      }
      if tokenId !in tokens {
        return Err(NotFound);
      }
      // built for the token's current owner, but never added to the response
      var transfer := Send(tokens[tokenId].owner, [terms.price]);
      license := license[LicenseKey(info.sender, tokenId) := License(tokenId, info.sender, price)];
      r := Ok(Response([]));
    }

    /** `execute`: one arm per command. */
    method Execute(info: MessageInfo, msg: Msg.ExecuteMsg) returns (h: Handling)
      modifies this
      ensures h == Dispatch(old(View()), info, msg)
      ensures View() == Apply(old(View()), info, msg)
    {
      match msg
      case Mint(m) =>
        var r, _ := ExecuteMint(info, m);
        h := Handled(r);
      case License(tokenId, price) =>
        var r := ExecuteLicensing(info, tokenId, price);
        h := Handled(r);
      case _ =>
        h := Delegated;
    }
  }

  // ---------------------------------------------------------------- queries

  function QueryContractInfo(t: Tables): ContractInfo {
    t.contractInfo
  }

  /** `query_nft_info`: the token's descriptive fields. */
  function QueryNftInfo(t: Tables, tokenId: string): (r: Result<NftInfoResponse, ContractError>)
    ensures r.Err? <==> tokenId !in t.tokens
    ensures r.Err? ==> r.error == NotFound
  {
    if tokenId !in t.tokens then Err(NotFound)
    else
      var info := t.tokens[tokenId];
      Ok(NftInfoResponse(info.name, info.description, info.image))
  }

  /** The approvals kept by the expiry filter, in their stored order. */
  function KeepLive(approvals: seq<Approval>, block: BlockInfo, includeExpired: bool): (r: seq<Approval>)
    ensures |r| <= |approvals|
    ensures forall a :: a in r <==> a in approvals && (includeExpired || !IsExpired(a.expires, block))
  {
    if approvals == [] then []
    else
      var rest := KeepLive(approvals[1..], block, includeExpired);
      if includeExpired || !IsExpired(approvals[0].expires, block) then [approvals[0]] + rest else rest
  }

  /** The filter works approval by approval: filtering a concatenation is
      concatenating the filtered parts, so the stored order and every copy of
      a kept approval stay as they were. */
  lemma {:induction false} KeepLiveAppend(a: seq<Approval>, c: seq<Approval>, block: BlockInfo, includeExpired: bool)
    ensures KeepLive(a + c, block, includeExpired) == KeepLive(a, block, includeExpired) + KeepLive(c, block, includeExpired)
  {
    if a != [] {
      KeepLiveAppend(a[1..], c, block, includeExpired);
      assert (a + c)[1..] == a[1..] + c;
    } else {
      assert a + c == c;
    }
  }

  /** A single approval is kept exactly when it is unexpired or included. */
  lemma KeepLiveOne(x: Approval, block: BlockInfo, includeExpired: bool)
    ensures KeepLive([x], block, includeExpired) == if includeExpired || !IsExpired(x.expires, block) then [x] else []
  {
  }

  /** `humanize_approvals`: a token's approvals, without the expired ones
      unless `includeExpired`; with it, all of them unchanged. */
  function HumanizeApprovals(block: BlockInfo, info: TokenInfo, includeExpired: bool): (r: seq<Approval>)
    ensures forall a :: a in r <==> a in info.approvals && (includeExpired || !IsExpired(a.expires, block))
    ensures includeExpired ==> r == info.approvals
  {
    KeepAllWhenIncluded(info.approvals, block);
    KeepLive(info.approvals, block, includeExpired)
  }

  lemma {:induction false} KeepAllWhenIncluded(approvals: seq<Approval>, block: BlockInfo)
    ensures KeepLive(approvals, block, true) == approvals
  {
    if approvals != [] {
      KeepAllWhenIncluded(approvals[1..], block);
      assert approvals == [approvals[0]] + approvals[1..];
    }
  }

  /** `query_owner_of`: the owner and the filtered approvals of a token. */
  function QueryOwnerOf(t: Tables, block: BlockInfo, tokenId: string, includeExpired: bool): (r: Result<OwnerOfResponse, ContractError>)
    ensures r.Err? <==> tokenId !in t.tokens
    ensures r.Err? ==> r.error == NotFound
    ensures r.Ok? ==> r.value.owner == t.tokens[tokenId].owner
    ensures r.Ok? ==> forall a :: a in r.value.approvals <==>
      a in t.tokens[tokenId].approvals && (includeExpired || !IsExpired(a.expires, block))
    ensures r.Ok? && includeExpired ==> r.value.approvals == t.tokens[tokenId].approvals
  {
    if tokenId !in t.tokens then Err(NotFound)
    else
      var info := t.tokens[tokenId];
      Ok(OwnerOfResponse(info.owner, HumanizeApprovals(block, info, includeExpired)))
  }

  /** `query_all_nft_info`: ownership and descriptive fields together. */
  function QueryAllNftInfo(t: Tables, block: BlockInfo, tokenId: string, includeExpired: bool): (r: Result<AllNftInfoResponse, ContractError>)
    ensures r.Err? <==> tokenId !in t.tokens
    ensures r.Ok? ==> Ok(r.value.access) == QueryOwnerOf(t, block, tokenId, includeExpired)
    ensures r.Ok? ==> Ok(r.value.info) == QueryNftInfo(t, tokenId)
  {
    if tokenId !in t.tokens then Err(NotFound)
    else
      var info := t.tokens[tokenId];
      Ok(AllNftInfoResponse(
        OwnerOfResponse(info.owner, HumanizeApprovals(block, info, includeExpired)),
        NftInfoResponse(info.name, info.description, info.image)))
  }

  /** The operators of a scan kept by the expiry filter, in scan order. */
  function LiveOperators(ks: seq<Addr>, ops: map<Addr, Expiration>, block: BlockInfo, includeExpired: bool): (r: seq<Addr>)
    requires forall k :: k in ks ==> k in ops
    ensures |r| <= |ks|
    ensures forall k :: k in r <==> k in ks && (includeExpired || !IsExpired(ops[k], block))
    ensures StrictlyAscending(ks) ==> StrictlyAscending(r)
  {
    if ks == [] then []
    else
      var rest := LiveOperators(ks[1..], ops, block, includeExpired);
      assert StrictlyAscending(ks) ==> StrictlyAscending(ks[1..]);
      assert StrictlyAscending(ks) ==> forall k :: k in ks[1..] ==> KeyLess(ks[0], k);
      if includeExpired || !IsExpired(ops[ks[0]], block) then [ks[0]] + rest else rest
  }

  /** The operators of `owner`: an empty table when it has none. */
  function OperatorsOf(t: Tables, owner: Addr): map<Addr, Expiration> {
    if owner in t.operators then t.operators[owner] else map[]
  }

  /** `query_all_approvals`: the owner's operators after the cursor, in
      ascending order, the expired ones filtered out before the page is cut. */
  function QueryAllApprovals(t: Tables, block: BlockInfo, owner: Addr, includeExpired: bool, startAfter: Option<Addr>, limit: Option<nat>): (r: seq<Approval>)
    ensures |r| <= EffectiveLimit(limit)
    ensures forall i :: 0 <= i < |r| ==>
      && r[i].spender in OperatorsOf(t, owner)
      && r[i].expires == OperatorsOf(t, owner)[r[i].spender]
      && (startAfter.None? || KeyLess(startAfter.value, r[i].spender))
      && (includeExpired || !IsExpired(r[i].expires, block))
    ensures forall i, j :: 0 <= i < j < |r| ==> KeyLess(r[i].spender, r[j].spender)
  {
    var ops := OperatorsOf(t, owner);
    var scan := Ascending(After(ops.Keys, startAfter));
    var live := LiveOperators(scan, ops, block, includeExpired);
    var page := Take(live, EffectiveLimit(limit));
    assert StrictlyAscending(page);
    assert forall k :: k in page ==> k in live;
    ApprovalsOf(page, ops)
  }

  /** Each operator of a page with its stored expiry. */
  function ApprovalsOf(page: seq<Addr>, ops: map<Addr, Expiration>): (r: seq<Approval>)
    requires forall k :: k in page ==> k in ops
    ensures |r| == |page|
    ensures forall i :: 0 <= i < |r| ==> r[i].spender == page[i] && r[i].expires == ops[page[i]]
  {
    seq(|page|, i requires 0 <= i < |page| => Approval(page[i], ops[page[i]]))
  }

  /** The tokens `owner` holds: the owner index as a filter over `tokens`. */
  function OwnedBy(tokens: map<string, TokenInfo>, owner: Addr): set<string> {
    set id | id in tokens && tokens[id].owner == owner
  }

  /** `query_tokens`: a page of the ids of the tokens `owner` holds. */
  function QueryTokens(t: Tables, owner: Addr, startAfter: Option<string>, limit: Option<nat>): (r: seq<string>)
    ensures |r| <= EffectiveLimit(limit)
    ensures forall id :: id in r ==> id in t.tokens && t.tokens[id].owner == owner
    ensures forall id :: id in r ==> startAfter.None? || KeyLess(startAfter.value, id)
    ensures StrictlyAscending(r)
  {
    Page(OwnedBy(t.tokens, owner), startAfter, limit)
  }

  /** `query_all_tokens`: a page of all token ids. */
  function QueryAllTokens(t: Tables, startAfter: Option<string>, limit: Option<nat>): (r: seq<string>)
    ensures |r| <= EffectiveLimit(limit)
    ensures forall id :: id in r ==> id in t.tokens && (startAfter.None? || KeyLess(startAfter.value, id))
    ensures StrictlyAscending(r)
  {
    Page(t.tokens.Keys, startAfter, limit)
  }

  /** What a query returns. */
  datatype QueryResponse =
    | ContractInfoResult(contract: ContractInfo)
    | NftInfoResult(nft: NftInfoResponse)
    | OwnerOfResult(access: OwnerOfResponse)
    | AllNftInfoResult(all: AllNftInfoResponse)
    | ApprovedForAllResult(operators: seq<Approval>)
    | NumTokensResult(count: nat)
    | TokensResult(ids: seq<string>)

  function MapResult<R>(r: Result<R, ContractError>, wrap: R -> QueryResponse): Result<QueryResponse, ContractError> {
    match r
    case Ok(v) => Ok(wrap(v))
    case Err(e) => Err(e)
  }

  /** `query`: an unset `include_expired` means false. The dispatch has no arm
      for `GetByIsccCode`, which is answered with `NoHandler`. */
  function Query(t: Tables, block: BlockInfo, msg: Msg.QueryMsg): (r: Result<QueryResponse, ContractError>)
    ensures r.Err? ==> r.error == NotFound || r.error == NoHandler
    ensures r.Err? && r.error == NotFound <==>
      (msg.NftInfo? || msg.OwnerOf? || msg.AllNftInfo?) && msg.tokenId !in t.tokens
    ensures r.Err? && r.error == NoHandler <==> msg.GetByIsccCode?
  {
    match msg
    case ContractInfo => Ok(ContractInfoResult(QueryContractInfo(t)))
    case NftInfo(tokenId) => MapResult(QueryNftInfo(t, tokenId), r => NftInfoResult(r))
    case OwnerOf(tokenId, includeExpired) =>
      MapResult(QueryOwnerOf(t, block, tokenId, includeExpired.GetOr(false)), r => OwnerOfResult(r))
    case AllNftInfo(tokenId, includeExpired) =>
      MapResult(QueryAllNftInfo(t, block, tokenId, includeExpired.GetOr(false)), r => AllNftInfoResult(r))
    case ApprovedForAll(owner, includeExpired, startAfter, limit) =>
      Ok(ApprovedForAllResult(QueryAllApprovals(t, block, owner, includeExpired.GetOr(false), startAfter, limit)))
    case NumTokens => Ok(NumTokensResult(t.numTokens))
    case Tokens(owner, startAfter, limit) => Ok(TokensResult(QueryTokens(t, owner, startAfter, limit)))
    case AllTokens(startAfter, limit) => Ok(TokensResult(QueryAllTokens(t, startAfter, limit)))
    case GetByIsccCode(_) => Err(NoHandler)
  }
}

/** `TransactionService`: the transaction cache, its paged synchronisation with the
    backend, and the DTO mapper.

    The backend's transaction list is a finite sequence of pages. A page cursor is the
    index of the page it designates: the first page is asked for with no cursor, page
    `i` hands out cursor `i + 1` when there is a further page and no cursor on the last
    one. Each page answer is either a list of DTOs or the error the call would throw;
    an unknown cursor is answered with `staleCursor`. The clock is the `now` parameter. */
module TransactionSync {
  import opened Wrappers
  import opened Clock
  import opened ApiErrors
  import opened Transactions
  import opened Keyed

  datatype TransactionInputDto = TransactionInputDto(text: Option<string>, from: Option<string>, location: Option<string>)

  datatype TransactionIdentityDto = TransactionIdentityDto(ipAddress: Option<string>, userAgent: Option<string>)

  datatype TransactionMetadataDto = TransactionMetadataDto(kind: Option<string>, identity: Option<TransactionIdentityDto>)

  datatype TransactionDto = TransactionDto(
    id: string,
    accountNumber: Option<string>,
    cardNumber: Option<string>,
    name: string,
    merchantCategory: Option<string>,
    amount: real,
    currency: string,
    success: Option<bool>,
    isCredit: Option<bool>,
    isDebit: Option<bool>,
    isAtm: Option<bool>,
    isPurchase: Option<bool>,
    isTransfer: Option<bool>,
    fullDate: Option<string>,
    orgType: Option<string>,
    orgName: Option<string>,
    transactionType: Option<string>,
    errorMessage: Option<string>,
    input: Option<TransactionInputDto>,
    metadata: Option<TransactionMetadataDto>,
    createdAt: Option<Date>)

  // ---------------------------------------------------------------------------
  // DTO mapping

  /** The type of a transaction DTO: a present type string decides alone (an unknown
      string gives `.unknown`); without one, the purchase, transfer and ATM flags are
      consulted in that order. */
  function TypeFromDto(dto: TransactionDto): (t: TransactionType)
    ensures dto.transactionType.Some? ==>
      t == TransactionTypeFromRaw(dto.transactionType.value).GetOr(UnknownType)
    ensures dto.transactionType.None? && dto.isPurchase == Some(true) ==> t == PosPurchase
    ensures dto.transactionType.None? && dto.isPurchase != Some(true) && dto.isTransfer == Some(true) ==> t == Transfer
    ensures (dto.transactionType.None? && dto.isPurchase != Some(true) && dto.isTransfer != Some(true)
             && dto.isAtm == Some(true)) ==> t == Atm
    ensures (dto.transactionType.None? && dto.isPurchase != Some(true) && dto.isTransfer != Some(true)
             && dto.isAtm != Some(true)) ==> t == UnknownType
  {
    if dto.transactionType.Some? then TransactionTypeFromRaw(dto.transactionType.value).GetOr(UnknownType)
    else if dto.isPurchase == Some(true) then PosPurchase
    else if dto.isTransfer == Some(true) then Transfer
    else if dto.isAtm == Some(true) then Atm
    else UnknownType
  }

  function InputFromDto(dto: TransactionInputDto): TransactionInput
  {
    TransactionInput(dto.text, None, None, None, dto.from, dto.location)
  }

  function MetadataFromDto(dto: TransactionMetadataDto): TransactionMetadata
  {
    TransactionMetadata(
      dto.kind.GetOr("unknown"),
      if dto.identity.Some? then dto.identity.value.userAgent else None,
      if dto.identity.Some? then dto.identity.value.ipAddress else None)
  }

  /** `Transaction(from:)`. */
  function TransactionFromDto(dto: TransactionDto, now: Date): (t: Transaction)
    ensures t.id == dto.id && t.name == dto.name && t.amount == dto.amount && t.currency == dto.currency
  {
    Transaction(
      dto.id,
      dto.accountNumber.GetOr(""),
      dto.cardNumber.GetOr(""),
      dto.name,
      dto.merchantCategory.GetOr(""),
      dto.amount,
      dto.currency,
      dto.success.GetOr(true),
      dto.isCredit.GetOr(false),
      dto.isDebit.GetOr(false),
      dto.isAtm.GetOr(false),
      dto.isPurchase.GetOr(false),
      dto.isTransfer.GetOr(false),
      dto.fullDate.GetOr(""),
      dto.orgType.GetOr(""),
      dto.orgName.GetOr(""),
      TypeFromDto(dto),
      dto.errorMessage,
      if dto.input.Some? then Some(InputFromDto(dto.input.value)) else None,
      if dto.metadata.Some? then Some(MetadataFromDto(dto.metadata.value)) else None,
      dto.createdAt.GetOr(now))
  }

  /** When the DTO carries no type string, the stored type is what the flags say, so
      it agrees with the transaction's computed type. */
  lemma FromDtoTypeAgreesWithFlags(dto: TransactionDto, now: Date)
    requires dto.transactionType.None?
    ensures TransactionFromDto(dto, now).transactionType == TransactionFromDto(dto, now).ComputedType()
  {
  }

  /** A DTO with every optional field absent: the defaults (`success` true, flags false,
      empty strings, creation date now, type `.unknown`). */
  lemma FromBareDto(id: string, name: string, amount: real, currency: string, now: Date)
    ensures var dto := TransactionDto(id, None, None, name, None, amount, currency, None, None, None,
                                      None, None, None, None, None, None, None, None, None, None, None);
      TransactionFromDto(dto, now) == NewTransaction(id, name, amount, currency, now)
  {
  }

  /** The DTO that encodes a transaction with every field present. */
  function TransactionToDto(t: Transaction): TransactionDto
  {
    TransactionDto(
      t.id, Some(t.accountNumber), Some(t.cardNumber), t.name, Some(t.merchantCategory), t.amount, t.currency,
      Some(t.success), Some(t.isCredit), Some(t.isDebit), Some(t.isAtm), Some(t.isPurchase), Some(t.isTransfer),
      Some(t.fullDate), Some(t.orgType), Some(t.orgName), Some(t.transactionType.RawValue()), t.errorMessage,
      if t.input.Some? then Some(TransactionInputDto(t.input.value.text, t.input.value.from, t.input.value.location)) else None,
      if t.metadata.Some? then
        Some(TransactionMetadataDto(Some(t.metadata.value.kind),
                                    Some(TransactionIdentityDto(t.metadata.value.ipAddress, t.metadata.value.userAgent))))
      else None,
      Some(t.createdAt))
  }

  /** The mapper loses nothing but the amount, merchant and card of the user input,
      which the input DTO does not carry. */
  lemma FromDtoRoundTrip(t: Transaction, now: Date)
    requires t.input.Some? ==> t.input.value.amount.None? && t.input.value.merchant.None? && t.input.value.card.None?
    ensures TransactionFromDto(TransactionToDto(t), now) == t
  {
    TransactionTypeRoundTrip(t.transactionType);
  }

  function MapDtos(list: seq<TransactionDto>, now: Date): (r: seq<Transaction>)
    ensures |r| == |list|
    ensures forall i :: 0 <= i < |list| ==> r[i] == TransactionFromDto(list[i], now)
  {
    if list == [] then [] else [TransactionFromDto(list[0], now)] + MapDtos(list[1..], now)
  }

  // ---------------------------------------------------------------------------
  // The backend's paged list

  datatype ListData = ListData(list: seq<TransactionDto>, nextToken: Option<nat>)

  datatype Backend = Backend(pages: seq<Result<seq<TransactionDto>, Thrown>>, staleCursor: Thrown)

  function Position(token: Option<nat>): nat
  {
    if token.Some? then token.value else 0
  }

  /** `client.listTransactions(nextToken:perPage:)`. A cursor it hands out always points
      further on and at an existing page. */
  function ListTransactions(backend: Backend, token: Option<nat>): (r: Result<ListData, Thrown>)
    ensures r.Success? && r.value.nextToken.Some? ==>
      Position(token) < r.value.nextToken.value < |backend.pages|
  {
    var i := Position(token);
    if i < |backend.pages| then
      match backend.pages[i]
      case Failure(e) => Failure(e)
      case Success(list) => Success(ListData(list, if i + 1 < |backend.pages| then Some(i + 1) else None))
    else if token.None? then Success(ListData([], None))
    else Failure(backend.staleCursor)
  }

  /** All transactions from the page at `token` on, in server order, up to the last page
      or the first page that fails. */
  function Stream(backend: Backend, token: Option<nat>, now: Date): seq<Transaction>
    decreases |backend.pages| - Position(token)
  {
    match ListTransactions(backend, token)
    case Failure(_) => []
    case Success(d) =>
      MapDtos(d.list, now) + if d.nextToken.None? then [] else Stream(backend, d.nextToken, now)
  }

  function TxId(t: Transaction): string
  {
    t.id
  }

  function Ids(s: seq<Transaction>): set<string>
  {
    Keys(s, TxId)
  }

  /** The cache after `fetchPage` stores a page: the old contents, then the page's
      transactions whose id was not cached before the call. */
  function AppendNew(existing: seq<Transaction>, page: seq<Transaction>): seq<Transaction>
  {
    existing + WithoutKeys(page, TxId, Ids(existing))
  }

  /** Appending keeps the old cache as a prefix, and afterwards every id of the page is
      cached; ids occurring twice in the page are not collapsed. */
  lemma AppendNewEffect(existing: seq<Transaction>, page: seq<Transaction>)
    ensures existing <= AppendNew(existing, page)
    ensures Ids(AppendNew(existing, page)) == Ids(existing) + Ids(page)
    ensures Ids(page) !! Ids(existing) ==> AppendNew(existing, page) == existing + page
  {
    var added := WithoutKeys(page, TxId, Ids(existing));
    KeysAppend(existing, added, TxId);
    KeysWithoutKeys(page, TxId, Ids(existing));
    if Ids(page) !! Ids(existing) {
      WithoutKeysNoop(page, TxId, Ids(existing));
    }
  }

  /** What `fetchPage` returns. */
  datatype ListResult = ListResult(transactions: seq<Transaction>, nextToken: Option<nat>)

  /** `Result` of a computation prefixed by transactions gathered earlier. */
  function Prefixed(gathered: seq<Transaction>, r: Result<seq<Transaction>, Thrown>): Result<seq<Transaction>, Thrown>
  {
    match r
    case Success(rest) => Success(gathered + rest)
    case Failure(e) => Failure(e)
  }

  lemma PrefixedNothing(r: Result<seq<Transaction>, Thrown>)
    ensures Prefixed([], r) == r
  {
    if r.Success? {
      assert [] + r.value == r.value;
    }
  }

  /** Prefixing twice is prefixing with the concatenation. */
  lemma PrefixedTwice(a: seq<Transaction>, b: seq<Transaction>, r: Result<seq<Transaction>, Thrown>)
    ensures Prefixed(a, Prefixed(b, r)) == Prefixed(a + b, r)
  {
    if r.Success? {
      assert a + (b + r.value) == (a + b) + r.value;
    }
  }

  // ---------------------------------------------------------------------------
  // Refresh on an empty cache: drain every page through `fetchPage`

  datatype Drained = Drained(cache: Option<seq<Transaction>>, failure: Option<Thrown>)

  /** The cache and error after calling `fetchPage` from `token` until no cursor is
      handed out; on a failing page the pages stored before it stay in the cache. */
  function Drain(backend: Backend, cache: Option<seq<Transaction>>, token: Option<nat>, now: Date): Drained
    decreases |backend.pages| - Position(token)
  {
    match ListTransactions(backend, token)
    case Failure(e) => Drained(cache, Some(e))
    case Success(d) =>
      var stored := Some(AppendNew(cache.GetOr([]), MapDtos(d.list, now)));
      if d.nextToken.None? then Drained(stored, None) else Drain(backend, stored, d.nextToken, now)
  }

  /** Draining only ever adds to the cache. */
  lemma {:induction false} DrainKeepsCache(backend: Backend, cache: Option<seq<Transaction>>, token: Option<nat>, now: Date)
    ensures cache.GetOr([]) <= Drain(backend, cache, token, now).cache.GetOr([])
    decreases |backend.pages| - Position(token)
  {
    var answer := ListTransactions(backend, token);
    if answer.Success? && answer.value.nextToken.Some? {
      var stored := AppendNew(cache.GetOr([]), MapDtos(answer.value.list, now));
      DrainKeepsCache(backend, Some(stored), answer.value.nextToken, now);
    }
  }

  /** One page of `Drain`. */
  lemma DrainStep(backend: Backend, cache: Option<seq<Transaction>>, token: Option<nat>, now: Date)
    requires ListTransactions(backend, token).Success?
    ensures var d := ListTransactions(backend, token).value;
      var stored := Some(AppendNew(cache.GetOr([]), MapDtos(d.list, now)));
      Drain(backend, cache, token, now) ==
        if d.nextToken.None? then Drained(stored, None) else Drain(backend, stored, d.nextToken, now)
  {
  }

  /** `cache` holds exactly the ids of `before` and of `stream`. */
  predicate HoldsIds(cache: Option<seq<Transaction>>, before: Option<seq<Transaction>>, stream: seq<Transaction>)
  {
    Ids(cache.GetOr([])) == Ids(before.GetOr([])) + Ids(stream)
  }

  /** A drain that does not fail leaves every transaction of every page in the cache. */
  lemma {:induction false} DrainCollectsAll(backend: Backend, cache: Option<seq<Transaction>>, token: Option<nat>, now: Date)
    ensures Drain(backend, cache, token, now).failure.None? ==>
      HoldsIds(Drain(backend, cache, token, now).cache, cache, Stream(backend, token, now))
    decreases |backend.pages| - Position(token)
  {
    var answer := ListTransactions(backend, token);
    if answer.Success? {
      var page := MapDtos(answer.value.list, now);
      var stored := AppendNew(cache.GetOr([]), page);
      AppendNewEffect(cache.GetOr([]), page);
      DrainStep(backend, cache, token, now);
      StreamStep(backend, token, now);
      if answer.value.nextToken.None? {
        assert page + [] == page;
      } else {
        var rest := Stream(backend, answer.value.nextToken, now);
        DrainCollectsAll(backend, Some(stored), answer.value.nextToken, now);
        KeysAppend(page, rest, TxId);
      }
    }
  }

  // ---------------------------------------------------------------------------
  // Refresh on a non-empty cache: scan newest-first until a cached id shows up

  /** The transactions `refreshTransactions` collects from `token` on: each page is
      taken up to its first cached id; the scan ends at that page or at the last one. */
  function Scan(backend: Backend, ids: set<string>, token: Option<nat>, now: Date): Result<seq<Transaction>, Thrown>
    decreases |backend.pages| - Position(token)
  {
    match ListTransactions(backend, token)
    case Failure(e) => Failure(e)
    case Success(d) =>
      var page := MapDtos(d.list, now);
      var unseen := TakeUntilKnown(page, TxId, ids);
      if |unseen| < |page| || d.nextToken.None? then Success(unseen)
      else Prefixed(unseen, Scan(backend, ids, d.nextToken, now))
  }

  /** A successful scan yields exactly the longest run of transactions, from the newest
      on across page boundaries, that contains no cached id. */
  lemma {:induction false} ScanIsLongestFreshPrefix(backend: Backend, ids: set<string>, token: Option<nat>, now: Date)
    ensures Scan(backend, ids, token, now).Success? ==>
      Scan(backend, ids, token, now).value == TakeUntilKnown(Stream(backend, token, now), TxId, ids)
    decreases |backend.pages| - Position(token)
  {
    if ListTransactions(backend, token).Success? {
      var d := ListTransactions(backend, token).value;
      var page := MapDtos(d.list, now);
      var last := d.nextToken.None?;
      var rest := if last then [] else Stream(backend, d.nextToken, now);
      var scanRest := if last then Success([]) else Scan(backend, ids, d.nextToken, now);
      ScanStep(backend, ids, token, now);
      StreamStep(backend, token, now);
      if !last {
        ScanIsLongestFreshPrefix(backend, ids, d.nextToken, now);
      }
      ScanPageStep(page, rest, ids, scanRest, last);
    }
  }

  /** One page of `ScanIsLongestFreshPrefix`: a page scanned to its end joins the scan
      of the rest of the list. */
  lemma ScanPageStep(page: seq<Transaction>, rest: seq<Transaction>, ids: set<string>,
                     scanRest: Result<seq<Transaction>, Thrown>, last: bool)
    requires last ==> rest == []
    requires !last && scanRest.Success? ==> scanRest.value == TakeUntilKnown(rest, TxId, ids)
    ensures var unseen := TakeUntilKnown(page, TxId, ids);
      var r := if |unseen| < |page| || last then Success(unseen) else Prefixed(unseen, scanRest);
      r.Success? ==> r.value == TakeUntilKnown(page + rest, TxId, ids)
  {
    var unseen := TakeUntilKnown(page, TxId, ids);
    TakeUntilKnownAppend(page, rest, TxId, ids);
    if |unseen| == |page| {
      assert unseen == page;
      if last {
        assert page + rest == page;
      } else if scanRest.Success? {
        assert Prefixed(unseen, scanRest).value == page + TakeUntilKnown(rest, TxId, ids);
      }
    }
  }

  /** The scan never collects a cached id. */
  lemma {:induction false} ScanAvoidsIds(backend: Backend, ids: set<string>, token: Option<nat>, now: Date)
    ensures Scan(backend, ids, token, now).Success? ==>
      forall i :: 0 <= i < |Scan(backend, ids, token, now).value| ==> Scan(backend, ids, token, now).value[i].id !in ids
  {
    ScanIsLongestFreshPrefix(backend, ids, token, now);
  }

  /** One page of `Scan`. */
  lemma ScanStep(backend: Backend, ids: set<string>, token: Option<nat>, now: Date)
    requires ListTransactions(backend, token).Success?
    ensures var d := ListTransactions(backend, token).value;
      var page := MapDtos(d.list, now);
      var unseen := TakeUntilKnown(page, TxId, ids);
      Scan(backend, ids, token, now) ==
        if |unseen| < |page| || d.nextToken.None? then Success(unseen)
        else Prefixed(unseen, Scan(backend, ids, d.nextToken, now))
  {
  }

  // ---------------------------------------------------------------------------
  // Loading everything back to a date

  /** `loadAllTransactions`'s loop: pages are gathered until one ends with a transaction
      older than `threshold`, or until no cursor is handed out. An empty page does not
      stop it. */
  function Collect(backend: Backend, token: Option<nat>, threshold: Date, now: Date): Result<seq<Transaction>, Thrown>
    decreases |backend.pages| - Position(token)
  {
    match ListTransactions(backend, token)
    case Failure(e) => Failure(e)
    case Success(d) =>
      var page := MapDtos(d.list, now);
      if EndsBefore(page, threshold) || d.nextToken.None? then Success(page)
      else Prefixed(page, Collect(backend, d.nextToken, threshold, now))
  }

  /** The last transaction of `s` is older than `threshold`. */
  predicate EndsBefore(s: seq<Transaction>, threshold: Date)
  {
    s != [] && s[|s| - 1].createdAt < threshold
  }

  /** One page of `Stream`: the page, then the rest of the list when a cursor is handed out. */
  lemma StreamStep(backend: Backend, token: Option<nat>, now: Date)
    requires ListTransactions(backend, token).Success?
    ensures var d := ListTransactions(backend, token).value;
      Stream(backend, token, now) ==
        MapDtos(d.list, now) + (if d.nextToken.None? then [] else Stream(backend, d.nextToken, now))
  {
  }

  /** One page of `Collect`. */
  lemma CollectStep(backend: Backend, token: Option<nat>, threshold: Date, now: Date)
    requires ListTransactions(backend, token).Success?
    ensures var d := ListTransactions(backend, token).value;
      var page := MapDtos(d.list, now);
      Collect(backend, token, threshold, now) ==
        if EndsBefore(page, threshold) || d.nextToken.None? then Success(page)
        else Prefixed(page, Collect(backend, d.nextToken, threshold, now))
  {
  }

  /** `loaded` is all of `stream`, or a prefix of it whose last transaction is older
      than `threshold`. */
  predicate StopsAtThreshold(loaded: seq<Transaction>, stream: seq<Transaction>, threshold: Date)
  {
    loaded <= stream && (loaded == stream || EndsBefore(loaded, threshold))
  }

  lemma StopsAtThresholdPrefixed(page: seq<Transaction>, loaded: seq<Transaction>, stream: seq<Transaction>, threshold: Date)
    requires StopsAtThreshold(loaded, stream, threshold)
    ensures StopsAtThreshold(page + loaded, page + stream, threshold)
  {
    if EndsBefore(loaded, threshold) {
      assert (page + loaded)[|page + loaded| - 1] == loaded[|loaded| - 1];
    }
  }

  /** What is loaded is a prefix of the backend's list: all of it, or a prefix that ends
      in a transaction older than the threshold. */
  lemma {:induction false} CollectStopRule(backend: Backend, token: Option<nat>, threshold: Date, now: Date)
    ensures Collect(backend, token, threshold, now).Success? ==>
      StopsAtThreshold(Collect(backend, token, threshold, now).value, Stream(backend, token, now), threshold)
    decreases |backend.pages| - Position(token)
  {
    var answer := ListTransactions(backend, token);
    if answer.Success? {
      var page := MapDtos(answer.value.list, now);
      StreamStep(backend, token, now);
      CollectStep(backend, token, threshold, now);
      if !EndsBefore(page, threshold) && answer.value.nextToken.Some? {
        CollectStopRule(backend, answer.value.nextToken, threshold, now);
        var c := Collect(backend, answer.value.nextToken, threshold, now);
        if c.Success? {
          StopsAtThresholdPrefixed(page, c.value, Stream(backend, answer.value.nextToken, now), threshold);
        }
      }
    }
  }

  /** The mapped pages along the cursor chain from `token`, up to the first page that
      cannot be fetched. */
  function Pages(backend: Backend, token: Option<nat>, now: Date): (ps: seq<seq<Transaction>>)
    ensures ps != [] <==> ListTransactions(backend, token).Success?
    decreases |backend.pages| - Position(token)
  {
    match ListTransactions(backend, token)
    case Failure(_) => []
    case Success(d) =>
      [MapDtos(d.list, now)] + if d.nextToken.None? then [] else Pages(backend, d.nextToken, now)
  }

  /** Every page along the cursor chain from `token` can be fetched, up to the one that
      hands out no cursor. */
  predicate ChainLoads(backend: Backend, token: Option<nat>)
    decreases |backend.pages| - Position(token)
  {
    match ListTransactions(backend, token)
    case Failure(_) => false
    case Success(d) => d.nextToken.None? || ChainLoads(backend, d.nextToken)
  }

  /** The pages one after the other. */
  function Flatten(ps: seq<seq<Transaction>>): seq<Transaction>
  {
    if ps == [] then [] else ps[0] + Flatten(ps[1..])
  }

  /** The index of the page at which the load stops: the first page whose last
      transaction is older than `threshold`, or else the last page. Empty pages never
      qualify. */
  function StopIndex(ps: seq<seq<Transaction>>, threshold: Date): (k: nat)
    requires ps != []
    ensures k < |ps|
    ensures k == |ps| - 1 || EndsBefore(ps[k], threshold)
    ensures forall j :: 0 <= j < k ==> !EndsBefore(ps[j], threshold)
  {
    if EndsBefore(ps[0], threshold) || |ps| == 1 then 0 else 1 + StopIndex(ps[1..], threshold)
  }

  /** An empty page never ends the load. */
  lemma EmptyPageNeverStops(ps: seq<seq<Transaction>>, threshold: Date, j: nat)
    requires ps != [] && j < |ps| && ps[j] == []
    ensures StopIndex(ps, threshold) == j ==> j == |ps| - 1
  {
  }

  /** One page of `Pages` and of `ChainLoads`. */
  lemma PagesStep(backend: Backend, token: Option<nat>, now: Date)
    requires ListTransactions(backend, token).Success?
    ensures var d := ListTransactions(backend, token).value;
      && Pages(backend, token, now) ==
           [MapDtos(d.list, now)] + (if d.nextToken.None? then [] else Pages(backend, d.nextToken, now))
      && (ChainLoads(backend, token) <==> d.nextToken.None? || ChainLoads(backend, d.nextToken))
  {
  }

  /** Stopping past a first page that does not qualify. */
  lemma StopIndexStep(page: seq<Transaction>, rest: seq<seq<Transaction>>, threshold: Date)
    requires rest != [] && !EndsBefore(page, threshold)
    ensures StopIndex([page] + rest, threshold) == 1 + StopIndex(rest, threshold)
    ensures ([page] + rest)[|rest|] == rest[|rest| - 1]
  {
    assert ([page] + rest)[1..] == rest;
  }

  /** Stopping at a first page that qualifies, or that is the only one. */
  lemma StopAtFirst(page: seq<Transaction>, rest: seq<seq<Transaction>>, threshold: Date)
    requires EndsBefore(page, threshold) || rest == []
    ensures StopIndex([page] + rest, threshold) == 0
    ensures Flatten(([page] + rest)[..1]) == page
  {
    assert ([page] + rest)[..1] == [page];
    assert Flatten([page]) == page + Flatten([]);
  }

  /** The first `k + 1` pages after `page`, flattened behind it. */
  lemma FlattenPrefixStep(page: seq<Transaction>, rest: seq<seq<Transaction>>, k: nat)
    requires k < |rest|
    ensures Flatten(([page] + rest)[..k + 2]) == page + Flatten(rest[..k + 1])
  {
    var taken := ([page] + rest)[..k + 2];
    assert taken[0] == page && taken[1..] == rest[..k + 1];
  }

  /** The backend's list read from `token` is its pages one after the other. */
  lemma {:induction false} StreamIsPages(backend: Backend, token: Option<nat>, now: Date)
    ensures Stream(backend, token, now) == Flatten(Pages(backend, token, now))
    decreases |backend.pages| - Position(token)
  {
    var answer := ListTransactions(backend, token);
    if answer.Success? {
      var d := answer.value;
      StreamStep(backend, token, now);
      PagesStep(backend, token, now);
      var page := MapDtos(d.list, now);
      var rest := if d.nextToken.None? then [] else Pages(backend, d.nextToken, now);
      if d.nextToken.Some? {
        StreamIsPages(backend, d.nextToken, now);
      }
      assert ([page] + rest)[0] == page && ([page] + rest)[1..] == rest;
    }
  }

  /** A page that does not stop the load, followed by what the rest of the chain loads. */
  lemma LoadStep(page: seq<Transaction>, rest: seq<seq<Transaction>>, loaded: seq<Transaction>, threshold: Date)
    requires rest != [] && !EndsBefore(page, threshold)
    requires loaded == Flatten(rest[..StopIndex(rest, threshold) + 1])
    ensures page + loaded == Flatten(([page] + rest)[..StopIndex([page] + rest, threshold) + 1])
  {
    StopIndexStep(page, rest, threshold);
    FlattenPrefixStep(page, rest, StopIndex(rest, threshold));
  }

  /** A successful load is exactly the pages along the cursor chain up to and including
      the first one whose last transaction is older than `threshold`, or all of them
      when none is. */
  lemma {:induction false} CollectLoadsUpToStop(backend: Backend, token: Option<nat>, threshold: Date, now: Date)
    ensures Collect(backend, token, threshold, now).Success? ==>
      var ps := Pages(backend, token, now);
      ps != [] && Collect(backend, token, threshold, now).value == Flatten(ps[..StopIndex(ps, threshold) + 1])
    decreases |backend.pages| - Position(token)
  {
    var answer := ListTransactions(backend, token);
    if answer.Success? {
      var d := answer.value;
      var page := MapDtos(d.list, now);
      CollectStep(backend, token, threshold, now);
      PagesStep(backend, token, now);
      if EndsBefore(page, threshold) || d.nextToken.None? {
        StopAtFirst(page, if d.nextToken.None? then [] else Pages(backend, d.nextToken, now), threshold);
      } else {
        CollectLoadsUpToStop(backend, d.nextToken, threshold, now);
        var c := Collect(backend, d.nextToken, threshold, now);
        if c.Success? {
          LoadStep(page, Pages(backend, d.nextToken, now), c.value, threshold);
        }
      }
    }
  }

  /** The load succeeds exactly when every page up to the stopping one can be fetched:
      the stopping page lies among the pages fetched before the first failure, or the
      chain ends on a page handing out no cursor. */
  lemma {:induction false} CollectSucceedsExactly(backend: Backend, token: Option<nat>, threshold: Date, now: Date)
    ensures var ps := Pages(backend, token, now);
      Collect(backend, token, threshold, now).Success? <==>
        ps != [] && (StopIndex(ps, threshold) < |ps| - 1 || EndsBefore(ps[|ps| - 1], threshold) || ChainLoads(backend, token))
    decreases |backend.pages| - Position(token)
  {
    var answer := ListTransactions(backend, token);
    if answer.Success? {
      var d := answer.value;
      var page := MapDtos(d.list, now);
      CollectStep(backend, token, threshold, now);
      PagesStep(backend, token, now);
      if !EndsBefore(page, threshold) && d.nextToken.Some? {
        var rest := Pages(backend, d.nextToken, now);
        CollectSucceedsExactly(backend, d.nextToken, threshold, now);
        if rest != [] {
          StopIndexStep(page, rest, threshold);
        }
      }
    }
  }

  // ---------------------------------------------------------------------------
  // The refresh scan page by page

  /** The page holds a cached id, so the scan ends inside it. */
  predicate MeetsCached(page: seq<Transaction>, ids: set<string>)
  {
    |TakeUntilKnown(page, TxId, ids)| < |page|
  }

  /** The index of the page at which the refresh scan stops: the first page holding a
      cached id, or else the last page. */
  function ScanStopIndex(ps: seq<seq<Transaction>>, ids: set<string>): (k: nat)
    requires ps != []
    ensures k < |ps|
    ensures k == |ps| - 1 || MeetsCached(ps[k], ids)
    ensures forall j :: 0 <= j < k ==> !MeetsCached(ps[j], ids)
  {
    if MeetsCached(ps[0], ids) || |ps| == 1 then 0 else 1 + ScanStopIndex(ps[1..], ids)
  }

  /** Scanning past a first page free of cached ids. */
  lemma ScanStopIndexStep(page: seq<Transaction>, rest: seq<seq<Transaction>>, ids: set<string>)
    requires rest != [] && !MeetsCached(page, ids)
    ensures ScanStopIndex([page] + rest, ids) == 1 + ScanStopIndex(rest, ids)
    ensures ([page] + rest)[|rest|] == rest[|rest| - 1]
  {
    assert ([page] + rest)[1..] == rest;
  }

  /** Stopping at a first page that holds a cached id, or that is the only one. */
  lemma ScanStopAtFirst(page: seq<Transaction>, rest: seq<seq<Transaction>>, ids: set<string>)
    requires MeetsCached(page, ids) || rest == []
    ensures ScanStopIndex([page] + rest, ids) == 0
    ensures ([page] + rest)[0] == page && Flatten(([page] + rest)[..0]) == []
  {
  }

  /** The first `k` pages after `page`, flattened behind it. */
  lemma FlattenConsPrefix(page: seq<Transaction>, rest: seq<seq<Transaction>>, k: nat)
    requires k <= |rest|
    ensures Flatten(([page] + rest)[..k + 1]) == page + Flatten(rest[..k])
  {
    var taken := ([page] + rest)[..k + 1];
    assert taken[0] == page && taken[1..] == rest[..k];
  }

  /** A page free of cached ids, followed by what the scan of the rest of the chain
      collects. */
  lemma ScanLoadStep(page: seq<Transaction>, rest: seq<seq<Transaction>>, loaded: seq<Transaction>, ids: set<string>)
    requires rest != [] && !MeetsCached(page, ids)
    requires loaded == Flatten(rest[..ScanStopIndex(rest, ids)]) + TakeUntilKnown(rest[ScanStopIndex(rest, ids)], TxId, ids)
    ensures var ps := [page] + rest;
      var k := ScanStopIndex(ps, ids);
      page + loaded == Flatten(ps[..k]) + TakeUntilKnown(ps[k], TxId, ids)
  {
    var k := ScanStopIndex(rest, ids);
    ScanStopIndexStep(page, rest, ids);
    FlattenConsPrefix(page, rest, k);
    assert ([page] + rest)[k + 1] == rest[k];
    AppendAssoc(page, Flatten(rest[..k]), TakeUntilKnown(rest[k], TxId, ids));
  }

  /** A successful refresh scan collects every page along the cursor chain before the
      first one holding a cached id, whole, and that page up to its first cached id;
      when no page holds one, it collects all pages. */
  lemma {:induction false} ScanLoadsUpToStop(backend: Backend, ids: set<string>, token: Option<nat>, now: Date)
    ensures Scan(backend, ids, token, now).Success? ==>
      var ps := Pages(backend, token, now);
      && ps != []
      && Scan(backend, ids, token, now).value ==
           Flatten(ps[..ScanStopIndex(ps, ids)]) + TakeUntilKnown(ps[ScanStopIndex(ps, ids)], TxId, ids)
    decreases |backend.pages| - Position(token)
  {
    var answer := ListTransactions(backend, token);
    if answer.Success? {
      var d := answer.value;
      var page := MapDtos(d.list, now);
      ScanStep(backend, ids, token, now);
      PagesStep(backend, token, now);
      if MeetsCached(page, ids) || d.nextToken.None? {
        ScanStopAtFirst(page, if d.nextToken.None? then [] else Pages(backend, d.nextToken, now), ids);
      } else {
        assert TakeUntilKnown(page, TxId, ids) == page;
        ScanLoadsUpToStop(backend, ids, d.nextToken, now);
        var c := Scan(backend, ids, d.nextToken, now);
        if c.Success? {
          ScanLoadStep(page, Pages(backend, d.nextToken, now), c.value, ids);
        }
      }
    }
  }

  /** The refresh scan succeeds exactly when every page up to the stopping one can be
      fetched: a page holding a cached id lies among the pages fetched before the first
      failure, or the chain ends on a page handing out no cursor. */
  lemma {:induction false} ScanSucceedsExactly(backend: Backend, ids: set<string>, token: Option<nat>, now: Date)
    ensures var ps := Pages(backend, token, now);
      Scan(backend, ids, token, now).Success? <==>
        ps != [] && (ScanStopIndex(ps, ids) < |ps| - 1 || MeetsCached(ps[|ps| - 1], ids) || ChainLoads(backend, token))
    decreases |backend.pages| - Position(token)
  {
    var answer := ListTransactions(backend, token);
    if answer.Success? {
      var d := answer.value;
      var page := MapDtos(d.list, now);
      ScanStep(backend, ids, token, now);
      PagesStep(backend, token, now);
      if !MeetsCached(page, ids) && d.nextToken.Some? {
        var rest := Pages(backend, d.nextToken, now);
        ScanSucceedsExactly(backend, ids, d.nextToken, now);
        if rest != [] {
          ScanStopIndexStep(page, rest, ids);
        }
      }
    }
  }

  // ---------------------------------------------------------------------------
  // The service

  class TransactionService {
    /** `_cachedTransactions`. */
    var cache: Option<seq<Transaction>>
    /** Occupancy of `loadAllTask`: the result of a load already under way. */
    var loadAllInFlight: Option<Result<seq<Transaction>, Thrown>>

    constructor ()
      ensures cache == None && loadAllInFlight == None
    {
      cache := None;
      loadAllInFlight := None;
    }

    /** `cachedTransactions`: the cache, or nothing when there is none. */
    function CachedTransactions(): (r: seq<Transaction>)
      reads this
      ensures cache.Some? ==> r == cache.value
      ensures cache.None? ==> r == []
    {
      cache.GetOr([])
    }

    /** `fetchPage`: returns the whole page, unfiltered, with the server's cursor, and
        appends to the cache the page's transactions whose id it did not hold. */
    method FetchPage(backend: Backend, token: Option<nat>, now: Date) returns (r: Result<ListResult, Thrown>)
      modifies this
      ensures loadAllInFlight == old(loadAllInFlight)
      ensures match ListTransactions(backend, token)
        case Failure(e) => r == Failure(e) && cache == old(cache)
        case Success(d) =>
          && r == Success(ListResult(MapDtos(d.list, now), d.nextToken))
          && cache == Some(AppendNew(old(CachedTransactions()), MapDtos(d.list, now)))
    {
      var data := ListTransactions(backend, token);
      if data.Failure? {
        return Failure(data.error);
      }
      var page := MapDtos(data.value.list, now);
      var existing := CachedTransactions();
      var existingIds := Ids(existing);
      var newItems := WithoutKeys(page, TxId, existingIds);
      existing := existing + newItems;
      cache := Some(existing);
      return Success(ListResult(page, data.value.nextToken));
    }

    /** `refreshTransactions`. With nothing cached, every page is stored through
        `FetchPage`. Otherwise the pages are scanned newest-first until a cached id
        shows up, and the transactions found before it are put in front of the cache;
        a failure then leaves the cache as it was. Either way the answer is the whole
        cache with no cursor. */
    method RefreshTransactions(backend: Backend, now: Date) returns (r: Result<ListResult, Thrown>)
      modifies this
      ensures loadAllInFlight == old(loadAllInFlight)
      ensures old(CachedTransactions()) == [] ==>
        var drained := Drain(backend, old(cache), None, now);
        && cache == drained.cache
        && r == if drained.failure.Some? then Failure(drained.failure.value)
                else Success(ListResult(drained.cache.GetOr([]), None))
      ensures old(CachedTransactions()) != [] ==>
        match Scan(backend, Ids(old(CachedTransactions())), None, now)
        case Failure(e) => r == Failure(e) && cache == old(cache)
        case Success(unseen) =>
          && cache == Some(unseen + old(CachedTransactions()))
          && r == Success(ListResult(unseen + old(CachedTransactions()), None))
    {
      var cached := CachedTransactions();
      if cached == [] {
        var failure := DrainPages(backend, now);
        if failure.Some? {
          return Failure(failure.value);
        }
        return Success(ListResult(CachedTransactions(), None));
      }

      var cachedIds := Ids(cached);
      var scanned := ScanForNew(backend, cachedIds, now);
      if scanned.Failure? {
        return Failure(scanned.error);
      }
      var newTransactions := scanned.value;
      ScanAvoidsIds(backend, cachedIds, None, now);
      if newTransactions != [] {
        var existing := CachedTransactions();
        var existingIds := Ids(existing);
        var deduped := WithoutKeys(newTransactions, TxId, existingIds);
        WithoutKeysNoop(newTransactions, TxId, existingIds);
        existing := deduped + existing;
        cache := Some(existing);
      } else {
        assert [] + cached == cached;
      }
      return Success(ListResult(CachedTransactions(), None));
    }

    /** The empty-cache branch of `refreshTransactions`: `fetchPage` from the first page
        until no cursor is handed out; answers the failure that stopped it, if any. */
    method DrainPages(backend: Backend, now: Date) returns (failure: Option<Thrown>)
      modifies this
      ensures loadAllInFlight == old(loadAllInFlight)
      ensures Drain(backend, old(cache), None, now) == Drained(cache, failure)
    {
      var token: Option<nat> := None;
      while true
        invariant loadAllInFlight == old(loadAllInFlight)
        invariant Drain(backend, cache, token, now) == Drain(backend, old(cache), None, now)
        decreases |backend.pages| - Position(token)
      {
        ghost var before := cache;
        var page := FetchPage(backend, token, now);
        if page.Failure? {
          assert Drain(backend, before, token, now) == Drained(cache, Some(page.error));
          return Some(page.error);
        }
        DrainStep(backend, before, token, now);
        token := page.value.nextToken;
        if token.None? {
          break;
        }
      }
      return None;
    }

    /** The scanning loop of `refreshTransactions` over a non-empty cache: each page is
        taken up to its first cached id, and the loop stops at that page or when no
        cursor is handed out. It reads the backend only and changes nothing. */
    method ScanForNew(backend: Backend, cachedIds: set<string>, now: Date) returns (r: Result<seq<Transaction>, Thrown>)
      ensures r == Scan(backend, cachedIds, None, now)
    {
      var newTransactions: seq<Transaction> := [];
      var pageToken: Option<nat> := None;
      var foundOverlap := false;
      PrefixedNothing(Scan(backend, cachedIds, None, now));
      while true
        invariant Scan(backend, cachedIds, None, now) == Prefixed(newTransactions, Scan(backend, cachedIds, pageToken, now))
        decreases |backend.pages| - Position(pageToken)
      {
        var data := ListTransactions(backend, pageToken);
        if data.Failure? {
          return Failure(data.error);
        }
        var page := MapDtos(data.value.list, now);
        ghost var gathered := newTransactions;
        newTransactions, foundOverlap := AppendUntilKnown(newTransactions, page, cachedIds);
        ScanStep(backend, cachedIds, pageToken, now);
        if foundOverlap {
          break;
        }
        PrefixedTwice(gathered, TakeUntilKnown(page, TxId, cachedIds), Scan(backend, cachedIds, data.value.nextToken, now));
        pageToken := data.value.nextToken;
        if pageToken.None? {
          break;
        }
      }
      return Success(newTransactions);
    }

    /** The inner loop of the scan: appends the page's transactions to `gathered` up to
        the first one whose id is cached, and reports whether it met one. */
    static method AppendUntilKnown(gathered: seq<Transaction>, page: seq<Transaction>, cachedIds: set<string>)
      returns (newTransactions: seq<Transaction>, foundOverlap: bool)
      ensures newTransactions == gathered + TakeUntilKnown(page, TxId, cachedIds)
      ensures foundOverlap <==> |TakeUntilKnown(page, TxId, cachedIds)| < |page|
    {
      ghost var unseen := TakeUntilKnown(page, TxId, cachedIds);
      newTransactions := gathered;
      foundOverlap := false;
      var k := 0;
      while k < |page|
        invariant 0 <= k <= |unseen|
        invariant newTransactions == gathered + page[..k]
        invariant !foundOverlap
      {
        if page[k].id in cachedIds {
          foundOverlap := true;
          break;
        }
        newTransactions := newTransactions + [page[k]];
        k := k + 1;
      }
      assert page[..k] == unseen;
    }

    /** `loadAllTransactions(untilDate:)`. A load already under way is joined and its
        result returned. Otherwise pages are gathered back to `untilDate` (when absent,
        the caller's clock supplies one year before now as `defaultThreshold`); a
        successful load replaces the cache wholesale, a failed one leaves it. */
    method LoadAllTransactions(backend: Backend, untilDate: Option<Date>, defaultThreshold: Date, now: Date)
      returns (r: Result<seq<Transaction>, Thrown>)
      modifies this
      ensures old(loadAllInFlight).Some? ==>
        r == old(loadAllInFlight).value && cache == old(cache) && loadAllInFlight == old(loadAllInFlight)
      ensures old(loadAllInFlight).None? ==>
        var loaded := Collect(backend, None, untilDate.GetOr(defaultThreshold), now);
        && r == loaded
        && cache == (if loaded.Success? then Some(loaded.value) else old(cache))
        && loadAllInFlight == None
    {
      if loadAllInFlight.Some? {
        return loadAllInFlight.value;
      }
      var threshold := untilDate.GetOr(defaultThreshold);
      var allTransactions: seq<Transaction> := [];
      var nextToken: Option<nat> := None;
      PrefixedNothing(Collect(backend, None, threshold, now));
      while true
        invariant cache == old(cache) && loadAllInFlight == None
        invariant Collect(backend, None, threshold, now) == Prefixed(allTransactions, Collect(backend, nextToken, threshold, now))
        decreases |backend.pages| - Position(nextToken)
      {
        var result := ListTransactions(backend, nextToken);
        if result.Failure? {
          return Failure(result.error);
        }
        var transactions := MapDtos(result.value.list, now);
        CollectStep(backend, nextToken, threshold, now);
        PrefixedTwice(allTransactions, transactions, Collect(backend, result.value.nextToken, threshold, now));
        allTransactions := allTransactions + transactions;
        if transactions != [] && transactions[|transactions| - 1].createdAt < threshold {
          break;
        }
        nextToken := result.value.nextToken;
        if nextToken.None? {
          break;
        }
      }
      cache := Some(allTransactions);
      return Success(allTransactions);
    }

    /** `createTransaction`: the server's transaction goes in front of the cache (a
        missing cache becomes a one-element list; ids are not checked). */
    method CreateTransaction(answer: Result<TransactionDto, Thrown>, now: Date) returns (r: Result<Transaction, Thrown>)
      modifies this
      ensures loadAllInFlight == old(loadAllInFlight)
      ensures answer.Failure? ==> r == Failure(answer.error) && cache == old(cache)
      ensures answer.Success? ==>
        && r == Success(TransactionFromDto(answer.value, now))
        && cache == Some([r.value] + old(CachedTransactions()))
    {
      if answer.Failure? {
        return Failure(answer.error);
      }
      var transaction := TransactionFromDto(answer.value, now);
      var transactions := CachedTransactions();
      transactions := [transaction] + transactions;
      cache := Some(transactions);
      return Success(transaction);
    }

    /** `updateTransaction(id:input:)`: the first cached transaction with the id is
        replaced by the server's; a missing cache or id changes nothing. */
    method UpdateTransaction(id: string, answer: Result<TransactionDto, Thrown>, now: Date)
      returns (r: Result<Transaction, Thrown>)
      modifies this
      ensures loadAllInFlight == old(loadAllInFlight)
      ensures answer.Failure? ==> r == Failure(answer.error) && cache == old(cache)
      ensures answer.Success? ==>
        && r == Success(TransactionFromDto(answer.value, now))
        && cache == if old(cache).None? then None else Some(ReplaceFirst(old(cache).value, TxId, id, r.value))
    {
      if answer.Failure? {
        return Failure(answer.error);
      }
      var transaction := TransactionFromDto(answer.value, now);
      if cache.Some? {
        var transactions := cache.value;
        var index := FirstIndexOf(transactions, TxId, id);
        if index.Some? {
          transactions := transactions[index.value := transaction];
          cache := Some(transactions);
        }
      }
      return Success(transaction);
    }

    /** `deleteTransaction(id:)`: only when the server reports success, every cached
        transaction with the id is dropped; a missing cache stays missing. */
    method DeleteTransaction(id: string, answer: Result<bool, Thrown>) returns (r: Result<bool, Thrown>)
      modifies this
      ensures loadAllInFlight == old(loadAllInFlight)
      ensures r == answer
      ensures cache == if answer == Success(true) && old(cache).Some?
                       then Some(RemoveKey(old(cache).value, TxId, id)) else old(cache)
    {
      if answer.Failure? {
        return Failure(answer.error);
      }
      var success := answer.value;
      if success && cache.Some? {
        cache := Some(RemoveKey(cache.value, TxId, id));
      }
      return Success(success);
    }

    /** `clearCache`: forgets the cache and abandons the load under way. */
    method ClearCache()
      modifies this
      ensures cache == None && loadAllInFlight == None
      ensures CachedTransactions() == []
    {
      cache := None;
      loadAllInFlight := None;
    }
  }

  /** A backend of two unseen pages over an empty cache: the refresh stores both pages
      with their duplicates removed against what was stored before. */
  lemma RefreshEmptyCacheExample(a: TransactionDto, b: TransactionDto, now: Date, stale: Thrown)
    requires a.id != b.id
    ensures var backend := Backend([Success([a]), Success([b, a])], stale);
      Drain(backend, None, None, now) ==
        Drained(Some([TransactionFromDto(a, now), TransactionFromDto(b, now)]), None)
  {
    var backend := Backend([Success([a]), Success([b, a])], stale);
    var ta := TransactionFromDto(a, now);
    var tb := TransactionFromDto(b, now);
    assert ListTransactions(backend, None) == Success(ListData([a], Some(1)));
    assert MapDtos([a], now) == [ta];
    DrainStep(backend, None, None, now);
    assert AppendNew([], [ta]) == [ta] by {
      assert WithoutKeys([ta], TxId, {}) == [ta];
    }
    assert Drain(backend, None, None, now) == Drain(backend, Some([ta]), Some(1), now);
    assert ListTransactions(backend, Some(1)) == Success(ListData([b, a], None));
    assert MapDtos([b, a], now) == [tb, ta] by {
      assert [b, a][1..] == [a];
    }
    DrainStep(backend, Some([ta]), Some(1), now);
    assert Ids([ta]) == {a.id} by {
      assert TxId([ta][0]) == a.id;
    }
    assert WithoutKeys([tb, ta], TxId, {a.id}) == [tb] by {
      assert [tb, ta][1..] == [ta];
      assert WithoutKeys([ta], TxId, {a.id}) == [];
    }
    assert AppendNew([ta], [tb, ta]) == [ta, tb];
    assert Drain(backend, Some([ta]), Some(1), now) == Drained(Some([ta, tb]), None);
  }
}

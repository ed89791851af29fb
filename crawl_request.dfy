/**
 A user-submitted request to crawl one product URL. It moves from pending to
 processing and then to completed (recording the product) or failed
 (recording a message); no transition looks at the current status.
 */
module CrawlRequests {
  import opened Types

  datatype RequestStatus = Pending | Processing | Completed | Failed

  /** Every field of a request at one moment. */
  datatype RequestState = RequestState(
    user: UserId,
    productUrl: string,
    shopType: ShopType,
    status: RequestStatus,
    product: Option<ProductId>,
    errorMessage: Option<string>,
    requestedAt: DateTime,
    processedAt: Option<DateTime>)

  /** `create`: a pending request stamped with the time it was made; no product, message or processing time yet. */
  function Created(user: UserId, productUrl: string, shopType: ShopType, now: DateTime): (s: RequestState)
    ensures s.user == user && s.productUrl == productUrl && s.shopType == shopType
    ensures s.status == Pending && s.requestedAt == now
    ensures s.product == None && s.errorMessage == None && s.processedAt == None
  {
    RequestState(user, productUrl, shopType, Pending, None, None, now, None)
  }

  /** `startProcessing`: processing, and nothing else changes. */
  function ProcessingStarted(s: RequestState): (r: RequestState)
    ensures r.status == Processing
    ensures r.(status := s.status) == s
  {
    s.(status := Processing)
  }

  /**
   `complete`: completed with the given product at `now`, stored as given, so
   a null product leaves a completed request without one; an earlier error
   message stays.
   */
  function CompletedWith(s: RequestState, product: Option<ProductId>, now: DateTime): (r: RequestState)
    ensures r.status == Completed && r.product == product && r.processedAt == Some(now)
    ensures r.(status := s.status, product := s.product, processedAt := s.processedAt) == s
  {
    s.(status := Completed, product := product, processedAt := Some(now))
  }

  /** `fail`: failed at `now` with the message stored as given, null included; an earlier product stays. */
  function FailedWith(s: RequestState, message: Option<string>, now: DateTime): (r: RequestState)
    ensures r.status == Failed && r.errorMessage == message && r.processedAt == Some(now)
    ensures r.(status := s.status, errorMessage := s.errorMessage, processedAt := s.processedAt) == s
  {
    s.(status := Failed, errorMessage := message, processedAt := Some(now))
  }

  /** One call of a request's public methods. */
  datatype RequestCommand =
    | StartProcessing
    | Complete(product: Option<ProductId>, now: DateTime)
    | Fail(message: Option<string>, now: DateTime)

  function Applied(s: RequestState, c: RequestCommand): RequestState {
    match c
    case StartProcessing => ProcessingStarted(s)
    case Complete(product, now) => CompletedWith(s, product, now)
    case Fail(message, now) => FailedWith(s, message, now)
  }

  /** The state after the calls, in order. */
  function Run(s: RequestState, cs: seq<RequestCommand>): RequestState
    decreases |cs|
  {
    if cs == [] then s else Run(Applied(s, cs[0]), cs[1..])
  }

  /** No sequence of calls changes who asked, for which URL and shop, or when. */
  lemma {:induction false} SubmissionNeverChanges(s: RequestState, cs: seq<RequestCommand>)
    ensures Run(s, cs).user == s.user
    ensures Run(s, cs).productUrl == s.productUrl
    ensures Run(s, cs).shopType == s.shopType
    ensures Run(s, cs).requestedAt == s.requestedAt
    decreases |cs|
  {
    if cs != [] {
      SubmissionNeverChanges(Applied(s, cs[0]), cs[1..]);
    }
  }

  /** The lifecycle the code is written for: a processed, completed request records its product and no error. */
  lemma SuccessfulLifecycle(user: UserId, productUrl: string, shopType: ShopType,
                            requested: DateTime, product: ProductId, processed: DateTime)
    ensures var s := Run(Created(user, productUrl, shopType, requested), [StartProcessing, Complete(Some(product), processed)]);
      && s.status == Completed && s.product == Some(product) && s.errorMessage == None
      && s.processedAt == Some(processed) && s.requestedAt == requested
  {
    var cs := [StartProcessing, Complete(Some(product), processed)];
    var s0 := Created(user, productUrl, shopType, requested);
    var s1 := ProcessingStarted(s0);
    assert cs[1..] == [Complete(Some(product), processed)] && cs[1..][1..] == [];
    assert Run(s1, cs[1..]) == Run(CompletedWith(s1, Some(product), processed), []);
    assert Run(s0, cs) == Run(s1, cs[1..]);
  }

  /** A failed request records its message and no product. */
  lemma FailedLifecycle(user: UserId, productUrl: string, shopType: ShopType,
                        requested: DateTime, message: string, processed: DateTime)
    ensures var s := Run(Created(user, productUrl, shopType, requested), [StartProcessing, Fail(Some(message), processed)]);
      && s.status == Failed && s.errorMessage == Some(message) && s.product == None
      && s.processedAt == Some(processed)
  {
    var cs := [StartProcessing, Fail(Some(message), processed)];
    var s0 := Created(user, productUrl, shopType, requested);
    var s1 := ProcessingStarted(s0);
    assert cs[1..] == [Fail(Some(message), processed)] && cs[1..][1..] == [];
    assert Run(s1, cs[1..]) == Run(FailedWith(s1, Some(message), processed), []);
    assert Run(s0, cs) == Run(s1, cs[1..]);
  }

  class UserProductCrawlRequest {
    var user: UserId
    var productUrl: string
    var shopType: ShopType
    var status: RequestStatus
    var product: Option<ProductId>
    var errorMessage: Option<string>
    var requestedAt: DateTime
    var processedAt: Option<DateTime>

    /** The request's fields as one value. */
    function State(): RequestState
      reads this
    {
      RequestState(user, productUrl, shopType, status, product, errorMessage, requestedAt, processedAt)
    }

    constructor Create(user: UserId, productUrl: string, shopType: ShopType, now: DateTime)
      ensures State() == Created(user, productUrl, shopType, now)
    {
      this.user := user;
      this.productUrl := productUrl;
      this.shopType := shopType;
      status := Pending;
      product := None;
      errorMessage := None;
      requestedAt := now;
      processedAt := None;
    }

    method StartProcessing()
      modifies this
      ensures State() == ProcessingStarted(old(State()))
    {
      status := Processing;
    }

    method Complete(product: Option<ProductId>, now: DateTime)
      modifies this
      ensures State() == CompletedWith(old(State()), product, now)
    {
      status := Completed;
      this.product := product;
      processedAt := Some(now);
    }

    method Fail(message: Option<string>, now: DateTime)
      modifies this
      ensures State() == FailedWith(old(State()), message, now)
    {
      status := Failed;
      errorMessage := message;
      processedAt := Some(now);
    }
  }
}

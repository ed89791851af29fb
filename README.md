# Price-watch domain entities, modelled in Dafny

This project models the domain layer of a price-watch service for an online
fashion shop. The service crawls product prices in batches, keeps price
statistics, watches a window of dates around each holiday for prices that are
raised and then "discounted", and alerts users when a wished-for product falls
to their target price. All of that behaviour lives in eight entity classes.
Each becomes one Dafny module:

| module | file | entity |
|---|---|---|
| `CrawlJobs` | crawl_job.dfy | a batch crawl job: status, per-item counters, timestamps |
| `CrawlRequests` | crawl_request.dfy | a user's request to crawl one product URL |
| `FakeDiscounts` | fake_discount.dfy | a fake-discount detection and its two derived rates |
| `Holidays` | holiday.dfy | a holiday and its monitoring window |
| `Wishlists` | wishlist.dfy | a wished-for product with a target price |
| `Products` | product.dfy | a product's prices, label and fake-discount fields |
| `ProductDetails` | product_detail.dfy | a product page's price statistics and crawl status |
| `Notifications` | notification.dfy | an alert to a user |
| `Types`, `Calendar` | types.dfy, calendar.dfy | nullable values, dates, references; the civil year of a day |

How the model is built:

- An entity whose methods assign its fields is a `class` with those fields. Its
  function `State()` gives all the fields as one datatype value. Each method
  ensures `State() == Step(old(State()), ...)`, where `Step` is a pure function
  for that Java method. That function's contract says which fields change and
  that every other field stays the same.
- Crawl jobs, crawl requests, products, product details and notifications each
  have a command datatype with one constructor per method, and a `Run` function
  that applies commands in order, so lemmas can talk about any sequence of calls.
  Two examples are "no call ever changes the product number" and "once read, a
  notification stays read". Holiday and Wishlist have no such datatype; their
  lemmas are about one state or one call.
- `FakeDiscountHistory.create` is pure and becomes a function building a record.
  Java computes each rate as `(int) (x * 100.0 / y)`. For `Integer` inputs the
  double quotient never rounds across an integer. So while the quotient rounded
  toward zero fits in an `int`, the cast gives exactly that. Beyond the `int`
  range the cast saturates at `Integer.MIN_VALUE` or `Integer.MAX_VALUE`, and
  `DiscountRate` saturates the same way. For instance, a baseline of 1 and a
  sale price of 30000000 give `Integer.MIN_VALUE`, not -2999999900. The model
  rounds with `TruncDiv`, because Dafny's `/` rounds toward negative infinity
  for a negative numerator, and the real rate can be negative.
- Holiday and Wishlist are part pure and part mutable. Their predicates are
  functions on the class, and their setters are methods whose contracts list
  every field.
- `LocalDateTime.now()` and `LocalDate.now()` become a `now` parameter.
  A `LocalDate` is a day number (day 0 is 1970-01-01).
  `getYear()` is `Calendar.YearOf`, the proleptic Gregorian year of a day number.
- A column in which the code can store `null` is an `Option`, with one
  exception: `discountedPrice` of a fake-discount record (see "Left out").
  A column declared `nullable = false` is a plain value. So are the other
  integer columns of a fake-discount record, because `create` fills them from
  values it has already unboxed. A lazily loaded association (user,
  product, holiday, category, product detail) is the referenced entity's id.
- The code names only some enum constants: `JobStatus` and `RequestStatus` in
  full, `PriceLabel.NORMAL` and `CrawlStatus.PENDING`. Each enum is a datatype
  with just those constructors and one catch-all for the rest. Enums with no
  named constant (`ShopType`, `CrawlJobType`, `NotificationType`,
  `FakeDiscountPattern`) wrap their name.

## Where the code and the design differ

The model follows the code in every case below.

- The design describes a guarded job state machine. Start would be legal only
  from PENDING. Complete would be legal only once success + fail == total.
  Terminal states would ignore further transitions, and the total would be
  frozen once the job runs. In the code, `start`, `complete`, `fail` and
  `setTotalCount` check nothing. `Started`, `Completed`, `FailedWith` and
  `TotalSet` therefore hold from every state. `OrderedRunBalances` proves the
  balance invariant only for callers that keep to the intended order.
- The single-URL request transitions are unguarded too. A failed request can
  later be completed, and it then carries both a product and an error message.
- The design says the two rates are rounded. The code truncates toward zero:
  `(int)` of 20.7 is 20, and `(int)` of -60.5 is -60.

## Model

| member | source | states |
|---|---|---|
| `Calendar.YearOfNextEra` | core/src/main/java/com/musinsa/wagon/core/entity/Holiday.java:65 | The year of a day number repeats with the 400-year Gregorian cycle: 146097 days later is exactly 400 years later. |
| `Calendar.YearOfKnownDays` | core/src/main/java/com/musinsa/wagon/core/entity/Holiday.java:65 | Day 0 is in 1970, day -1 in 1969, 2024-12-31 and 2025-01-01 fall in 2024 and 2025, and 2000-02-29 falls in 2000. |
| `FakeDiscounts.TruncDiv` | core/src/main/java/com/musinsa/wagon/core/entity/FakeDiscountHistory.java:75-80 | The result is the exact quotient rounded toward zero, for negative numerators too. Java's (int) cast of the quotient gives this value whenever it lies inside the `int` range. |
| `FakeDiscounts.CastOfTruncatedQuotient` | core/src/main/java/com/musinsa/wagon/core/entity/FakeDiscountHistory.java:75-80 | Clamping the quotient rounded toward zero to the `int` range gives Java's (int) cast of the quotient: that quotient inside the range, the nearest bound beyond it. |
| `FakeDiscounts.IntCastOfQuotientUnique` | core/src/main/java/com/musinsa/wagon/core/entity/FakeDiscountHistory.java:75-80 | At most one `int` is the (int) cast of a quotient, so DiscountRate's contract fixes its value. |
| `FakeDiscounts.TruncatedQuotientUnique` | core/src/main/java/com/musinsa/wagon/core/entity/FakeDiscountHistory.java:75-80 | At most one integer is the quotient rounded toward zero, so TruncDiv's contract fixes its value. |
| `FakeDiscounts.TruncDivMonotone` | core/src/main/java/com/musinsa/wagon/core/entity/FakeDiscountHistory.java:75-80 | A larger numerator never gives a smaller rounded-toward-zero quotient. |
| `FakeDiscounts.DiscountRate` | core/src/main/java/com/musinsa/wagon/core/entity/FakeDiscountHistory.java:75-80 | 0 when the base price is not positive; otherwise Java's (int) cast of (base - sale) * 100 / base: that quotient rounded toward zero while it fits in an `int`, and `Integer.MIN_VALUE` or `Integer.MAX_VALUE` beyond. Both stored rates use it: the advertised rate with the raised price as base, the real rate with the price before the raise. |
| `FakeDiscounts.AdvertisedRateIsPercentage` | core/src/main/java/com/musinsa/wagon/core/entity/FakeDiscountHistory.java:75-76 | A sale price from 0 to the raised price gives an advertised rate from 0 to 100. |
| `FakeDiscounts.AdvertisedRateNonIncreasing` | core/src/main/java/com/musinsa/wagon/core/entity/FakeDiscountHistory.java:75-76 | For a fixed raised price, a higher sale price never gives a higher advertised rate. |
| `FakeDiscounts.RealRateSaturates` | core/src/main/java/com/musinsa/wagon/core/entity/FakeDiscountHistory.java:77-80 | A baseline of 1 and a sale price of 30000000 give a real rate of `Integer.MIN_VALUE`, where the exact quotient is -2999999900. |
| `FakeDiscounts.RealRateNegativeAboveBaseline` | core/src/main/java/com/musinsa/wagon/core/entity/FakeDiscountHistory.java:77-80 | A sale price above the baseline gives a real rate of at most 0, and below 0 exactly when the excess is at least 1 percent of the baseline. |
| `FakeDiscounts.Create` | core/src/main/java/com/musinsa/wagon/core/entity/FakeDiscountHistory.java:66-95 | The record stores product, holiday, the three prices, score and pattern unchanged, takes both timestamps from the clock, and holds the two derived rates. |
| `FakeDiscounts.CreateClassicSignature` | core/src/main/java/com/musinsa/wagon/core/entity/FakeDiscountHistory.java:75-80 | Baseline 50000, raised 100000 and sale 80000 give an advertised rate of 20 and a real rate of -60. |
| `FakeDiscounts.CreateGuardsZeroPrices` | core/src/main/java/com/musinsa/wagon/core/entity/FakeDiscountHistory.java:75-80 | A zero raised price and a zero baseline give rates of 0 instead of a division by zero. |
| `Holidays.DaysBetween` | core/src/main/java/com/musinsa/wagon/core/entity/Holiday.java:56 | Holds exactly the dates from first to last inclusive, and has last - first + 1 of them (none when last comes first). |
| `Holidays.MonitoringDays` | core/src/main/java/com/musinsa/wagon/core/entity/Holiday.java:52-57 | The dates a window covers: none when either bound is unset, otherwise every date between the bounds, both included. |
| `Holidays.Holiday.IsInMonitoringPeriod` | core/src/main/java/com/musinsa/wagon/core/entity/Holiday.java:52-57 | True exactly for the dates the window covers: false if either bound is unset, inclusive at both bounds. |
| `Holidays.InvertedWindowIsEmpty` | core/src/main/java/com/musinsa/wagon/core/entity/Holiday.java:52-57 | A window whose start is after its end (which updateMonitoringPeriod allows) covers no date. |
| `Holidays.DefaultWindowHas22Days` | core/src/main/java/com/musinsa/wagon/core/entity/Holiday.java:59-68 | The default window [D - 14, D + 7] covers the holiday date D and exactly 22 dates. |
| `Holidays.DefaultHolidayWindow` | core/src/main/java/com/musinsa/wagon/core/entity/Holiday.java:52-68 | A holiday with the default bounds is in its own monitoring period, and a date qualifies iff it lies in [D - 14, D + 7]. |
| `Holidays.Holiday.CreateWithDefaultMonitoring` | core/src/main/java/com/musinsa/wagon/core/entity/Holiday.java:59-68 | Start is D - 14, end is D + 7, year is the civil year of D, and the holiday is active. |
| `Holidays.Holiday.UpdateMonitoringPeriod` | core/src/main/java/com/musinsa/wagon/core/entity/Holiday.java:39-42 | Both bounds take the given values, unchecked; name, date, year and the active flag are unchanged. |
| `Holidays.Holiday.Deactivate` | core/src/main/java/com/musinsa/wagon/core/entity/Holiday.java:44-46 | The holiday is inactive afterwards whatever it was before (so a second call changes nothing); the window, name, date and year are unchanged. |
| `Holidays.Holiday.Activate` | core/src/main/java/com/musinsa/wagon/core/entity/Holiday.java:48-50 | The holiday is active afterwards whatever it was before (so a second call changes nothing); the window, name, date and year are unchanged. |
| `Wishlists.Wishlist.constructor` | core/src/main/java/com/musinsa/wagon/core/entity/Wishlist.java:43-47 | A wishlist built without a toggle stores user, product and target and has notifications enabled. |
| `Wishlists.Wishlist.UpdateTargetPrice` | core/src/main/java/com/musinsa/wagon/core/entity/Wishlist.java:49-51 | Only the target price changes, to the given value (which may be unset). |
| `Wishlists.Wishlist.ToggleNotification` | core/src/main/java/com/musinsa/wagon/core/entity/Wishlist.java:53-55 | Only the notification toggle changes, to the given value. |
| `Wishlists.TargetIsLargestReachingPrice` | core/src/main/java/com/musinsa/wagon/core/entity/Wishlist.java:57-63 | A target exists iff some price reaches it; then the target itself is reached and the target plus 1 is not, so the target is the largest price that triggers the alert. |
| `Wishlists.UnsetTargetNeverReached` | core/src/main/java/com/musinsa/wagon/core/entity/Wishlist.java:57-63 | With the target unset, zero or negative, no price reaches it. |
| `Wishlists.TargetReachedBelow` | core/src/main/java/com/musinsa/wagon/core/entity/Wishlist.java:61-63 | If the target is reached at a price, it is reached at every lower price. |
| `Wishlists.TargetReachedExample` | core/src/main/java/com/musinsa/wagon/core/entity/Wishlist.java:61-63 | A target of 10000 is reached at 9000 and at 10000 but not at 10001. |
| `CrawlJobs.Created` | core/src/main/java/com/musinsa/wagon/core/entity/CrawlJob.java:91-101 | A new job is PENDING with total, success and fail counts 0 (the total not null), no start, completion or error, and createdAt the clock reading. |
| `CrawlJobs.Started` | core/src/main/java/com/musinsa/wagon/core/entity/CrawlJob.java:63-66 | From any status: RUNNING with startedAt stamped; counters, completedAt and errorMessage unchanged. |
| `CrawlJobs.Completed` | core/src/main/java/com/musinsa/wagon/core/entity/CrawlJob.java:68-71 | From any status and any counts: SUCCESS with completedAt stamped; counters, start and errorMessage unchanged. |
| `CrawlJobs.FailedWith` | core/src/main/java/com/musinsa/wagon/core/entity/CrawlJob.java:73-77 | From any status: FAILED with the message stored as given, null included, and completedAt stamped; counters and start unchanged. |
| `CrawlJobs.SuccessCounted` | core/src/main/java/com/musinsa/wagon/core/entity/CrawlJob.java:79-81 | successCount rises by exactly 1; status, totalCount, failCount and all other fields unchanged. |
| `CrawlJobs.FailureCounted` | core/src/main/java/com/musinsa/wagon/core/entity/CrawlJob.java:83-85 | failCount rises by exactly 1; status, totalCount, successCount and all other fields unchanged. |
| `CrawlJobs.TotalSet` | core/src/main/java/com/musinsa/wagon/core/entity/CrawlJob.java:87-89 | totalCount takes the given value, null included, at any status; nothing else changes. |
| `CrawlJobs.OutcomesOnlyMoveCounters` | core/src/main/java/com/musinsa/wagon/core/entity/CrawlJob.java:79-85 | Counting any sequence of item outcomes adds the number of successes to successCount and of failures to failCount, one per item, and never changes the status or any other field. |
| `CrawlJobs.CountersFromCreate` | core/src/main/java/com/musinsa/wagon/core/entity/CrawlJob.java:79-101 | From create, k successes and m failures in any order leave the counters at exactly k and m and the job PENDING. |
| `CrawlJobs.OrderedRunBalances` | core/src/main/java/com/musinsa/wagon/core/entity/CrawlJob.java:63-101 | A caller that sets the total to the item count, starts, counts one outcome per item and then completes ends with SUCCESS and success + fail == total. |
| `CrawlJobs.IdentityNeverChanges` | core/src/main/java/com/musinsa/wagon/core/entity/CrawlJob.java:63-89 | No sequence of calls on a job changes its job type, its shop type or its creation time. |
| `CrawlJobs.CountingKeepsLifecycle` | core/src/main/java/com/musinsa/wagon/core/entity/CrawlJob.java:63-89 | A sequence of calls with no start, complete or fail leaves the status, both timestamps and the error message unchanged. |
| `CrawlJobs.CrawlJob.Create` | core/src/main/java/com/musinsa/wagon/core/entity/CrawlJob.java:91-101 | The new object's fields are those of Created. |
| `CrawlJobs.CrawlJob.Start` | core/src/main/java/com/musinsa/wagon/core/entity/CrawlJob.java:63-66 | The object's new fields are Started of its old fields. |
| `CrawlJobs.CrawlJob.Complete` | core/src/main/java/com/musinsa/wagon/core/entity/CrawlJob.java:68-71 | The object's new fields are Completed of its old fields. |
| `CrawlJobs.CrawlJob.Fail` | core/src/main/java/com/musinsa/wagon/core/entity/CrawlJob.java:73-77 | The object's new fields are FailedWith of its old fields and the message. |
| `CrawlJobs.CrawlJob.IncrementSuccess` | core/src/main/java/com/musinsa/wagon/core/entity/CrawlJob.java:79-81 | The object's new fields are SuccessCounted of its old fields. |
| `CrawlJobs.CrawlJob.IncrementFail` | core/src/main/java/com/musinsa/wagon/core/entity/CrawlJob.java:83-85 | The object's new fields are FailureCounted of its old fields. |
| `CrawlJobs.CrawlJob.SetTotalCount` | core/src/main/java/com/musinsa/wagon/core/entity/CrawlJob.java:87-89 | The object's new fields are TotalSet of its old fields and the total. |
| `CrawlRequests.Created` | core/src/main/java/com/musinsa/wagon/core/entity/UserProductCrawlRequest.java:80-88 | A new request stores user, URL and shop, is PENDING with requestedAt the clock reading, and has no product, error message or processing time. |
| `CrawlRequests.ProcessingStarted` | core/src/main/java/com/musinsa/wagon/core/entity/UserProductCrawlRequest.java:64-66 | From any status: PROCESSING; nothing else changes. |
| `CrawlRequests.CompletedWith` | core/src/main/java/com/musinsa/wagon/core/entity/UserProductCrawlRequest.java:68-72 | From any status: COMPLETED with the given product recorded as given (a null product leaves none) and processedAt stamped; the error message and everything else unchanged. |
| `CrawlRequests.FailedWith` | core/src/main/java/com/musinsa/wagon/core/entity/UserProductCrawlRequest.java:74-78 | From any status: FAILED with the given message recorded as given, null included, and processedAt stamped; the product and everything else unchanged. |
| `CrawlRequests.SubmissionNeverChanges` | core/src/main/java/com/musinsa/wagon/core/entity/UserProductCrawlRequest.java:36-78 | No sequence of method calls changes the user, the URL, the shop or requestedAt. |
| `CrawlRequests.SuccessfulLifecycle` | core/src/main/java/com/musinsa/wagon/core/entity/UserProductCrawlRequest.java:64-88 | create, startProcessing, complete(p) ends COMPLETED with product p, processedAt stamped and no error message. |
| `CrawlRequests.FailedLifecycle` | core/src/main/java/com/musinsa/wagon/core/entity/UserProductCrawlRequest.java:64-88 | create, startProcessing, fail(msg) ends FAILED with msg, processedAt stamped and no product. |
| `CrawlRequests.UserProductCrawlRequest.Create` | core/src/main/java/com/musinsa/wagon/core/entity/UserProductCrawlRequest.java:80-88 | The new object's fields are those of Created. |
| `CrawlRequests.UserProductCrawlRequest.StartProcessing` | core/src/main/java/com/musinsa/wagon/core/entity/UserProductCrawlRequest.java:64-66 | The object's new fields are ProcessingStarted of its old fields. |
| `CrawlRequests.UserProductCrawlRequest.Complete` | core/src/main/java/com/musinsa/wagon/core/entity/UserProductCrawlRequest.java:68-72 | The object's new fields are CompletedWith of its old fields, the product and the clock reading. |
| `CrawlRequests.UserProductCrawlRequest.Fail` | core/src/main/java/com/musinsa/wagon/core/entity/UserProductCrawlRequest.java:74-78 | The object's new fields are FailedWith of its old fields, the message and the clock reading. |
| `Products.PriceUpdated` | core/src/main/java/com/musinsa/wagon/core/entity/Product.java:89-93 | currentPrice, originalPrice and discountRate take the given values; no other field changes. |
| `Products.PriceLabelUpdated` | core/src/main/java/com/musinsa/wagon/core/entity/Product.java:95-97 | Only priceLabel changes, to the given value. |
| `Products.FakeDiscountUpdated` | core/src/main/java/com/musinsa/wagon/core/entity/Product.java:99-102 | isFakeDiscount and fakeDiscountScore take the given values; no other field changes. |
| `Products.ReviewInfoUpdated` | core/src/main/java/com/musinsa/wagon/core/entity/Product.java:104-107 | starScore and reviewCount take the given values; no other field changes. |
| `Products.LikeCountUpdated` | core/src/main/java/com/musinsa/wagon/core/entity/Product.java:109-111 | Only likeCount changes, to the given value. |
| `Products.CategoryUpdated` | core/src/main/java/com/musinsa/wagon/core/entity/Product.java:113-115 | Only the category changes, to the given value. |
| `Products.ProductDetailUpdated` | core/src/main/java/com/musinsa/wagon/core/entity/Product.java:117-119 | Only the product-detail reference changes, to the given value. |
| `Products.IdentityNeverChanges` | core/src/main/java/com/musinsa/wagon/core/entity/Product.java:40-119 | No sequence of update calls changes productNumber, name, shopType, imgUrl or brand. |
| `Products.FakeDiscountOnlyByDetector` | core/src/main/java/com/musinsa/wagon/core/entity/Product.java:75-119 | A sequence of update calls without updateFakeDiscount leaves isFakeDiscount and fakeDiscountScore as they were. |
| `Products.Product.constructor` | core/src/main/java/com/musinsa/wagon/core/entity/Product.java:70-77 | The builder without label or flag gives priceLabel NORMAL and isFakeDiscount false and stores every other given field. |
| `Products.Product.UpdatePrice` | core/src/main/java/com/musinsa/wagon/core/entity/Product.java:89-93 | The object's new fields are PriceUpdated of its old fields and the arguments. |
| `Products.Product.UpdatePriceLabel` | core/src/main/java/com/musinsa/wagon/core/entity/Product.java:95-97 | The object's new fields are PriceLabelUpdated of its old fields and the label. |
| `Products.Product.UpdateFakeDiscount` | core/src/main/java/com/musinsa/wagon/core/entity/Product.java:99-102 | The object's new fields are FakeDiscountUpdated of its old fields and the arguments. |
| `Products.Product.UpdateReviewInfo` | core/src/main/java/com/musinsa/wagon/core/entity/Product.java:104-107 | The object's new fields are ReviewInfoUpdated of its old fields and the arguments. |
| `Products.Product.UpdateLikeCount` | core/src/main/java/com/musinsa/wagon/core/entity/Product.java:109-111 | The object's new fields are LikeCountUpdated of its old fields and the count. |
| `Products.Product.UpdateCategory` | core/src/main/java/com/musinsa/wagon/core/entity/Product.java:113-115 | The object's new fields are CategoryUpdated of its old fields and the category. |
| `Products.Product.UpdateProductDetail` | core/src/main/java/com/musinsa/wagon/core/entity/Product.java:117-119 | The object's new fields are ProductDetailUpdated of its old fields and the detail. |
| `ProductDetails.Statistics30Updated` | core/src/main/java/com/musinsa/wagon/core/entity/ProductDetail.java:55-59 | The 30-day high, low and average take the given values; no other field changes. |
| `ProductDetails.Statistics90Updated` | core/src/main/java/com/musinsa/wagon/core/entity/ProductDetail.java:61-65 | The 90-day high, low and average take the given values; no other field changes. |
| `ProductDetails.AllTimePricesUpdated` | core/src/main/java/com/musinsa/wagon/core/entity/ProductDetail.java:67-70 | The all-time high and low take the given values; no other field changes. |
| `ProductDetails.CrawlStatusUpdated` | core/src/main/java/com/musinsa/wagon/core/entity/ProductDetail.java:72-75 | crawlStatus takes the given value and lastCrawledAt the clock reading; every price statistic and the URL unchanged. |
| `ProductDetails.UrlNeverChanges` | core/src/main/java/com/musinsa/wagon/core/entity/ProductDetail.java:29-75 | No sequence of update calls changes productUrl. |
| `ProductDetails.CrawlsKeepStatistics` | core/src/main/java/com/musinsa/wagon/core/entity/ProductDetail.java:72-75 | Any number of crawl-status updates leave every price statistic and the URL as they were. |
| `ProductDetails.ProductDetail.constructor` | core/src/main/java/com/musinsa/wagon/core/entity/ProductDetail.java:50-53 | A detail built from its URL has crawlStatus PENDING and no statistics or crawl time. |
| `ProductDetails.ProductDetail.UpdatePriceStatistics30` | core/src/main/java/com/musinsa/wagon/core/entity/ProductDetail.java:55-59 | The object's new fields are Statistics30Updated of its old fields and the triple. |
| `ProductDetails.ProductDetail.UpdatePriceStatistics90` | core/src/main/java/com/musinsa/wagon/core/entity/ProductDetail.java:61-65 | The object's new fields are Statistics90Updated of its old fields and the triple. |
| `ProductDetails.ProductDetail.UpdateAllTimePrices` | core/src/main/java/com/musinsa/wagon/core/entity/ProductDetail.java:67-70 | The object's new fields are AllTimePricesUpdated of its old fields and the pair. |
| `ProductDetails.ProductDetail.UpdateCrawlStatus` | core/src/main/java/com/musinsa/wagon/core/entity/ProductDetail.java:72-75 | The object's new fields are CrawlStatusUpdated of its old fields, the status and the clock reading. |
| `Notifications.Created` | core/src/main/java/com/musinsa/wagon/core/entity/Notification.java:67-82 | A new notification stores user, product, type, title and message, is unread, unsent, and stamped with the clock reading. |
| `Notifications.MarkedRead` | core/src/main/java/com/musinsa/wagon/core/entity/Notification.java:59-61 | Read afterwards; nothing else changes. |
| `Notifications.MarkedSent` | core/src/main/java/com/musinsa/wagon/core/entity/Notification.java:63-65 | sentAt is the clock reading; isRead and everything else unchanged. |
| `Notifications.MarkedReadIdempotent` | core/src/main/java/com/musinsa/wagon/core/entity/Notification.java:59-61 | Marking read twice gives the same state as marking read once. |
| `Notifications.ReadIsPermanent` | core/src/main/java/com/musinsa/wagon/core/entity/Notification.java:50-65 | No sequence of calls turns a read notification unread, or changes its user, product, type, title, message or creation time. |
| `Notifications.Notification.Create` | core/src/main/java/com/musinsa/wagon/core/entity/Notification.java:67-82 | The new object's fields are those of Created. |
| `Notifications.Notification.MarkAsRead` | core/src/main/java/com/musinsa/wagon/core/entity/Notification.java:59-61 | The object's new fields are MarkedRead of its old fields. |
| `Notifications.Notification.MarkAsSent` | core/src/main/java/com/musinsa/wagon/core/entity/Notification.java:63-65 | The object's new fields are MarkedSent of its old fields and the clock reading. |

## Left out

- The fake-discount detection algorithm is not part of this model. That covers finding the baseline, the raise and the sale price, confidence scoring, pattern classification and not repeating a detection. None of it is in the entity code, which only stores the detector's inputs and outputs (`FakeDiscounts.Create`, `Products.FakeDiscountUpdated`).
- Concurrency is not modelled: concurrent `incrementSuccess`/`incrementFail` calls from several workers, and transactional atomicity. Both belong to the deployment and the database, and each method here runs alone.
- CrawlJobs.SuccessCounted: the counters are unbounded integers. Java's `Integer` would wrap after 2^31 - 1 items, and no real job reaches that.
- FakeDiscounts.DiscountRate: the subtractions `raisedPrice - discountedPrice` and `priceBeforeRaise - discountedPrice` are exact. In Java they are 32-bit `int` arithmetic and could wrap around for prices near 2^31. The saturation of the `(int)` cast itself is modelled (see above).
- FakeDiscounts.Create: `detectedAt` and `createdAt` both take one clock reading. The code reads the clock twice, and the two readings may differ by a few nanoseconds.
- Null arguments on which the code throws are not modelled. `create` of a fake-discount record always unboxes `priceBeforeRaise` and `raisedPrice` (both are compared with 0), so a null there always throws. `isTargetPriceReached(null)` returns false when no positive target is set, which the model covers through `HasTargetPrice`, and throws only when one is set, because `&&` skips the price otherwise. `isInMonitoringPeriod(null)` returns false when either bound is unset, and throws only when both are set, where the date is dereferenced. The model's price and date arguments are plain values, so those throwing cases cannot arise.
- FakeDiscounts.Create: `discountedPrice` is a plain integer. Java unboxes it only when one of the two base prices is positive. When both are 0 or less, a null `discountedPrice` is stored as null without an exception, and the model has no such record.
- Null strings, enum values and references passed to the factories (`create` of jobs, requests and notifications, `createWithDefaultMonitoring`) are not modelled: those arguments are plain values, and a null one would be stored as given or rejected by the database on save.
- `updateFakeDiscount(null, ...)` and `toggleNotification(null)` would put null into `nullable = false` columns, which the database refuses when the entity is saved. The model keeps those columns plain booleans. Setters whose column may hold null, such as `updatePriceLabel`, `updateTargetPrice`, `setTotalCount`, `complete` and `fail` of requests and `fail` of jobs, do take an `Option` and store `None` for null.
- Each builder is modelled only through the factory or the one builder call that sets the defaults the code promises. These are `Products.Product.constructor`, `ProductDetails.ProductDetail.constructor` and `Wishlists.Wishlist.constructor`. Lombok's other builder combinations only assign fields.
- JPA mapping is not modelled: table and index annotations, uniqueness constraints, lazy loading, and the database-generated id and audit timestamps of `BaseEntity` and its audit subclass.
- ProductHistory, Category and User are not part of this model. They hold setters and a factory that stamps the date, with no rule to verify.
- The batch and front-office application entry points are not part of this model. They are only framework start-up and a process-wide time-zone setting.
- The Notion merge-log script is not part of this model. It is CI glue that makes HTTP calls.
- `Wishlists.Wishlist.HasTargetPrice` and `Wishlists.Wishlist.IsTargetPriceReached` carry no contract of their own. `TargetIsLargestReachingPrice` states how they relate.

/**
 A tracked product: its identity, its latest prices and the fields the
 fake-discount detector writes. Every update method overwrites a fixed group
 of fields and nothing else.
 */
module Products {
  import opened Types

  /** The price classification; the code names only the default. */
  datatype PriceLabel = Normal | OtherPriceLabel(name: string)

  /** Every field of a product at one moment; a column that may hold `null` is an `Option`. */
  datatype ProductState = ProductState(
    imgUrl: Option<string>,
    name: string,
    productNumber: int,
    brand: Option<string>,
    currentPrice: int,
    originalPrice: Option<int>,
    discountRate: Option<int>,
    starScore: Option<real>,
    reviewCount: Option<int>,
    likeCount: Option<int>,
    shopType: ShopType,
    priceLabel: Option<PriceLabel>,
    isFakeDiscount: bool,
    fakeDiscountScore: Option<int>,
    category: Option<CategoryId>,
    productDetail: Option<ProductDetailId>)

  /** `updatePrice`: the three price fields take the given values; nothing else changes. */
  function PriceUpdated(s: ProductState, currentPrice: int, originalPrice: Option<int>, discountRate: Option<int>): (r: ProductState)
    ensures r.currentPrice == currentPrice && r.originalPrice == originalPrice && r.discountRate == discountRate
    ensures r.(currentPrice := s.currentPrice, originalPrice := s.originalPrice, discountRate := s.discountRate) == s
  {
    s.(currentPrice := currentPrice, originalPrice := originalPrice, discountRate := discountRate)
  }

  /** `updatePriceLabel`: only the label changes. */
  function PriceLabelUpdated(s: ProductState, priceLabel: Option<PriceLabel>): (r: ProductState)
    ensures r.priceLabel == priceLabel
    ensures r.(priceLabel := s.priceLabel) == s
  {
    s.(priceLabel := priceLabel)
  }

  /** `updateFakeDiscount`: the detector's flag and score change; nothing else does. */
  function FakeDiscountUpdated(s: ProductState, isFakeDiscount: bool, fakeDiscountScore: Option<int>): (r: ProductState)
    ensures r.isFakeDiscount == isFakeDiscount && r.fakeDiscountScore == fakeDiscountScore
    ensures r.(isFakeDiscount := s.isFakeDiscount, fakeDiscountScore := s.fakeDiscountScore) == s
  {
    s.(isFakeDiscount := isFakeDiscount, fakeDiscountScore := fakeDiscountScore)
  }

  /** `updateReviewInfo`: the star score and the review count change; nothing else does. */
  function ReviewInfoUpdated(s: ProductState, starScore: Option<real>, reviewCount: Option<int>): (r: ProductState)
    ensures r.starScore == starScore && r.reviewCount == reviewCount
    ensures r.(starScore := s.starScore, reviewCount := s.reviewCount) == s
  {
    s.(starScore := starScore, reviewCount := reviewCount)
  }

  /** `updateLikeCount`: only the like count changes. */
  function LikeCountUpdated(s: ProductState, likeCount: Option<int>): (r: ProductState)
    ensures r.likeCount == likeCount
    ensures r.(likeCount := s.likeCount) == s
  {
    s.(likeCount := likeCount)
  }

  /** `updateCategory`: only the category changes. */
  function CategoryUpdated(s: ProductState, category: Option<CategoryId>): (r: ProductState)
    ensures r.category == category
    ensures r.(category := s.category) == s
  {
    s.(category := category)
  }

  /** `updateProductDetail`: only the detail reference changes. */
  function ProductDetailUpdated(s: ProductState, productDetail: Option<ProductDetailId>): (r: ProductState)
    ensures r.productDetail == productDetail
    ensures r.(productDetail := s.productDetail) == s
  {
    s.(productDetail := productDetail)
  }

  /** One call of a product's update methods. */
  datatype ProductCommand =
    | UpdatePrice(currentPrice: int, originalPrice: Option<int>, discountRate: Option<int>)
    | UpdatePriceLabel(priceLabel: Option<PriceLabel>)
    | UpdateFakeDiscount(isFakeDiscount: bool, fakeDiscountScore: Option<int>)
    | UpdateReviewInfo(starScore: Option<real>, reviewCount: Option<int>)
    | UpdateLikeCount(likeCount: Option<int>)
    | UpdateCategory(category: Option<CategoryId>)
    | UpdateProductDetail(productDetail: Option<ProductDetailId>)

  function Applied(s: ProductState, c: ProductCommand): ProductState {
    match c
    case UpdatePrice(current, original, rate) => PriceUpdated(s, current, original, rate)
    case UpdatePriceLabel(newLabel) => PriceLabelUpdated(s, newLabel)
    case UpdateFakeDiscount(flag, score) => FakeDiscountUpdated(s, flag, score)
    case UpdateReviewInfo(stars, reviews) => ReviewInfoUpdated(s, stars, reviews)
    case UpdateLikeCount(likes) => LikeCountUpdated(s, likes)
    case UpdateCategory(category) => CategoryUpdated(s, category)
    case UpdateProductDetail(detail) => ProductDetailUpdated(s, detail)
  }

  /** The state after the calls, in order. */
  function Run(s: ProductState, cs: seq<ProductCommand>): ProductState
    decreases |cs|
  {
    if cs == [] then s else Run(Applied(s, cs[0]), cs[1..])
  }

  /** No sequence of updates changes the product's number, name, shop, image or brand. */
  lemma {:induction false} IdentityNeverChanges(s: ProductState, cs: seq<ProductCommand>)
    ensures Run(s, cs).productNumber == s.productNumber
    ensures Run(s, cs).name == s.name
    ensures Run(s, cs).shopType == s.shopType
    ensures Run(s, cs).imgUrl == s.imgUrl && Run(s, cs).brand == s.brand
    decreases |cs|
  {
    if cs != [] {
      IdentityNeverChanges(Applied(s, cs[0]), cs[1..]);
    }
  }

  /** Only `updateFakeDiscount` writes the detector's flag and score: without it they keep their values. */
  lemma {:induction false} FakeDiscountOnlyByDetector(s: ProductState, cs: seq<ProductCommand>)
    requires forall i :: 0 <= i < |cs| ==> !cs[i].UpdateFakeDiscount?
    ensures Run(s, cs).isFakeDiscount == s.isFakeDiscount
    ensures Run(s, cs).fakeDiscountScore == s.fakeDiscountScore
    decreases |cs|
  {
    if cs != [] {
      FakeDiscountOnlyByDetector(Applied(s, cs[0]), cs[1..]);
    }
  }

  class Product {
    var imgUrl: Option<string>
    var name: string
    var productNumber: int
    var brand: Option<string>
    var currentPrice: int
    var originalPrice: Option<int>
    var discountRate: Option<int>
    var starScore: Option<real>
    var reviewCount: Option<int>
    var likeCount: Option<int>
    var shopType: ShopType
    var priceLabel: Option<PriceLabel>
    var isFakeDiscount: bool
    var fakeDiscountScore: Option<int>
    var category: Option<CategoryId>
    var productDetail: Option<ProductDetailId>

    /** The product's fields as one value. */
    function State(): ProductState
      reads this
    {
      ProductState(imgUrl, name, productNumber, brand, currentPrice, originalPrice, discountRate,
                   starScore, reviewCount, likeCount, shopType, priceLabel, isFakeDiscount,
                   fakeDiscountScore, category, productDetail)
    }

    /**
     The builder given every field except the label and the fake-discount flag,
     which take their defaults: a normal label and no fake discount.
     */
    constructor (imgUrl: Option<string>, name: string, productNumber: int, brand: Option<string>,
                 currentPrice: int, originalPrice: Option<int>, discountRate: Option<int>,
                 starScore: Option<real>, reviewCount: Option<int>, likeCount: Option<int>,
                 shopType: ShopType, fakeDiscountScore: Option<int>, category: Option<CategoryId>,
                 productDetail: Option<ProductDetailId>)
      ensures priceLabel == Some(Normal) && !isFakeDiscount
      ensures State() == ProductState(imgUrl, name, productNumber, brand, currentPrice, originalPrice,
                                      discountRate, starScore, reviewCount, likeCount, shopType,
                                      Some(Normal), false, fakeDiscountScore, category, productDetail)
    {
      this.imgUrl := imgUrl;
      this.name := name;
      this.productNumber := productNumber;
      this.brand := brand;
      this.currentPrice := currentPrice;
      this.originalPrice := originalPrice;
      this.discountRate := discountRate;
      this.starScore := starScore;
      this.reviewCount := reviewCount;
      this.likeCount := likeCount;
      this.shopType := shopType;
      priceLabel := Some(Normal);
      isFakeDiscount := false;
      this.fakeDiscountScore := fakeDiscountScore;
      this.category := category;
      this.productDetail := productDetail;
    }

    method UpdatePrice(currentPrice: int, originalPrice: Option<int>, discountRate: Option<int>)
      modifies this
      ensures State() == PriceUpdated(old(State()), currentPrice, originalPrice, discountRate)
    {
      this.currentPrice := currentPrice;
      this.originalPrice := originalPrice;
      this.discountRate := discountRate;
    }

    method UpdatePriceLabel(priceLabel: Option<PriceLabel>)
      modifies this
      ensures State() == PriceLabelUpdated(old(State()), priceLabel)
    {
      this.priceLabel := priceLabel;
    }

    method UpdateFakeDiscount(isFakeDiscount: bool, fakeDiscountScore: Option<int>)
      modifies this
      ensures State() == FakeDiscountUpdated(old(State()), isFakeDiscount, fakeDiscountScore)
    {
      this.isFakeDiscount := isFakeDiscount;
      this.fakeDiscountScore := fakeDiscountScore;
    }

    method UpdateReviewInfo(starScore: Option<real>, reviewCount: Option<int>)
      modifies this
      ensures State() == ReviewInfoUpdated(old(State()), starScore, reviewCount)
    {
      this.starScore := starScore;
      this.reviewCount := reviewCount;
    }

    method UpdateLikeCount(likeCount: Option<int>)
      modifies this
      ensures State() == LikeCountUpdated(old(State()), likeCount)
    {
      this.likeCount := likeCount;
    }

    method UpdateCategory(category: Option<CategoryId>)
      modifies this
      ensures State() == CategoryUpdated(old(State()), category)
    {
      this.category := category;
    }

    method UpdateProductDetail(productDetail: Option<ProductDetailId>)
      modifies this
      ensures State() == ProductDetailUpdated(old(State()), productDetail)
    {
      this.productDetail := productDetail;
    }
  }
}

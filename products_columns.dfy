/**
 * The product column list and its cell rules (brand fallback, discounted
 * price, stock-status colour, star rating) and the View button's message.
 * Number formatting (`toFixed`, `$`) is not modelled: the message is a list
 * of lines that carry their values.
 */
module ProductsColumns {
  import opened Wrappers
  import opened Entities

  /** A column bound to a product property, or a display-only column. */
  datatype ProductColumn = Accessor(key: string, header: string) | Display(id: string, header: string)

  function ColumnId(c: ProductColumn): string {
    match c
    case Accessor(key, _) => key
    case Display(id, _) => id
  }

  const ColumnOrder: seq<string> :=
    ["thumbnail", "title", "brand", "price", "category", "stock", "rating", "actions"]

  /** The exported `columns`. */
  function Columns(): (cs: seq<ProductColumn>)
    ensures |cs| == |ColumnOrder| == 8
    ensures forall i :: 0 <= i < 8 ==> ColumnId(cs[i]) == ColumnOrder[i]
    ensures forall i :: 0 <= i < 7 ==> cs[i].Accessor?
    ensures cs[7].Display?
    ensures forall i, j :: 0 <= i < j < 8 ==> ColumnId(cs[i]) != ColumnId(cs[j])
  {
    [ Accessor("thumbnail", ""),
      Accessor("title", "Product"),
      Accessor("brand", "Brand"),
      Accessor("price", "Price"),
      Accessor("category", "Category"),
      Accessor("stock", "Stock"),
      Accessor("rating", "Rating"),
      Display("actions", "Actions") ]
  }

  /** `value || "N/A"` for a string that may be missing. */
  function BrandText(brand: Option<string>): (t: string)
    ensures brand.None? || brand.value == "" ==> t == "N/A"
    ensures brand.Some? && brand.value != "" ==> t == brand.value
  {
    if brand.Some? && brand.value != "" then brand.value else "N/A"
  }

  /** `discountPercentage || 0` */
  function DiscountOrZero(discount: Option<real>): real {
    if discount.Some? then discount.value else 0.0
  }

  /** The price cell: the discounted price, and the struck-through original when there is a discount. */
  datatype PriceView = PriceView(shown: real, struck: Option<real>)

  function PriceCell(price: real, discount: Option<real>): (c: PriceView)
    ensures c.struck.Some? <==> DiscountOrZero(discount) > 0.0
    ensures c.struck.Some? ==> c.struck.value == price
    ensures DiscountOrZero(discount) == 0.0 ==> c.shown == price
    ensures 0.0 <= price && 0.0 <= DiscountOrZero(discount) <= 100.0 ==> 0.0 <= c.shown <= price
  {
    var d := DiscountOrZero(discount);
    var shown := price * (1.0 - d / 100.0);
    assert 0.0 <= price && 0.0 <= d <= 100.0 ==> 0.0 <= shown <= price by {
      if 0.0 <= price && 0.0 <= d <= 100.0 {
        assert shown == price - price * (d / 100.0);
        assert 0.0 <= price * (d / 100.0) <= price;
      }
    }
    PriceView(shown, if d > 0.0 then Some(price) else None)
  }

  datatype Color = Green | Yellow | Red

  /** `getStatusColor` */
  function StatusColor(status: string): (c: Color)
    ensures c == Green <==> status == "In Stock"
    ensures c == Yellow <==> status == "Low Stock"
    ensures c == Red <==> status != "In Stock" && status != "Low Stock"
  {
    if status == "In Stock" then Green
    else if status == "Low Stock" then Yellow
    else Red
  }

  /** The five stars of the rating cell; `true` is a filled star. */
  function Stars(rating: real): (s: seq<bool>)
    ensures |s| == 5
    ensures forall i :: 0 <= i < 5 ==> (s[i] <==> i < rating.Floor)
  {
    seq(5, i requires 0 <= i < 5 => i < rating.Floor)
  }

  function CountFilled(s: seq<bool>): nat {
    if |s| == 0 then 0 else CountFilled(s[..|s| - 1]) + (if s[|s| - 1] then 1 else 0)
  }

  function Clamp(k: int, lo: int, hi: int): int {
    if k < lo then lo else if k > hi then hi else k
  }

  lemma {:induction false} ThresholdCount(s: seq<bool>, k: int)
    requires forall i :: 0 <= i < |s| ==> (s[i] <==> i < k)
    ensures CountFilled(s) == Clamp(k, 0, |s|)
    decreases |s|
  {
    if |s| > 0 {
      ThresholdCount(s[..|s| - 1], k);
    }
  }

  /** The filled stars are the first floor(rating) ones, clamped to 0..5. */
  lemma FilledStars(rating: real)
    ensures CountFilled(Stars(rating)) == Clamp(rating.Floor, 0, 5)
    ensures forall i, j :: 0 <= i <= j < 5 && Stars(rating)[j] ==> Stars(rating)[i]
  {
    ThresholdCount(Stars(rating), rating.Floor);
  }

  /** One line (or paragraph) of the View message, with the value it shows. */
  datatype Line =
    | DetailsHeader
    | IdLine(id: int)
    | TitleLine(title: string)
    | BrandLine(brand: string)
    | CategoryLine(category: string)
    | PriceLine(price: real)
    | DiscountLine(percent: real)
    | DiscountedPriceLine(discounted: real)
    | StockLine(stock: int)
    | StatusLine(status: string)
    | RatingLine(rating: real)
    | DescriptionLine(description: string)
    | WarrantyLine(warranty: string)
    | ShippingLine(shipping: string)
    | ReturnPolicyLine(policy: string)
    | MinOrderLine(quantity: int)
    | ReviewsHeader(count: nat)
    | ReviewNumber(number: nat)
    | ReviewRating(stars: real)
    | ReviewBy(reviewer: string)
    | ReviewComment(comment: string)

  datatype Kind =
    | DetailsKind | IdKind | TitleKind | BrandKind | CategoryKind | PriceKind
    | DiscountKind | DiscountedPriceKind | StockKind | StatusKind | RatingKind | DescriptionKind
    | WarrantyKind | ShippingKind | ReturnPolicyKind | MinOrderKind
    | ReviewsHeaderKind | ReviewNumberKind | ReviewRatingKind | ReviewByKind | ReviewCommentKind

  function KindOf(l: Line): Kind {
    match l
    case DetailsHeader => DetailsKind
    case IdLine(_) => IdKind
    case TitleLine(_) => TitleKind
    case BrandLine(_) => BrandKind
    case CategoryLine(_) => CategoryKind
    case PriceLine(_) => PriceKind
    case DiscountLine(_) => DiscountKind
    case DiscountedPriceLine(_) => DiscountedPriceKind
    case StockLine(_) => StockKind
    case StatusLine(_) => StatusKind
    case RatingLine(_) => RatingKind
    case DescriptionLine(_) => DescriptionKind
    case WarrantyLine(_) => WarrantyKind
    case ShippingLine(_) => ShippingKind
    case ReturnPolicyLine(_) => ReturnPolicyKind
    case MinOrderLine(_) => MinOrderKind
    case ReviewsHeader(_) => ReviewsHeaderKind
    case ReviewNumber(_) => ReviewNumberKind
    case ReviewRating(_) => ReviewRatingKind
    case ReviewBy(_) => ReviewByKind
    case ReviewComment(_) => ReviewCommentKind
  }

  /** Some line of `m` is of kind `k`. */
  predicate Mentions(m: seq<Line>, k: Kind) {
    |m| > 0 && (Mentions(m[..|m| - 1], k) || KindOf(m[|m| - 1]) == k)
  }

  lemma {:induction false} MentionsAppend(a: seq<Line>, b: seq<Line>, k: Kind)
    ensures Mentions(a + b, k) <==> Mentions(a, k) || Mentions(b, k)
    decreases |b|
  {
    if |b| == 0 {
      assert a + b == a;
    } else {
      assert (a + b)[..|a + b| - 1] == a + b[..|b| - 1];
      MentionsAppend(a, b[..|b| - 1], k);
    }
  }

  /** `Mentions` is "some index holds a line of that kind". */
  lemma {:induction false} MentionsAt(m: seq<Line>, k: Kind)
    ensures Mentions(m, k) <==> exists i :: 0 <= i < |m| && KindOf(m[i]) == k
    decreases |m|
  {
    if |m| > 0 {
      var init := m[..|m| - 1];
      MentionsAt(init, k);
      if exists i :: 0 <= i < |init| && KindOf(init[i]) == k {
        var i :| 0 <= i < |init| && KindOf(init[i]) == k;
        assert m[i] == init[i];
      }
      if exists i :: 0 <= i < |m| && KindOf(m[i]) == k {
        var i :| 0 <= i < |m| && KindOf(m[i]) == k;
        if i < |m| - 1 {
          assert init[i] == m[i];
        }
      }
    }
  }

  lemma MentionsSingleton(l: Line, k: Kind)
    ensures Mentions([l], k) <==> KindOf(l) == k
  {
    assert [l][..0] == [];
  }

  function HeadSection(p: Product): seq<Line> {
    [ DetailsHeader, IdLine(p.id), TitleLine(p.title), BrandLine(BrandText(p.brand)),
      CategoryLine(if p.category != "" then p.category else "N/A"), PriceLine(p.price) ]
  }

  function DiscountSection(p: Product): seq<Line> {
    var d := DiscountOrZero(p.discountPercentage);
    if d > 0.0 then [DiscountLine(d), DiscountedPriceLine(p.price * (1.0 - d / 100.0))] else []
  }

  function StockSection(p: Product): seq<Line> {
    [ StockLine(p.stock), StatusLine(p.availabilityStatus), RatingLine(p.rating), DescriptionLine(p.description) ]
  }

  /** A line that is written only when its condition holds. */
  function LineIf(cond: bool, l: Line): seq<Line> {
    if cond then [l] else []
  }

  function ExtrasSection(p: Product): seq<Line> {
    LineIf(Truthy(p.warrantyInformation), WarrantyLine(p.warrantyInformation.GetOr("")))
    + LineIf(Truthy(p.shippingInformation), ShippingLine(p.shippingInformation.GetOr("")))
    + LineIf(Truthy(p.returnPolicy), ReturnPolicyLine(p.returnPolicy.GetOr("")))
    + LineIf(TruthyNumber(p.minimumOrderQuantity), MinOrderLine(p.minimumOrderQuantity.GetOr(0)))
  }

  function ReviewBlock(n: nat, r: Review): seq<Line> {
    [ReviewNumber(n), ReviewRating(r.rating), ReviewBy(r.reviewerName), ReviewComment(r.comment)]
  }

  /** The numbered blocks for the reviews, in order. */
  function ReviewBlocks(rs: seq<Review>): seq<Line> {
    if |rs| == 0 then [] else ReviewBlocks(rs[..|rs| - 1]) + ReviewBlock(|rs|, rs[|rs| - 1])
  }

  predicate HasReviews(p: Product) {
    p.reviews.Some? && |p.reviews.value| > 0
  }

  function ReviewSection(p: Product): seq<Line> {
    if HasReviews(p) then [ReviewsHeader(|p.reviews.value|)] + ReviewBlocks(p.reviews.value) else []
  }

  /** The message `handleView` shows. */
  function ViewMessage(p: Product): seq<Line> {
    HeadSection(p) + DiscountSection(p) + StockSection(p) + ExtrasSection(p) + ReviewSection(p)
  }

  /** `handleView`: the message is built line by line, then the reviews one block at a time. */
  method HandleView(p: Product) returns (message: seq<Line>)
    ensures message == ViewMessage(p)
  {
    message := [DetailsHeader];
    message := message + [IdLine(p.id)];
    message := message + [TitleLine(p.title)];
    message := message + [BrandLine(if p.brand.Some? && p.brand.value != "" then p.brand.value else "N/A")];
    message := message + [CategoryLine(if p.category != "" then p.category else "N/A")];
    message := message + [PriceLine(p.price)];
    assert message == HeadSection(p);
    message := AppendDiscount(message, p);
    assert message == HeadSection(p) + DiscountSection(p);
    message := message + [StockLine(p.stock)];
    message := message + [StatusLine(p.availabilityStatus)];
    message := message + [RatingLine(p.rating)];
    message := message + [DescriptionLine(p.description)];
    ghost var front := message;
    assert front == HeadSection(p) + DiscountSection(p) + StockSection(p);
    message := AppendExtras(message, p);
    assert message == front + ExtrasSection(p);
    ghost var mid := message;
    if p.reviews.Some? && |p.reviews.value| > 0 {
      var reviews := p.reviews.value;
      message := message + [ReviewsHeader(|reviews|)];
      message := AppendReviewBlocks(message, reviews);
      assert ReviewSection(p) == [ReviewsHeader(|reviews|)] + ReviewBlocks(reviews);
      assert message == mid + ReviewSection(p);
    } else {
      assert ReviewSection(p) == [];
    }
    assert message == mid + ReviewSection(p);
  }

  /** The discount line and the discounted price, written only when the discount is positive. */
  method AppendDiscount(start: seq<Line>, p: Product) returns (message: seq<Line>)
    ensures message == start + DiscountSection(p)
  {
    message := start;
    if p.discountPercentage.Some? && p.discountPercentage.value > 0.0 {
      var d := p.discountPercentage.value;
      message := message + [DiscountLine(d)];
      var discounted := p.price * (1.0 - d / 100.0);
      message := message + [DiscountedPriceLine(discounted)];
      assert DiscountOrZero(p.discountPercentage) == d;
      assert DiscountSection(p)[0] == DiscountLine(d) && DiscountSection(p)[1] == DiscountedPriceLine(discounted);
      assert DiscountSection(p) == [DiscountLine(d), DiscountedPriceLine(discounted)];
    } else {
      assert DiscountSection(p) == [];
    }
  }

  /** The warranty, shipping, return-policy and minimum-order lines, each written only when its property is truthy. */
  method AppendExtras(start: seq<Line>, p: Product) returns (message: seq<Line>)
    ensures message == start + ExtrasSection(p)
  {
    message := start;
    if Truthy(p.warrantyInformation) {
      message := message + [WarrantyLine(p.warrantyInformation.value)];
    }
    ghost var upTo := start + LineIf(Truthy(p.warrantyInformation), WarrantyLine(p.warrantyInformation.GetOr("")));
    assert message == upTo;
    if Truthy(p.shippingInformation) {
      message := message + [ShippingLine(p.shippingInformation.value)];
    }
    upTo := upTo + LineIf(Truthy(p.shippingInformation), ShippingLine(p.shippingInformation.GetOr("")));
    assert message == upTo;
    if Truthy(p.returnPolicy) {
      message := message + [ReturnPolicyLine(p.returnPolicy.value)];
    }
    upTo := upTo + LineIf(Truthy(p.returnPolicy), ReturnPolicyLine(p.returnPolicy.GetOr("")));
    assert message == upTo;
    if TruthyNumber(p.minimumOrderQuantity) {
      message := message + [MinOrderLine(p.minimumOrderQuantity.value)];
    }
    upTo := upTo + LineIf(TruthyNumber(p.minimumOrderQuantity), MinOrderLine(p.minimumOrderQuantity.GetOr(0)));
    assert message == upTo;
    assert upTo == start + ExtrasSection(p);
  }

  /** The `forEach` over the reviews: one numbered block of four lines per review, in order. */
  method AppendReviewBlocks(start: seq<Line>, reviews: seq<Review>) returns (message: seq<Line>)
    ensures message == start + ReviewBlocks(reviews)
  {
    message := start;
    var i := 0;
    while i < |reviews|
      invariant 0 <= i <= |reviews|
      invariant message == start + ReviewBlocks(reviews[..i])
    {
      var review := reviews[i];
      message := message + [ReviewNumber(i + 1)];
      message := message + [ReviewRating(review.rating)];
      message := message + [ReviewBy(review.reviewerName)];
      message := message + [ReviewComment(review.comment)];
      assert reviews[..i + 1][..i] == reviews[..i];
      i := i + 1;
    }
    assert reviews[..|reviews|] == reviews;
  }

  /** Review block `k` (from 0) holds review `k`, numbered `k + 1`. */
  lemma {:induction false} ReviewBlocksShape(rs: seq<Review>)
    ensures |ReviewBlocks(rs)| == 4 * |rs|
    ensures forall k :: 0 <= k < |rs| ==>
      && ReviewBlocks(rs)[4 * k] == ReviewNumber(k + 1)
      && ReviewBlocks(rs)[4 * k + 1] == ReviewRating(rs[k].rating)
      && ReviewBlocks(rs)[4 * k + 2] == ReviewBy(rs[k].reviewerName)
      && ReviewBlocks(rs)[4 * k + 3] == ReviewComment(rs[k].comment)
    decreases |rs|
  {
    if |rs| > 0 {
      var init, last := rs[..|rs| - 1], rs[|rs| - 1];
      ReviewBlocksShape(init);
      var front, block := ReviewBlocks(init), ReviewBlock(|rs|, last);
      assert ReviewBlocks(rs) == front + block;
      forall k | 0 <= k < |rs|
        ensures && ReviewBlocks(rs)[4 * k] == ReviewNumber(k + 1)
                && ReviewBlocks(rs)[4 * k + 1] == ReviewRating(rs[k].rating)
                && ReviewBlocks(rs)[4 * k + 2] == ReviewBy(rs[k].reviewerName)
                && ReviewBlocks(rs)[4 * k + 3] == ReviewComment(rs[k].comment)
      {
        if k < |init| {
          assert rs[k] == init[k];
        } else {
          assert 4 * k == |front| && rs[k] == last;
        }
      }
    }
  }

  predicate IsReviewKind(k: Kind) {
    k == ReviewNumberKind || k == ReviewRatingKind || k == ReviewByKind || k == ReviewCommentKind
  }

  lemma {:induction false} ReviewBlocksKinds(rs: seq<Review>)
    ensures forall i :: 0 <= i < |ReviewBlocks(rs)| ==> IsReviewKind(KindOf(ReviewBlocks(rs)[i]))
    decreases |rs|
  {
    if |rs| > 0 {
      ReviewBlocksKinds(rs[..|rs| - 1]);
    }
  }

  /** The kinds of the lines every message has. */
  predicate IsFixedKind(k: Kind) {
    k in {DetailsKind, IdKind, TitleKind, BrandKind, CategoryKind, PriceKind,
          StockKind, StatusKind, RatingKind, DescriptionKind}
  }

  lemma FixedSectionsKinds(p: Product, k: Kind)
    requires !IsFixedKind(k)
    ensures !Mentions(HeadSection(p), k) && !Mentions(StockSection(p), k)
  {
    var head, stock := HeadSection(p), StockSection(p);
    MentionsAt(head, k);
    MentionsAt(stock, k);
    forall i | 0 <= i < |head| ensures KindOf(head[i]) != k {}
    forall i | 0 <= i < |stock| ensures KindOf(stock[i]) != k {}
  }

  lemma Mentions5(a: seq<Line>, b: seq<Line>, c: seq<Line>, d: seq<Line>, e: seq<Line>, k: Kind)
    ensures Mentions(a + b + c + d + e, k) <==>
      Mentions(a, k) || Mentions(b, k) || Mentions(c, k) || Mentions(d, k) || Mentions(e, k)
  {
    MentionsAppend(a + b + c + d, e, k);
    MentionsAppend(a + b + c, d, k);
    MentionsAppend(a + b, c, k);
    MentionsAppend(a, b, k);
  }

  /** Outside the review block kinds, only the header of the review section can be mentioned. */
  lemma ReviewSectionMentions(p: Product, k: Kind)
    requires !IsReviewKind(k)
    ensures Mentions(ReviewSection(p), k) <==> HasReviews(p) && k == ReviewsHeaderKind
  {
    if HasReviews(p) {
      var rs := p.reviews.value;
      ReviewBlocksKinds(rs);
      MentionsAt(ReviewBlocks(rs), k);
      MentionsAppend([ReviewsHeader(|rs|)], ReviewBlocks(rs), k);
      MentionsSingleton(ReviewsHeader(|rs|), k);
    }
  }

  /** An optional line kind appears in the message iff it appears in the discount, extras or review-header part. */
  lemma OptionalMentions(p: Product, k: Kind)
    requires !IsReviewKind(k) && !IsFixedKind(k)
    ensures Mentions(ViewMessage(p), k) <==>
      Mentions(DiscountSection(p), k) || Mentions(ExtrasSection(p), k) || (HasReviews(p) && k == ReviewsHeaderKind)
  {
    FixedSectionsKinds(p, k);
    ReviewSectionMentions(p, k);
    Mentions5(HeadSection(p), DiscountSection(p), StockSection(p), ExtrasSection(p), ReviewSection(p), k);
  }

  lemma DiscountMentions(p: Product, k: Kind)
    ensures Mentions(DiscountSection(p), k) <==>
      DiscountOrZero(p.discountPercentage) > 0.0 && (k == DiscountKind || k == DiscountedPriceKind)
  {
    var d := DiscountOrZero(p.discountPercentage);
    if d > 0.0 {
      var disc := DiscountSection(p);
      assert disc[0] == DiscountLine(d) && disc[1] == DiscountedPriceLine(p.price * (1.0 - d / 100.0));
      MentionsAt(disc, k);
    }
  }

  lemma LineIfMentions(cond: bool, l: Line, k: Kind)
    ensures Mentions(LineIf(cond, l), k) <==> cond && KindOf(l) == k
  {
    if cond {
      MentionsSingleton(l, k);
    }
  }

  lemma LineIfMentions4(c1: bool, l1: Line, c2: bool, l2: Line, c3: bool, l3: Line, c4: bool, l4: Line, k: Kind)
    requires KindOf(l1) == WarrantyKind && KindOf(l2) == ShippingKind
    requires KindOf(l3) == ReturnPolicyKind && KindOf(l4) == MinOrderKind
    ensures Mentions(LineIf(c1, l1) + LineIf(c2, l2) + LineIf(c3, l3) + LineIf(c4, l4), k) <==>
      (k == WarrantyKind && c1) || (k == ShippingKind && c2) || (k == ReturnPolicyKind && c3) || (k == MinOrderKind && c4)
  {
    MentionsAppend(LineIf(c1, l1) + LineIf(c2, l2) + LineIf(c3, l3), LineIf(c4, l4), k);
    MentionsAppend(LineIf(c1, l1) + LineIf(c2, l2), LineIf(c3, l3), k);
    MentionsAppend(LineIf(c1, l1), LineIf(c2, l2), k);
    LineIfMentions(c1, l1, k);
    LineIfMentions(c2, l2, k);
    LineIfMentions(c3, l3, k);
    LineIfMentions(c4, l4, k);
  }

  lemma ExtrasMentions(p: Product, k: Kind)
    ensures Mentions(ExtrasSection(p), k) <==>
      || (k == WarrantyKind && Truthy(p.warrantyInformation))
      || (k == ShippingKind && Truthy(p.shippingInformation))
      || (k == ReturnPolicyKind && Truthy(p.returnPolicy))
      || (k == MinOrderKind && TruthyNumber(p.minimumOrderQuantity))
  {
    LineIfMentions4(
      Truthy(p.warrantyInformation), WarrantyLine(p.warrantyInformation.GetOr("")),
      Truthy(p.shippingInformation), ShippingLine(p.shippingInformation.GetOr("")),
      Truthy(p.returnPolicy), ReturnPolicyLine(p.returnPolicy.GetOr("")),
      TruthyNumber(p.minimumOrderQuantity), MinOrderLine(p.minimumOrderQuantity.GetOr(0)), k);
  }

  /** A line kind outside the fixed and review kinds appears iff its condition holds. */
  lemma OptionalLine(p: Product, k: Kind)
    requires !IsReviewKind(k) && !IsFixedKind(k)
    ensures Mentions(ViewMessage(p), k) <==>
      || (DiscountOrZero(p.discountPercentage) > 0.0 && (k == DiscountKind || k == DiscountedPriceKind))
      || (k == WarrantyKind && Truthy(p.warrantyInformation))
      || (k == ShippingKind && Truthy(p.shippingInformation))
      || (k == ReturnPolicyKind && Truthy(p.returnPolicy))
      || (k == MinOrderKind && TruthyNumber(p.minimumOrderQuantity))
      || (k == ReviewsHeaderKind && HasReviews(p))
  {
    OptionalMentions(p, k);
    DiscountMentions(p, k);
    ExtrasMentions(p, k);
  }

  /** The discount and discounted-price lines appear iff the discount is positive. */
  lemma DiscountShown(p: Product)
    ensures Mentions(ViewMessage(p), DiscountKind) <==> DiscountOrZero(p.discountPercentage) > 0.0
    ensures Mentions(ViewMessage(p), DiscountedPriceKind) <==> DiscountOrZero(p.discountPercentage) > 0.0
  {
    OptionalLine(p, DiscountKind);
    OptionalLine(p, DiscountedPriceKind);
  }

  /** The warranty and shipping lines each appear iff their property is truthy. */
  lemma WarrantyShippingShown(p: Product)
    ensures Mentions(ViewMessage(p), WarrantyKind) <==> Truthy(p.warrantyInformation)
    ensures Mentions(ViewMessage(p), ShippingKind) <==> Truthy(p.shippingInformation)
  {
    OptionalLine(p, WarrantyKind);
    OptionalLine(p, ShippingKind);
  }

  /** The return-policy and minimum-order lines each appear iff their property is truthy. */
  lemma ReturnMinimumShown(p: Product)
    ensures Mentions(ViewMessage(p), ReturnPolicyKind) <==> Truthy(p.returnPolicy)
    ensures Mentions(ViewMessage(p), MinOrderKind) <==> TruthyNumber(p.minimumOrderQuantity)
  {
    OptionalLine(p, ReturnPolicyKind);
    OptionalLine(p, MinOrderKind);
  }

  /** The reviews header appears iff there are reviews, and it carries their count. */
  lemma ReviewsHeaderShown(p: Product)
    ensures Mentions(ViewMessage(p), ReviewsHeaderKind) <==> HasReviews(p)
    ensures HasReviews(p) ==> ReviewSection(p)[0] == ReviewsHeader(|p.reviews.value|)
  {
    OptionalLine(p, ReviewsHeaderKind);
  }
}

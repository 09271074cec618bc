// Start-up seeding (DataInitializer.java): the administrator account, and,
// on an empty catalogue, the sample products with a fixed per-size
// inventory text, eight demo users and two to four sample reviews per
// product whose mean becomes the product's rating. The repositories are
// fields; the product literals arrive as `catalog`, and each draw of
// `java.util.Random` is a parameter within the bound `nextInt` promises.

module Seeding {
  import opened Outcomes
  import Text
  import Admin

  // ----- the inventory text

  /** The shoe sizes every seeded product stocks, in order. */
  const SIZES: seq<string> := ["7", "7.5", "8", "8.5", "9", "9.5", "10", "10.5", "11", "11.5", "12"]

  const SEED_QUANTITY: int := 50

  /** `"size":` */
  function EntryKey(size: string): string {
    "\"" + size + "\":"
  }

  /** `{"quantity":N,"reserved":0}` */
  function EntryValue(quantity: int): string {
    "{\"quantity\":" + Text.IntToString(quantity) + ",\"reserved\":0}"
  }

  /** `"size":{"quantity":N,"reserved":0}` */
  function Entry(size: string, quantity: int): string {
    EntryKey(size) + EntryValue(quantity)
  }

  /** An entry's text up to the comma inside its object. */
  function EntryHead(size: string, quantity: int): string {
    EntryKey(size) + "{\"quantity\":" + Text.IntToString(quantity)
  }

  /** An entry's text after the comma inside its object. */
  const RESERVED_TAIL: string := "\"reserved\":0}"

  /** The entries for `sizes`, separated by single commas. */
  function Entries(sizes: seq<string>, quantity: int): string {
    if |sizes| == 0 then ""
    else if |sizes| == 1 then Entry(sizes[0], quantity)
    else Entries(sizes[..|sizes| - 1], quantity) + "," + Entry(sizes[|sizes| - 1], quantity)
  }

  /** The inventory text every seeded product carries. */
  function InventoryJson(quantity: int): string {
    "{" + Entries(SIZES, quantity) + "}"
  }

  /** `buildInventoryJson`: a builder over the eleven sizes. */
  method BuildInventoryJson(quantityPerSize: int) returns (json: string)
    ensures json == InventoryJson(quantityPerSize)
  {
    json := BuildObject(SIZES, quantityPerSize);
  }

  /** The builder's loop: it starts with `{`, writes a comma before every
      entry but the first, and closes with `}`. */
  method BuildObject(sizes: seq<string>, quantityPerSize: int) returns (json: string)
    ensures json == "{" + Entries(sizes, quantityPerSize) + "}"
  {
    var sb := "{";
    for i := 0 to |sizes|
      invariant sb == "{" + Entries(sizes[..i], quantityPerSize)
    {
      EntriesStep(sizes, i, quantityPerSize);
      if i > 0 {
        sb := sb + ",";
      }
      var key := "\"" + sizes[i] + "\":";
      var value := "{\"quantity\":" + Text.IntToString(quantityPerSize) + ",\"reserved\":0}";
      sb := sb + (key + value);
    }
    assert sizes[..|sizes|] == sizes;
    json := sb + "}";
  }

  /** One more entry: a comma before it unless it is the first. */
  lemma EntriesStep(sizes: seq<string>, i: nat, quantity: int)
    requires i < |sizes|
    ensures Entries(sizes[..i + 1], quantity)
         == Entries(sizes[..i], quantity) + (if i > 0 then "," else "") + Entry(sizes[i], quantity)
  {
    assert sizes[..i + 1][..i] == sizes[..i];
  }

  /** What splitting the entries at every comma gives: for each size, the
      head up to the quantity, then the reserved tail. */
  function Pieces(sizes: seq<string>, quantity: int): seq<string> {
    if sizes == [] then []
    else Pieces(sizes[..|sizes| - 1], quantity) + [EntryHead(sizes[|sizes| - 1], quantity), RESERVED_TAIL]
  }

  lemma NoCommaInNumber(n: int)
    ensures ',' !in Text.IntToString(n)
  {
    var digits := Text.NatToString(if n < 0 then -n else n);
    assert forall i :: 0 <= i < |digits| ==> digits[i] != ',';
    if n < 0 {
      assert Text.IntToString(n) == "-" + digits;
    }
  }

  lemma EntryPieces(size: string, quantity: int)
    requires ',' !in size
    ensures Text.Split(Entry(size, quantity), ',') == [EntryHead(size, quantity), RESERVED_TAIL]
  {
    EntryHeadHasNoComma(size, quantity);
    EntryAtInnerComma(size, quantity);
    Text.SplitAfterPiece(EntryHead(size, quantity), RESERVED_TAIL, ',');
    Text.SplitSinglePiece(RESERVED_TAIL, ',');
  }

  lemma EntryHeadHasNoComma(size: string, quantity: int)
    requires ',' !in size
    ensures ',' !in EntryHead(size, quantity)
  {
    NoCommaInNumber(quantity);
    assert EntryHead(size, quantity) == "\"" + size + "\":" + "{\"quantity\":" + Text.IntToString(quantity);
  }

  lemma EntryAtInnerComma(size: string, quantity: int)
    ensures Entry(size, quantity) == EntryHead(size, quantity) + [','] + RESERVED_TAIL
    ensures ',' !in RESERVED_TAIL
  {
    assert ",\"reserved\":0}" == [','] + RESERVED_TAIL;
  }

  /** Commas appear only between entries and inside each entry's object:
      the entries split into exactly two pieces per size, in order. */
  lemma {:induction false} EntriesSplit(sizes: seq<string>, quantity: int)
    requires sizes != []
    requires forall i :: 0 <= i < |sizes| ==> ',' !in sizes[i]
    ensures Text.Split(Entries(sizes, quantity), ',') == Pieces(sizes, quantity)
  {
    var last := sizes[|sizes| - 1];
    var init := sizes[..|sizes| - 1];
    EntryPieces(last, quantity);
    if |sizes| == 1 {
      assert Pieces(sizes, quantity) == Pieces([], quantity) + [EntryHead(last, quantity), RESERVED_TAIL];
    } else {
      EntriesSplit(init, quantity);
      Text.SplitConcat(Entries(init, quantity), Entry(last, quantity), ',');
    }
  }

  /** The seeded text is one object: a `{`, eleven entries for sizes 7 to 12
      in the listed order, each stating the quantity and no reservation,
      and a `}`. */
  lemma InventoryJsonShape(quantity: int)
    ensures var json := InventoryJson(quantity);
            && json[0] == '{' && json[|json| - 1] == '}'
            && Text.Split(json[1..|json| - 1], ',') == Pieces(SIZES, quantity)
            && |Pieces(SIZES, quantity)| == 2 * 11
  {
    var json := InventoryJson(quantity);
    assert json[1..|json| - 1] == Entries(SIZES, quantity);
    EntriesSplit(SIZES, quantity);
    PiecesLength(SIZES, quantity);
  }

  lemma {:induction false} PiecesLength(sizes: seq<string>, quantity: int)
    ensures |Pieces(sizes, quantity)| == 2 * |sizes|
  {
    if sizes != [] {
      PiecesLength(sizes[..|sizes| - 1], quantity);
    }
  }

  /** The size list in the catalogue literals, `["7", "7.5", ..., "12"]`,
      parses to the same sizes the inventory text stocks. */
  lemma CatalogueSizesMatchInventory()
    ensures Admin.ParseSizeList(Admin.SizeListJson(SIZES)) == SIZES
  {
    forall i | 0 <= i < |SIZES| ensures Admin.PlainSize(SIZES[i]) {
    }
    Admin.ParseSizeListRoundTrip(SIZES);
  }

  // ----- sample reviews

  const DEMO_USER_NAMES: seq<string> :=
    ["Sneaker Head", "Jordan Fan", "Nike Enthusiast", "Shoe Collector",
     "Kicks Lover", "Sneaker Pro", "Footwear Expert", "Style Seeker"]

  const POSITIVE_COMMENTS: seq<string> :=
    ["Absolutely love these kicks! Super comfortable.",
     "Great quality and fits perfectly.",
     "Fast delivery and the box was in perfect condition.",
     "Best purchase I've made this year.",
     "Looks even better in person!"]

  function DemoEmail(i: nat): string {
    "demo" + Text.NatToString(i) + "@shoestop.com"
  }

  /** The random draws behind one review: `nextInt(2)` for the rating, the
      comment `nextInt(5)` picks, and `nextInt(8)` for the author. */
  datatype ReviewDraw = ReviewDraw(rating: int, comment: string, user: nat)

  predicate DrawInRange(d: ReviewDraw) {
    0 <= d.rating < 2 && d.comment in POSITIVE_COMMENTS && d.user < |DEMO_USER_NAMES|
  }

  /** One product's draws: `2 + nextInt(3)` reviews, each drawn in range. */
  predicate ProductDrawsInRange(ds: seq<ReviewDraw>) {
    2 <= |ds| <= 4 && forall j :: 0 <= j < |ds| ==> DrawInRange(ds[j])
  }

  predicate AllDrawsInRange(draws: seq<seq<ReviewDraw>>) {
    forall p :: 0 <= p < |draws| ==> ProductDrawsInRange(draws[p])
  }

  datatype SeedReview = SeedReview(rating: int, comment: string, userEmail: string, product: nat)

  function ToReview(product: nat, d: ReviewDraw): SeedReview {
    SeedReview(4 + d.rating, d.comment, DemoEmail(d.user), product)
  }

  /** The reviews one product's draws produce, in order. */
  function DrawReviews(product: nat, ds: seq<ReviewDraw>): seq<SeedReview> {
    if ds == [] then [] else DrawReviews(product, ds[..|ds| - 1]) + [ToReview(product, ds[|ds| - 1])]
  }

  /** The reviews of the first `n` products, product by product. */
  function SampleReviews(draws: seq<seq<ReviewDraw>>, n: nat): seq<SeedReview>
    requires n <= |draws|
  {
    if n == 0 then []
    else SampleReviews(draws, n - 1) + DrawReviews(n - 1, draws[n - 1])
  }

  function RatingSum(ds: seq<ReviewDraw>): int {
    if ds == [] then 0 else RatingSum(ds[..|ds| - 1]) + 4 + ds[|ds| - 1].rating
  }

  /** Every seeded review is rated 4 or 5, its comment is one of the stock
      comments and its author one of the demo users. */
  lemma {:induction false} DrawReviewsInRange(product: nat, ds: seq<ReviewDraw>)
    requires forall j :: 0 <= j < |ds| ==> DrawInRange(ds[j])
    ensures |DrawReviews(product, ds)| == |ds|
    ensures forall r :: r in DrawReviews(product, ds) ==>
              && 4 <= r.rating <= 5 && r.comment in POSITIVE_COMMENTS && r.product == product
              && exists i :: 0 <= i < |DEMO_USER_NAMES| && r.userEmail == DemoEmail(i)
  {
    if ds != [] {
      DrawReviewsInRange(product, ds[..|ds| - 1]);
    }
  }

  /** A seeded catalogue of `n` products gets two to four reviews per
      product, every one rated 4 or 5 and attached to one of those products. */
  lemma {:induction false} SampleReviewsBounds(draws: seq<seq<ReviewDraw>>, n: nat)
    requires n <= |draws| && AllDrawsInRange(draws)
    ensures 2 * n <= |SampleReviews(draws, n)| <= 4 * n
    ensures forall r :: r in SampleReviews(draws, n) ==> 4 <= r.rating <= 5 && r.product < n
  {
    if n > 0 {
      SampleReviewsBounds(draws, n - 1);
      assert ProductDrawsInRange(draws[n - 1]);
      DrawReviewsInRange(n - 1, draws[n - 1]);
    }
  }

  lemma {:induction false} RatingSumBounds(ds: seq<ReviewDraw>)
    requires forall j :: 0 <= j < |ds| ==> DrawInRange(ds[j])
    ensures 4 * |ds| <= RatingSum(ds) <= 5 * |ds|
  {
    if ds != [] {
      RatingSumBounds(ds[..|ds| - 1]);
    }
  }

  /** The rating a seeded product ends with is the mean of its two to four
      reviews, so it lies between 4 and 5. */
  lemma SeededRatingBounds(ds: seq<ReviewDraw>)
    requires ProductDrawsInRange(ds)
    ensures 4.0 <= RatingSum(ds) as real / |ds| as real <= 5.0
  {
    RatingSumBounds(ds);
    MeanBetween(RatingSum(ds), |ds|);
  }

  lemma MeanBetween(sum: int, n: nat)
    requires 2 <= n <= 4 && 4 * n <= sum <= 5 * n
    ensures 4.0 <= sum as real / n as real <= 5.0
  {
    if n == 2 {
    } else if n == 3 {
    } else {
    }
  }

  // ----- the seeder

  datatype Role = ADMIN | USER

  datatype UserRecord = UserRecord(name: string, role: Role)

  const ADMIN_EMAIL: string := "admin@shoestop.com"
  const ADMIN_USER: UserRecord := UserRecord("Administrator", ADMIN)

  /** Demo user `i` of `names`, under `demo<i>@shoestop.com`, added to
      `users` in order, each only when its email is absent. */
  function AddDemoUsers(users: map<string, UserRecord>, names: seq<string>): map<string, UserRecord> {
    if names == [] then users
    else
      var n := |names| - 1;
      var before := AddDemoUsers(users, names[..n]);
      if DemoEmail(n) in before then before
      else before[DemoEmail(n) := UserRecord(names[n], USER)]
  }

  /** Seeding the demo users keeps every existing account as it was, and
      afterwards every demo email has an account; nothing else is added. */
  lemma {:induction false} AddDemoUsersSpec(users: map<string, UserRecord>, names: seq<string>)
    ensures var r := AddDemoUsers(users, names);
            && (forall e :: e in users ==> e in r && r[e] == users[e])
            && (forall i :: 0 <= i < |names| ==> DemoEmail(i) in r)
            && (forall e :: e in r ==> e in users || exists i :: 0 <= i < |names| && e == DemoEmail(i))
  {
    if names != [] {
      AddDemoUsersSpec(users, names[..|names| - 1]);
    }
  }

  /** A catalogue product; the inventory text is absent until seeding sets it. */
  datatype SeedProduct = SeedProduct(name: string, sizes: string, sizeInventory: Option<string>, rating: real)

  /** The rating a product has after its sample reviews. */
  function RatedProduct(product: SeedProduct, ds: seq<ReviewDraw>): SeedProduct {
    if |ds| > 0 then product.(rating := RatingSum(ds) as real / |ds| as real) else product
  }

  class DataInitializer {
    var users: map<string, UserRecord>
    var products: seq<SeedProduct>
    var reviews: seq<SeedReview>

    constructor(users: map<string, UserRecord>, products: seq<SeedProduct>, reviews: seq<SeedReview>)
      ensures this.users == users && this.products == products && this.reviews == reviews
    {
      this.users := users;
      this.products := products;
      this.reviews := reviews;
    }

    /** `createAdminUser`: adds the administrator only when its email is free. */
    method CreateAdminUser()
      modifies this
      ensures users == if ADMIN_EMAIL in old(users) then old(users) else old(users)[ADMIN_EMAIL := ADMIN_USER]
      ensures products == old(products) && reviews == old(reviews)
    {
      if ADMIN_EMAIL !in users {
        users := users[ADMIN_EMAIL := ADMIN_USER];
      }
    }

    /** `createSampleReviews`: the demo users are created where missing; then
        each product gets one review per draw, and the mean of those
        ratings when it got any. */
    method CreateSampleReviews(draws: seq<seq<ReviewDraw>>)
      requires |draws| == |products|
      modifies this
      ensures users == AddDemoUsers(old(users), DEMO_USER_NAMES)
      ensures |products| == |old(products)|
      ensures forall p :: 0 <= p < |products| ==> products[p] == RatedProduct(old(products)[p], draws[p])
      ensures reviews == old(reviews) + SampleReviews(draws, |draws|)
    {
      CreateDemoUsers(DEMO_USER_NAMES);
      ReviewProducts(draws);
    }

    /** The product loop of `createSampleReviews`, in catalogue order. */
    method ReviewProducts(draws: seq<seq<ReviewDraw>>)
      requires |draws| == |products|
      modifies this
      ensures users == old(users)
      ensures |products| == |old(products)|
      ensures forall p :: 0 <= p < |products| ==> products[p] == RatedProduct(old(products)[p], draws[p])
      ensures reviews == old(reviews) + SampleReviews(draws, |draws|)
    {
      for p := 0 to |products|
        invariant |products| == |old(products)| && users == old(users)
        invariant forall q :: 0 <= q < p ==> products[q] == RatedProduct(old(products)[q], draws[q])
        invariant forall q :: p <= q < |products| ==> products[q] == old(products)[q]
        invariant reviews == old(reviews) + SampleReviews(draws, p)
      {
        ReviewProduct(p, draws[p]);
      }
    }

    /** The demo-user loop of `createSampleReviews`: `demo<i>@shoestop.com`
        is saved under the i-th name unless that email is taken. */
    method CreateDemoUsers(names: seq<string>)
      modifies this
      ensures users == AddDemoUsers(old(users), names)
      ensures products == old(products) && reviews == old(reviews)
    {
      for i := 0 to |names|
        invariant users == AddDemoUsers(old(users), names[..i])
        invariant products == old(products) && reviews == old(reviews)
      {
        assert names[..i + 1][..i] == names[..i];
        var email := DemoEmail(i);
        if email !in users {
          users := users[email := UserRecord(names[i], USER)];
        }
      }
      assert names[..|names|] == names;
    }

    /** One product's turn in `createSampleReviews`: a review per draw,
        the ratings summed as they are saved, then the mean when there
        was any review. */
    method ReviewProduct(p: nat, ds: seq<ReviewDraw>)
      requires p < |products|
      modifies this
      ensures reviews == old(reviews) + DrawReviews(p, ds)
      ensures products == old(products)[p := RatedProduct(old(products)[p], ds)]
      ensures users == old(users)
    {
      var reviewCount := |ds|;
      var ratingSum := 0;
      for j := 0 to reviewCount
        invariant ratingSum == RatingSum(ds[..j])
        invariant reviews == old(reviews) + DrawReviews(p, ds[..j])
        invariant products == old(products) && users == old(users)
      {
        assert ds[..j + 1][..j] == ds[..j];
        var rating := 4 + ds[j].rating;
        reviews := reviews + [SeedReview(rating, ds[j].comment, DemoEmail(ds[j].user), p)];
        ratingSum := ratingSum + rating;
      }
      assert ds[..reviewCount] == ds;
      if reviewCount > 0 {
        products := products[p := products[p].(rating := ratingSum as real / reviewCount as real)];
      }
    }

    /** `run`: the administrator first; the catalogue, its inventory text and
        its reviews only when no product is stored yet. */
    method Run(catalog: seq<SeedProduct>, draws: seq<seq<ReviewDraw>>)
      requires |draws| == |catalog|
      modifies this
      ensures ADMIN_EMAIL in users && users[ADMIN_EMAIL] == if ADMIN_EMAIL in old(users) then old(users)[ADMIN_EMAIL] else ADMIN_USER
      ensures var withAdmin := if ADMIN_EMAIL in old(users) then old(users) else old(users)[ADMIN_EMAIL := ADMIN_USER];
              users == if |old(products)| == 0 then AddDemoUsers(withAdmin, DEMO_USER_NAMES) else withAdmin
      ensures |old(products)| != 0 ==> products == old(products) && reviews == old(reviews)
      ensures |old(products)| == 0 ==>
                && |products| == |catalog|
                && (forall p :: 0 <= p < |catalog| ==>
                      products[p] == RatedProduct(catalog[p].(sizeInventory := Some(InventoryJson(SEED_QUANTITY))), draws[p]))
                && reviews == old(reviews) + SampleReviews(draws, |draws|)
    {
      CreateAdminUser();
      if |products| == 0 {
        var inventoryJson := BuildInventoryJson(SEED_QUANTITY);
        var sampleProducts := catalog;
        for i := 0 to |sampleProducts|
          invariant |sampleProducts| == |catalog|
          invariant forall q :: 0 <= q < i ==> sampleProducts[q] == catalog[q].(sizeInventory := Some(inventoryJson))
          invariant forall q :: i <= q < |catalog| ==> sampleProducts[q] == catalog[q]
        {
          sampleProducts := sampleProducts[i := sampleProducts[i].(sizeInventory := Some(inventoryJson))];
        }
        products := sampleProducts;
        ghost var withAdmin := users;
        CreateSampleReviews(draws);
        AddDemoUsersSpec(withAdmin, DEMO_USER_NAMES);
      }
    }
  }

  /** Every product seeded in one run carries the same inventory text. */
  lemma SeededProductsShareInventory(catalog: seq<SeedProduct>, draws: seq<seq<ReviewDraw>>, p: nat, q: nat)
    requires |draws| == |catalog| && p < |catalog| && q < |catalog|
    ensures RatedProduct(catalog[p].(sizeInventory := Some(InventoryJson(SEED_QUANTITY))), draws[p]).sizeInventory
         == RatedProduct(catalog[q].(sizeInventory := Some(InventoryJson(SEED_QUANTITY))), draws[q]).sizeInventory
  {
  }
}

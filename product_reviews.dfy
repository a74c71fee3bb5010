/** The admin-side view-model service for product reviews: building the
    review model and the list page's store filter, preparing one page of the
    search results, and approving or disapproving a batch of selected reviews.

    The review table is a map from review id to review that the batch
    operations update in place; the commands and events sent through the
    mediator are an append-only log. The product, customer and store services
    are maps and a sequence; the search, the paging, the time-zone
    conversions, the text formatting and the translation lookup are
    function-valued parameters of which nothing is assumed. */
module ProductReviews {
  import opened Common

  datatype ProductReview = ProductReview(
    id: string,
    productId: string,
    customerId: string,
    storeId: string,
    title: string,
    reviewText: string,
    replyText: string,
    signature: string,
    rating: int,
    isApproved: bool,
    createdOnUtc: DateTime)

  datatype Product = Product(id: string, name: string)

  /** A customer; an email of "" stands for a null or empty one. */
  datatype Customer = Customer(id: string, email: string)

  datatype ProductReviewModel = ProductReviewModel(
    id: string,
    storeName: string,
    productId: string,
    productName: string,
    customerId: string,
    customerInfo: string,
    rating: int,
    createdOn: DateTime,
    signature: string,
    title: string,
    reviewText: string,
    replyText: string,
    isApproved: bool)

  /** A freshly constructed review model: every field at its default. */
  function NewReviewModel(): ProductReviewModel
  {
    ProductReviewModel("", "", "", "", "", "", 0, 0, "", "", "", "", false)
  }

  datatype ProductReviewListModel = ProductReviewListModel(
    createdOnFrom: Option<DateTime>,
    createdOnTo: Option<DateTime>,
    searchText: string,
    searchStoreId: string,
    searchProductId: string,
    availableStores: seq<SelectListItem>)

  /** The arguments of the review service's search, in its parameter order:
      customer id, approval filter, creation window, text, store, product. */
  datatype ReviewQuery = ReviewQuery(
    customerId: string,
    approved: Option<bool>,
    fromUtc: Option<DateTime>,
    toUtc: Option<DateTime>,
    message: string,
    storeId: string,
    productId: string)

  /** What the batch operations send through the mediator. */
  datatype Message =
    | UpdateTotals(product: Option<Product>)   // the product-review totals command
    | ReviewApproved(review: ProductReview)     // the "review approved" event

  const GuestKey: string := "Admin.Customers.Guest"
  const AllKey: string := "Admin.Common.All"

  // ---------------------------------------------------------------------
  // Composite ids "review:product"

  /** The text before the first ':' of a selected id (all of it without one). */
  function FirstSegment(s: string): (r: string)
    ensures r <= s
    ensures ':' !in r
    ensures |r| < |s| ==> s[|r|] == ':'
  {
    if s == [] || s[0] == ':' then [] else [s[0]] + FirstSegment(s[1..])
  }

  /** The text after the last ':' of a selected id (all of it without one). */
  function LastSegment(s: string): (r: string)
    ensures |r| <= |s| && forall i :: 0 <= i < |r| ==> r[i] == s[|s| - |r| + i]
    ensures ':' !in r
    ensures |r| < |s| ==> s[|s| - |r| - 1] == ':'
  {
    if s == [] || s[|s| - 1] == ':' then [] else LastSegment(s[..|s| - 1]) + [s[|s| - 1]]
  }

  lemma {:induction false} FirstSegmentWithoutSeparator(s: string)
    requires ':' !in s
    ensures FirstSegment(s) == s
    decreases |s|
  {
    if s != [] {
      assert s[0] in s;
      assert ':' !in s[1..] by {
        assert forall i :: 0 <= i < |s[1..]| ==> s[1..][i] == s[i + 1];
      }
      FirstSegmentWithoutSeparator(s[1..]);
      assert [s[0]] + s[1..] == s;
    }
  }

  lemma {:induction false} LastSegmentWithoutSeparator(s: string)
    requires ':' !in s
    ensures LastSegment(s) == s
    decreases |s|
  {
    if s != [] {
      var init := s[..|s| - 1];
      assert s[|s| - 1] in s;
      assert ':' !in init by {
        assert forall i :: 0 <= i < |init| ==> init[i] == s[i];
      }
      assert LastSegment(s) == LastSegment(init) + [s[|s| - 1]];
      LastSegmentWithoutSeparator(init);
      assert init + [s[|s| - 1]] == s;
    }
  }

  /** An id without ':' names both the review and the product. */
  lemma SegmentsWithoutSeparator(s: string)
    requires ':' !in s
    ensures FirstSegment(s) == s && LastSegment(s) == s
  {
    FirstSegmentWithoutSeparator(s);
    LastSegmentWithoutSeparator(s);
  }

  lemma {:induction false} FirstSegmentOfComposed(reviewId: string, rest: string)
    requires ':' !in reviewId
    ensures FirstSegment(reviewId + ":" + rest) == reviewId
    decreases |reviewId|
  {
    var s := reviewId + ":" + rest;
    if reviewId == [] {
      assert s[0] == ':';
    } else {
      assert s[0] == reviewId[0] && reviewId[0] in reviewId;
      assert s[1..] == reviewId[1..] + ":" + rest;
      assert forall c :: c in reviewId[1..] ==> c in reviewId;
      FirstSegmentOfComposed(reviewId[1..], rest);
      assert [reviewId[0]] + reviewId[1..] == reviewId;
    }
  }

  lemma {:induction false} LastSegmentOfComposed(front: string, productId: string)
    requires ':' !in productId
    ensures LastSegment(front + ":" + productId) == productId
    decreases |productId|
  {
    if productId != [] {
      var s, n := front + ":" + productId, |productId|;
      var init := productId[..n - 1];
      assert s[|s| - 1] == productId[n - 1] != ':';
      assert s[..|s| - 1] == front + ":" + init;
      assert ':' !in init by {
        assert forall i :: 0 <= i < |init| ==> init[i] == productId[i];
      }
      calc {
        LastSegment(s);
        LastSegment(s[..|s| - 1]) + [s[|s| - 1]];
        { LastSegmentOfComposed(front, init); }
        init + [productId[n - 1]];
        { DropLastAppend(productId); }
        productId;
      }
    }
  }

  lemma DropLastAppend(s: string)
    requires s != []
    ensures s[..|s| - 1] + [s[|s| - 1]] == s
  {
  }

  /** The ids the review list posts, "review:product", split back into their parts. */
  lemma SegmentsOfComposedId(reviewId: string, productId: string)
    requires ':' !in reviewId && ':' !in productId
    ensures FirstSegment(reviewId + ":" + productId) == reviewId
    ensures LastSegment(reviewId + ":" + productId) == productId
  {
    FirstSegmentOfComposed(reviewId, productId);
    LastSegmentOfComposed(reviewId, productId);
  }

  // ---------------------------------------------------------------------
  // Batch approval and disapproval

  /** The review table and the mediator log. */
  datatype Moderation = Moderation(reviews: map<string, ProductReview>, messages: seq<Message>)

  /** Every stored review sits under its own id. */
  predicate Keyed(reviews: map<string, ProductReview>)
  {
    forall k :: k in reviews ==> reviews[k].id == k
  }

  /** A review is affected by a batch for `storeId` when no store is given
      or it belongs to that store. */
  predicate InScope(review: ProductReview, storeId: string)
  {
    storeId == "" || review.storeId == storeId
  }

  /** The review ids named by the selected ids, in order. */
  function ReviewIds(ids: seq<string>): (r: seq<string>)
    ensures |r| == |ids|
  {
    if ids == [] then [] else ReviewIds(ids[..|ids| - 1]) + [FirstSegment(ids[|ids| - 1])]
  }

  /** Some selected id names review `k`. */
  predicate Selected(k: string, ids: seq<string>)
  {
    k in ReviewIds(ids)
  }

  /** The two reviews agree on everything but the approval flag. */
  predicate SameButApproval(a: ProductReview, b: ProductReview)
  {
    a.(isApproved := b.isApproved) == b
  }

  /** One selected id: an existing review in scope gets the flag, one totals
      command is sent for the id's product (None when it does not exist) and,
      when approving a review that was not approved, the approved event is
      published. Anything else changes nothing. */
  function ModerateOne(s: Moderation, products: map<string, Product>, selectedId: string,
                       storeId: string, approve: bool): Moderation
  {
    var reviewId := FirstSegment(selectedId);
    var product := Lookup(products, LastSegment(selectedId));
    if reviewId in s.reviews && InScope(s.reviews[reviewId], storeId) then
      var before := s.reviews[reviewId];
      var after := before.(isApproved := approve);
      var sent := s.messages + [UpdateTotals(product)];
      Moderation(s.reviews[reviewId := after],
                 if approve && !before.isApproved then sent + [ReviewApproved(after)] else sent)
    else s
  }

  /** The selected ids handled first to last. The table keeps its keys and
      every review but its approval flag; the log only grows. */
  function Moderate(s: Moderation, products: map<string, Product>, ids: seq<string>,
                    storeId: string, approve: bool): (r: Moderation)
    ensures r.reviews.Keys == s.reviews.Keys
    ensures s.messages <= r.messages
    ensures forall k :: k in s.reviews ==> SameButApproval(r.reviews[k], s.reviews[k])
    decreases |ids|
  {
    if ids == [] then s
    else ModerateOne(Moderate(s, products, ids[..|ids| - 1], storeId, approve),
                     products, ids[|ids| - 1], storeId, approve)
  }

  /** The messages a batch added to the log. */
  function Added(s: Moderation, r: Moderation): seq<Message>
    requires s.messages <= r.messages
  {
    r.messages[|s.messages|..]
  }

  /** The totals commands in a log, in order. */
  function Commands(messages: seq<Message>): seq<Message>
  {
    if messages == [] then []
    else Commands(messages[..|messages| - 1])
         + (if messages[|messages| - 1].UpdateTotals? then [messages[|messages| - 1]] else [])
  }

  /** The reviews carried by the approved events in a log, in order. */
  function Events(messages: seq<Message>): seq<ProductReview>
  {
    if messages == [] then []
    else Events(messages[..|messages| - 1])
         + (if messages[|messages| - 1].ReviewApproved? then [messages[|messages| - 1].review] else [])
  }

  lemma {:induction false} LogAppend(a: seq<Message>, b: seq<Message>)
    ensures Commands(a + b) == Commands(a) + Commands(b)
    ensures Events(a + b) == Events(a) + Events(b)
    decreases |b|
  {
    if b == [] {
      assert a + b == a;
    } else {
      var init := b[..|b| - 1];
      assert (a + b)[..|a + b| - 1] == a + init;
      assert (a + b)[|a + b| - 1] == b[|b| - 1];
      LogAppend(a, init);
    }
  }

  /** What one selected id adds to the log. */
  lemma ModerateOneLog(m: Moderation, products: map<string, Product>, selectedId: string,
                       storeId: string, approve: bool)
    ensures var r := ModerateOne(m, products, selectedId, storeId, approve);
            var k := FirstSegment(selectedId);
            && m.messages <= r.messages
            && Commands(Added(m, r))
               == (if k in m.reviews && InScope(m.reviews[k], storeId)
                   then [UpdateTotals(Lookup(products, LastSegment(selectedId)))] else [])
            && Events(Added(m, r))
               == (if k in m.reviews && InScope(m.reviews[k], storeId) && approve && !m.reviews[k].isApproved
                   then [m.reviews[k].(isApproved := true)] else [])
  {
    var r := ModerateOne(m, products, selectedId, storeId, approve);
    var k := FirstSegment(selectedId);
    if k in m.reviews && InScope(m.reviews[k], storeId) {
      var cmd := UpdateTotals(Lookup(products, LastSegment(selectedId)));
      assert [cmd][..0] == [];
      assert Commands([cmd]) == [cmd] && Events([cmd]) == [];
      if approve && !m.reviews[k].isApproved {
        var ev := ReviewApproved(m.reviews[k].(isApproved := true));
        assert Added(m, r) == [cmd, ev];
        assert [cmd, ev][..1] == [cmd];
        assert Commands([cmd, ev]) == [cmd];
        assert Events([cmd, ev]) == [ev.review];
      } else {
        assert Added(m, r) == [cmd];
      }
    } else {
      assert Added(m, r) == [];
    }
  }

  /** Splitting a batch at its last id. */
  lemma ModerateSnoc(s: Moderation, products: map<string, Product>, ids: seq<string>,
                     storeId: string, approve: bool)
    requires ids != []
    ensures var mid := Moderate(s, products, ids[..|ids| - 1], storeId, approve);
            var r := Moderate(s, products, ids, storeId, approve);
            && mid.messages <= r.messages
            && Added(s, r) == Added(s, mid) + Added(mid, r)
            && Commands(Added(s, r)) == Commands(Added(s, mid)) + Commands(Added(mid, r))
            && Events(Added(s, r)) == Events(Added(s, mid)) + Events(Added(mid, r))
            && (forall k :: Selected(k, ids) <==> Selected(k, ids[..|ids| - 1]) || k == FirstSegment(ids[|ids| - 1]))
  {
    var mid := Moderate(s, products, ids[..|ids| - 1], storeId, approve);
    var r := Moderate(s, products, ids, storeId, approve);
    ModerateOneLog(mid, products, ids[|ids| - 1], storeId, approve);
    AddedSplit(s, mid, r);
    LogAppend(Added(s, mid), Added(mid, r));
  }

  /** The loop of a batch operation handles ids[i] after ids[..i]. */
  lemma ModerateStep(s: Moderation, products: map<string, Product>, ids: seq<string>, i: nat,
                     storeId: string, approve: bool)
    requires i < |ids|
    ensures Moderate(s, products, ids[..i + 1], storeId, approve)
            == ModerateOne(Moderate(s, products, ids[..i], storeId, approve), products, ids[i], storeId, approve)
  {
    assert ids[..i + 1][..i] == ids[..i];
  }

  lemma AddedSplit(a: Moderation, b: Moderation, c: Moderation)
    requires a.messages <= b.messages <= c.messages
    ensures Added(a, c) == Added(a, b) + Added(b, c)
  {
  }

  /** Exactly the existing selected reviews in scope get the new flag; every
      other review is left as it was. */
  lemma {:induction false} ModerateReview(s: Moderation, products: map<string, Product>, ids: seq<string>,
                                          storeId: string, approve: bool, k: string)
    requires k in s.reviews
    ensures Moderate(s, products, ids, storeId, approve).reviews[k]
            == if Selected(k, ids) && InScope(s.reviews[k], storeId)
               then s.reviews[k].(isApproved := approve) else s.reviews[k]
    decreases |ids|
  {
    if ids != [] {
      var init := ids[..|ids| - 1];
      ModerateReview(s, products, init, storeId, approve, k);
      ModerateSnoc(s, products, ids, storeId, approve);
      var mid := Moderate(s, products, init, storeId, approve);
      assert SameButApproval(mid.reviews[k], s.reviews[k]);
    }
  }

  /** Disapproving publishes no approved event. */
  lemma {:induction false} DisapproveNoEvents(s: Moderation, products: map<string, Product>, ids: seq<string>,
                                              storeId: string)
    ensures Events(Added(s, Moderate(s, products, ids, storeId, false))) == []
    decreases |ids|
  {
    var r := Moderate(s, products, ids, storeId, false);
    if ids == [] {
      assert Added(s, r) == [];
    } else {
      DisapproveNoEvents(s, products, ids[..|ids| - 1], storeId);
      ModerateSnoc(s, products, ids, storeId, false);
      ModerateOneLog(Moderate(s, products, ids[..|ids| - 1], storeId, false), products, ids[|ids| - 1], storeId, false);
    }
  }

  /** Both batch operations send one totals command per selected id that
      names an existing review in scope, for that id's product, in order. */
  function ExpectedCommands(reviews: map<string, ProductReview>, products: map<string, Product>,
                            ids: seq<string>, storeId: string): seq<Message>
  {
    if ids == [] then []
    else
      var last := ids[|ids| - 1];
      var k := FirstSegment(last);
      ExpectedCommands(reviews, products, ids[..|ids| - 1], storeId)
      + (if k in reviews && InScope(reviews[k], storeId)
         then [UpdateTotals(Lookup(products, LastSegment(last)))] else [])
  }

  lemma {:induction false} ModerateCommands(s: Moderation, products: map<string, Product>, ids: seq<string>,
                                            storeId: string, approve: bool)
    ensures Commands(Added(s, Moderate(s, products, ids, storeId, approve)))
            == ExpectedCommands(s.reviews, products, ids, storeId)
    decreases |ids|
  {
    var r := Moderate(s, products, ids, storeId, approve);
    if ids == [] {
      assert Added(s, r) == [];
    } else {
      var init := ids[..|ids| - 1];
      var mid := Moderate(s, products, init, storeId, approve);
      ModerateCommands(s, products, init, storeId, approve);
      ModerateSnoc(s, products, ids, storeId, approve);
      ModerateOneLog(mid, products, ids[|ids| - 1], storeId, approve);
      var k := FirstSegment(ids[|ids| - 1]);
      if k in s.reviews {
        assert SameButApproval(mid.reviews[k], s.reviews[k]);
      }
    }
  }

  /** The approved event `e` of a batch over `ids` is justified: its review
      existed, was in scope, was selected and was not approved before, and
      the event carries it approved. */
  predicate SoundEvent(s: Moderation, ids: seq<string>, storeId: string, e: ProductReview)
  {
    && e.id in s.reviews && !s.reviews[e.id].isApproved
    && Selected(e.id, ids) && InScope(s.reviews[e.id], storeId)
    && e == s.reviews[e.id].(isApproved := true)
  }

  /** Every approved event of a batch carries a review that existed, was in
      scope, was selected and was not approved before, now approved. */
  lemma {:induction false} ApproveEventsSound(s: Moderation, products: map<string, Product>, ids: seq<string>,
                                              storeId: string)
    requires Keyed(s.reviews)
    ensures forall e :: e in Events(Added(s, Moderate(s, products, ids, storeId, true))) ==>
              SoundEvent(s, ids, storeId, e)
    decreases |ids|
  {
    var r := Moderate(s, products, ids, storeId, true);
    if ids == [] {
      assert Added(s, r) == [];
    } else {
      var init := ids[..|ids| - 1];
      var mid := Moderate(s, products, init, storeId, true);
      ApproveEventsSound(s, products, init, storeId);
      ModerateSnoc(s, products, ids, storeId, true);
      ApproveEventSoundStep(s, products, ids, storeId);
      var before, step := Events(Added(s, mid)), Events(Added(mid, r));
      forall e | e in Events(Added(s, r)) ensures SoundEvent(s, ids, storeId, e) {
        if e in before {
          assert SoundEvent(s, init, storeId, e);
          assert Selected(e.id, ids);
        } else {
          assert e in step;
        }
      }
    }
  }

  /** The approved event the last id of a batch adds is justified. */
  lemma ApproveEventSoundStep(s: Moderation, products: map<string, Product>, ids: seq<string>, storeId: string)
    requires Keyed(s.reviews) && ids != []
    ensures var mid := Moderate(s, products, ids[..|ids| - 1], storeId, true);
            var r := Moderate(s, products, ids, storeId, true);
            mid.messages <= r.messages &&
            forall e :: e in Events(Added(mid, r)) ==> SoundEvent(s, ids, storeId, e)
  {
    var init := ids[..|ids| - 1];
    var mid := Moderate(s, products, init, storeId, true);
    var k := FirstSegment(ids[|ids| - 1]);
    assert Moderate(s, products, ids, storeId, true) == ModerateOne(mid, products, ids[|ids| - 1], storeId, true);
    ModerateOneLog(mid, products, ids[|ids| - 1], storeId, true);
    if k in s.reviews {
      assert ReviewIds(ids) == ReviewIds(init) + [k];
      assert Selected(k, ids);
      ModerateReview(s, products, init, storeId, true, k);
      assert SameButApproval(mid.reviews[k], s.reviews[k]);
    }
  }

  /** No review gets two approved events from one batch. */
  lemma {:induction false} ApproveEventsUnique(s: Moderation, products: map<string, Product>, ids: seq<string>,
                                               storeId: string)
    requires Keyed(s.reviews)
    ensures var events := Events(Added(s, Moderate(s, products, ids, storeId, true)));
            forall i, j :: 0 <= i < j < |events| ==> events[i].id != events[j].id
    decreases |ids|
  {
    var r := Moderate(s, products, ids, storeId, true);
    if ids == [] {
      assert Added(s, r) == [];
    } else {
      var init := ids[..|ids| - 1];
      var mid := Moderate(s, products, init, storeId, true);
      ApproveEventsUnique(s, products, init, storeId);
      ApproveEventsSound(s, products, init, storeId);
      ModerateSnoc(s, products, ids, storeId, true);
      var k := FirstSegment(ids[|ids| - 1]);
      ModerateOneLog(mid, products, ids[|ids| - 1], storeId, true);
      var before, step := Events(Added(s, mid)), Events(Added(mid, r));
      var events := Events(Added(s, r));
      assert events == before + step;
      if step != [] {
        ModerateReview(s, products, init, storeId, true, k);
        assert SameButApproval(mid.reviews[k], s.reviews[k]);
        assert !Selected(k, init);
        assert step == [mid.reviews[k].(isApproved := true)];
        assert step[0].id == k;
        forall i, j | 0 <= i < j < |events| ensures events[i].id != events[j].id {
          if j < |before| {
            assert events[i] == before[i] && events[j] == before[j];
          } else {
            assert |step| == 1 && j == |before|;
            assert events[j] == step[0];
            assert events[i] == before[i] && before[i] in before;
          }
        }
      } else {
        assert events == before;
      }
    }
  }

  /** Every existing, selected, in-scope review that was not approved gets
      its approved event. */
  lemma {:induction false} ApproveEventsComplete(s: Moderation, products: map<string, Product>, ids: seq<string>,
                                                 storeId: string, k: string)
    requires k in s.reviews && !s.reviews[k].isApproved
    requires Selected(k, ids) && InScope(s.reviews[k], storeId)
    ensures s.reviews[k].(isApproved := true) in Events(Added(s, Moderate(s, products, ids, storeId, true)))
    decreases |ids|
  {
    var init := ids[..|ids| - 1];
    var mid := Moderate(s, products, init, storeId, true);
    ModerateSnoc(s, products, ids, storeId, true);
    if Selected(k, init) {
      ApproveEventsComplete(s, products, init, storeId, k);
    } else {
      ModerateReview(s, products, init, storeId, true, k);
      ModerateOneLog(mid, products, ids[|ids| - 1], storeId, true);
    }
  }

  /** A batch that finds every selected review in scope already approved
      changes no review and publishes no approved event. */
  lemma ApproveWhenApproved(s: Moderation, products: map<string, Product>, ids: seq<string>, storeId: string)
    requires Keyed(s.reviews)
    requires forall k :: k in s.reviews && Selected(k, ids) && InScope(s.reviews[k], storeId) ==>
               s.reviews[k].isApproved
    ensures Moderate(s, products, ids, storeId, true).reviews == s.reviews
    ensures forall e :: e !in Events(Added(s, Moderate(s, products, ids, storeId, true)))
  {
    var r := Moderate(s, products, ids, storeId, true);
    forall k | k in s.reviews ensures r.reviews[k] == s.reviews[k] {
      ModerateReview(s, products, ids, storeId, true, k);
    }
    ApproveEventsSound(s, products, ids, storeId);
  }

  /** Approving the same selection a second time changes no review and
      publishes no approved event. */
  lemma ApproveTwice(s: Moderation, products: map<string, Product>, ids: seq<string>, storeId: string)
    requires Keyed(s.reviews)
    ensures var once := Moderate(s, products, ids, storeId, true);
            var twice := Moderate(once, products, ids, storeId, true);
            twice.reviews == once.reviews && forall e :: e !in Events(Added(once, twice))
  {
    var once := Moderate(s, products, ids, storeId, true);
    forall k | k in once.reviews ensures once.reviews[k].id == k {
      assert SameButApproval(once.reviews[k], s.reviews[k]);
    }
    forall k | k in once.reviews && Selected(k, ids) && InScope(once.reviews[k], storeId)
      ensures once.reviews[k].isApproved
    {
      ModerateReview(s, products, ids, storeId, true, k);
      assert SameButApproval(once.reviews[k], s.reviews[k]);
    }
    ApproveWhenApproved(once, products, ids, storeId);
  }

  // ---------------------------------------------------------------------
  // View models

  /** The first store with the given id, as the store service's get-by-id. */
  function FindStore(stores: seq<Store>, id: string): (r: Option<Store>)
    ensures r.Some? ==> r.value in stores && r.value.id == id
    ensures r.None? ==> forall i :: 0 <= i < |stores| ==> stores[i].id != id
  {
    if stores == [] then None
    else if stores[0].id == id then Some(stores[0])
    else FindStore(stores[1..], id)
  }

  /** The customer column of a review: the customer's email, the guest
      label for a customer without one, "" without a customer. */
  function CustomerInfo(customer: Option<Customer>, guestText: string): string
  {
    match customer
    case Some(c) => if c.email != "" then c.email else guestText
    case None => ""
  }

  /** Fills a review model from a review. The identity, store, product,
      customer, rating, date and signature fields are always set; title,
      texts and approval only when properties are not excluded, the texts
      formatted on request. A review whose product does not exist faults. */
  function PrepareProductReviewModel(model: ProductReviewModel, review: ProductReview,
                                     products: map<string, Product>, customers: map<string, Customer>,
                                     stores: seq<Store>, excludeProperties: bool, formatReviewText: bool,
                                     toUserTime: DateTime -> DateTime, convertText: string -> string,
                                     translate: string -> string): (r: Result<ProductReviewModel, Fault>)
    ensures r.Err? <==> review.productId !in products
    ensures r.Err? ==> r.error == NullReference
    ensures r.Ok? ==>
              var m := r.value;
              && m.id == review.id && m.productId == review.productId && m.customerId == review.customerId
              && m.productName == products[review.productId].name
              && m.rating == review.rating && m.signature == review.signature
              && m.createdOn == toUserTime(review.createdOnUtc)
              && (review.customerId !in customers ==> m.customerInfo == "")
              && (review.customerId in customers && customers[review.customerId].email != "" ==>
                    m.customerInfo == customers[review.customerId].email)
              && (review.customerId in customers && customers[review.customerId].email == "" ==>
                    m.customerInfo == translate(GuestKey))
              && (FindStore(stores, review.storeId).None? ==> m.storeName == "")
              && (FindStore(stores, review.storeId).Some? ==> m.storeName == FindStore(stores, review.storeId).value.shortcut)
    ensures r.Ok? && excludeProperties ==>
              && r.value.title == model.title && r.value.reviewText == model.reviewText
              && r.value.replyText == model.replyText && r.value.isApproved == model.isApproved
    ensures r.Ok? && !excludeProperties ==>
              && r.value.title == review.title && r.value.isApproved == review.isApproved
              && r.value.reviewText == (if formatReviewText then convertText(review.reviewText) else review.reviewText)
              && r.value.replyText == (if formatReviewText then convertText(review.replyText) else review.replyText)
  {
    var product := Lookup(products, review.productId);
    var customer := Lookup(customers, review.customerId);
    var store := FindStore(stores, review.storeId);
    if product.None? then Err(NullReference)
    else
      var m := model.(
        id := review.id,
        storeName := if store.Some? then store.value.shortcut else "",
        productId := review.productId,
        productName := product.value.name,
        customerId := review.customerId,
        customerInfo := CustomerInfo(customer, translate(GuestKey)),
        rating := review.rating,
        createdOn := toUserTime(review.createdOnUtc),
        signature := review.signature);
      if excludeProperties then Ok(m)
      else if formatReviewText then
        Ok(m.(title := review.title, reviewText := convertText(review.reviewText),
              replyText := convertText(review.replyText), isApproved := review.isApproved))
      else
        Ok(m.(title := review.title, reviewText := review.reviewText,
              replyText := review.replyText, isApproved := review.isApproved))
  }

  /** Greedy subsequence test: `a` is `b` with some elements left out. */
  predicate IsSubsequence<T(==)>(a: seq<T>, b: seq<T>)
    decreases |b|
  {
    a == [] || (b != [] && if a[0] == b[0] then IsSubsequence(a[1..], b[1..]) else IsSubsequence(a, b[1..]))
  }

  /** The stores the list page offers for `storeId`: those with that id,
      or all of them when it is blank, in their original order. */
  function StoresFor(stores: seq<Store>, storeId: string): (r: seq<Store>)
    ensures IsSubsequence(r, stores)
    ensures forall i :: 0 <= i < |r| ==> r[i].id == storeId || IsNullOrWhiteSpace(storeId)
    ensures forall i :: 0 <= i < |stores| && (stores[i].id == storeId || IsNullOrWhiteSpace(storeId)) ==>
              stores[i] in r
    ensures IsNullOrWhiteSpace(storeId) ==> r == stores
    decreases |stores|
  {
    if stores == [] then []
    else if stores[0].id == storeId || IsNullOrWhiteSpace(storeId) then [stores[0]] + StoresFor(stores[1..], storeId)
    else StoresFor(stores[1..], storeId)
  }

  /** Each store is offered as often as it occurs when it qualifies and
      not at all otherwise, so the offer is exact even if ids repeat. */
  lemma {:induction false} StoresForCounts(stores: seq<Store>, storeId: string)
    ensures forall x :: multiset(StoresFor(stores, storeId))[x]
                        == if x.id == storeId || IsNullOrWhiteSpace(storeId) then multiset(stores)[x] else 0
    decreases |stores|
  {
    if stores != [] {
      StoresForCounts(stores[1..], storeId);
      assert stores == [stores[0]] + stores[1..];
    }
  }

  /** The review list page's model: an "All" entry with an empty value,
      then the offered stores. */
  function PrepareProductReviewListModel(storeId: string, stores: seq<Store>, translate: string -> string)
    : (m: ProductReviewListModel)
    ensures |m.availableStores| >= 1 && m.availableStores[0] == SelectListItem(translate(AllKey), "")
    ensures m.availableStores[1..] == StoreItems(StoresFor(stores, storeId))
    ensures m.createdOnFrom.None? && m.createdOnTo.None?
  {
    ProductReviewListModel(None, None, "", "", "",
                           [SelectListItem(translate(AllKey), "")] + StoreItems(StoresFor(stores, storeId)))
  }

  /** The search window: the "from" date converted to UTC; the "to" date
      converted to UTC and moved one day on, so that the whole of that day
      is included, which faults past DateTime.MaxValue. */
  function SearchWindow(createdOnFrom: Option<DateTime>, createdOnTo: Option<DateTime>,
                        toUtcTime: DateTime -> DateTime): (r: Result<(Option<DateTime>, Option<DateTime>), Fault>)
    ensures r.Err? <==> createdOnTo.Some? && toUtcTime(createdOnTo.value) + TicksPerDay > MaxTicks
    ensures r.Err? ==> r.error == ArgumentOutOfRange
    ensures r.Ok? ==> (r.value.0.Some? <==> createdOnFrom.Some?) && (r.value.1.Some? <==> createdOnTo.Some?)
    ensures r.Ok? && createdOnFrom.Some? ==> r.value.0.value == toUtcTime(createdOnFrom.value)
    ensures r.Ok? && createdOnTo.Some? ==> r.value.1.value == toUtcTime(createdOnTo.value) + TicksPerDay
  {
    var from := MapTime(createdOnFrom, toUtcTime);
    match createdOnTo
    case None => Ok((from, None))
    case Some(to) =>
      match AddOneDay(toUtcTime(to))
      case Ok(end) => Ok((from, Some(end)))
      case Err(e) => Err(e)
  }

  /** The service, with the review table it moderates and the mediator log. */
  class ProductReviewViewModelService {
    /** The review table, by id. */
    var reviews: map<string, ProductReview>
    /** Every command sent and event published through the mediator, in order. */
    var messages: seq<Message>

    const products: map<string, Product>
    const customers: map<string, Customer>
    const stores: seq<Store>
    /** The object mapper, form onto review. */
    const mapOnto: (ProductReviewModel, ProductReview) -> ProductReview
    /** The review service's search and the paging helper. */
    const search: ReviewQuery -> seq<ProductReview>
    const page: (seq<ProductReview>, int, int) -> seq<ProductReview>
    /** ConvertToUserTime, ConvertToUtcTime in the current zone, the text
        formatter and the translation lookup. */
    const toUserTime: DateTime -> DateTime
    const toUtcTime: DateTime -> DateTime
    const convertText: string -> string
    const translate: string -> string

    ghost predicate Valid()
      reads this
    {
      Keyed(reviews)
    }

    function State(): Moderation
      reads this
    {
      Moderation(reviews, messages)
    }

    constructor (reviews: map<string, ProductReview>, products: map<string, Product>,
                 customers: map<string, Customer>, stores: seq<Store>,
                 mapOnto: (ProductReviewModel, ProductReview) -> ProductReview,
                 search: ReviewQuery -> seq<ProductReview>, page: (seq<ProductReview>, int, int) -> seq<ProductReview>,
                 toUserTime: DateTime -> DateTime, toUtcTime: DateTime -> DateTime,
                 convertText: string -> string, translate: string -> string)
      requires Keyed(reviews)
      ensures Valid()
      ensures this.reviews == reviews && messages == []
      ensures this.products == products && this.customers == customers && this.stores == stores
      ensures this.mapOnto == mapOnto && this.search == search && this.page == page
      ensures this.toUserTime == toUserTime && this.toUtcTime == toUtcTime
      ensures this.convertText == convertText && this.translate == translate
    {
      this.reviews := reviews;
      this.messages := [];
      this.products := products;
      this.customers := customers;
      this.stores := stores;
      this.mapOnto := mapOnto;
      this.search := search;
      this.page := page;
      this.toUserTime := toUserTime;
      this.toUtcTime := toUtcTime;
      this.convertText := convertText;
      this.translate := translate;
    }

    /** The review service's update: replaces the stored review with the
        same id, if there is one. */
    method PersistReview(review: ProductReview)
      requires Valid()
      modifies this
      ensures Valid()
      ensures reviews == if review.id in old(reviews) then old(reviews)[review.id := review] else old(reviews)
      ensures messages == old(messages)
    {
      if review.id in reviews {
        reviews := reviews[review.id := review];
      }
    }

    /** Saves an edited review: the form is mapped onto the review, the
        result is written and returned, and a totals command is sent for
        its product (None when that product does not exist). */
    method UpdateProductReview(productReview: ProductReview, model: ProductReviewModel) returns (r: ProductReview)
      requires Valid()
      modifies this
      ensures Valid()
      ensures r == mapOnto(model, productReview)
      ensures reviews == if r.id in old(reviews) then old(reviews)[r.id := r] else old(reviews)
      ensures messages == old(messages) + [UpdateTotals(Lookup(products, r.productId))]
    {
      r := mapOnto(model, productReview);
      PersistReview(r);
      var product := Lookup(products, r.productId);
      messages := messages + [UpdateTotals(product)];
    }

    /** Deletes a review and sends a totals command for its product (None
        when that product does not exist). */
    method DeleteProductReview(productReview: ProductReview)
      requires Valid()
      modifies this
      ensures Valid()
      ensures reviews == old(reviews) - {productReview.id}
      ensures productReview.id !in reviews
      ensures forall k :: k in old(reviews) && k != productReview.id ==> k in reviews && reviews[k] == old(reviews)[k]
      ensures messages == old(messages) + [UpdateTotals(Lookup(products, productReview.productId))]
    {
      reviews := reviews - {productReview.id};
      var product := Lookup(products, productReview.productId);
      messages := messages + [UpdateTotals(product)];
    }

    /** Approves every selected review of the given store (of any store when
        none is given), sending a totals command for each and publishing the
        approved event for those that were not approved. */
    method ApproveSelected(selectedIds: seq<string>, storeId: string)
      requires Valid()
      modifies this
      ensures Valid()
      ensures State() == Moderate(old(State()), products, selectedIds, storeId, true)
    {
      ghost var start := Moderation(reviews, messages);
      var i := 0;
      while i < |selectedIds|
        invariant 0 <= i <= |selectedIds|
        invariant Valid()
        invariant Moderation(reviews, messages) == Moderate(start, products, selectedIds[..i], storeId, true)
      {
        ApproveOne(selectedIds[i], storeId);
        ModerateStep(start, products, selectedIds, i, storeId, true);
        i := i + 1;
      }
      assert selectedIds[..i] == selectedIds;
    }

    /** The body of the approval loop for one selected id. */
    method ApproveOne(id: string, storeId: string)
      requires Valid()
      modifies this
      ensures Valid()
      ensures State() == ModerateOne(old(State()), products, id, storeId, true)
    {
      var idReview := FirstSegment(id);
      var idProduct := LastSegment(id);
      var product := Lookup(products, idProduct);
      var productReview := Lookup(reviews, idReview);
      if productReview.Some? && (storeId == "" || productReview.value.storeId == storeId) {
        var previousIsApproved := productReview.value.isApproved;
        var approved := productReview.value.(isApproved := true);
        assert idReview in reviews && approved.id == idReview;
        PersistReview(approved);
        messages := messages + [UpdateTotals(product)];
        if !previousIsApproved {
          messages := messages + [ReviewApproved(approved)];
        }
      }
    }

    /** Disapproves every selected review of the given store (of any store
        when none is given), sending a totals command for each. */
    method DisapproveSelected(selectedIds: seq<string>, storeId: string)
      requires Valid()
      modifies this
      ensures Valid()
      ensures State() == Moderate(old(State()), products, selectedIds, storeId, false)
    {
      ghost var start := Moderation(reviews, messages);
      var i := 0;
      while i < |selectedIds|
        invariant 0 <= i <= |selectedIds|
        invariant Valid()
        invariant Moderation(reviews, messages) == Moderate(start, products, selectedIds[..i], storeId, false)
      {
        DisapproveOne(selectedIds[i], storeId);
        ModerateStep(start, products, selectedIds, i, storeId, false);
        i := i + 1;
      }
      assert selectedIds[..i] == selectedIds;
    }

    /** The body of the disapproval loop for one selected id. */
    method DisapproveOne(id: string, storeId: string)
      requires Valid()
      modifies this
      ensures Valid()
      ensures State() == ModerateOne(old(State()), products, id, storeId, false)
    {
      var idReview := FirstSegment(id);
      var idProduct := LastSegment(id);
      var product := Lookup(products, idProduct);
      var productReview := Lookup(reviews, idReview);
      if productReview.Some? && (storeId == "" || productReview.value.storeId == storeId) {
        PersistReview(productReview.value.(isApproved := false));
        messages := messages + [UpdateTotals(product)];
      }
    }

    /** One page of the review list: the search runs over the window of
        SearchWindow and the filters of the list model; every review of the
        requested page becomes a model with its properties and formatted
        texts; the total is the size of the whole search result. A window
        past DateTime.MaxValue, or a page review without its product, faults. */
    method PrepareProductReviewsModel(model: ProductReviewListModel, pageIndex: int, pageSize: int)
      returns (r: Result<(seq<ProductReviewModel>, int), Fault>)
      ensures SearchWindow(model.createdOnFrom, model.createdOnTo, toUtcTime).Err? ==>
                r == Err(ArgumentOutOfRange)
      ensures SearchWindow(model.createdOnFrom, model.createdOnTo, toUtcTime).Ok? ==>
                var window := SearchWindow(model.createdOnFrom, model.createdOnTo, toUtcTime).value;
                var found := search(ReviewQuery("", None, window.0, window.1, model.searchText,
                                                model.searchStoreId, model.searchProductId));
                var shown := page(found, pageIndex, pageSize);
                && (r.Err? <==> exists i :: 0 <= i < |shown| && shown[i].productId !in products)
                && (r.Err? ==> r.error == NullReference)
                && (r.Ok? ==>
                      && r.value.1 == |found|
                      && |r.value.0| == |shown|
                      && forall i :: 0 <= i < |shown| ==>
                           r.value.0[i] == PrepareProductReviewModel(NewReviewModel(), shown[i], products, customers,
                                                                     stores, false, true, toUserTime, convertText,
                                                                     translate).value)
    {
      var window := SearchWindow(model.createdOnFrom, model.createdOnTo, toUtcTime);
      if window.Err? {
        return Err(window.error);
      }
      var found := search(ReviewQuery("", None, window.value.0, window.value.1, model.searchText,
                                      model.searchStoreId, model.searchProductId));
      var shown := page(found, pageIndex, pageSize);
      var items: seq<ProductReviewModel> := [];
      var i := 0;
      while i < |shown|
        invariant 0 <= i <= |shown|
        invariant |items| == i
        invariant forall j :: 0 <= j < i ==> shown[j].productId in products
        invariant forall j :: 0 <= j < i ==>
                    items[j] == PrepareProductReviewModel(NewReviewModel(), shown[j], products, customers, stores,
                                                          false, true, toUserTime, convertText, translate).value
      {
        var m := PrepareProductReviewModel(NewReviewModel(), shown[i], products, customers, stores,
                                           false, true, toUserTime, convertText, translate);
        if m.Err? {
          return Err(m.error);
        }
        items := items + [m.value];
        i := i + 1;
      }
      r := Ok((items, |found|));
    }
  }
}

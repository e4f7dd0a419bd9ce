/**
 * The query half of the `home` view in core/views.py: the first eight
 * featured, available items and the six newest approved reviews. Rendering
 * the template is not modelled.
 */
module CoreViews {
  import opened Sorting
  import opened MenuModels
  import opened MenuApi
  import opened ReviewModels

  const FeaturedLimit: nat := 8
  const TestimonialLimit: nat := 6

  /** The template context `home` renders. */
  datatype HomeContext = HomeContext(featuredItems: seq<MenuItem>, testimonials: seq<Review>)

  /** Approved reviews, newest first. */
  function TestimonialQuery(reviews: seq<Review>): (qs: seq<Review>) {
    Select(NewestFirst(), Approved(), reviews)
  }

  /** `home`: the featured queryset (default item order) cut at 8, the testimonials cut at 6. */
  function Home(categories: seq<Category>, items: seq<MenuItem>, reviews: seq<Review>): (ctx: HomeContext) {
    HomeContext(Take(FeaturedQuery(categories, items), FeaturedLimit),
                Take(TestimonialQuery(reviews), TestimonialLimit))
  }

  /**
   * Eight items, or every featured, available item when there are fewer, in
   * the default item order: the first ones of the full featured list.
   */
  lemma HomeFeatured(categories: seq<Category>, items: seq<MenuItem>, reviews: seq<Review>)
    ensures |Home(categories, items, reviews).featuredItems| <= FeaturedLimit
    ensures forall m :: m in Home(categories, items, reviews).featuredItems ==> m in items && m.featured && m.isAvailable
    ensures Home(categories, items, reviews).featuredItems <= FeaturedQuery(categories, items)
    ensures |Filter(FeaturedAndAvailable(), items)| <= FeaturedLimit ==>
              multiset(Home(categories, items, reviews).featuredItems) == multiset(Filter(FeaturedAndAvailable(), items))
    ensures SortedBy(ItemOrder(categories), Home(categories, items, reviews).featuredItems)
    ensures |Home(categories, items, reviews).featuredItems|
            == if |Filter(FeaturedAndAvailable(), items)| < FeaturedLimit then |Filter(FeaturedAndAvailable(), items)| else FeaturedLimit
  {
    FeaturedQueryExact(categories, items);
    var q := FeaturedQuery(categories, items);
    var shown := Home(categories, items, reviews).featuredItems;
    forall m | m in shown ensures m in q {
      var k :| 0 <= k < |shown| && shown[k] == m;
      assert q[k] == m;
    }
    assert |q| == |multiset(q)| == |multiset(Filter(FeaturedAndAvailable(), items))| == |Filter(FeaturedAndAvailable(), items)|;
  }

  /**
   * Six testimonials, or every approved review when there are fewer, all
   * approved, newest first: a prefix of every approved review, newest first.
   */
  lemma HomeTestimonials(categories: seq<Category>, items: seq<MenuItem>, reviews: seq<Review>)
    ensures |Home(categories, items, reviews).testimonials| <= TestimonialLimit
    ensures forall r :: r in Home(categories, items, reviews).testimonials ==> r in reviews && r.isApproved
    ensures Home(categories, items, reviews).testimonials <= TestimonialQuery(reviews)
    ensures forall i, j :: 0 <= i < j < |Home(categories, items, reviews).testimonials| ==>
              Home(categories, items, reviews).testimonials[i].createdAt >= Home(categories, items, reviews).testimonials[j].createdAt
    ensures |Home(categories, items, reviews).testimonials|
            == if |Filter(Approved(), reviews)| < TestimonialLimit then |Filter(Approved(), reviews)| else TestimonialLimit
  {
    NewestFirstIsTotalPreorder();
    SelectCorrect(NewestFirst(), Approved(), reviews);
    SortLength(NewestFirst(), Filter(Approved(), reviews));
    var q := TestimonialQuery(reviews);
    var shown := Home(categories, items, reviews).testimonials;
    forall r | r in shown ensures r in q {
      var k :| 0 <= k < |shown| && shown[k] == r;
      assert q[k] == r;
    }
    forall i, j | 0 <= i < j < |shown| ensures shown[i].createdAt >= shown[j].createdAt {
      assert NewestFirst()(q[i], q[j]);
    }
  }

  /** No approved review left out is newer than one shown: the testimonials are the six newest. */
  lemma TestimonialsAreNewest(categories: seq<Category>, items: seq<MenuItem>, reviews: seq<Review>)
    ensures forall r, s ::
              (r in reviews && r.isApproved && r !in Home(categories, items, reviews).testimonials && s in Home(categories, items, reviews).testimonials)
              ==> s.createdAt >= r.createdAt
  {
    NewestFirstIsTotalPreorder();
    SelectCorrect(NewestFirst(), Approved(), reviews);
    var q := TestimonialQuery(reviews);
    var shown := Home(categories, items, reviews).testimonials;
    forall r, s | r in reviews && r.isApproved && r !in shown && s in shown
      ensures s.createdAt >= r.createdAt
    {
      var k :| 0 <= k < |q| && q[k] == r;
      var i :| 0 <= i < |shown| && shown[i] == s;
      assert q[i] == s;
      assert forall t :: 0 <= t < |shown| ==> q[t] == shown[t] && shown[t] in shown;
      assert NewestFirst()(q[i], q[k]);
    }
  }
}

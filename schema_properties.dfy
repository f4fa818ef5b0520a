/** What the shapes and the dispatcher table accept and reject. */
module SchemaProperties {
  import opened JsonValue
  import opened Schemas
  import Patterns

  // ----------------------------------------------------------------------------
  // The object combinator
  // ----------------------------------------------------------------------------

  /** A value that lacks a required key fails the shape, whatever else it holds. */
  lemma MissingRequiredKeyFails(c: Constraint, v: Json, k: string)
    requires c.Obj? && k in c.required
    requires v.JObj? && k !in v.fields
    ensures !Matches(c, v)
  {
  }

  /** Under a catch-all, adding a key the shape does not declare, with any value,
      keeps a matching value matching. */
  lemma OpenShapeAcceptsExtraKey(c: Constraint, fields: map<string, Json>, k: string, x: Json)
    requires c.Obj? && c.open
    requires k !in c.required && k !in c.optional
    requires Matches(c, JObj(fields))
    ensures Matches(c, JObj(fields[k := x]))
  {
    var f := fields[k := x];
    forall j | j in f
      ensures if j in c.required then Matches(c.required[j], f[j])
              else if j in c.optional then Matches(c.optional[j], f[j])
              else c.open
    {
      if j != k {
        assert f[j] == fields[j];
      }
    }
  }

  /** Without a catch-all, any key the shape does not declare makes the value fail. */
  lemma ClosedShapeRejectsExtraKey(c: Constraint, v: Json, k: string)
    requires c.Obj? && !c.open
    requires v.JObj? && k in v.fields
    requires k !in c.required && k !in c.optional
    ensures !Matches(c, v)
  {
  }

  /** The value of every key a matching object holds satisfies that key's
      declared constraint. */
  lemma FieldOfMatch(c: Constraint, v: Json, k: string)
    requires c.Obj? && Matches(c, v) && k in v.fields
    ensures k in c.required ==> Matches(c.required[k], v.fields[k])
    ensures k !in c.required && k in c.optional ==> Matches(c.optional[k], v.fields[k])
  {
  }

  /** A value that passes a shape without a catch-all holds no key beyond those
      the shape declares. */
  lemma ClosedShapeKeys(c: Constraint, v: Json)
    requires c.Obj? && !c.open && Matches(c, v)
    ensures v.JObj? && v.fields.Keys <= c.required.Keys + c.optional.Keys
  {
    forall k | k in v.fields
      ensures k in c.required || k in c.optional
    {
      if k !in c.required && k !in c.optional {
        ClosedShapeRejectsExtraKey(c, v, k);
      }
    }
  }

  /** `Or(a, b)` accepts what either alternative accepts. */
  lemma OneOfPair(a: Constraint, b: Constraint, v: Json)
    ensures Matches(OneOf([a, b]), v) <==> Matches(a, v) || Matches(b, v)
  {
    if Matches(a, v) {
      assert Matches([a, b][0], v);
    }
    if Matches(b, v) {
      assert Matches([a, b][1], v);
    }
  }

  // ----------------------------------------------------------------------------
  // The registered shapes
  // ----------------------------------------------------------------------------

  /** The ten registered type names. */
  lemma RegisteredNames()
    ensures AllSchemas.Keys == {"Organization", "Corporation", "Person", "Article", "BlogPosting",
                                "NewsArticle", "BreadcrumbList", "FAQPage", "VideoObject", "Product"}
  {
  }

  /** Exactly ten type names are registered. */
  lemma RegisteredCount()
    ensures |AllSchemas| == 10
  {
  }

  /** Organization and Corporation share a shape, as do Article, BlogPosting and
      NewsArticle. */
  lemma SharedShapes()
    ensures AllSchemas["Organization"] == AllSchemas["Corporation"] == OrganizationSchema
    ensures AllSchemas["Article"] == AllSchemas["BlogPosting"] == AllSchemas["NewsArticle"] == ArticleSchema
  {
  }

  /** Every registered shape is an object shape requiring `@context`, checked by the
      context pattern, and `@type`, checked by its type constraint; every one but
      FAQPage's has a catch-all. */
  lemma TopLevelShape(id: SchemaId)
    ensures ShapeOf(id).Obj?
    ensures "@context" in ShapeOf(id).required && ShapeOf(id).required["@context"] == Context
    ensures "@type" in ShapeOf(id).required && ShapeOf(id).required["@type"] == TypeConstraint(id)
    ensures ShapeOf(id).open <==> id != FaqSchema
  {
  }

  /** Every registered name is accepted by the type constraint of the shape the
      table dispatches it to. */
  lemma RegisteredNameAccepted(t: string)
    requires t in AllSchemas
    ensures Matches(TypeConstraint(AllSchemas[t]), JStr(t))
  {
  }

  /** A type constraint admits no name that the table does not dispatch to its own
      shape. */
  lemma TypeConstraintAdmitsOnlyItsNames(id: SchemaId, u: string)
    requires Matches(TypeConstraint(id), JStr(u))
    ensures u in AllSchemas && AllSchemas[u] == id
  {
  }

  /** The `@type` constraint of a registered shape accepts exactly the names the
      table dispatches to that same shape. */
  lemma TypeConstraintAcceptsItsNames(id: SchemaId, u: string)
    ensures Matches(TypeConstraint(id), JStr(u)) <==> u in AllSchemas && AllSchemas[u] == id
  {
    if Matches(TypeConstraint(id), JStr(u)) {
      TypeConstraintAdmitsOnlyItsNames(id, u);
    }
    if u in AllSchemas && AllSchemas[u] == id {
      RegisteredNameAccepted(u);
    }
  }

  /** A value that passes a registered shape declares, as its `@type`, a registered
      name that the table dispatches to that same shape. */
  lemma MatchFixesType(id: SchemaId, v: Json)
    requires Matches(ShapeOf(id), v)
    ensures v.JObj? && "@type" in v.fields && v.fields["@type"].JStr?
    ensures v.fields["@type"].s in AllSchemas && AllSchemas[v.fields["@type"].s] == id
  {
    TopLevelShape(id);
    FieldOfMatch(ShapeOf(id), v, "@type");
    TypeConstraintAdmitsOnlyItsNames(id, v.fields["@type"].s);
  }

  /** A Person with a context, its type and a name, and nothing else, passes. */
  lemma MinimalPersonPasses(context: string, name: string)
    requires Patterns.MatchesContext(context)
    ensures Matches(PersonShape, JObj(map["@context" := JStr(context), "@type" := JStr("Person"), "name" := JStr(name)]))
  {
  }

  /** A Product fails without its `name` or its `image`. */
  lemma ProductNeedsNameAndImage(v: Json)
    requires v.JObj? && ("name" !in v.fields || "image" !in v.fields)
    ensures !Matches(ProductShape, v)
  {
    var k := if "name" !in v.fields then "name" else "image";
    MissingRequiredKeyFails(ProductShape, v, k);
  }

  /** An article-family object fails without a `headline`. */
  lemma ArticleNeedsHeadline(v: Json)
    requires v.JObj? && "headline" !in v.fields
    ensures !Matches(ArticleShape, v)
  {
    MissingRequiredKeyFails(ArticleShape, v, "headline");
  }

  /** An FAQPage holding any key besides `@context`, `@type` and `mainEntity` fails. */
  lemma FaqPageRejectsExtraKey(v: Json, k: string)
    requires v.JObj? && k in v.fields && k !in {"@context", "@type", "mainEntity"}
    ensures !Matches(FaqShape, v)
  {
    ClosedShapeRejectsExtraKey(FaqShape, v, k);
  }

  /** Every other registered shape keeps passing when a key it does not declare is
      added with any value. */
  lemma OpenShapesAcceptExtraKey(id: SchemaId, fields: map<string, Json>, k: string, x: Json)
    requires id != FaqSchema
    requires k !in ShapeOf(id).required && k !in ShapeOf(id).optional
    requires Matches(ShapeOf(id), JObj(fields))
    ensures Matches(ShapeOf(id), JObj(fields[k := x]))
  {
    TopLevelShape(id);
    OpenShapeAcceptsExtraKey(ShapeOf(id), fields, k, x);
  }

  /** Where an article declares its author and its publisher. */
  lemma ArticleSubObjects()
    ensures "author" in ArticleShape.required && ArticleShape.required["author"] == ArticleAuthor
    ensures "publisher" in ArticleShape.required && ArticleShape.required["publisher"] == Publisher
  {
  }

  /** The keys the publisher of an article or a video and its logo declare. */
  lemma PublisherKeys()
    ensures Publisher.required.Keys == {"@type", "name"} && Publisher.optional.Keys == {"logo"}
    ensures Publisher.optional["logo"] == ImageObject
    ensures ImageObject.required.Keys == {"@type", "url"} && ImageObject.optional.Keys == {"width", "height"}
  {
  }

  /** The author of an article admits no key beyond `@type` and `name`, so an
      extra key in it fails the whole article. */
  lemma ArticleAuthorClosed(v: Json)
    requires Matches(ArticleShape, v)
    ensures "author" in v.fields && v.fields["author"].JObj?
    ensures v.fields["author"].fields.Keys <= {"@type", "name"}
  {
    ArticleSubObjects();
    FieldOfMatch(ArticleShape, v, "author");
    AuthorClosed(v.fields["author"]);
  }

  /** An article author that passes has no key beyond `@type` and `name`. */
  lemma AuthorClosed(a: Json)
    requires Matches(ArticleAuthor, a)
    ensures a.JObj? && a.fields.Keys <= {"@type", "name"}
  {
    assert ArticleAuthor.required.Keys == {"@type", "name"} && ArticleAuthor.optional == map[];
    ClosedShapeKeys(ArticleAuthor, a);
  }

  /** A publisher admits no key beyond `@type`, `name` and `logo`, and its logo
      none beyond `@type`, `url`, `width` and `height`. */
  lemma PublisherClosed(p: Json)
    requires Matches(Publisher, p)
    ensures p.JObj? && p.fields.Keys <= {"@type", "name", "logo"}
    ensures "logo" in p.fields ==>
              && p.fields["logo"].JObj?
              && p.fields["logo"].fields.Keys <= {"@type", "url", "width", "height"}
  {
    PublisherKeys();
    ClosedShapeKeys(Publisher, p);
    if "logo" in p.fields {
      FieldOfMatch(Publisher, p, "logo");
      ClosedShapeKeys(ImageObject, p.fields["logo"]);
    }
  }

  /** An article that passes carries a publisher that passes, and so is closed as
      PublisherClosed says. */
  lemma ArticlePublisherClosed(v: Json)
    requires Matches(ArticleShape, v)
    ensures "publisher" in v.fields && v.fields["publisher"].JObj?
    ensures v.fields["publisher"].fields.Keys <= {"@type", "name", "logo"}
    ensures var p := v.fields["publisher"];
            "logo" in p.fields ==>
              && p.fields["logo"].JObj?
              && p.fields["logo"].fields.Keys <= {"@type", "url", "width", "height"}
  {
    ArticleSubObjects();
    FieldOfMatch(ArticleShape, v, "publisher");
    PublisherClosed(v.fields["publisher"]);
  }

  // ----------------------------------------------------------------------------
  // Reviews inside a product
  // ----------------------------------------------------------------------------

  /** A product's `review` is a single review or a list of reviews. */
  lemma ReviewOrReviewsMeaning(v: Json)
    ensures Matches(ReviewOrReviews, v) <==>
              || Matches(ReviewShape, v)
              || (v.JArr? && forall i :: 0 <= i < |v.items| ==> Matches(ReviewShape, v.items[i]))
  {
    OneOfPair(ReviewShape, ArrayOf(ReviewShape), v);
  }

  /** A review given alone validates as it would wrapped in a one-element list. */
  lemma SingleReviewAsList(r: Json)
    requires r.JObj?
    ensures Matches(ReviewOrReviews, r) <==> Matches(ReviewOrReviews, JArr([r]))
  {
    ReviewOrReviewsMeaning(r);
    ReviewOrReviewsMeaning(JArr([r]));
    assert JArr([r]).items[0] == r;
  }

  /** A rating that passes is a Rating whose three rating fields are strings. */
  lemma RatingContents(rating: Json)
    requires Matches(ReviewRating, rating)
    ensures rating.JObj? && rating.fields.Keys == {"@type", "ratingValue", "bestRating", "worstRating"}
    ensures rating.fields["@type"] == JStr("Rating")
    ensures rating.fields["ratingValue"].JStr?
    ensures rating.fields["bestRating"].JStr?
    ensures rating.fields["worstRating"].JStr?
  {
    ClosedShapeKeys(ReviewRating, rating);
    FieldOfMatch(ReviewRating, rating, "@type");
    FieldOfMatch(ReviewRating, rating, "ratingValue");
    FieldOfMatch(ReviewRating, rating, "bestRating");
    FieldOfMatch(ReviewRating, rating, "worstRating");
  }

  /** The keys a review requires, and what each is checked by. */
  lemma ReviewShapeKeys()
    ensures ReviewShape.required.Keys == {"@type", "reviewRating", "datePublished", "author"}
    ensures ReviewShape.required["@type"] == Literal("Review")
    ensures ReviewShape.required["reviewRating"] == ReviewRating
    ensures ReviewShape.required["datePublished"] == Date
    ensures ReviewShape.required["author"] == ReviewAuthor
  {
  }

  /** What a review that passes holds: type Review, a rating as RatingContents
      says, a publication date the date pattern accepts, and an author of type
      Person with a string name and no other key. */
  lemma ReviewContents(r: Json)
    requires Matches(ReviewShape, r)
    ensures r.JObj? && r.fields.Keys >= {"@type", "reviewRating", "datePublished", "author"}
    ensures r.fields["@type"] == JStr("Review")
    ensures Matches(ReviewRating, r.fields["reviewRating"])
    ensures r.fields["datePublished"].JStr? && Patterns.MatchesDateIso(r.fields["datePublished"].s)
    ensures Matches(ReviewAuthor, r.fields["author"])
  {
    ReviewShapeKeys();
    FieldOfMatch(ReviewShape, r, "@type");
    FieldOfMatch(ReviewShape, r, "reviewRating");
    FieldOfMatch(ReviewShape, r, "datePublished");
    FieldOfMatch(ReviewShape, r, "author");
  }

  /** A review's author that passes is a Person with a string name and nothing else. */
  lemma ReviewAuthorContents(author: Json)
    requires Matches(ReviewAuthor, author)
    ensures author.JObj? && author.fields.Keys == {"@type", "name"}
    ensures author.fields["@type"] == JStr("Person") && author.fields["name"].JStr?
  {
    ClosedShapeKeys(ReviewAuthor, author);
    FieldOfMatch(ReviewAuthor, author, "@type");
    FieldOfMatch(ReviewAuthor, author, "name");
  }

  /** Where a product's `review` is declared and what checks it. */
  lemma ProductReviewKey()
    ensures "review" !in ProductShape.required && "review" in ProductShape.optional
    ensures ProductShape.optional["review"] == ReviewOrReviews
  {
  }

  /** The `review` of a product that passes is a review that passes ReviewShape, or
      a list of them. */
  lemma ProductReviewsValid(v: Json)
    requires Matches(ProductShape, v) && "review" in v.fields
    ensures var review := v.fields["review"];
            || Matches(ReviewShape, review)
            || (review.JArr? && forall i :: 0 <= i < |review.items| ==> Matches(ReviewShape, review.items[i]))
  {
    ProductReviewKey();
    FieldOfMatch(ProductShape, v, "review");
    ReviewOrReviewsMeaning(v.fields["review"]);
  }

  /** A product validates the same whether its `review` is one review object or a
      list holding only that review. */
  lemma ProductSingleReview(fields: map<string, Json>, r: Json)
    requires r.JObj?
    ensures Matches(ProductShape, JObj(fields["review" := r])) <==>
            Matches(ProductShape, JObj(fields["review" := JArr([r])]))
  {
    ProductReviewKey();
    SingleReviewAsList(r);
    SwapOptionalField(ProductShape, fields, "review", r, JArr([r]));
  }

  /** Two values the constraint of an optional key treats alike can stand in for each
      other under that key. */
  lemma SwapOptionalField(c: Constraint, fields: map<string, Json>, k: string, x: Json, y: Json)
    requires c.Obj? && k !in c.required && k in c.optional
    requires Matches(c.optional[k], x) <==> Matches(c.optional[k], y)
    ensures Matches(c, JObj(fields[k := x])) <==> Matches(c, JObj(fields[k := y]))
  {
    var a := fields[k := x];
    var b := fields[k := y];
    assert a.Keys == b.Keys;
    forall j | j in a && j != k
      ensures a[j] == b[j]
    {
    }
  }
}

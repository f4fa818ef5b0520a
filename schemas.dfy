/** The shape registry: one declarative shape per supported schema.org type, built
    from a small set of combinators, and the table that dispatches a `@type` name to
    its shape. A shape is data (a Constraint tree); `Matches` is the one recursive
    function that decides whether a decoded JSON value satisfies it. */
module Schemas {
  import opened JsonValue
  import Patterns

  /** The three regular expressions the shapes use. */
  datatype PatternKind = DateIsoPattern | UrlFormatPattern | ContextPattern

  /** The validator combinators the shapes are written with. */
  datatype Constraint =
      /** a string literal: the value is exactly that string */
    | Literal(value: string)
      /** `Or("a", "b", ...)` of literals: the value is one of these strings */
    | OneOfLit(values: seq<string>)
      /** the type `str` */
    | IsStr
      /** the type `int` */
    | IsInt
      /** the type `float` */
    | IsFloat
      /** `Regex(pattern)`: a string in which the pattern finds a match */
    | Pattern(kind: PatternKind)
      /** `Or(c1, c2, ...)`: at least one alternative accepts the value */
    | OneOf(alternatives: seq<Constraint>)
      /** a dict: keys that must be present, keys that may be present (`Optional`),
          and whether the catch-all `Optional(str): object` admits any other key */
    | Obj(required: map<string, Constraint>, optional: map<string, Constraint>, open: bool)
      /** `[c]`: a list whose every element satisfies `c` */
    | ArrayOf(element: Constraint)

  predicate MatchesPattern(kind: PatternKind, s: string)
  {
    match kind
    case DateIsoPattern => Patterns.MatchesDateIso(s)
    case UrlFormatPattern => Patterns.MatchesUrlFormat(s)
    case ContextPattern => Patterns.MatchesContext(s)
  }

  /** Whether `v` satisfies `c`. In an object, a key declared required is checked
      against its own constraint first, then a key declared optional; any other key
      is admitted only by a catch-all, whose value may be anything. */
  predicate Matches(c: Constraint, v: Json)
    decreases c
  {
    match c
    case Literal(lit) => v == JStr(lit)
    case OneOfLit(lits) => v.JStr? && v.s in lits
    case IsStr => v.JStr?
    // the library refuses a bool where `int` is asked for, although bool subclasses int
    case IsInt => v.JInt?
    case IsFloat => v.JFloat?
    case Pattern(kind) => v.JStr? && MatchesPattern(kind, v.s)
    case OneOf(alts) => exists i :: 0 <= i < |alts| && Matches(alts[i], v)
    case ArrayOf(elem) => v.JArr? && forall i :: 0 <= i < |v.items| ==> Matches(elem, v.items[i])
    case Obj(req, opt, open) =>
      && v.JObj?
      && req.Keys <= v.fields.Keys
      && forall k :: k in v.fields ==>
           if k in req then Matches(req[k], v.fields[k])
           else if k in opt then Matches(opt[k], v.fields[k])
           else open
  }

  // ----------------------------------------------------------------------------
  // Building blocks shared by several shapes
  // ----------------------------------------------------------------------------

  const Context := Pattern(ContextPattern)
  const Url := Pattern(UrlFormatPattern)
  const Date := Pattern(DateIsoPattern)

  /** `Or(int, float)` */
  const Number := OneOf([IsInt, IsFloat])

  /** `Or(Regex(URL_FORMAT), [Regex(URL_FORMAT)])` */
  const UrlOrUrls := OneOf([Url, ArrayOf(Url)])

  /** `{"@type": "Organization", "name": str}` */
  const OrganizationRef := Obj(map["@type" := Literal("Organization"), "name" := IsStr], map[], false)

  /** The `logo` of a publisher */
  const ImageObject :=
    Obj(map["@type" := Literal("ImageObject"), "url" := Url],
        map["width" := Number, "height" := Number],
        false)

  /** The `publisher` of an article or a video */
  const Publisher :=
    Obj(map["@type" := Literal("Organization"), "name" := IsStr],
        map["logo" := ImageObject],
        false)

  // ----------------------------------------------------------------------------
  // The shapes
  // ----------------------------------------------------------------------------

  /** The distinct shapes the dispatcher table refers to. */
  datatype SchemaId =
    | OrganizationSchema
    | PersonSchema
    | ArticleSchema
    | BreadcrumbSchema
    | FaqSchema
    | VideoSchema
    | ProductSchema

  /** The `@type` constraint of each top-level shape: the names it admits. */
  function TypeConstraint(id: SchemaId): Constraint
  {
    match id
    case OrganizationSchema => OneOfLit(["Corporation", "Organization"])
    case PersonSchema => Literal("Person")
    case ArticleSchema => OneOfLit(["Article", "BlogPosting", "NewsArticle"])
    case BreadcrumbSchema => Literal("BreadcrumbList")
    case FaqSchema => Literal("FAQPage")
    case VideoSchema => Literal("VideoObject")
    case ProductSchema => Literal("Product")
  }

  /** A top-level shape: `@context` checked by the context pattern and `@type` by
      `typeName`, both required, besides the shape's own keys. */
  function TopLevel(typeName: Constraint, required: map<string, Constraint>,
                    optional: map<string, Constraint>, open: bool): (c: Constraint)
    ensures c.Obj? && c.open == open && c.optional == optional
    ensures c.required.Keys == required.Keys + {"@context", "@type"}
    ensures c.required["@context"] == Context && c.required["@type"] == typeName
  {
    Obj(required["@context" := Context]["@type" := typeName], optional, open)
  }

  const OrganizationShape :=
    TopLevel(
        TypeConstraint(OrganizationSchema),
        map["name" := IsStr],
        map["alternateName" := IsStr,
            "url" := Url,
            "logo" := Url,
            "sameAs" := OneOf([IsStr, ArrayOf(IsStr)])],
        true)

  const PersonShape :=
    TopLevel(
        TypeConstraint(PersonSchema),
        map["name" := IsStr],
        map["url" := Url,
            "image" := Url,
            "sameAs" := UrlOrUrls,
            "jobTitle" := IsStr,
            "worksFor" := OrganizationRef],
        true)

  /** The `author` of an article: its `@type` is a string among Person and Organization */
  const ArticleAuthor :=
    Obj(map["@type" := OneOfLit(["Person", "Organization"]), "name" := IsStr], map[], false)

  const ArticleShape :=
    TopLevel(
        TypeConstraint(ArticleSchema),
        map["headline" := IsStr,
            "image" := UrlOrUrls,
            "author" := ArticleAuthor,
            "publisher" := Publisher,
            "datePublished" := Date],
        map["mainEntityOfPage" := Obj(map["@type" := Literal("WebPage"), "@id" := IsStr], map[], false),
            "dateModified" := Date],
        true)

  const ListItem :=
    Obj(map["@type" := Literal("ListItem"), "position" := IsInt, "name" := IsStr, "item" := Url],
        map[],
        false)

  const BreadcrumbShape :=
    TopLevel(
        TypeConstraint(BreadcrumbSchema),
        map["itemListElement" := ArrayOf(ListItem)],
        map[],
        true)

  const Question :=
    Obj(map["@type" := Literal("Question"),
            "name" := IsStr,
            "acceptedAnswer" := Obj(map["@type" := Literal("Answer"), "text" := IsStr], map[], false)],
        map[],
        false)

  /** The only top-level shape without a catch-all. */
  const FaqShape :=
    TopLevel(
        TypeConstraint(FaqSchema),
        map["mainEntity" := ArrayOf(Question)],
        map[],
        false)

  const VideoShape :=
    TopLevel(
        TypeConstraint(VideoSchema),
        map["name" := IsStr,
            "description" := IsStr,
            "thumbnailUrl" := UrlOrUrls,
            "uploadDate" := Date],
        map["contentUrl" := Url,
            "embedUrl" := Url,
            "publisher" := Publisher],
        true)

  /** Rating values are strings, not numbers. */
  const ReviewRating :=
    Obj(map["@type" := Literal("Rating"), "ratingValue" := IsStr, "bestRating" := IsStr, "worstRating" := IsStr],
        map[],
        false)

  const ReviewAuthor := Obj(map["@type" := Literal("Person"), "name" := IsStr], map[], false)

  /** A review inside a product; it keeps a catch-all of its own. */
  const ReviewShape :=
    Obj(map["@type" := Literal("Review"),
            "reviewRating" := ReviewRating,
            "datePublished" := Date,
            "author" := ReviewAuthor],
        map["name" := IsStr,
            "reviewBody" := IsStr,
            "publisher" := OrganizationRef],
        true)

  /** `Or(review_schema, [review_schema])` */
  const ReviewOrReviews := OneOf([ReviewShape, ArrayOf(ReviewShape)])

  const ProductShape :=
    TopLevel(
        TypeConstraint(ProductSchema),
        map["name" := IsStr,
            "image" := UrlOrUrls],
        map["description" := IsStr,
            "sku" := IsStr,
            "mpn" := IsStr,
            "brand" := OneOf([IsStr, Obj(map["@type" := Literal("Brand"), "name" := IsStr], map[], false)]),
            "review" := ReviewOrReviews,
            "aggregateRating" :=
              Obj(map["@type" := Literal("aggregateRating"),
                      "ratingValue" := IsStr,
                      "reviewCount" := IsStr,
                      "bestRating" := IsStr,
                      "worstRating" := IsStr],
                  map[],
                  false),
            "Offers" :=
              Obj(map["@type" := Literal("Offer"),
                      "url" := Url,
                      "priceCurrency" := IsStr,
                      "price" := IsStr,
                      "priceValidUntil" := Date,
                      "availability" := Url,
                      "itemCondition" := Url],
                  map["seller" := OrganizationRef],
                  false)],
        true)

  function ShapeOf(id: SchemaId): (shape: Constraint)
    ensures shape.Obj? && "@context" in shape.required && "@type" in shape.required
  {
    match id
    case OrganizationSchema => OrganizationShape
    case PersonSchema => PersonShape
    case ArticleSchema => ArticleShape
    case BreadcrumbSchema => BreadcrumbShape
    case FaqSchema => FaqShape
    case VideoSchema => VideoShape
    case ProductSchema => ProductShape
  }

  /** Whether `e` satisfies the shape `id` names: what `is_valid` answers. */
  predicate Conforms(id: SchemaId, e: Json)
  {
    Matches(ShapeOf(id), e)
  }

  /** The dispatcher: which shape each registered `@type` name is checked against.
      Names that share an entry share one shape. */
  const AllSchemas: map<string, SchemaId> :=
    map["Organization" := OrganizationSchema,
        "Corporation" := OrganizationSchema,
        "Person" := PersonSchema,
        "Article" := ArticleSchema,
        "BlogPosting" := ArticleSchema,
        "NewsArticle" := ArticleSchema,
        "BreadcrumbList" := BreadcrumbSchema,
        "FAQPage" := FaqSchema,
        "VideoObject" := VideoSchema,
        "Product" := ProductSchema]
}

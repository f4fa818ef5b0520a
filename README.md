# Structured-data validation, modelled in Dafny

This project models a structured-data checker for web pages. Each JSON-LD block
that a page embeds is a decoded JSON value. The checker looks up the value's
`@type` in a dispatcher table of ten registered names, which point to seven
shapes: Organization/Corporation, Person, Article/BlogPosting/NewsArticle,
BreadcrumbList, FAQPage, VideoObject and Product. It checks the value against
that shape and counts the result in a tally:

- one counter per type that validated;
- an `errors` counter for values that failed their shape;
- a `wrong/unknown type` counter for values whose type is not registered.

Files:

- `json_value.dfy`: decoded JSON values.
- `wrappers.dfy`: `Option` and `Result`.
- `patterns.dfy`: the three regular expressions of the registry (DATE_ISO,
  URL_FORMAT, CONTEXT). Each is a declarative description of the strings in
  which `re.search` finds a match, plus a recogniser proved equal to it.
- `schemas.dfy`: the constraint language of the `schema` library as the
  registry uses it, the seven registered shapes and the review sub-shape. The
  constructs are literals, `str`, `int`, `float`, `Or`, `[c]`, `Regex`,
  dictionaries with required, `Optional(key)` and `Optional(str)` keys, and the
  `And(str, lambda)` one-of test. `object` appears only as the value of the
  `Optional(str)` catch-all, which a dictionary shape records as a flag. The file also holds the dispatcher table `AllSchemas`.
- `schema_properties.dfy`: what the shapes and the table promise.
- `tallies.dfy`: the counting discipline of the validator, stated over the
  sequence of per-entry fates. It covers the fixed counters, one increment per
  entry, the first crash ending the run, sums and order independence.
- `seq_maps.dfy`: mapping a function over a sequence.
- `schema_validation.dfy`: `validate_data`.
  - `Classify` gives the fate of one entry.
  - `Tally` specifies a whole run.
  - `ValidateData` is the loop that updates the counts dictionary, proved to
    return `Tally(data)`.

The condition at `schema_validation.py:36` reads `data[i]["@type"]` before it
tests that the key exists. So the loop aborts on three kinds of entry:

- an entry without `@type` raises `KeyError`;
- a non-dictionary entry raises `TypeError`;
- an `@type` holding a list or a dictionary raises `TypeError` when it is looked up in the table.

The model makes these aborts explicit as `Err(Crash(index, kind))`; see
`SchemaValidation.MissingTypeCrashes`, `SchemaValidation.FirstCrash` and
`SchemaValidation.TallyCompletes`. The second test on line 36, whether `@type`
is among the keys, therefore never decides anything.
A non-string `@type` that is hashable (a number, a boolean, null) is simply
not a key of the table, so it is counted as "wrong/unknown type".

## Model

| member | source | states |
|---|---|---|
| Patterns.MatchesDateIso | schemas.py:3 | the recogniser for DATE_ISO; any string it accepts is at least ten characters long, the length of the shortest date `YYYY-MM-DD` |
| Patterns.MatchesUrlFormat | schemas.py:4 | the recogniser for URL_FORMAT; any string it accepts is at least as long as `http://` |
| Patterns.MatchesContext | schemas.py:5 | the recogniser for CONTEXT; any string it accepts is at least as long as `https://schema.org` |
| Patterns.DateIsoCorrect | schemas.py:3 | the DATE_ISO recogniser accepts a string exactly when `re.search` with the anchored pattern finds a match: an optional `-`, a year of exactly four digits or of more than four digits not starting with `0`, then a month 01-12 and a day 01-31, all at the start; the starred time group may match empty |
| Patterns.DateIsoSound | schemas.py:3 | every string the DATE_ISO recogniser accepts begins with a date word |
| Patterns.DateIsoComplete | schemas.py:3 | every string that begins with a date word is accepted |
| Patterns.DateIsoIgnoresSuffix | schemas.py:3 | a date word followed by anything is accepted, because the time group is starred and may match nothing |
| Patterns.DateIsoAcceptsDate | schemas.py:3 | `2023-05-10` matches DATE_ISO |
| Patterns.DateIsoAcceptsUtcTime | schemas.py:3 | `2023-05-10T12:30:00Z` matches DATE_ISO |
| Patterns.DateIsoAcceptsOffsetTime | schemas.py:3 | `2023-05-10T12:30:00+02:00` matches DATE_ISO |
| Patterns.DateIsoRejectsMonth13 | schemas.py:3 | `2023-13-01` does not match: month 13 is outside the month group |
| Patterns.DateIsoRejectsSlashes | schemas.py:3 | `05/10/2023` does not match |
| Patterns.UrlFormatCorrect | schemas.py:4 | the URL_FORMAT recogniser accepts exactly the strings that start with `http`, any number of `s`, then `://` |
| Patterns.UrlFormatSound | schemas.py:4 | every string the URL_FORMAT recogniser accepts starts with `http`, some `s` letters and `://` |
| Patterns.UrlFormatComplete | schemas.py:4 | every string that starts with `http`, any number of `s` letters and `://` is accepted |
| Patterns.UrlFormatAcceptsHttps | schemas.py:4 | every string that starts with `https://` matches URL_FORMAT, whatever follows |
| Patterns.UrlFormatRejectsOtherSchemes | schemas.py:4 | any string starting with `ftp://`, and any string with no `://` in it (such as a bare host name), does not match URL_FORMAT |
| Patterns.ContextCorrect | schemas.py:5 | the CONTEXT recogniser accepts exactly the strings that contain, anywhere, `https://schema`, one character other than a newline, then `org` (the pattern is unanchored and its `.` is not escaped) |
| Patterns.ContextExamples | schemas.py:5 | `https://schema.org` matches CONTEXT and `http://schema.org` does not |
| Patterns.ContextUnanchored | schemas.py:5 | `https://schema`, any character other than a newline, then `org`, matches with any text before and after it |
| Schemas.Matches | schemas.py:7-164 | definition, with no contract of its own: a value satisfies a literal, `str`, `int` (not a boolean), `float`, `Regex` (a string the pattern finds a match in), `Or` (some alternative), `[c]` (a list whose every element satisfies `c`), or a dictionary shape: every required key present, and each key of the value checked against its required constraint first, then its `Optional(key)` constraint, else admitted only by the `Optional(str)` catch-all |
| Schemas.ShapeOf | schemas.py:7-164 | the shape of each registered schema is a dictionary shape requiring `@context` and `@type` |
| Schemas.Conforms | schema_validation.py:40 | definition, with no contract of its own: `is_valid` answers whether the entry satisfies the shape; its properties are the SchemaProperties lemmas below |
| SchemaProperties.MissingRequiredKeyFails | schemas.py:7-16 | a dictionary shape rejects an object that lacks one of its required keys |
| SchemaProperties.OpenShapeAcceptsExtraKey | schemas.py:15 | a shape with the `Optional(str): object` catch-all still accepts an object after any key it does not declare is added with any value |
| SchemaProperties.ClosedShapeRejectsExtraKey | schemas.py:26-29 | a dictionary shape without the catch-all rejects an object holding a key it does not declare |
| SchemaProperties.FieldOfMatch | schemas.py:7-16 | every declared key of an object that passes holds a value its constraint accepts |
| SchemaProperties.ClosedShapeKeys | schemas.py:26-29 | an object that passes a closed dictionary shape has only declared keys |
| SchemaProperties.OneOfPair | schemas.py:14 | `Or(a, b)` accepts a value exactly when `a` or `b` accepts it |
| SchemaProperties.RegisteredNames | schemas.py:166-177 | the dispatcher table has exactly the ten type names |
| SchemaProperties.RegisteredCount | schemas.py:166-177 | the dispatcher table has ten entries |
| SchemaProperties.SharedShapes | schemas.py:167-172 | Organization and Corporation share one shape, and Article, BlogPosting and NewsArticle share another |
| SchemaProperties.TopLevelShape | schemas.py:7-164 | every registered shape requires `@context` matching CONTEXT and an `@type` restricted to its own names; every shape but the FAQ one has the catch-all key |
| SchemaProperties.RegisteredNameAccepted | schemas.py:166-177 | the `@type` constraint of the shape a name is registered under accepts that name |
| SchemaProperties.TypeConstraintAdmitsOnlyItsNames | schemas.py:9-177 | a shape's `@type` constraint accepts only names the table maps to that same shape |
| SchemaProperties.TypeConstraintAcceptsItsNames | schemas.py:166-177 | a shape's `@type` constraint accepts a string exactly when the table maps it to that shape |
| SchemaProperties.MatchFixesType | schemas.py:166-177 | an object that passes a registered shape has a string `@type` that the table maps back to that shape |
| SchemaProperties.MinimalPersonPasses | schemas.py:18-31 | an object with a matching `@context`, `@type` Person and a string name, and nothing else, passes the Person shape |
| SchemaProperties.ProductNeedsNameAndImage | schemas.py:133-134 | a Product without `name` or without `image` fails |
| SchemaProperties.ArticleNeedsHeadline | schemas.py:40 | an article without `headline` fails |
| SchemaProperties.FaqPageRejectsExtraKey | schemas.py:73-84 | the FAQ shape rejects any key besides `@context`, `@type` and `mainEntity` |
| SchemaProperties.OpenShapesAcceptExtraKey | schemas.py:7-164 | every shape other than the FAQ one accepts an undeclared extra key |
| SchemaProperties.ArticleAuthorClosed | schemas.py:42-45 | the author of an article that passes is an object with no key besides `@type` and `name` |
| SchemaProperties.AuthorClosed | schemas.py:42-45 | an article author that passes is an object with no key besides `@type` and `name` |
| SchemaProperties.PublisherClosed | schemas.py:46-55 | a publisher that passes has no key besides `@type`, `name` and `logo`, and its logo has no key besides `@type`, `url`, `width` and `height` |
| SchemaProperties.ArticlePublisherClosed | schemas.py:46-55 | the publisher of an article that passes, and its logo, carry only their declared keys |
| SchemaProperties.ReviewOrReviewsMeaning | schemas.py:142 | a product's `review` passes exactly when it is one review that passes or a list whose every element passes |
| SchemaProperties.SingleReviewAsList | schemas.py:142 | a single review object passes exactly when the one-element list holding it passes |
| SchemaProperties.RatingContents | schemas.py:112-117 | a rating that passes has exactly `@type` Rating and the three rating fields, all strings |
| SchemaProperties.ReviewContents | schemas.py:108-128 | a review that passes has type Review, a rating that passes, a publication date DATE_ISO accepts, and an author that passes |
| SchemaProperties.ReviewAuthorContents | schemas.py:119-122 | a review author that passes has exactly `@type` Person and a string `name` |
| SchemaProperties.ProductReviewsValid | schemas.py:142 | the `review` of a product that passes is a review that passes or a list of reviews that pass |
| SchemaProperties.ProductSingleReview | schemas.py:142 | a product validates the same whether its `review` is a single review object or a list holding only that review |
| SchemaProperties.SwapOptionalField | schemas.py:130-164 | two values that an optional key's constraint treats alike can replace each other under that key without changing the verdict on the whole object |
| Tallies.Record | schema_validation.py:38-47 | counting one outcome raises the counter it names by one, creating it at 1 if missing, and changes no other counter |
| Tallies.Accumulate | schema_validation.py:34-47 | a completed run always reports the two fixed counters |
| Tallies.AccumulateCrash | schema_validation.py:35-47 | an aborted run names an entry whose fate is that very crash |
| Tallies.AccumulateKeepsCrash | schema_validation.py:35-47 | once an entry has aborted the run, later entries change nothing |
| Tallies.AccumulateCompletes | schema_validation.py:35-47 | a run completes exactly when no entry crashes it |
| Tallies.AccumulateFirstCrash | schema_validation.py:35-47 | a run reports the index and the kind of the first entry that crashes it |
| Tallies.AppendFate | schema_validation.py:37-47 | each entry that does not crash raises exactly the counter its outcome names by one, creating it at 1 if it was missing, and leaves every other counter unchanged |
| Tallies.AccumulateCounts | schema_validation.py:34-47 | in a completed run, every counter holds the number of entries counted under it, and the keys are the two fixed counters plus the types that validated at least once |
| Tallies.HitsWitness | schema_validation.py:41-45 | a key counted at least once is the outcome label of some entry |
| Tallies.TotalWithout | schema_validation.py:34 | the sum of the counts can be split at any key |
| Tallies.TotalBump | schema_validation.py:38-47 | raising one counter by one raises the sum by one |
| Tallies.AccumulateSum | schema_validation.py:34-47 | the counts of a completed run add up to the number of entries |
| Tallies.HitsAppend | schema_validation.py:35-47 | counting splits over a concatenation of runs |
| Tallies.HitsPermutation | schema_validation.py:35-47 | how many entries are counted under a key does not depend on their order |
| Tallies.AccumulateOrderIndependent | schema_validation.py:35-47 | reordering the entries of a completed run yields the same tally |
| SeqMaps.MapPermutation | schema_validation.py:35 | mapping each entry to its fate turns a permutation of the entries into a permutation of the fates |
| SchemaValidation.Classify | schema_validation.py:36-47 | an entry's fate is an outcome exactly when it can be inspected (a dictionary with an `@type` that is neither list nor dictionary); an entry counted as valid carries a registered string `@type` |
| SchemaValidation.Tally | schema_validation.py:33-49 | a completed run always reports the two fixed counters |
| SchemaValidation.Fates | schema_validation.py:35-40 | the fates of a run are the fates of its entries, one each, in order |
| SchemaValidation.CountEntry | schema_validation.py:36-47 | one turn of the loop: a non-dictionary entry, a missing `@type` or an unhashable `@type` crashes the run; an unregistered `@type` raises the unknown-type counter; otherwise the entry is checked and counted; the result is one `Step` of the specification |
| SchemaValidation.CountChecked | schema_validation.py:41-47 | a success raises the counter named after the type, creating it at 1 the first time; a failure raises `errors` |
| SchemaValidation.ValidateData | schema_validation.py:33-49 | the loop returns exactly `Tally(data)`: the two fixed counters at zero, then each entry counted in order, or the first crash |
| SchemaValidation.TallyCompletes | schema_validation.py:36 | a run completes exactly when every entry is a dictionary with an `@type` that is neither a list nor a dictionary |
| SchemaValidation.TallyCrash | schema_validation.py:36 | an aborted run names an entry that cannot be inspected, and the crash kind is the one that entry's fate gives |
| SchemaValidation.FirstCrash | schema_validation.py:36 | the run reports the first entry that cannot be inspected, and why: not a dictionary, no `@type`, or an unhashable `@type` |
| SchemaValidation.MissingTypeCrashes | schema_validation.py:36 | a dictionary without `@type`, after inspectable entries, aborts the run with a missing-key crash at its index; it is not counted as unknown |
| SchemaValidation.FatesAppend | schema_validation.py:35 | appending an entry appends its fate |
| SchemaValidation.EntryCounted | schema_validation.py:36-47 | an entry that does not crash raises exactly one counter by one: unknown-type for an unregistered `@type`, the type's own counter (new at 1) when it passes its shape, `errors` when it fails |
| SchemaValidation.EachEntryBumpsOne | schema_validation.py:35-47 | every entry that does not crash raises some single counter by one and leaves the others alone |
| SchemaValidation.TallySum | schema_validation.py:34-47 | the counts of a completed run add up to the number of entries |
| SchemaValidation.ValidOnlyIfRegistered | schema_validation.py:40-43 | an entry counted as valid has a string `@type` that is a registered name |
| SchemaValidation.CountersNotRegistered | schema_validation.py:34 | neither fixed counter is a registered type name, so type counters never collide with them |
| SchemaValidation.SuccessKeysRegistered | schema_validation.py:34-47 | the counters of a completed run are the two fixed ones and registered type names |
| SchemaValidation.LabelRegistered | schema_validation.py:40-45 | a counter raised by an entry, other than the two fixed ones, is a registered type name |
| SchemaValidation.TallyOrderIndependent | schema_validation.py:33-49 | permuting the entries of a completed run yields the same tally |
| SchemaValidation.ClassifyRegistered | schema_validation.py:40-47 | an entry with a registered string `@type` is valid exactly when it satisfies that type's shape, and otherwise counts as an error |
| SchemaValidation.SamplePersonPasses | schema_validation.py:40-43 | a minimal Person entry with a schema.org context is counted under `Person` |
| SchemaValidation.ProductWithoutImageFails | schema_validation.py:46-47 | any Product entry that lacks `name` or `image` is counted under `errors`, whatever else it holds |
| SchemaValidation.SampleProductFails | schema_validation.py:46-47 | the sample Product, with `@context`, `@type` and a name but no image, is counted under `errors` |
| SchemaValidation.SampleCounts | schema_validation.py:34-47 | a valid Person, an unknown type and an invalid entry, in this order, give one in each of `errors`, `wrong/unknown type` and `Person` |
| SchemaValidation.UnregisteredIsUnknown | schema_validation.py:37-39 | any entry whose `@type` is an unregistered string is counted as unknown, whatever else it holds |
| SchemaValidation.SampleUnknownType | schema_validation.py:37-39 | the sample entry holding only an unregistered string `@type` is counted as unknown |
| SchemaValidation.SampleRun | schema_validation.py:33-49 | a run over a valid Person, an unknown-type entry and an invalid entry yields one in each of the three counters |
| SchemaValidation.SampleRunLiteral | schema_validation.py:33-49 | the run over a minimal Person named Jane Doe, an entry of the unregistered type `Unknown` and a Product named Widget without image yields one in each of `Person`, `wrong/unknown type` and `errors` |

## Left out

- `get_data` is not part of this model: the HTTP request, HTML parsing and JSON decoding all lie outside the core. Its input is modelled as a sequence of already-decoded JSON values.
- The `__main__` block, the per-entry `print` lines and the timing are I/O and are left out.
- Floating-point numbers are carried with their value (`JFloat`), which no check reads: the `float` constraint looks only at the kind of number.
- The regular expressions are modelled by three hand-written recognisers, each proved equal to a description of its language. No general regular-expression engine is modelled.
- Python exceptions are modelled as `Err(Crash(index, kind))` values. Their types and messages are not modelled.
- The `schema` library's error messages and its `Use` construct are left out. `Use` is imported by the source but never used.
- The `And(str, lambda s: s in (...))` test for an article author's `@type` is modelled as a one-of-literals constraint on strings.
- The body of the loop is split into `CountEntry` and `CountChecked`. `CountChecked` is the part after `is_valid` has answered.
- The `int` constraint rejects booleans, as the `schema` library's type check excludes `bool` where `int` is asked for. An older library without that exclusion would accept `true` for `position`, `width` and `height`.

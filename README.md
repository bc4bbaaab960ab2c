# Kiyoh client, modelled in Dafny

This project models the PHP class `Kiyoh`, a read-only client for the Kiyoh review
service. A client knows one connector code and one company code. It does three
things:

- it builds the URL of the company's recent-reviews XML feed;
- it turns a parsed feed into a list of `Review` records, each with its
  `Customer` and its `Question` list;
- it turns the same feed into one `Company` summary, with its `Category` and
  `AverageScores`.

Every text leaf goes through one normalisation rule: the text, or null when the
text is empty. The integer fields of the company summary come from PHP's `(int)`
cast of those normalised strings.

The project has four modules:

- `simplexml.dfy` (`SimpleXml`): the parsed document as SimpleXML exposes it.
  An `Element` has a name, its own text and its children in document order.
  Property access `$e->x` is `Child(e, "x")`: the first child named `x`, or the
  empty element `Absent`. Iteration `foreach ($e->x as $c)` is `Children(e, "x")`:
  every child named `x`, in order.
- `php.dfy` (`Php`): the parts of PHP's runtime the client relies on.
  - `sprintf` with `%s` and `%%` conversions (`Format`).
  - How an `int` is rendered as text (`IntToString`).
  - The `(int)` cast of a string or of null on a 64-bit build (`IntCast`,
    `StringToInt`). The cast skips leading whitespace, reads an optional sign,
    reads the longest run of decimal digits and ignores the rest. No digits
    give 0, and values beyond 64 bits saturate.
  - The `(string)` cast of a nullable string (`StringCast`).
- `models.dfy` (`Models`): the record types. Fields follow the order in which
  the client passes constructor arguments. `Normalised` states the
  normalisation rule: `Normalised(v)` holds when `v` is null or non-empty.
- `kiyoh.dfy` (`Kiyoh`): the URL template, the normalisation helper, and
  predicates stating the field-to-element mapping (`IsQuestionOf`,
  `IsReviewOf`, `IsCompanyOf`). It also holds the class `Kiyoh`, whose
  methods build their result lists by appending in `for` loops, as the
  source's `foreach` loops do. Each method is proved against the mapping
  predicates.

The model keeps to what the code does, not to what a careful client might do:

- The code raises no error of its own. A leaf missing from an element that
  exists is read through SimpleXML's empty element, so its field comes out as
  null or 0.
- A non-numeric integer field is cast to 0. No format error is raised.
- The model goes one step further than PHP for a missing inner element, such
  as `company`, `customer`, `category`, `average_scores` or `review_list`.
  There, PHP's next property read yields null and the client then fails. The
  model keeps yielding the empty element instead. The "## Left out" section
  records this.

## Model

| member | source | states |
|---|---|---|
| Kiyoh.TemplateSubstitution | src/JKetelaar/Kiyoh/Kiyoh.php:18 | The feed template takes its three arguments in order and copies the rest verbatim. With fewer than three arguments, sprintf fails. |
| Kiyoh.Kiyoh.RecentCompanyReviewsUrl | src/JKetelaar/Kiyoh/Kiyoh.php:97-104 | The URL is the template with connector code, company code and page substituted in that order. The page is rendered as PHP renders an int and defaults to 1. |
| Kiyoh.UrlDeterminesPage | src/JKetelaar/Kiyoh/Kiyoh.php:97-104 | Two different pages never give the same URL: the page can be read back from the URL. |
| Kiyoh.UrlExample | src/JKetelaar/Kiyoh/Kiyoh.php:97-104 | For connector "ABC123" and company 42, page 3 gives `...connectorcode=ABC123&company_id=42&page=3`, and the default page gives `page=1`. |
| Php.IntToStringInjective | src/JKetelaar/Kiyoh/Kiyoh.php:102 | Distinct integers render as distinct strings. |
| Php.FormatLiteral | src/JKetelaar/Kiyoh/Kiyoh.php:98-103 | sprintf copies text without a percent sign unchanged and consumes no argument. |
| Php.FormatConversion | src/JKetelaar/Kiyoh/Kiyoh.php:98-103 | A `%s` is replaced by the next argument, which is then consumed. With no argument left, sprintf fails. |
| Php.LiteralThenConversion | src/JKetelaar/Kiyoh/Kiyoh.php:98-103 | Plain text followed by `%s` gives the text and then the next argument. |
| Kiyoh.Kiyoh.constructor | src/JKetelaar/Kiyoh/Kiyoh.php:41-45 | The client stores the connector code and the company code it is given. |
| Kiyoh.ElementToString | src/JKetelaar/Kiyoh/Kiyoh.php:207-211 | The result is null exactly when the element's text is empty; otherwise it is the text unchanged. |
| Kiyoh.ElementToStringLosesNothing | src/JKetelaar/Kiyoh/Kiyoh.php:207-211 | A `(string)` cast of the result gives back the element's text, and the result is never the empty string. |
| SimpleXml.ChildIsFirstNamed | src/JKetelaar/Kiyoh/Kiyoh.php:118 | Property access yields the child at the least position that carries the name. |
| SimpleXml.ChildMissing | src/JKetelaar/Kiyoh/Kiyoh.php:171 | When no child carries the name, property access yields the empty element and iteration visits nothing. |
| SimpleXml.ChildOfAbsent | src/JKetelaar/Kiyoh/Kiyoh.php:174 | In the model, chained property access through a missing element keeps yielding the empty element, and iterating it visits nothing. PHP fails there instead; see "## Left out". |
| SimpleXml.NamedDistributes | src/JKetelaar/Kiyoh/Kiyoh.php:121 | Iteration keeps document order and skips nothing. The matches in a concatenation are the first part's matches followed by the second part's. |
| Kiyoh.Kiyoh.ParseQuestions | src/JKetelaar/Kiyoh/Kiyoh.php:128-135 | One question per `question` element, in document order. Each question's id, title and score are the normalised texts of that element's `id`, `title` and `score` children. |
| Kiyoh.Kiyoh.ParseReview | src/JKetelaar/Kiyoh/Kiyoh.php:122-153 | A review is built from one `review` element. The customer comes from `customer/name` and `customer/place`, and the date from `customer/date`. The id, totalScore and recommended fields come from the children with those names. Pros come from `positive`, cons from `negative`, and the questions from `questions/question`. |
| Kiyoh.ReviewIsNormalised | src/JKetelaar/Kiyoh/Kiyoh.php:122-153 | Every text field of a mapped review, including those of its questions, is null or non-empty. |
| Kiyoh.Kiyoh.ParseReviews | src/JKetelaar/Kiyoh/Kiyoh.php:116-157 | Exactly one review per `review` child of `review_list`, in document order, each mapped as above and normalised. With no review children, the result is empty. |
| Kiyoh.Kiyoh.ParseCompany | src/JKetelaar/Kiyoh/Kiyoh.php:170-199 | The company id is the `(int)` cast of the stored company code. Every other field is read from the feed's `company` element as the mapping states, and every text field is normalised. |
| Kiyoh.CompanyIsNormalised | src/JKetelaar/Kiyoh/Kiyoh.php:182-197 | Every text field of a mapped company, including its average-score questions, is null or non-empty. |
| Kiyoh.CompanyIdIgnoresFeed | src/JKetelaar/Kiyoh/Kiyoh.php:183 | Two feeds parsed for the same integer company code give the same id, and that id is the company code itself. |
| Kiyoh.IntOfLeaf | src/JKetelaar/Kiyoh/Kiyoh.php:187-196 | The `(int)` cast of a normalised leaf equals the cast of its text. An absent leaf gives 0. |
| Kiyoh.CompanyExample | src/JKetelaar/Kiyoh/Kiyoh.php:170-199 | The example feed's company element gives category 7 "Retail", total score "8.5" and 120 reviews. Its average-scores block has review amount 5 and an empty question list. Parsed for company 42, the feed gives id 42, not 7, and average scores with no questions and amount 5. The name, url and total views, absent from the company element, come out as null, null and 0. |
| Php.IntCast | src/JKetelaar/Kiyoh/Kiyoh.php:187-196 | The cast stays within the 64-bit range, and null or the empty string gives 0. |
| Php.Saturate | src/JKetelaar/Kiyoh/Kiyoh.php:183 | A value inside the 64-bit range is kept, and a value outside it is clamped to the nearer end. |
| Php.CastReadsLeadingInt | src/JKetelaar/Kiyoh/Kiyoh.php:183 | A rendered integer followed by anything but a digit casts back to that integer, saturated to 64 bits. |
| Php.CastOfIntToString | src/JKetelaar/Kiyoh/Kiyoh.php:183 | Rendering an in-range int and casting it back gives the int. |
| Php.CastSkipsSpace | src/JKetelaar/Kiyoh/Kiyoh.php:187 | Leading whitespace does not change what the cast reads. |
| Php.CastOfNonNumeric | src/JKetelaar/Kiyoh/Kiyoh.php:187 | Text with no digit where the number should start casts to 0. |
| Php.DigitPrefixIsLongestRun | src/JKetelaar/Kiyoh/Kiyoh.php:187 | The digits the cast reads are a prefix of the text and stop at the first non-digit. |

## Left out

- HTTP fetching is not modelled: the Guzzle client made in the constructor, `getContent`, `getClient`, `getReviews` and `getCompany`. This is network I/O through a library that is not part of this model.
- The fallback that fetches the feed when `parseReviews` or `parseCompany` is given null content is left out, because it performs network I/O. The model's parsers always take a document.
- `simplexml_load_string` is left out: XML text is not parsed. The parsers take the already-parsed element tree, and malformed XML is outside the model.
- `new \DateTime(...)` is left out. A review's date is kept as the normalised text it would be parsed from. An absent date, which DateTime reads as "now", and an unparsable one, which makes DateTime throw, are therefore not distinguished.
- The `(float)` cast of `total_score` is left out because it is floating point. The company's total score is kept as the normalised text.
- Php.StringToInt: does not model exponent notation, which PHP's cast of a numeric string such as "1e3" accepts, nor leading-numeric strings whose double value differs from their digits. It reads only the integer prefix.
- Php.Format: models only the `%s` and `%%` conversions the template uses. Any other conversion gives no result.
- Kiyoh.Kiyoh.constructor: the company code is held as its decimal rendering, a string, and not as a PHP `int`. `Php.CastOfIntToString` and `Kiyoh.CompanyIdIgnoresFeed` show that an in-range int and its rendering give the same URL text and the same cast.
- SimpleXml.ChildOfAbsent: property access on `Absent` yields `Absent` again, so a missing inner element makes the model return null, 0 or an empty list. PHP's SimpleXML instead returns null for a property read on a missing element. The client then throws an Error and returns nothing. This happens when it calls `__toString()` on null at src/JKetelaar/Kiyoh/Kiyoh.php:208, or `count()` on null at line 120, for example with no `company`, `customer`, `category`, `average_scores` or `review_list` element. The model does not capture that failure. For such feeds `ParseReviews` and `ParseCompany` return values at points where the source throws.
- A feed with several `company` or `review_list` elements is modelled as SimpleXML reads it: property access takes the first one. No schema error is raised for such feeds.
- The source repeats the question-collecting loop in both parsers. The model writes it once, as `Kiyoh.Kiyoh.ParseQuestions`.

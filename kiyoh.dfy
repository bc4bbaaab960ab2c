/** The Kiyoh client: it knows one connector and one company, builds the URL of
    their recent-reviews feed, and projects an already-parsed feed either onto the
    list of reviews it holds or onto the summary of the company. */
module Kiyoh {
  import opened Php
  import opened SimpleXml
  import opened Models

  // The literal pieces of the feed URL template, around its three conversions.
  const UrlHost: string := "https://www.kiyoh.nl"
  const UrlPath: string := "/xml/recent_company_reviews.xml"
  const UrlConnectorKey: string := "?connectorcode="
  const UrlCompanyKey: string := "&company_id="
  const UrlPageKey: string := "&page="
  const UrlHead: string := UrlHost + UrlPath + UrlConnectorKey

  /** The `sprintf` template of the recent-company-reviews feed: connector code,
      company code and page, each as a `%s`. */
  const RecentCompanyReviewsUrlTemplate: string :=
    UrlHead + "%s" + UrlCompanyKey + "%s" + UrlPageKey + "%s"

  lemma TemplatePieces()
    ensures RecentCompanyReviewsUrlTemplate == UrlHead + ("%s" + (UrlCompanyKey + ("%s" + (UrlPageKey + ("%s" + [])))))
  {
  }

  /** No piece of literal text holds a conversion. */
  lemma PiecesArePlainText()
    ensures '%' !in UrlHead && '%' !in UrlCompanyKey && '%' !in UrlPageKey
  {
    HostIsPlainText();
    PathIsPlainText();
    KeysArePlainText();
  }

  lemma HostIsPlainText() ensures '%' !in UrlHost {}
  lemma PathIsPlainText() ensures '%' !in UrlPath {}
  lemma KeysArePlainText() ensures '%' !in UrlConnectorKey && '%' !in UrlCompanyKey && '%' !in UrlPageKey {}

  /** The template takes exactly three arguments, in order, and copies everything
      else verbatim; with fewer, formatting fails. */
  lemma TemplateSubstitution(args: seq<string>)
    ensures |args| < 3 ==> Format(RecentCompanyReviewsUrlTemplate, args) == None
    ensures |args| >= 3 ==>
      Format(RecentCompanyReviewsUrlTemplate, args) ==
      Some(UrlHead + args[0] + UrlCompanyKey + args[1] + UrlPageKey + args[2])
  {
    TemplatePieces();
    PiecesArePlainText();
    ThreeConversions(UrlHead, UrlCompanyKey, UrlPageKey, args);
    if |args| >= 3 {
      Reassociate(UrlHead, args[0], UrlCompanyKey, args[1], UrlPageKey, args[2]);
    }
  }

  /** Three pieces of plain text, each followed by a `%s`. */
  lemma ThreeConversions(a: string, b: string, c: string, args: seq<string>)
    requires '%' !in a && '%' !in b && '%' !in c
    ensures |args| < 3 ==> Format(a + ("%s" + (b + ("%s" + (c + ("%s" + []))))), args) == None
    ensures |args| >= 3 ==>
      Format(a + ("%s" + (b + ("%s" + (c + ("%s" + []))))), args) ==
      Some((a + args[0]) + ((b + args[1]) + ((c + args[2]) + [])))
  {
    var tail2 := c + ("%s" + []);
    var tail1 := b + ("%s" + tail2);
    LiteralThenConversion(a, tail1, args);
    if args != [] {
      var args1 := args[1..];
      LiteralThenConversion(b, tail2, args1);
      if args1 != [] {
        var args2 := args1[1..];
        LiteralThenConversion(c, [], args2);
        if args2 != [] {
          assert Format([], args2[1..]) == Some([]);
        }
      }
    }
  }

  lemma Reassociate(a: string, b: string, c: string, d: string, e: string, f: string)
    ensures (a + b) + ((c + d) + ((e + f) + [])) == a + b + c + d + e + f
  {
    assert (e + f) + [] == e + f;
  }

  /** The leaf-normalisation rule: an element's text, or null when it is empty. */
  function ElementToString(e: Element): (r: Option<string>)
    ensures r == None <==> |e.text| == 0
    ensures r != None ==> r == Some(e.text)
  {
    if |e.text| > 0 then Some(e.text) else None
  }

  /** PHP's `(string)` cast recovers an element's text from its normalised form,
      so normalisation loses nothing but the distinction between "" and null. */
  lemma ElementToStringLosesNothing(e: Element)
    ensures StringCast(ElementToString(e)) == e.text
    ensures Normalised(ElementToString(e))
  {
  }

  /** `(int)` of a normalised leaf is `(int)` of its text, and 0 when it is
      missing or empty. */
  lemma {:induction false} IntOfLeaf(parent: Element, name: string)
    ensures IntCast(ElementToString(Child(parent, name))) == StringToInt(Child(parent, name).text)
    ensures (forall i :: 0 <= i < |parent.children| ==> parent.children[i].name != name) ==>
      IntCast(ElementToString(Child(parent, name))) == 0
  {
    if forall i :: 0 <= i < |parent.children| ==> parent.children[i].name != name {
      ChildMissing(parent, name);
    }
  }

  // ---------------------------------------------------------------------------
  // The field-to-element mapping

  /** The question a `question` element describes. */
  predicate IsQuestionOf(q: Question, e: Element)
  {
    && q.id == ElementToString(Child(e, "id"))
    && q.title == ElementToString(Child(e, "title"))
    && q.score == ElementToString(Child(e, "score"))
  }

  /** One question per element, in the elements' order. */
  predicate AreQuestionsOf(qs: seq<Question>, es: seq<Element>)
  {
    |qs| == |es| && forall j :: 0 <= j < |qs| ==> IsQuestionOf(qs[j], es[j])
  }

  /** The review a `review` element describes. */
  predicate IsReviewOf(r: Review, e: Element)
  {
    var customer := Child(e, "customer");
    && r.id == ElementToString(Child(e, "id"))
    && r.customer == Customer(ElementToString(Child(customer, "name")), ElementToString(Child(customer, "place")))
    && r.date == ElementToString(Child(customer, "date"))
    && r.totalScore == ElementToString(Child(e, "totalScore"))
    && AreQuestionsOf(r.questions, Children(Child(e, "questions"), "question"))
    && r.recommended == ElementToString(Child(e, "recommended"))
    && r.pros == ElementToString(Child(e, "positive"))
    && r.cons == ElementToString(Child(e, "negative"))
  }

  /** One review per element, in the elements' order. */
  predicate AreReviewsOf(rs: seq<Review>, es: seq<Element>)
  {
    |rs| == |es| && forall k :: 0 <= k < |rs| ==> IsReviewOf(rs[k], es[k])
  }

  /** The `review` elements of the feed's review list, in document order. */
  function ReviewElements(content: Element): seq<Element>
  {
    Children(Child(content, "review_list"), "review")
  }

  /** The summary the feed's `company` element describes for the configured
      company code. */
  predicate IsCompanyOf(c: Company, content: Element, companyCode: string)
  {
    var company := Child(content, "company");
    var category := Child(company, "category");
    var scores := Child(company, "average_scores");
    && c.id == StringToInt(companyCode)
    && c.name == ElementToString(Child(company, "name"))
    && c.url == ElementToString(Child(company, "url"))
    && c.category == Category(IntCast(ElementToString(Child(category, "id"))), ElementToString(Child(category, "title")))
    && c.totalScore == ElementToString(Child(company, "total_score"))
    && AreQuestionsOf(c.averageScores.questions, Children(Child(scores, "questions"), "question"))
    && c.averageScores.reviewAmount == IntCast(ElementToString(Child(scores, "review_amount")))
    && c.totalReviews == IntCast(ElementToString(Child(company, "total_reviews")))
    && c.totalViews == IntCast(ElementToString(Child(company, "total_views")))
  }

  /** Every text field the mapping produces obeys the normalisation rule. */
  lemma ReviewIsNormalised(r: Review, e: Element)
    requires IsReviewOf(r, e)
    ensures NormalisedReview(r)
  {
    var qs := Children(Child(e, "questions"), "question");
    forall j | 0 <= j < |r.questions|
      ensures NormalisedQuestion(r.questions[j])
    {
      assert IsQuestionOf(r.questions[j], qs[j]);
    }
  }

  lemma CompanyIsNormalised(c: Company, content: Element, companyCode: string)
    requires IsCompanyOf(c, content, companyCode)
    ensures NormalisedCompany(c)
  {
    var scores := Child(Child(content, "company"), "average_scores");
    var qs := Children(Child(scores, "questions"), "question");
    forall j | 0 <= j < |c.averageScores.questions|
      ensures NormalisedQuestion(c.averageScores.questions[j])
    {
      assert IsQuestionOf(c.averageScores.questions[j], qs[j]);
    }
  }

  /** The company id never depends on the feed: two feeds parsed for the same
      company code give the same id, the code's integer value. */
  lemma CompanyIdIgnoresFeed(a: Company, b: Company, feedA: Element, feedB: Element, companyCode: int)
    requires IntMin <= companyCode <= IntMax
    requires IsCompanyOf(a, feedA, IntToString(companyCode))
    requires IsCompanyOf(b, feedB, IntToString(companyCode))
    ensures a.id == b.id == companyCode
  {
    CastOfIntToString(companyCode);
  }

  // ---------------------------------------------------------------------------
  // The client

  class Kiyoh {
    const connectorCode: string
    /** An `int` company code is held as its decimal rendering; `IntToString` and
        the `(int)` cast agree on it (see `Php.CastOfIntToString`). */
    const companyCode: string

    constructor (connectorCode: string, companyCode: string)
      ensures this.connectorCode == connectorCode && this.companyCode == companyCode
    {
      this.connectorCode := connectorCode;
      this.companyCode := companyCode;
    }

    /** The feed URL: connector code, company code and page, in that order, in
        the template; the page defaults to 1. */
    function RecentCompanyReviewsUrl(page: int := 1): (url: string)
      ensures url == UrlHead + connectorCode + UrlCompanyKey + companyCode + UrlPageKey + IntToString(page)
    {
      TemplateSubstitution([connectorCode, companyCode, IntToString(page)]);
      Format(RecentCompanyReviewsUrlTemplate, [connectorCode, companyCode, IntToString(page)]).value
    }

    /** The questions that a sequence of `question` elements describes, built by
        appending one per element in order. */
    static method ParseQuestions(elements: seq<Element>) returns (questions: seq<Question>)
      ensures AreQuestionsOf(questions, elements)
    {
      questions := [];
      for i := 0 to |elements|
        invariant AreQuestionsOf(questions, elements[..i])
      {
        var q := elements[i];
        var id := ElementToString(Child(q, "id"));
        var title := ElementToString(Child(q, "title"));
        var score := ElementToString(Child(q, "score"));
        questions := questions + [Question(id, title, score)];
      }
    }

    /** The review one `review` element describes: its customer from the
        `customer` block, its questions in document order, every field normalised. */
    static method ParseReview(r: Element) returns (review: Review)
      ensures IsReviewOf(review, r)
    {
      var rCustomer := Child(r, "customer");
      var customer := Customer(ElementToString(Child(rCustomer, "name")),
                               ElementToString(Child(rCustomer, "place")));
      var questions := ParseQuestions(Children(Child(r, "questions"), "question"));
      var id := ElementToString(Child(r, "id"));
      var date := ElementToString(Child(rCustomer, "date"));
      var totalScore := ElementToString(Child(r, "totalScore"));
      var recommended := ElementToString(Child(r, "recommended"));
      var pros := ElementToString(Child(r, "positive"));
      var cons := ElementToString(Child(r, "negative"));
      review := Review(id, customer, date, totalScore, questions, recommended, pros, cons);
    }

    /** One review per `review` element of the review list, in document order;
        no review elements, no reviews. */
    method ParseReviews(content: Element) returns (reviews: seq<Review>)
      ensures AreReviewsOf(reviews, ReviewElements(content))
      ensures forall i :: 0 <= i < |reviews| ==> NormalisedReview(reviews[i])
    {
      reviews := [];
      var rs := Children(Child(content, "review_list"), "review");
      if |rs| > 0 {
        for i := 0 to |rs|
          invariant AreReviewsOf(reviews, rs[..i])
        {
          var review := ParseReview(rs[i]);
          reviews := reviews + [review];
        }
        assert rs[..|rs|] == rs;
      }
      forall i | 0 <= i < |reviews|
        ensures NormalisedReview(reviews[i])
      {
        ReviewIsNormalised(reviews[i], rs[i]);
      }
    }

    /** The company summary: its id is the configured company code cast to an
        integer, whatever the feed says; every other field is read from the feed's
        `company` element and normalised. */
    method ParseCompany(content: Element) returns (company: Company)
      ensures company.id == StringToInt(companyCode)
      ensures IsCompanyOf(company, content, companyCode)
      ensures NormalisedCompany(company)
    {
      var cCompany := Child(content, "company");
      var cScores := Child(cCompany, "average_scores");
      var questions := ParseQuestions(Children(Child(cScores, "questions"), "question"));
      var cCategory := Child(cCompany, "category");
      company := Company(
        IntCast(Some(companyCode)),
        ElementToString(Child(cCompany, "name")),
        ElementToString(Child(cCompany, "url")),
        Category(IntCast(ElementToString(Child(cCategory, "id"))), ElementToString(Child(cCategory, "title"))),
        ElementToString(Child(cCompany, "total_score")),
        AverageScores(questions, IntCast(ElementToString(Child(cScores, "review_amount")))),
        IntCast(ElementToString(Child(cCompany, "total_reviews"))),
        IntCast(ElementToString(Child(cCompany, "total_views"))));
      CompanyIsNormalised(company, content, companyCode);
    }
  }

  /** The page given is the page the URL asks for: two pages give the same URL
      only when they are equal. */
  lemma UrlDeterminesPage(k: Kiyoh, p: int, q: int)
    requires k.RecentCompanyReviewsUrl(p) == k.RecentCompanyReviewsUrl(q)
    ensures p == q
  {
    var head := UrlHead + k.connectorCode + UrlCompanyKey + k.companyCode + UrlPageKey;
    assert k.RecentCompanyReviewsUrl(p)[|head|..] == IntToString(p);
    assert k.RecentCompanyReviewsUrl(q)[|head|..] == IntToString(q);
    IntToStringInjective(p, q);
  }

  /** The feed URL for connector "ABC123" and company 42, on page 3 and on the
      default page. */
  lemma UrlExample(k: Kiyoh)
    requires k.connectorCode == "ABC123" && k.companyCode == IntToString(42)
    ensures k.RecentCompanyReviewsUrl(3) == UrlHead + "ABC123" + UrlCompanyKey + "42" + UrlPageKey + "3"
    ensures k.RecentCompanyReviewsUrl() == UrlHead + "ABC123" + UrlCompanyKey + "42" + UrlPageKey + "1"
  {
    SmallRenderings();
  }

  lemma SmallRenderings()
    ensures IntToString(42) == "42" && IntToString(3) == "3" && IntToString(1) == "1"
  {
  }

  /** A feed whose `company` element gives category 7 "Retail", a total score
      of "8.5", 120 reviews and an `average_scores` block with a review amount of 5
      and no questions, parsed for company code 42: the id is 42, not the
      category's 7, and the leaves the company element leaves out are null or 0. */
  lemma CompanyExample(c: Company)
    requires IsCompanyOf(c, ExampleFeed(), IntToString(42))
    ensures c.id == 42 && c.category == Category(7, Some("Retail"))
    ensures c.totalScore == Some("8.5") && c.totalReviews == 120
    ensures c.averageScores == AverageScores([], 5)
    ensures c.name == None && c.url == None && c.totalViews == 0
  {
    ExampleLookups();
    ExampleScoresLookups();
    ExampleNumbers();
  }

  lemma ExampleLookups()
    ensures Child(ExampleFeed(), "company") == ExampleCompany()
    ensures Child(ExampleCompany(), "category") == ExampleCategory()
    ensures Child(ExampleCompany(), "total_score") == Element("total_score", "8.5", [])
    ensures Child(ExampleCompany(), "total_reviews") == Element("total_reviews", "120", [])
    ensures Child(ExampleCompany(), "average_scores") == ExampleScores()
    ensures Child(ExampleCategory(), "id") == Element("id", "7", [])
    ensures Child(ExampleCategory(), "title") == Element("title", "Retail", [])
    ensures Child(ExampleCompany(), "name") == Absent
    ensures Child(ExampleCompany(), "url") == Absent
    ensures Child(ExampleCompany(), "total_views") == Absent
  {
    ChildIsFirstNamed(ExampleFeed(), "company", 0);
    ExampleCompanyLookups();
    ExampleCategoryLookups();
    ExampleMissing();
  }

  lemma ExampleCompanyLookups()
    ensures Child(ExampleCompany(), "category") == ExampleCategory()
    ensures Child(ExampleCompany(), "total_score") == Element("total_score", "8.5", [])
    ensures Child(ExampleCompany(), "total_reviews") == Element("total_reviews", "120", [])
    ensures Child(ExampleCompany(), "average_scores") == ExampleScores()
  {
    ChildIsFirstNamed(ExampleCompany(), "category", 0);
    ChildIsFirstNamed(ExampleCompany(), "total_score", 1);
    ChildIsFirstNamed(ExampleCompany(), "total_reviews", 2);
    ChildIsFirstNamed(ExampleCompany(), "average_scores", 3);
  }

  lemma ExampleCategoryLookups()
    ensures Child(ExampleCategory(), "id") == Element("id", "7", [])
    ensures Child(ExampleCategory(), "title") == Element("title", "Retail", [])
  {
    ChildIsFirstNamed(ExampleCategory(), "id", 0);
    ChildIsFirstNamed(ExampleCategory(), "title", 1);
  }

  /** The `average_scores` block: its empty `questions` element holds no
      `question`, and its review amount reads as 5. */
  lemma ExampleScoresLookups()
    ensures Child(ExampleScores(), "questions") == Element("questions", "", [])
    ensures Children(Child(ExampleScores(), "questions"), "question") == []
    ensures Child(ExampleScores(), "review_amount") == Element("review_amount", "5", [])
  {
    ChildIsFirstNamed(ExampleScores(), "questions", 0);
    ChildIsFirstNamed(ExampleScores(), "review_amount", 1);
    ChildMissing(Element("questions", "", []), "question");
  }

  lemma ExampleMissing()
    ensures Child(ExampleCompany(), "name") == Absent
    ensures Child(ExampleCompany(), "url") == Absent
    ensures Child(ExampleCompany(), "total_views") == Absent
  {
    ChildMissing(ExampleCompany(), "name");
    ChildMissing(ExampleCompany(), "url");
    ChildMissing(ExampleCompany(), "total_views");
  }

  lemma ExampleNumbers()
    ensures StringToInt(IntToString(42)) == 42
    ensures StringToInt("7") == 7 && StringToInt("120") == 120 && StringToInt("5") == 5
  {
    ExampleRenderings();
    CastOfIntToString(42);
    CastOfIntToString(7);
    CastOfIntToString(120);
    CastOfIntToString(5);
  }

  lemma ExampleRenderings()
    ensures IntToString(7) == "7" && IntToString(5) == "5" && IntToString(120) == "120"
  {
    assert NatToString(12) == "12";
  }

  function ExampleCategory(): Element
  {
    Element("category", "", [Element("id", "7", []), Element("title", "Retail", [])])
  }

  function ExampleCompany(): Element
  {
    Element("company", "", [
      ExampleCategory(),
      Element("total_score", "8.5", []),
      Element("total_reviews", "120", []),
      ExampleScores()])
  }

  function ExampleScores(): Element
  {
    Element("average_scores", "", [Element("questions", "", []), Element("review_amount", "5", [])])
  }

  function ExampleFeed(): Element
  {
    Element("company_reviews", "", [ExampleCompany()])
  }
}

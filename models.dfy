/** The records the client builds from a feed. Fields follow the order of the
    arguments the client passes to each record's constructor. A text field is
    `None` where PHP holds null: a normalised leaf is never the empty string. */
module Models {
  import opened Php

  datatype Customer = Customer(name: Option<string>, place: Option<string>)

  datatype Question = Question(id: Option<string>, title: Option<string>, score: Option<string>)

  /** `date` is the normalised text the review's timestamp is parsed from. */
  datatype Review = Review(
    id: Option<string>,
    customer: Customer,
    date: Option<string>,
    totalScore: Option<string>,
    questions: seq<Question>,
    recommended: Option<string>,
    pros: Option<string>,
    cons: Option<string>)

  datatype Category = Category(id: int, title: Option<string>)

  datatype AverageScores = AverageScores(questions: seq<Question>, reviewAmount: int)

  /** `totalScore` is the normalised text the company's float score is read from. */
  datatype Company = Company(
    id: int,
    name: Option<string>,
    url: Option<string>,
    category: Category,
    totalScore: Option<string>,
    averageScores: AverageScores,
    totalReviews: int,
    totalViews: int)

  /** The normalisation rule: a text field is absent or non-empty. */
  predicate Normalised(v: Option<string>) { v != Some("") }

  predicate NormalisedQuestion(q: Question)
  {
    Normalised(q.id) && Normalised(q.title) && Normalised(q.score)
  }

  predicate NormalisedReview(r: Review)
  {
    && Normalised(r.id) && Normalised(r.customer.name) && Normalised(r.customer.place)
    && Normalised(r.date) && Normalised(r.totalScore) && Normalised(r.recommended)
    && Normalised(r.pros) && Normalised(r.cons)
    && forall j :: 0 <= j < |r.questions| ==> NormalisedQuestion(r.questions[j])
  }

  predicate NormalisedCompany(c: Company)
  {
    && Normalised(c.name) && Normalised(c.url) && Normalised(c.category.title)
    && Normalised(c.totalScore)
    && forall j :: 0 <= j < |c.averageScores.questions| ==> NormalisedQuestion(c.averageScores.questions[j])
  }
}

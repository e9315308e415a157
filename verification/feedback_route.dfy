/**
 * The `/api/feedback` route: the `where` filter GET builds from the query
 * parameters, and POST's required-field check.
 */
module FeedbackRoute {
  import opened Common

  datatype Feedback = Feedback(
    id: string,
    title: string,
    description: string,
    category: string,
    status: string,
    authorId: string
  )

  /**
   * The `where` object: an exact `category`, an exact `status`, and the `OR`
   * of title/description containing `search`; an absent key filters nothing.
   */
  datatype FeedbackWhere = FeedbackWhere(category: Option<string>, status: Option<string>, search: Option<string>)

  const EMPTY_WHERE: FeedbackWhere := FeedbackWhere(None, None, None)

  /** `contains` with `mode: 'insensitive'`: `query` occurs in `text`, case ignored (ASCII letters). */
  predicate ContainsInsensitive(text: string, query: string) {
    IsSubstring(Lower(query), Lower(text))
  }

  /** The rows a `where` object lets through. */
  predicate Matches(w: FeedbackWhere, f: Feedback) {
    (w.category.None? || f.category == w.category.value) &&
    (w.status.None? || f.status == w.status.value) &&
    (w.search.None? || ContainsInsensitive(f.title, w.search.value) || ContainsInsensitive(f.description, w.search.value))
  }

  /** What a request for the given parameters asks for: every given (non-empty) parameter must hold. */
  predicate Requested(category: Option<string>, status: Option<string>, search: Option<string>, f: Feedback) {
    (!Truthy(category) || f.category == category.value) &&
    (!Truthy(status) || f.status == status.value) &&
    (!Truthy(search) || ContainsInsensitive(f.title, search.value) || ContainsInsensitive(f.description, search.value))
  }

  /** GET's `where`: start empty and add one key per truthy parameter. */
  method BuildWhere(category: Option<string>, status: Option<string>, search: Option<string>)
    returns (where: FeedbackWhere)
    ensures where.category.Some? <==> Truthy(category)
    ensures where.status.Some? <==> Truthy(status)
    ensures where.search.Some? <==> Truthy(search)
    ensures !Truthy(category) && !Truthy(status) && !Truthy(search) ==> where == EMPTY_WHERE
    ensures forall f :: Matches(where, f) <==> Requested(category, status, search, f)
  {
    where := EMPTY_WHERE;
    if Truthy(category) {
      where := where.(category := category);
    }
    if Truthy(status) {
      where := where.(status := status);
    }
    if Truthy(search) {
      where := where.(search := search);
    }
  }

  /** Lower-casing after upper-casing is lower-casing. */
  lemma LowerOfUpper(s: string)
    ensures Lower(Upper(s)) == Lower(s)
  {
    forall i | 0 <= i < |s|
      ensures Lower(Upper(s))[i] == Lower(s)[i]
    {
      var c := s[i];
      assert LowerChar(UpperChar(c)) == LowerChar(c);
    }
  }

  /** The search is case-blind: upper-casing the query or the text changes no match. */
  lemma SearchIgnoresCase(text: string, query: string)
    ensures ContainsInsensitive(text, Upper(query)) <==> ContainsInsensitive(text, query)
    ensures ContainsInsensitive(Upper(text), query) <==> ContainsInsensitive(text, query)
  {
    LowerOfUpper(query);
    LowerOfUpper(text);
  }

  /** Every text contains the empty query, but an empty `search` parameter adds no clause at all. */
  lemma EmptySearchMatchesEverything(f: Feedback)
    ensures ContainsInsensitive(f.title, "")
    ensures Requested(None, None, Some(""), f)
  {
    assert StartsWith(Lower(f.title)[0..], Lower(""));
  }

  // ---------------------------------------------------------------------
  // POST

  /** The record POST creates: exactly the five required fields of the body. */
  datatype FeedbackData = FeedbackData(title: Json, description: Json, category: Json, status: Json, authorId: Json)

  datatype PostResult = Created(data: FeedbackData) | Rejected(error: string)

  function PostStatus(r: PostResult): int {
    if r.Rejected? then 400 else 201
  }

  /** POST: 400 "Missing required fields" unless all five fields are truthy, else 201 with those fields. */
  function ValidateFeedback(title: Json, description: Json, category: Json, status: Json, authorId: Json): (r: PostResult)
    ensures r.Rejected? <==>
      !JsonTruthy(title) || !JsonTruthy(description) || !JsonTruthy(category) || !JsonTruthy(status) || !JsonTruthy(authorId)
    ensures r.Rejected? ==> r.error == "Missing required fields" && PostStatus(r) == 400
    ensures r.Created? ==> PostStatus(r) == 201
    ensures r.Created? ==> r.data == FeedbackData(title, description, category, status, authorId)
  {
    if !JsonTruthy(title) || !JsonTruthy(description) || !JsonTruthy(category) || !JsonTruthy(status) || !JsonTruthy(authorId) then
      Rejected("Missing required fields")
    else
      Created(FeedbackData(title, description, category, status, authorId))
  }
}

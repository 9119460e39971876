// The bucket list (src/pages/Buckets/Buckets.tsx): the search-and-visibility
// filter over the fetched buckets and the number of question sets shown for
// each.
module Buckets {
  import opened Text
  import opened BucketSchema

  /** A fetched bucket; `questionNumber` is the list of counts the query returns for its question sets. */
  datatype Bucket = Bucket(
    id: string,
    name: string,
    subject: string,
    level: string,
    trainingType: string,
    visibility: Visibility,
    questionNumber: seq<nat>)

  /** The visibility filter: `'all'` or one visibility. */
  datatype VisibilityFilter = AllBuckets | Only(visibility: Visibility)

  /** The search term, case-insensitively, is part of the name, the subject or the level. */
  predicate MatchesSearch(b: Bucket, term: string) {
    var t := ToLower(term);
    Contains(ToLower(b.name), t) || Contains(ToLower(b.subject), t) || Contains(ToLower(b.level), t)
  }

  predicate MatchesFilter(b: Bucket, filter: VisibilityFilter) {
    filter.AllBuckets? || b.visibility == filter.visibility
  }

  predicate Kept(b: Bucket, term: string, filter: VisibilityFilter) {
    MatchesSearch(b, term) && MatchesFilter(b, filter)
  }

  /** `filteredBuckets`: the buckets that match both, in their fetched order. */
  function FilterBuckets(buckets: seq<Bucket>, term: string, filter: VisibilityFilter): (r: seq<Bucket>)
    ensures |r| <= |buckets|
    ensures forall b :: b in r <==> b in buckets && Kept(b, term, filter)
  {
    if buckets == [] then []
    else
      var rest := FilterBuckets(buckets[1..], term, filter);
      assert forall b :: b in buckets <==> b == buckets[0] || b in buckets[1..];
      if Kept(buckets[0], term, filter) then [buckets[0]] + rest else rest
  }

  /** `a` is `b` with some elements left out, the rest in the same order. */
  predicate IsSubsequence(a: seq<Bucket>, b: seq<Bucket>)
    decreases |b|
  {
    if a == [] then true
    else if b == [] then false
    else if a[0] == b[0] then IsSubsequence(a[1..], b[1..])
    else IsSubsequence(a, b[1..])
  }

  /** The filter keeps the fetched order: its result is a subsequence of the buckets. */
  lemma {:induction false} FilterKeepsOrder(buckets: seq<Bucket>, term: string, filter: VisibilityFilter)
    ensures IsSubsequence(FilterBuckets(buckets, term, filter), buckets)
    decreases |buckets|
  {
    if buckets != [] {
      var rest := FilterBuckets(buckets[1..], term, filter);
      FilterKeepsOrder(buckets[1..], term, filter);
      if Kept(buckets[0], term, filter) {
        assert ([buckets[0]] + rest)[1..] == rest;
      } else {
        SubsequenceWeaken(rest, buckets[1..], buckets[0]);
        assert [buckets[0]] + buckets[1..] == buckets;
      }
    }
  }

  /** Dropping the first element keeps a subsequence a subsequence. */
  lemma {:induction false} SubsequenceDropFirst(a: seq<Bucket>, b: seq<Bucket>)
    requires a != [] && IsSubsequence(a, b)
    ensures IsSubsequence(a[1..], b)
    decreases |b|, 0
  {
    if a[0] == b[0] {
      SubsequenceWeaken(a[1..], b[1..], b[0]);
    } else {
      SubsequenceDropFirst(a, b[1..]);
      SubsequenceWeaken(a[1..], b[1..], b[0]);
    }
    assert [b[0]] + b[1..] == b;
  }

  /** Putting one more element in front keeps a subsequence a subsequence. */
  lemma {:induction false} SubsequenceWeaken(a: seq<Bucket>, b: seq<Bucket>, x: Bucket)
    requires IsSubsequence(a, b)
    ensures IsSubsequence(a, [x] + b)
    decreases |b|, 1
  {
    assert ([x] + b)[1..] == b;
    if a != [] && a[0] == x {
      SubsequenceDropFirst(a, b);
    }
  }

  /** An empty search with the `'all'` filter keeps every bucket. */
  lemma {:induction false} EmptySearchKeepsAll(buckets: seq<Bucket>)
    ensures FilterBuckets(buckets, "", AllBuckets) == buckets
    decreases |buckets|
  {
    if buckets != [] {
      ContainsEmpty(ToLower(buckets[0].name));
      assert ToLower("") == "";
      assert Kept(buckets[0], "", AllBuckets);
      EmptySearchKeepsAll(buckets[1..]);
    }
  }

  /** The search ignores the case of the term. */
  lemma SearchIgnoresCase(buckets: seq<Bucket>, term: string, filter: VisibilityFilter)
    ensures FilterBuckets(buckets, ToLower(term), filter) == FilterBuckets(buckets, term, filter)
  {
    assert ToLower(ToLower(term)) == ToLower(term);
    assert forall b :: MatchesSearch(b, ToLower(term)) == MatchesSearch(b, term);
    FilterDependsOnlyOnKept(buckets, ToLower(term), term, filter);
  }

  /** Two terms that keep the same buckets filter alike. */
  lemma {:induction false} FilterDependsOnlyOnKept(buckets: seq<Bucket>, t1: string, t2: string, filter: VisibilityFilter)
    requires forall b :: MatchesSearch(b, t1) == MatchesSearch(b, t2)
    ensures FilterBuckets(buckets, t1, filter) == FilterBuckets(buckets, t2, filter)
    decreases |buckets|
  {
    if buckets != [] {
      FilterDependsOnlyOnKept(buckets[1..], t1, t2, filter);
    }
  }

  /**
    * What the embedded `questions(count)` select returns for a bucket owning `sets` question sets:
    * a single row holding that number.
    */
  function CountQuery(sets: nat): seq<nat> {
    [sets]
  }

  /** `getQuestionCount`: the first count, or 0 when the bucket has no count row. */
  function QuestionCount(b: Bucket): (n: nat)
    ensures n > 0 ==> b.questionNumber != [] && n == b.questionNumber[0]
  {
    if b.questionNumber == [] then 0 else b.questionNumber[0]
  }

  /** For a fetched bucket the number shown is the number of its question sets. */
  lemma ShownCountIsSetCount(b: Bucket, sets: nat)
    requires b.questionNumber == CountQuery(sets)
    ensures QuestionCount(b) == sets
  {
  }

  /** A bucket that came back without a count row shows 0. */
  lemma NoCountRowShowsZero(b: Bucket)
    requires b.questionNumber == []
    ensures QuestionCount(b) == 0
  {
  }

  /** The word after the count: singular for exactly one, plural otherwise (0 included). */
  function CountLabel(n: nat): (r: string)
    ensures r == "Question" <==> n == 1
    ensures r != "Question" ==> r == "Questions"
  {
    if n == 1 then "Question" else "Questions"
  }

  /** A fetched bucket is labelled in the singular exactly when it owns one question set. */
  lemma {:induction false} LabelSingularIffOneSet(b: Bucket, sets: nat)
    requires b.questionNumber == CountQuery(sets)
    ensures CountLabel(QuestionCount(b)) == "Question" <==> sets == 1
  {
    ShownCountIsSetCount(b, sets);
  }
}

/**
 * The work done by process_task inside its try block: fetch the news, classify
 * every news item against every pair, keep a running [sum1, sum2, count] per
 * pair key, then turn the sums into averages.
 *
 * The news fetch and the classifier are parameters: the fetch is its result
 * (a list of strings, or the message of the exception it raised), and the
 * classifier a function from (text, class1, class2) to two probabilities or the
 * message of the exception it raised.
 *
 * `Process` is the specification of the whole computation; `RunPipeline` performs
 * it step by step, with the source's loops, and is proved to agree with it.
 */
module Aggregation {
  import opened Wrappers
  import opened BaseNews

  /** What classifier.predict(text, [class1, class2]) does: two probabilities, or an exception. */
  datatype Prediction = Probabilities(p1: real, p2: real) | Raised(message: string)

  type Classifier = (string, string, string) -> Prediction

  /** One entry `{"class1 / class2": [p1, p2]}` of a news item's classification list. */
  datatype Classification = Classification(key: string, p1: real, p2: real)

  /** `{'text': news, 'classification': [...]}` */
  datatype NewsResult = NewsResult(text: string, classification: seq<Classification>)

  /**
   * A summary value `[first, second, count]`: the two running sums while
   * classifying, the two averages afterwards; `count` is the number of
   * classifications folded in.
   */
  datatype Stat = Stat(first: real, second: real, count: nat)

  /** `{'news_results': ..., 'summary': ...}` */
  datatype TaskResult = TaskResult(newsResults: seq<NewsResult>, summary: map<string, Stat>)

  /** What process_task writes into the record: a result, or an error message. */
  datatype Outcome = Produced(result: TaskResult) | Failed(error: string)

  const PARSING_ERROR := "Parsing error"
  const UNEXPECTED_ERROR := "Unexpected error"
  const ZERO := Stat(0.0, 0.0, 0)

  /** The summary key of a pair, f"{class1} / {class2}". */
  function Key(p: Pair): string {
    p.class1 + " / " + p.class2
  }

  /** The keys of the summary dictionary built from `pairs` (duplicates collapse). */
  function PairKeys(pairs: seq<Pair>): set<string> {
    set j | 0 <= j < |pairs| :: Key(pairs[j])
  }

  /** How many pairs have key `k`. */
  function Occurrences(pairs: seq<Pair>, k: string): nat
    decreases |pairs|
  {
    if pairs == [] then 0
    else Occurrences(pairs[..|pairs| - 1], k) + (if Key(pairs[|pairs| - 1]) == k then 1 else 0)
  }

  function Predict(classify: Classifier, text: string, p: Pair): Prediction {
    classify(text, p.class1, p.class2)
  }

  /** The classification list of one news item, or the first classifier exception, in pair order. */
  function ClassifyItem(classify: Classifier, text: string, pairs: seq<Pair>): Result<seq<Classification>, string>
    decreases |pairs|
  {
    if pairs == [] then Success([])
    else
      var p := pairs[|pairs| - 1];
      match ClassifyItem(classify, text, pairs[..|pairs| - 1])
      case Failure(e) => Failure(e)
      case Success(cs) =>
        match Predict(classify, text, p)
        case Raised(m) => Failure(m)
        case Probabilities(a, b) => Success(cs + [Classification(Key(p), a, b)])
  }

  /** The news results of all items, or the first classifier exception, items before pairs. */
  function ClassifyAll(classify: Classifier, news: seq<string>, pairs: seq<Pair>): Result<seq<NewsResult>, string>
    decreases |news|
  {
    if news == [] then Success([])
    else
      var text := news[|news| - 1];
      match ClassifyAll(classify, news[..|news| - 1], pairs)
      case Failure(e) => Failure(e)
      case Success(rs) =>
        match ClassifyItem(classify, text, pairs)
        case Failure(e) => Failure(e)
        case Success(cs) => Success(rs + [NewsResult(text, cs)])
  }

  function Plus(s: Stat, t: Stat): Stat {
    Stat(s.first + t.first, s.second + t.second, s.count + t.count)
  }

  /** The sums and count, over the successful predictions for one text, of the pairs with key `k`. */
  function PairTally(classify: Classifier, text: string, pairs: seq<Pair>, k: string): Stat
    decreases |pairs|
  {
    if pairs == [] then ZERO
    else
      var p := pairs[|pairs| - 1];
      var t := PairTally(classify, text, pairs[..|pairs| - 1], k);
      match Predict(classify, text, p)
      case Probabilities(a, b) => if Key(p) == k then Stat(t.first + a, t.second + b, t.count + 1) else t
      case Raised(_) => t
  }

  /** The sums and count, over all news items and all pairs with key `k`. */
  function NewsTally(classify: Classifier, news: seq<string>, pairs: seq<Pair>, k: string): Stat
    decreases |news|
  {
    if news == [] then ZERO
    else Plus(NewsTally(classify, news[..|news| - 1], pairs, k), PairTally(classify, news[|news| - 1], pairs, k))
  }

  /** The summary before averaging: one total per pair key. */
  function Totals(classify: Classifier, news: seq<string>, pairs: seq<Pair>): map<string, Stat> {
    map k | k in PairKeys(pairs) :: NewsTally(classify, news, pairs, k)
  }

  /** The averaging step for one summary value, with its guard for a zero count. */
  function Average(s: Stat): Stat {
    if s.count != 0 then Stat(s.first / s.count as real, s.second / s.count as real, s.count)
    else Stat(0.0, 0.0, s.count)
  }

  function Averages(m: map<string, Stat>): map<string, Stat> {
    map k | k in m :: Average(m[k])
  }

  /**
   * What process_task computes for a task whose input has `pairs`, once the news
   * fetch has produced `fetched`.
   */
  function Process(fetched: Result<seq<string>, string>, pairs: seq<Pair>, classify: Classifier): Outcome {
    match fetched
    case Failure(e) => Failed(e)
    case Success(news) =>
      if |news| == 0 then Failed(PARSING_ERROR)
      else
        match ClassifyAll(classify, news, pairs)
        case Failure(e) => Failed(e)
        case Success(results) =>
          if |results| > 0 then Produced(TaskResult(results, Averages(Totals(classify, news, pairs))))
          else Failed(UNEXPECTED_ERROR)
  }

  /**
   * The body of process_task's try block, step by step: the per-item loop, the
   * per-pair loop with its in-place update of the summary, and the averaging loop.
   */
  method RunPipeline(fetched: Result<seq<string>, string>, pairs: seq<Pair>, classify: Classifier)
    returns (outcome: Outcome)
    ensures outcome == Process(fetched, pairs, classify)
  {
    if fetched.Failure? {
      return Failed(fetched.error);
    }
    var news := fetched.value;
    if |news| == 0 {
      return Failed(PARSING_ERROR);
    }
    var results: seq<NewsResult> := [];
    var summary: map<string, Stat> := map k | k in PairKeys(pairs) :: ZERO;
    var i := 0;
    while i < |news|
      invariant 0 <= i <= |news|
      invariant ClassifyAll(classify, news[..i], pairs) == Success(results)
      invariant summary.Keys == PairKeys(pairs)
      invariant forall k :: k in summary ==> summary[k] == NewsTally(classify, news[..i], pairs, k)
    {
      var text := news[i];
      var classified, updated := ClassifyNewsItem(classify, text, pairs, summary);
      if classified.Failure? {
        // The exception leaves the loops; nothing computed so far is kept.
        ItemFailureAborts(classify, news, pairs, i);
        return Failed(classified.error);
      }
      AddNewsItem(classify, news, pairs, i, summary, updated);
      ClassifyAllStep(classify, news, pairs, i);
      summary := updated;
      results := results + [NewsResult(text, classified.value)];
      i := i + 1;
    }
    FinishPipeline(classify, news, pairs, results, summary);
    summary := AverageSummary(summary);
    if |results| > 0 {
      outcome := Produced(TaskResult(results, summary));
    } else {
      outcome := Failed(UNEXPECTED_ERROR);
    }
  }

  /** Folding item i's per-pair tallies into the summary keeps the outer loop's invariant. */
  lemma AddNewsItem(classify: Classifier, news: seq<string>, pairs: seq<Pair>, i: nat,
                    summary: map<string, Stat>, updated: map<string, Stat>)
    requires i < |news|
    requires updated.Keys == summary.Keys
    requires forall k :: k in summary ==> summary[k] == NewsTally(classify, news[..i], pairs, k)
    requires forall k :: k in updated ==> updated[k] == Plus(summary[k], PairTally(classify, news[i], pairs, k))
    ensures forall k :: k in updated ==> updated[k] == NewsTally(classify, news[..i + 1], pairs, k)
  {
    assert news[..i + 1][..i] == news[..i];
  }

  /** Once every item is folded in, the summary holds the totals and the outcome is settled. */
  lemma FinishPipeline(classify: Classifier, news: seq<string>, pairs: seq<Pair>,
                       results: seq<NewsResult>, summary: map<string, Stat>)
    requires |news| > 0
    requires ClassifyAll(classify, news[..|news|], pairs) == Success(results)
    requires summary.Keys == PairKeys(pairs)
    requires forall k :: k in summary ==> summary[k] == NewsTally(classify, news[..|news|], pairs, k)
    ensures Process(Success(news), pairs, classify) ==
      if |results| > 0 then Produced(TaskResult(results, Averages(summary))) else Failed(UNEXPECTED_ERROR)
  {
    assert news[..|news|] == news;
    assert summary == Totals(classify, news, pairs);
  }

  /** The in-place update of the summary for a successful prediction on pair j keeps the loop invariant. */
  lemma AddPrediction(classify: Classifier, text: string, pairs: seq<Pair>, j: nat,
                      summary: map<string, Stat>, before: map<string, Stat>)
    requires j < |pairs|
    requires Predict(classify, text, pairs[j]).Probabilities?
    requires summary.Keys == PairKeys(pairs) && before.Keys == summary.Keys
    requires forall k :: k in before ==> before[k] == Plus(summary[k], PairTally(classify, text, pairs[..j], k))
    ensures Key(pairs[j]) in before
    ensures
      var key := Key(pairs[j]);
      var pr := Predict(classify, text, pairs[j]);
      var after := before[key := Stat(before[key].first + pr.p1, before[key].second + pr.p2, before[key].count + 1)];
      && after.Keys == summary.Keys
      && forall k :: k in after ==> after[k] == Plus(summary[k], PairTally(classify, text, pairs[..j + 1], k))
  {
    var key := Key(pairs[j]);
    assert key in PairKeys(pairs);
    var pr := Predict(classify, text, pairs[j]);
    var after := before[key := Stat(before[key].first + pr.p1, before[key].second + pr.p2, before[key].count + 1)];
    forall k | k in after
      ensures after[k] == Plus(summary[k], PairTally(classify, text, pairs[..j + 1], k))
    {
      PairTallyStep(classify, text, pairs, j, k);
    }
  }

  /** Adding pair j to the pairs already seen changes only the tally of its own key. */
  lemma PairTallyStep(classify: Classifier, text: string, pairs: seq<Pair>, j: nat, k: string)
    requires j < |pairs|
    requires Predict(classify, text, pairs[j]).Probabilities?
    ensures
      var t := PairTally(classify, text, pairs[..j], k);
      var pr := Predict(classify, text, pairs[j]);
      PairTally(classify, text, pairs[..j + 1], k) ==
        if Key(pairs[j]) == k then Stat(t.first + pr.p1, t.second + pr.p2, t.count + 1) else t
  {
    assert pairs[..j + 1][..j] == pairs[..j];
    assert pairs[..j + 1][j] == pairs[j];
  }

  lemma ClassifyItemStep(classify: Classifier, text: string, pairs: seq<Pair>, j: nat)
    requires j < |pairs|
    requires ClassifyItem(classify, text, pairs[..j]).Success?
    requires Predict(classify, text, pairs[j]).Probabilities?
    ensures
      var pr := Predict(classify, text, pairs[j]);
      ClassifyItem(classify, text, pairs[..j + 1]) ==
        Success(ClassifyItem(classify, text, pairs[..j]).value + [Classification(Key(pairs[j]), pr.p1, pr.p2)])
  {
    assert pairs[..j + 1][..j] == pairs[..j];
  }

  lemma ClassifyAllStep(classify: Classifier, news: seq<string>, pairs: seq<Pair>, i: nat)
    requires i < |news|
    requires ClassifyAll(classify, news[..i], pairs).Success?
    requires ClassifyItem(classify, news[i], pairs).Success?
    ensures ClassifyAll(classify, news[..i + 1], pairs) ==
      Success(ClassifyAll(classify, news[..i], pairs).value + [NewsResult(news[i], ClassifyItem(classify, news[i], pairs).value)])
  {
    assert news[..i + 1][..i] == news[..i];
  }

  /**
   * The per-pair loop's invariant after the first j pairs: the classification
   * list so far, and each key's running sums grown by this item's tallies.
   */
  ghost predicate ItemProgress(classify: Classifier, text: string, pairs: seq<Pair>, j: nat,
                               summary: map<string, Stat>, updated: map<string, Stat>,
                               classification: seq<Classification>)
  {
    && j <= |pairs|
    && ClassifyItem(classify, text, pairs[..j]) == Success(classification)
    && updated.Keys == summary.Keys
    && forall k :: k in updated ==> updated[k] == Plus(summary[k], PairTally(classify, text, pairs[..j], k))
  }

  /**
   * The per-pair loop for one news item: classify it against each pair in turn,
   * adding each prediction to its key's running sums in `summary`.
   */
  method ClassifyNewsItem(classify: Classifier, text: string, pairs: seq<Pair>, summary: map<string, Stat>)
    returns (classified: Result<seq<Classification>, string>, updated: map<string, Stat>)
    requires summary.Keys == PairKeys(pairs)
    ensures classified == ClassifyItem(classify, text, pairs)
    ensures classified.Success? ==>
      && updated.Keys == summary.Keys
      && forall k :: k in updated ==> updated[k] == Plus(summary[k], PairTally(classify, text, pairs, k))
  {
    var classification: seq<Classification> := [];
    updated := summary;
    var j := 0;
    while j < |pairs|
      invariant ItemProgress(classify, text, pairs, j, summary, updated, classification)
    {
      var p := pairs[j];
      var prediction := classify(text, p.class1, p.class2);
      if prediction.Raised? {
        ItemFailure(classify, text, pairs, j, summary, updated, classification);
        return Failure(prediction.message), updated;
      }
      ItemStep(classify, text, pairs, j, summary, updated, classification);
      var key := Key(p);
      var s := updated[key];
      updated := updated[key := Stat(s.first + prediction.p1, s.second + prediction.p2, s.count + 1)];
      classification := classification + [Classification(key, prediction.p1, prediction.p2)];
      j := j + 1;
    }
    ItemEnd(classify, text, pairs, summary, updated, classification);
    classified := Success(classification);
  }

  /** A successful prediction on pair j, added in place to its key's sums, keeps the invariant. */
  lemma ItemStep(classify: Classifier, text: string, pairs: seq<Pair>, j: nat,
                 summary: map<string, Stat>, updated: map<string, Stat>, classification: seq<Classification>)
    requires j < |pairs|
    requires summary.Keys == PairKeys(pairs)
    requires ItemProgress(classify, text, pairs, j, summary, updated, classification)
    requires Predict(classify, text, pairs[j]).Probabilities?
    ensures Key(pairs[j]) in updated
    ensures
      var key := Key(pairs[j]);
      var pr := Predict(classify, text, pairs[j]);
      var s := updated[key];
      ItemProgress(classify, text, pairs, j + 1, summary,
                   updated[key := Stat(s.first + pr.p1, s.second + pr.p2, s.count + 1)],
                   classification + [Classification(key, pr.p1, pr.p2)])
  {
    ClassifyItemStep(classify, text, pairs, j);
    AddPrediction(classify, text, pairs, j, summary, updated);
  }

  /** A classifier exception on pair j is the outcome for the whole item. */
  lemma ItemFailure(classify: Classifier, text: string, pairs: seq<Pair>, j: nat,
                    summary: map<string, Stat>, updated: map<string, Stat>, classification: seq<Classification>)
    requires j < |pairs|
    requires ItemProgress(classify, text, pairs, j, summary, updated, classification)
    requires Predict(classify, text, pairs[j]).Raised?
    ensures ClassifyItem(classify, text, pairs) == Failure(Predict(classify, text, pairs[j]).message)
  {
    assert pairs[..j + 1][..j] == pairs[..j];
    ItemFailurePersists(classify, text, pairs, j + 1);
  }

  lemma ItemEnd(classify: Classifier, text: string, pairs: seq<Pair>,
                summary: map<string, Stat>, updated: map<string, Stat>, classification: seq<Classification>)
    requires ItemProgress(classify, text, pairs, |pairs|, summary, updated, classification)
    ensures ClassifyItem(classify, text, pairs) == Success(classification)
    ensures updated.Keys == summary.Keys
    ensures forall k :: k in updated ==> updated[k] == Plus(summary[k], PairTally(classify, text, pairs, k))
  {
    assert pairs[..|pairs|] == pairs;
  }

  /** The averaging loop: each value's sums become averages, in place. */
  method AverageSummary(totals: map<string, Stat>) returns (summary: map<string, Stat>)
    ensures summary == Averages(totals)
  {
    summary := totals;
    var pending := summary.Keys;
    while pending != {}
      invariant pending <= totals.Keys
      invariant summary.Keys == totals.Keys
      invariant forall k :: k in totals ==> summary[k] == if k in pending then totals[k] else Average(totals[k])
      decreases pending
    {
      var k :| k in pending;
      summary := summary[k := Average(summary[k])];
      pending := pending - {k};
    }
  }

  /** A classifier exception on item i, when every earlier item succeeded, is the outcome of the whole computation. */
  lemma ItemFailureAborts(classify: Classifier, news: seq<string>, pairs: seq<Pair>, i: nat)
    requires i < |news|
    requires ClassifyAll(classify, news[..i], pairs).Success?
    requires ClassifyItem(classify, news[i], pairs).Failure?
    ensures Process(Success(news), pairs, classify) == Failed(ClassifyItem(classify, news[i], pairs).error)
  {
    assert news[..i + 1][..i] == news[..i];
    AllFailurePersists(classify, news, pairs, i + 1);
  }

  /** A failure on a prefix of the pairs is the failure on all of them. */
  lemma {:induction false} ItemFailurePersists(classify: Classifier, text: string, pairs: seq<Pair>, t: nat)
    requires t <= |pairs|
    requires ClassifyItem(classify, text, pairs[..t]).Failure?
    ensures ClassifyItem(classify, text, pairs) == ClassifyItem(classify, text, pairs[..t])
    decreases |pairs|
  {
    if t < |pairs| {
      var n := |pairs| - 1;
      assert pairs[..n][..t] == pairs[..t];
      ItemFailurePersists(classify, text, pairs[..n], t);
    } else {
      assert pairs[..t] == pairs;
    }
  }

  /** A failure on a prefix of the news is the failure on all of it. */
  lemma {:induction false} AllFailurePersists(classify: Classifier, news: seq<string>, pairs: seq<Pair>, t: nat)
    requires t <= |news|
    requires ClassifyAll(classify, news[..t], pairs).Failure?
    ensures ClassifyAll(classify, news, pairs) == ClassifyAll(classify, news[..t], pairs)
    decreases |news|
  {
    if t < |news| {
      var n := |news| - 1;
      assert news[..n][..t] == news[..t];
      AllFailurePersists(classify, news[..n], pairs, t);
    } else {
      assert news[..t] == news;
    }
  }
}

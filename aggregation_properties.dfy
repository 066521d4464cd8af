/**
 * What process_task's computation guarantees: the error paths, the shape of the
 * news results, the per-key counts and averages of the summary, and the
 * averages of a normalised classifier.
 */
module AggregationProperties {
  import opened Wrappers
  import opened BaseNews
  import opened Aggregation

  /** Every classifier call on the items of `news` and the pairs of `pairs` returns probabilities. */
  ghost predicate AllPredicted(classify: Classifier, news: seq<string>, pairs: seq<Pair>) {
    forall i, j :: 0 <= i < |news| && 0 <= j < |pairs| ==> Predict(classify, news[i], pairs[j]).Probabilities?
  }

  /** The classifier raises on item i, pair j, and on no earlier call (items first, then pairs). */
  ghost predicate FirstRaised(classify: Classifier, news: seq<string>, pairs: seq<Pair>, i: int, j: int) {
    && 0 <= i < |news| && 0 <= j < |pairs|
    && Predict(classify, news[i], pairs[j]).Raised?
    && forall i', j' :: 0 <= i' < |news| && 0 <= j' < |pairs| && (i' < i || (i' == i && j' < j)) ==>
         Predict(classify, news[i'], pairs[j']).Probabilities?
  }

  /** The classifier's two values always sum to one (the normalisation `proba /= sum(proba)`). */
  ghost predicate Normalized(classify: Classifier) {
    forall t, c1, c2 :: classify(t, c1, c2).Probabilities? ==> classify(t, c1, c2).p1 + classify(t, c1, c2).p2 == 1.0
  }

  /**
   * One item's classification list: one entry per pair, in pair order, keyed by
   * the pair and holding its probabilities; or else the first exception.
   */
  lemma {:induction false} ClassifyItemCorrect(classify: Classifier, text: string, pairs: seq<Pair>)
    ensures ClassifyItem(classify, text, pairs).Success? <==>
      forall j :: 0 <= j < |pairs| ==> Predict(classify, text, pairs[j]).Probabilities?
    ensures ClassifyItem(classify, text, pairs).Success? ==>
      var cs := ClassifyItem(classify, text, pairs).value;
      && |cs| == |pairs|
      && forall j :: 0 <= j < |pairs| ==>
           cs[j] == Classification(Key(pairs[j]), Predict(classify, text, pairs[j]).p1, Predict(classify, text, pairs[j]).p2)
    ensures ClassifyItem(classify, text, pairs).Failure? ==>
      exists j :: && 0 <= j < |pairs|
                  && Predict(classify, text, pairs[j]) == Raised(ClassifyItem(classify, text, pairs).error)
                  && forall j' :: 0 <= j' < j ==> Predict(classify, text, pairs[j']).Probabilities?
    decreases |pairs|
  {
    if pairs != [] {
      var n := |pairs| - 1;
      var prefix := pairs[..n];
      ClassifyItemCorrect(classify, text, prefix);
      assert forall j :: 0 <= j < n ==> prefix[j] == pairs[j];
      match ClassifyItem(classify, text, prefix)
      case Failure(e) =>
        var j :| 0 <= j < n && Predict(classify, text, prefix[j]) == Raised(e)
                 && forall j' :: 0 <= j' < j ==> Predict(classify, text, prefix[j']).Probabilities?;
        assert Predict(classify, text, pairs[j]) == Raised(e);
      case Success(cs) =>
        if Predict(classify, text, pairs[n]).Raised? {
          assert Predict(classify, text, pairs[n]) == Raised(ClassifyItem(classify, text, pairs).error);
        }
    }
  }

  /**
   * All news results: one per item, in item order, with that item's text and
   * classification list; or else the first exception, items before pairs.
   */
  lemma {:induction false} ClassifyAllCorrect(classify: Classifier, news: seq<string>, pairs: seq<Pair>)
    ensures ClassifyAll(classify, news, pairs).Success? <==> AllPredicted(classify, news, pairs)
    ensures ClassifyAll(classify, news, pairs).Success? ==>
      var rs := ClassifyAll(classify, news, pairs).value;
      && |rs| == |news|
      && forall i :: 0 <= i < |news| ==>
           rs[i].text == news[i] && ClassifyItem(classify, news[i], pairs) == Success(rs[i].classification)
    ensures ClassifyAll(classify, news, pairs).Failure? ==>
      exists i, j :: FirstRaised(classify, news, pairs, i, j) &&
                     Predict(classify, news[i], pairs[j]).message == ClassifyAll(classify, news, pairs).error
    decreases |news|
  {
    if news != [] {
      var n := |news| - 1;
      var prefix := news[..n];
      ClassifyAllCorrect(classify, prefix, pairs);
      ClassifyItemCorrect(classify, news[n], pairs);
      assert forall i :: 0 <= i < n ==> prefix[i] == news[i];
      match ClassifyAll(classify, prefix, pairs)
      case Failure(e) =>
        var i, j :| FirstRaised(classify, prefix, pairs, i, j) && Predict(classify, prefix[i], pairs[j]).message == e;
        assert FirstRaised(classify, news, pairs, i, j);
      case Success(rs) =>
        match ClassifyItem(classify, news[n], pairs)
        case Failure(e) =>
          var j :| && 0 <= j < |pairs|
                   && Predict(classify, news[n], pairs[j]) == Raised(e)
                   && forall j' :: 0 <= j' < j ==> Predict(classify, news[n], pairs[j']).Probabilities?;
          assert FirstRaised(classify, news, pairs, n, j);
        case Success(cs) =>
          assert forall i, j :: 0 <= i < |news| && 0 <= j < |pairs| ==>
            Predict(classify, news[i], pairs[j]).Probabilities? by {
            forall i, j | 0 <= i < |news| && 0 <= j < |pairs|
              ensures Predict(classify, news[i], pairs[j]).Probabilities?
            {
              if i < n { assert Predict(classify, prefix[i], pairs[j]).Probabilities?; }
            }
          }
    }
  }

  /**
   * The outcome of process_task: the fetch's own exception; "Parsing error" for
   * no news; otherwise a result exactly when every classifier call succeeds, and
   * else the message of the first call that raised. The "Unexpected error"
   * branch is never taken on its own account.
   */
  lemma ProcessOutcome(fetched: Result<seq<string>, string>, pairs: seq<Pair>, classify: Classifier)
    ensures fetched.Failure? ==> Process(fetched, pairs, classify) == Failed(fetched.error)
    ensures fetched == Success([]) ==> Process(fetched, pairs, classify) == Failed(PARSING_ERROR)
    ensures fetched.Success? && |fetched.value| > 0 ==>
      (Process(fetched, pairs, classify).Produced? <==> AllPredicted(classify, fetched.value, pairs))
    ensures fetched.Success? && |fetched.value| > 0 && Process(fetched, pairs, classify).Failed? ==>
      exists i, j :: FirstRaised(classify, fetched.value, pairs, i, j) &&
                     Process(fetched, pairs, classify).error == Predict(classify, fetched.value[i], pairs[j]).message
  {
    if fetched.Success? && |fetched.value| > 0 {
      ClassifyAllCorrect(classify, fetched.value, pairs);
    }
  }

  /** Non-empty news on which every classifier call succeeds produces a result. */
  lemma AllPredictedProduces(news: seq<string>, pairs: seq<Pair>, classify: Classifier)
    requires |news| > 0
    requires AllPredicted(classify, news, pairs)
    ensures Process(Success(news), pairs, classify).Produced?
  {
    ClassifyAllCorrect(classify, news, pairs);
  }

  /** Conversely, a produced result means non-empty news on which every classifier call succeeded. */
  lemma ProducedAllPredicted(fetched: Result<seq<string>, string>, pairs: seq<Pair>, classify: Classifier)
    requires Process(fetched, pairs, classify).Produced?
    ensures fetched.Success? && |fetched.value| > 0
    ensures AllPredicted(classify, fetched.value, pairs)
  {
    ClassifyAllCorrect(classify, fetched.value, pairs);
  }

  /**
   * A produced result has one news result per item, in order, with the item's
   * text, and one classification per pair, in order, holding that call's
   * probabilities under the pair's key.
   */
  lemma ProducedShape(fetched: Result<seq<string>, string>, pairs: seq<Pair>, classify: Classifier)
    requires Process(fetched, pairs, classify).Produced?
    ensures fetched.Success? && |fetched.value| > 0
    ensures
      var news := fetched.value;
      var rs := Process(fetched, pairs, classify).result.newsResults;
      && |rs| == |news|
      && (forall i :: 0 <= i < |news| ==> rs[i].text == news[i] && |rs[i].classification| == |pairs|)
      && forall i, j :: 0 <= i < |news| && 0 <= j < |pairs| ==>
           && Predict(classify, news[i], pairs[j]).Probabilities?
           && rs[i].classification[j] ==
             Classification(Key(pairs[j]), Predict(classify, news[i], pairs[j]).p1, Predict(classify, news[i], pairs[j]).p2)
  {
    var news := fetched.value;
    ClassifyAllCorrect(classify, news, pairs);
    var rs := Process(fetched, pairs, classify).result.newsResults;
    forall i | 0 <= i < |news|
      ensures rs[i].text == news[i] && |rs[i].classification| == |pairs|
      ensures forall j :: 0 <= j < |pairs| ==>
        && Predict(classify, news[i], pairs[j]).Probabilities?
        && rs[i].classification[j] ==
          Classification(Key(pairs[j]), Predict(classify, news[i], pairs[j]).p1, Predict(classify, news[i], pairs[j]).p2)
    {
      ClassifyItemCorrect(classify, news[i], pairs);
    }
  }

  /** A key is in the summary exactly when some pair has it. */
  lemma {:induction false} OccurrencesPositive(pairs: seq<Pair>, k: string)
    ensures k in PairKeys(pairs) <==> Occurrences(pairs, k) > 0
    decreases |pairs|
  {
    if pairs != [] {
      var n := |pairs| - 1;
      OccurrencesPositive(pairs[..n], k);
      assert forall j :: 0 <= j < n ==> pairs[..n][j] == pairs[j];
      assert PairKeys(pairs) == PairKeys(pairs[..n]) + {Key(pairs[n])};
    }
  }

  /** When every call on `text` succeeds, a key's count for that item is how many pairs have the key. */
  lemma {:induction false} PairTallyCount(classify: Classifier, text: string, pairs: seq<Pair>, k: string)
    requires forall j :: 0 <= j < |pairs| ==> Predict(classify, text, pairs[j]).Probabilities?
    ensures PairTally(classify, text, pairs, k).count == Occurrences(pairs, k)
    decreases |pairs|
  {
    if pairs != [] {
      var n := |pairs| - 1;
      assert forall j :: 0 <= j < n ==> pairs[..n][j] == pairs[j];
      PairTallyCount(classify, text, pairs[..n], k);
    }
  }

  /** When every call succeeds, a key's count is the number of items times the number of pairs with the key. */
  lemma {:induction false} NewsTallyCount(classify: Classifier, news: seq<string>, pairs: seq<Pair>, k: string)
    requires AllPredicted(classify, news, pairs)
    ensures NewsTally(classify, news, pairs, k).count == |news| * Occurrences(pairs, k)
    decreases |news|
  {
    if news != [] {
      var n := |news| - 1;
      assert AllPredicted(classify, news[..n], pairs) by {
        forall i, j | 0 <= i < n && 0 <= j < |pairs|
          ensures Predict(classify, news[..n][i], pairs[j]).Probabilities?
        {
          assert news[..n][i] == news[i];
        }
      }
      NewsTallyCount(classify, news[..n], pairs, k);
      PairTallyCount(classify, news[n], pairs, k);
      assert (n + 1) * Occurrences(pairs, k) == n * Occurrences(pairs, k) + Occurrences(pairs, k);
    }
  }

  /**
   * The summary of a produced result has exactly the pairs' keys; each key's
   * count is the number of items times the number of pairs with that key (so
   * never zero, and the guard of the averaging step never fires), and each
   * average is that key's total divided by its count.
   */
  lemma ProducedSummary(fetched: Result<seq<string>, string>, pairs: seq<Pair>, classify: Classifier)
    requires Process(fetched, pairs, classify).Produced?
    ensures fetched.Success?
    ensures
      var news := fetched.value;
      var summary := Process(fetched, pairs, classify).result.summary;
      && summary.Keys == PairKeys(pairs)
      && forall k :: k in summary ==>
           var total := NewsTally(classify, news, pairs, k);
           && summary[k].count == |news| * Occurrences(pairs, k) > 0
           && total.count == summary[k].count
           && summary[k].first == total.first / summary[k].count as real
           && summary[k].second == total.second / summary[k].count as real
  {
    var news := fetched.value;
    ProducedAllPredicted(fetched, pairs, classify);
    var totals := Totals(classify, news, pairs);
    var summary := Process(fetched, pairs, classify).result.summary;
    assert summary == Averages(totals);
    forall k | k in summary
      ensures summary[k] == Average(NewsTally(classify, news, pairs, k))
      ensures NewsTally(classify, news, pairs, k).count == |news| * Occurrences(pairs, k) > 0
    {
      assert totals[k] == NewsTally(classify, news, pairs, k);
      OccurrencesPositive(pairs, k);
      NewsTallyCount(classify, news, pairs, k);
    }
  }

  /** For a normalised classifier, a key's two sums for one item add up to its count. */
  lemma {:induction false} PairTallyBalanced(classify: Classifier, text: string, pairs: seq<Pair>, k: string)
    requires Normalized(classify)
    ensures var t := PairTally(classify, text, pairs, k); t.first + t.second == t.count as real
    decreases |pairs|
  {
    if pairs != [] {
      PairTallyBalanced(classify, text, pairs[..|pairs| - 1], k);
    }
  }

  lemma {:induction false} NewsTallyBalanced(classify: Classifier, news: seq<string>, pairs: seq<Pair>, k: string)
    requires Normalized(classify)
    ensures var t := NewsTally(classify, news, pairs, k); t.first + t.second == t.count as real
    decreases |news|
  {
    if news != [] {
      NewsTallyBalanced(classify, news[..|news| - 1], pairs, k);
      PairTallyBalanced(classify, news[|news| - 1], pairs, k);
    }
  }

  /** When the summed values add up to the count, the two averages add up to one. */
  lemma BalancedAverage(s: Stat)
    requires s.count > 0
    requires s.first + s.second == s.count as real
    ensures Average(s).first + Average(s).second == 1.0
  {
  }

  /**
   * The averaging step keeps every key and count; a non-zero count's averages
   * multiplied back by the count give the key's totals, and the guard turns a
   * zero count into zero averages.
   */
  lemma AveragesCorrect(m: map<string, Stat>)
    ensures Averages(m).Keys == m.Keys
    ensures forall k :: k in m ==> Averages(m)[k].count == m[k].count
    ensures forall k :: k in m && m[k].count != 0 ==>
      && Averages(m)[k].first * m[k].count as real == m[k].first
      && Averages(m)[k].second * m[k].count as real == m[k].second
    ensures forall k :: k in m && m[k].count == 0 ==> Averages(m)[k].first == 0.0 && Averages(m)[k].second == 0.0
  {
  }

  /** If every classifier call returns two values summing to one, every summary's two averages sum to one. */
  lemma NormalizedAveragesSumToOne(fetched: Result<seq<string>, string>, pairs: seq<Pair>, classify: Classifier)
    requires Normalized(classify)
    requires Process(fetched, pairs, classify).Produced?
    ensures
      var summary := Process(fetched, pairs, classify).result.summary;
      forall k :: k in summary ==> summary[k].first + summary[k].second == 1.0
  {
    var news := fetched.value;
    ProducedSummary(fetched, pairs, classify);
    var summary := Process(fetched, pairs, classify).result.summary;
    forall k | k in summary ensures summary[k].first + summary[k].second == 1.0 {
      NewsTallyBalanced(classify, news, pairs, k);
      BalancedAverage(NewsTally(classify, news, pairs, k));
    }
  }

  /** a added to itself n times. */
  function Times(n: nat, a: real): real {
    if n == 0 then 0.0 else Times(n - 1, a) + a
  }

  lemma {:induction false} TimesPlus(m: nat, n: nat, a: real)
    ensures Times(m + n, a) == Times(m, a) + Times(n, a)
    decreases n
  {
    if n > 0 {
      TimesPlus(m, n - 1, a);
    }
  }

  lemma {:induction false} TimesProduct(n: nat, a: real)
    ensures Times(n, a) == n as real * a
    decreases n
  {
    if n > 0 {
      TimesProduct(n - 1, a);
      var c := (n - 1) as real;
      assert n as real == c + 1.0;
      assert (c + 1.0) * a == c * a + a;
    }
  }

  lemma TimesAverage(n: nat, a: real)
    requires n > 0
    ensures Times(n, a) / n as real == a
  {
    TimesProduct(n, a);
  }

  /** A classifier that always returns (a, b): each key's sums are a and b added once per count. */
  lemma {:induction false} NewsTallyConstant(classify: Classifier, news: seq<string>, pairs: seq<Pair>, k: string, a: real, b: real)
    requires forall t, c1, c2 :: classify(t, c1, c2) == Probabilities(a, b)
    ensures var t := NewsTally(classify, news, pairs, k); t.first == Times(t.count, a) && t.second == Times(t.count, b)
    decreases |news|
  {
    if news != [] {
      NewsTallyConstant(classify, news[..|news| - 1], pairs, k, a, b);
      PairTallyConstant(classify, news[|news| - 1], pairs, k, a, b);
      var s := NewsTally(classify, news[..|news| - 1], pairs, k);
      var t := PairTally(classify, news[|news| - 1], pairs, k);
      TimesPlus(s.count, t.count, a);
      TimesPlus(s.count, t.count, b);
    }
  }

  lemma {:induction false} PairTallyConstant(classify: Classifier, text: string, pairs: seq<Pair>, k: string, a: real, b: real)
    requires forall t, c1, c2 :: classify(t, c1, c2) == Probabilities(a, b)
    ensures var t := PairTally(classify, text, pairs, k); t.first == Times(t.count, a) && t.second == Times(t.count, b)
    decreases |pairs|
  {
    if pairs != [] {
      PairTallyConstant(classify, text, pairs[..|pairs| - 1], k, a, b);
    }
  }

  /**
   * A classifier that always returns (a, b) on a non-empty news list: the task
   * is produced and every key averages exactly (a, b).
   */
  lemma ConstantClassifier(news: seq<string>, pairs: seq<Pair>, a: real, b: real)
    requires |news| > 0
    ensures
      var classify := (t: string, c1: string, c2: string) => Probabilities(a, b);
      var outcome := Process(Success(news), pairs, classify);
      && outcome.Produced?
      && outcome.result.summary.Keys == PairKeys(pairs)
      && forall k :: k in outcome.result.summary ==>
           outcome.result.summary[k] == Stat(a, b, |news| * Occurrences(pairs, k))
  {
    var classify := (t: string, c1: string, c2: string) => Probabilities(a, b);
    AllPredictedProduces(news, pairs, classify);
    ProducedSummary(Success(news), pairs, classify);
    var summary := Process(Success(news), pairs, classify).result.summary;
    forall k | k in summary ensures summary[k] == Stat(a, b, |news| * Occurrences(pairs, k)) {
      NewsTallyConstant(classify, news, pairs, k, a, b);
      var t := NewsTally(classify, news, pairs, k);
      TimesAverage(t.count, a);
      TimesAverage(t.count, b);
    }
  }

  /**
   * The successful-processing case of the test suite: two news items, the pair
   * positive/negative, a classifier that always returns [0.6, 0.4].
   */
  lemma TwoItemsConstantScores()
    ensures
      var news := ["Test news article 1", "Test news article 2"];
      var pairs := [Pair("positive", "negative")];
      var classify := (t: string, c1: string, c2: string) => Probabilities(0.6, 0.4);
      Process(Success(news), pairs, classify) == Produced(TaskResult(
        [NewsResult(news[0], [Classification("positive / negative", 0.6, 0.4)]),
         NewsResult(news[1], [Classification("positive / negative", 0.6, 0.4)])],
        map["positive / negative" := Stat(0.6, 0.4, 2)]))
  {
    var news := ["Test news article 1", "Test news article 2"];
    var pairs := [Pair("positive", "negative")];
    var classify := (t: string, c1: string, c2: string) => Probabilities(0.6, 0.4);
    var key := "positive / negative";
    assert Key(pairs[0]) == key;
    assert PairKeys(pairs) == {key};
    assert Occurrences(pairs, key) == 1 by {
      assert pairs[..0] == [];
    }
    ConstantClassifier(news, pairs, 0.6, 0.4);
    ProducedShape(Success(news), pairs, classify);
    var r := Process(Success(news), pairs, classify).result;
    var rs := r.newsResults;
    var c := Classification(key, 0.6, 0.4);
    assert rs[0].classification[0] == c && rs[1].classification[0] == c;
    assert rs[0].classification == [c] && rs[1].classification == [c];
    assert rs[0] == NewsResult(news[0], [c]) && rs[1] == NewsResult(news[1], [c]);
    assert rs == [NewsResult(news[0], [c]), NewsResult(news[1], [c])];
    assert r.summary == map[key := Stat(0.6, 0.4, 2)];
  }

  /** A classifier scoring the text "A" (0.6, 0.4) and every other text (0.8, 0.2). */
  function ScoreByText(t: string, c1: string, c2: string): Prediction {
    if t == "A" then Probabilities(0.6, 0.4) else Probabilities(0.8, 0.2)
  }

  lemma MixedTally()
    ensures NewsTally(ScoreByText, ["A", "B"], [Pair("positive", "negative")], "positive / negative") == Stat(1.4, 0.6, 2)
  {
    var news := ["A", "B"];
    var pairs := [Pair("positive", "negative")];
    var key := "positive / negative";
    assert pairs[..0] == [];
    assert news[..1] == ["A"] && news[..1][..0] == [];
    assert PairTally(ScoreByText, "A", pairs, key) == Stat(0.6, 0.4, 1);
    assert PairTally(ScoreByText, "B", pairs, key) == Stat(0.8, 0.2, 1);
  }

  /** Two items scored (0.6, 0.4) and (0.8, 0.2) average (0.7, 0.3) over a count of 2. */
  lemma TwoItemsMixedScores()
    ensures
      var outcome := Process(Success(["A", "B"]), [Pair("positive", "negative")], ScoreByText);
      outcome.Produced? && outcome.result.summary == map["positive / negative" := Stat(0.7, 0.3, 2)]
  {
    var news := ["A", "B"];
    var pairs := [Pair("positive", "negative")];
    var key := "positive / negative";
    assert Key(pairs[0]) == key;
    assert PairKeys(pairs) == {key};
    AllPredictedProduces(news, pairs, ScoreByText);
    ProducedSummary(Success(news), pairs, ScoreByText);
    MixedTally();
    var summary := Process(Success(news), pairs, ScoreByText).result.summary;
    assert summary.Keys == {key};
    assert summary[key] == Stat(0.7, 0.3, 2);
  }

  /**
   * Keys are plain concatenations, so two different pairs can share one summary
   * entry, whose count then covers both.
   */
  lemma DistinctPairsShareKey(news: seq<string>, classify: Classifier)
    requires |news| > 0
    requires Process(Success(news), [Pair("a / b", "c"), Pair("a", "b / c")], classify).Produced?
    ensures Pair("a / b", "c") != Pair("a", "b / c")
    ensures
      var summary := Process(Success(news), [Pair("a / b", "c"), Pair("a", "b / c")], classify).result.summary;
      summary.Keys == {"a / b / c"} && summary["a / b / c"].count == 2 * |news|
  {
    var pairs := [Pair("a / b", "c"), Pair("a", "b / c")];
    assert Pair("a / b", "c").class1 != Pair("a", "b / c").class1;
    assert Key(pairs[0]) == "a / b / c" && Key(pairs[1]) == "a / b / c";
    assert PairKeys(pairs) == {"a / b / c"};
    assert pairs[..1] == [pairs[0]] && pairs[..1][..0] == [];
    assert Occurrences(pairs, "a / b / c") == 2;
    ProducedSummary(Success(news), pairs, classify);
  }
}

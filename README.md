# News classification tasks, modelled in Dafny

The analyzer accepts a classification request: a list of category pairs such as
positive/negative. It stores a task for the request and, in the background, fetches
the latest news items. Each item is scored against every pair by a zero-shot
classifier. The task ends up holding either

- a result: per-item classifications and a per-pair summary of average scores, or
- an error message.

A client polls the task's status by its id.

This project models two parts of that system:

- **Request validation** (`base_news.dfy`, module `BaseNews`). The declared field
  constraints come first: both class names are required, non-blank, at most 50
  characters and free of null characters. Then the list must hold at least one
  pair. Only after those does the custom `validate_pairs` hook run. The model reports the first failure,
  in the order the framework checks. The request is accepted exactly when
  every constraint the model covers holds (the surrogate rule and the null
  answer are under "## Left out"). The `validate_pairs` checks can never fire on data
  that passed the field constraints. The limit is one pair, although its error
  message says "two".
- **The task store and the processing pipeline of `analyzer/tasks.py`.**
  - `wrappers.dfy` holds `Option`/`Result`.
  - `aggregation.dfy` (module `Aggregation`) holds:
    - the functional specification `Process` of what `process_task` computes;
    - the imperative `RunPipeline`, with the source's three loops. It is
      proved equal to `Process`.
  - `aggregation_properties.dfy` proves what that computation guarantees:
    - the error paths;
    - the shape of the result;
    - the per-key counts and averages;
    - the averages of a normalised classifier.
  - `tasks.dfy` (module `Tasks`) models the store as a class `TaskStore` with a
    `tasks` map. Its methods `CreateTask`, `ProcessTask`, `MarkComplete` (the
    completion callback) and `ProcessTaskAsync` each state their new store as
    a function of the old one, and `GetTaskStatus` is a function reading the
    store.

Inputs from outside the program are parameters:
- The news fetch is its result: a list of strings, or the message of the
  exception it raised.
- The classifier is a function from (text, class1, class2) to two
  probabilities, or to the message of the exception it raised.
- The uuid that `create_task` draws is the `drawn` argument.

Points the proofs make explicit:
- "Unexpected error" is never stored. For an existing record, the results list
  is non-empty by the time that branch is reached, because the news is
  (`ProcessOutcome`). For a missing id the branch is taken, but its write
  raises, as every write to the missing record does.
- A task id that is not in the store leaves the store unchanged. Every write to
  the missing record raises, first inside the `try` and again inside the
  `except`.
- The completion callback sets the status to Complete whether or not an error
  was recorded.
- Between `process_task` and the callback, a client can see status Pending
  together with a result (`CompleteWorkflow`).
- Summary keys are `class1 + " / " + class2`. Two different pairs can
  therefore share one summary entry (`DistinctPairsShareKey`).

## Model

| member | source | states |
|---|---|---|
| BaseNews.CheckName | news/base_news/baseNews.py:5-6 | one CharField(max_length=50); CheckNameIff states its contract |
| BaseNews.CheckNameIff | news/base_news/baseNews.py:5-6 | a name passes iff it is present, 1 to 50 characters and free of null characters; a missing name is "required", an empty one blank, an over-long one too long, and a null character is reported only for a name that passed the other checks |
| BaseNews.CheckPair | news/base_news/baseNews.py:3-6 | the child ClassificationPairSerializer, class1 before class2; CheckPairIff states its contract |
| BaseNews.ValidateList | news/base_news/baseNews.py:10-17 | the pairs ListField: child validation, then min_length; ValidateListCorrect states its contract |
| BaseNews.ValidateListCorrect | news/base_news/baseNews.py:10-17 | the ListField accepts iff the list has at least one pair and every pair is well formed, and then yields the validated names in order; an empty list gets the min_length message |
| BaseNews.CheckPairIff | news/base_news/baseNews.py:5-6 | a pair passes the child serializer iff both names are present, non-empty, at most 50 characters and free of null characters; a rejection names the pair's index |
| BaseNews.ValidateItemsCorrect | news/base_news/baseNews.py:10-12 | child validation accepts iff every pair is well formed, then returns the same names in the same order; otherwise it reports the first ill-formed pair |
| BaseNews.EveryPairNamedIff | news/base_news/baseNews.py:24-26 | the loop of validate_pairs passes iff every pair has both names non-empty |
| BaseNews.ValidatePairsCorrect | news/base_news/baseNews.py:19-28 | validate_pairs accepts iff the list is non-empty and every pair is named; it returns its input unchanged; an empty list gets the "cannot be empty" message, and any other rejection the "two non-empty class names" message |
| BaseNews.CustomChecksRedundant | news/base_news/baseNews.py:10-28 | validate_pairs never rejects a list that passed the field constraints and min_length |
| BaseNews.ValidateItems | news/base_news/baseNews.py:10-12 | the ListField's child validation of each pair in turn; an accepted list keeps its length |
| BaseNews.ValidatePairs | news/base_news/baseNews.py:19-28 | validate_pairs itself: an accepted list is non-empty and returned unchanged, and a rejection carries one of its two messages |
| BaseNews.ValidateRequest | news/base_news/baseNews.py:3-28 | the whole serializer: a missing pairs entry is refused as required; an accepted request yields as many pairs as it submitted, at least one |
| BaseNews.ValidateRequestCorrect | news/base_news/baseNews.py:3-28 | a request is accepted iff its pairs list is present, has at least one pair, and every pair has two names of 1 to 50 characters without a null character; the accepted value is exactly those pairs, in order |
| BaseNews.EmptyPairsRejected | news/base_news/baseNews.py:13-16 | an empty pairs list is refused with the min_length message "At least two classification pairs are required." |
| BaseNews.LongNameRejected | news/base_news/baseNews.py:5-6 | a class name longer than 50 characters anywhere in the list refuses the request |
| BaseNews.NullCharacterRejected | news/base_news/baseNews.py:5-6 | a class name holding a null character anywhere in the list refuses the request |
| BaseNews.NullNameExample | news/base_news/baseNews.py:5-6 | the pair ("\0", "x") is refused at item 0, field class1, for its null character |
| BaseNews.UnnamedPairRejected | news/base_news/baseNews.py:25-26 | a missing or empty class name anywhere in the list refuses the request |
| BaseNews.SinglePairAccepted | news/base_news/baseNews.py:13 | one well-formed pair is accepted and yields exactly that pair |
| BaseNews.VerdictIgnoresOrder | news/base_news/baseNews.py:10-28 | two requests whose lists are permutations of each other get the same verdict |
| Aggregation.Key | analyzer/tasks.py:43 | the summary key f"{class1} / {class2}"; DistinctPairsShareKey states what it does not keep apart |
| Aggregation.ClassifyItem | analyzer/tasks.py:53-65 | the per-pair loop as a function: one classification per pair, or the first classifier exception; ClassifyItemCorrect states its contract |
| Aggregation.ClassifyAll | analyzer/tasks.py:46-67 | the per-item loop as a function: one news result per item, or the first exception; ClassifyAllCorrect states its contract |
| Aggregation.Process | analyzer/tasks.py:32-83 | the whole try block as a function of the fetch result, the pairs and the classifier; ProcessOutcome, ProducedShape and ProducedSummary state its contract |
| Aggregation.RunPipeline | analyzer/tasks.py:32-83 | the step-by-step pipeline (per-item loop, per-pair loop with in-place summary updates, averaging loop) returns exactly the outcome that the specification Process defines |
| Aggregation.ClassifyNewsItem | analyzer/tasks.py:53-65 | the per-pair loop returns the item's classification list or its first exception; on success every key's sums grow by exactly that item's tallies for the key |
| Aggregation.AverageSummary | analyzer/tasks.py:70-72 | the averaging loop turns every summary value into its average, with the zero-count guard, and changes no key |
| Aggregation.Average | analyzer/tasks.py:70-72 | the guarded division of one summary value; AveragesCorrect states its contract |
| Aggregation.Averages | analyzer/tasks.py:70-72 | the averaging loop over the summary as a function; AveragesCorrect states its contract |
| AggregationProperties.AveragesCorrect | analyzer/tasks.py:70-72 | averaging keeps every key and count; for a non-zero count the averages times the count give back the totals; a zero count gives zero averages |
| AggregationProperties.ClassifyItemCorrect | analyzer/tasks.py:53-65 | an item's classification succeeds iff no call raises; it then has one entry per pair, in pair order, with the pair's key and that call's probabilities; otherwise the error is the message of the first call that raised |
| AggregationProperties.ClassifyAllCorrect | analyzer/tasks.py:46-67 | classification of all items succeeds iff no call raises; it then has one news result per item, in order, with the item's text; otherwise the error is the message of the first call that raised, items before pairs |
| AggregationProperties.ProcessOutcome | analyzer/tasks.py:32-83 | a fetch exception yields its own message; no news yields "Parsing error"; otherwise a result is produced iff every classifier call succeeds, and else the error is the first raised message, so "Unexpected error" never arises from the fallback branch |
| AggregationProperties.AllPredictedProduces | analyzer/tasks.py:75-79 | non-empty news on which no call raises produces a result |
| AggregationProperties.ProducedAllPredicted | analyzer/tasks.py:75-79 | a produced result implies non-empty news on which no call raised |
| AggregationProperties.ProducedShape | analyzer/tasks.py:46-67 | a result has one news result per item, with the item's text and one classification per pair, in order, holding that call's probabilities |
| AggregationProperties.OccurrencesPositive | analyzer/tasks.py:43 | a key is one of the pairs' keys iff the number of pairs with that key is positive |
| AggregationProperties.PairTallyCount | analyzer/tasks.py:53-63 | for one item with no failing call, a key's count is the number of pairs with that key |
| AggregationProperties.NewsTallyCount | analyzer/tasks.py:46-63 | with no failing call, a key's count is the number of news items times the number of pairs with that key |
| AggregationProperties.ProducedSummary | analyzer/tasks.py:43-72 | the summary's keys are exactly the pairs' keys; each count is items × pairs-with-key and never zero; each average is that key's total divided by its count |
| AggregationProperties.BalancedAverage | analyzer/tasks.py:71-72 | when a value's two sums add up to its non-zero count, its two averages add up to one |
| AggregationProperties.NormalizedAveragesSumToOne | analyzer/tasks.py:54-72 | if every classifier answer sums to one, every summary entry's two averages sum to one |
| AggregationProperties.ConstantClassifier | analyzer/tasks.py:61-72 | a classifier that always answers (a, b) on non-empty news produces a result whose every summary entry is (a, b) with count items × pairs-with-key |
| AggregationProperties.TwoItemsConstantScores | analyzer/tests.py:127-160 | two items, the pair positive/negative and the classifier answering [0.6, 0.4] give exactly two news results and the summary {"positive / negative": (0.6, 0.4, 2)} |
| AggregationProperties.TwoItemsMixedScores | analyzer/tasks.py:61-72 | items scored (0.6, 0.4) and (0.8, 0.2) average (0.7, 0.3) with count 2 |
| AggregationProperties.DistinctPairsShareKey | analyzer/tasks.py:43 | the different pairs ("a / b", "c") and ("a", "b / c") share the single summary key "a / b / c", whose count is twice the number of items |
| Tasks.PairsOf | analyzer/tasks.py:39 | `task_data.get('pairs', [])`; MissingPairsEmptyResult states what a missing entry leads to |
| Tasks.MissingPairsEmptyResult | analyzer/tasks.py:39-72 | input data without 'pairs' is processed with no pairs: non-empty news produces a result in which every item has no classification and the summary is empty |
| Tasks.NewRecord | analyzer/tasks.py:12-17 | a new record is Pending, keeps its input data, and has no result and no error |
| Tasks.WriteBack | analyzer/tasks.py:74-83 | storing an outcome sets the result (keeping the error) or sets the error (keeping the result), and never changes the status or input data |
| Tasks.Processed | analyzer/tasks.py:29-83 | process_task keeps the store's ids, changes only the record under its id, never changes any status or input data, and stores Process's outcome in that record |
| Tasks.Completed | analyzer/tasks.py:27 | the callback sets the record's status to Complete, keeps its result and error whatever they are, and changes no other record |
| Tasks.StatusText | analyzer/tasks.py:86-90 | the status text is "Task not found" iff the task is unknown, and "Pending" iff the record is Pending |
| Tasks.TaskStore.constructor | analyzer/tasks.py:6 | the store starts empty |
| Tasks.TaskStore.CreateTask | analyzer/tasks.py:10-20 | returns the drawn id and stores a new Pending record for the input under it, leaving every other record as it was |
| Tasks.TaskStore.GetTaskStatus | analyzer/tasks.py:86-90 | NotFound iff the id is unknown; otherwise the record's status, result and error; the store is only read |
| Tasks.TaskStore.ProcessTask | analyzer/tasks.py:29-83 | the new store is Processed of the old one |
| Tasks.TaskStore.MarkComplete | analyzer/tasks.py:27 | the new store is Completed of the old one |
| Tasks.TaskStore.ProcessTaskAsync | analyzer/tasks.py:22-27 | processes the task on its stored input data and then marks it Complete; on an unknown id the store is unchanged |
| Tasks.UnknownTask | analyzer/tests.py:117-123 | an id never created reports "Task not found" |
| Tasks.EmptyNewsLifecycle | analyzer/tests.py:163-184 | a created task is Pending with no result or error; after processing with no news it is Complete with error "Parsing error" and no result |
| Tasks.FailingClassifierLifecycle | analyzer/tasks.py:82-83 | when the classifier raises, the task completes with that exception's message as its error and no result |
| Tasks.CompleteWorkflow | analyzer/tests.py:242-268 | a created task is Pending; after process_task and before the callback it is still Pending, has no error, and its summary is {"positive / negative": (0.7, 0.3, 1)} |

## Left out

- The thread pool and concurrency are left out. Processing and the completion callback are methods the caller invokes, so any interleaving with `GetTaskStatus` can be expressed, but races between two tasks in flight are not modelled.
- Tasks.TaskStore.CreateTask takes the uuid as the `drawn` argument. The model does not state that it is fresh: as in the source, a repeated id overwrites the earlier record.
- CreateTask does not itself start processing. The scheduling of `process_task_async` is represented by a later call to `ProcessTaskAsync`.
- The news fetch (`scrappers['tass'].get_news()`) and the scraper registry are left out. The fetch appears only as its result.
- The classifier model is left out. The classifier appears only as a function, and its scores are reals, not floating point.
- The classifier's answer is two reals. The source stores whatever `predict` returns.
- A malformed pair in the input data (a missing 'class1' raises KeyError at the summary initialisation) is not modelled. Input data holds validated pairs, and a missing 'pairs' entry is the empty list.
- Records are values in the store's map. Aliasing of the record dictionaries between process_task and the store is not modelled.
- An unknown id is not modelled as an exception. The exceptions that process_task, the callback and process_task_async raise for such an id are modelled only by their effect: the store is left unchanged.
- BaseNews.ValidateRequest reports only the first error. The framework collects the errors of every field and every list item.
- CharField's refusal of surrogate code points (U+D800 to U+DFFF) is not modelled. A Dafny `char` cannot hold one, so a name can never break that rule in the model.
- A JSON `null` class name, or a `null` pairs entry, is treated as missing. The framework answers it with its "may not be null" error rather than "required"; the model reports Required or PairsMissing.
- The framework's whitespace trimming and type coercion of CharField values are not modelled. Class names are taken as given.
- The summary dictionary keeps its keys in the order the pairs first give them, and the JSON result lists them in that order. The model's summary is a map, so key order is not modelled.
- The framework runs every validator of a CharField and reports all of their messages. The model reports only the first problem of a name: missing, then blank, then too long, then a null character.
- The HTTP views, the database models and the scraper's parsing are outside this model.

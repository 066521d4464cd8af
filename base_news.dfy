/**
 * Validation of a classification request: the declared constraints of
 * ClassificationPairSerializer and BaseClassificationSerializer, and the custom
 * hook validate_pairs.
 *
 * The request's `pairs` entry arrives as a list of raw pairs whose class names
 * may be absent. The framework validates the declared field constraints first
 * (every name present, non-blank, at most MAX_NAME_LENGTH characters, free of
 * null characters; then the list's minimum length) and only when they all hold
 * does it call validate_pairs on the validated list.
 */
module BaseNews {
  import opened Wrappers

  /** max_length of both CharFields. */
  const MAX_NAME_LENGTH: nat := 50
  /** min_length of the pairs ListField. */
  const MIN_PAIRS: nat := 1

  /** The ListField's error message for min_length (it says "two" although the limit is one). */
  const MIN_LENGTH_MESSAGE := "At least two classification pairs are required."
  const EMPTY_LIST_MESSAGE := "The classification pairs list cannot be empty."
  const MISSING_NAME_MESSAGE := "Each pair must contain two non-empty class names."

  /** A validated category pair. */
  datatype Pair = Pair(class1: string, class2: string)

  /** A pair as submitted: each class name may be missing (or null). */
  datatype RawPair = RawPair(class1: Option<string>, class2: Option<string>)

  /** A submitted request; `pairs` may be missing altogether. */
  datatype ClassificationRequest = ClassificationRequest(pairs: Option<seq<RawPair>>)

  datatype PairField = Class1 | Class2

  /**
   * The ways a CharField(max_length=50) rejects its value that the model covers:
   * missing (a JSON null is treated as missing too), blank, over the length
   * limit, or holding a null character. CharField also refuses surrogate code
   * points, which a Dafny `char` cannot hold, so that rule has no case here.
   */
  datatype FieldProblem = Required | Blank | TooLong | NullCharacter

  datatype Rejection =
    | PairsMissing
    | ItemRejected(index: nat, field: PairField, problem: FieldProblem)
    | Rejected(message: string)

  /** What the declared constraints demand of one class name. */
  predicate NameWellFormed(v: Option<string>) {
    v.Some? && 0 < |v.value| <= MAX_NAME_LENGTH && '\0' !in v.value
  }

  /** What the declared constraints demand of one pair. */
  predicate PairWellFormed(p: RawPair) {
    NameWellFormed(p.class1) && NameWellFormed(p.class2)
  }

  /** What validate_pairs demands of one pair: `pair.get(name)` is truthy for both names. */
  predicate PairNamed(p: RawPair) {
    p.class1.Some? && |p.class1.value| > 0 && p.class2.Some? && |p.class2.value| > 0
  }

  /** One CharField(max_length=50): missing, then blank, then too long, then a null character. */
  function CheckName(v: Option<string>): Option<FieldProblem> {
    match v
    case None => Some(Required)
    case Some(s) =>
      if |s| == 0 then Some(Blank)
      else if |s| > MAX_NAME_LENGTH then Some(TooLong)
      else if '\0' in s then Some(NullCharacter)
      else None
  }

  /** The child serializer on item `index`: class1 is validated before class2. */
  function CheckPair(p: RawPair, index: nat): Option<Rejection> {
    match CheckName(p.class1)
    case Some(problem) => Some(ItemRejected(index, Class1, problem))
    case None =>
      match CheckName(p.class2)
      case Some(problem) => Some(ItemRejected(index, Class2, problem))
      case None => None
  }

  /** The names of a raw pair, once they are known to be present. */
  function Validated(p: RawPair): Pair
    requires p.class1.Some? && p.class2.Some?
  {
    Pair(p.class1.value, p.class2.value)
  }

  /** The list's child validation: the first item, in order, that fails, or the validated pairs. */
  function ValidateItems(items: seq<RawPair>): (r: Result<seq<Pair>, Rejection>)
    ensures r.Success? ==> |r.value| == |items|
    decreases |items|
  {
    if items == [] then Success([])
    else
      var n := |items| - 1;
      match ValidateItems(items[..n])
      case Failure(e) => Failure(e)
      case Success(ps) =>
        match CheckPair(items[n], n)
        case Some(e) => Failure(e)
        case None => Success(ps + [Validated(items[n])])
  }

  /** The pairs ListField: child validation, then the min_length validator. */
  function ValidateList(items: seq<RawPair>): Result<seq<Pair>, Rejection> {
    match ValidateItems(items)
    case Failure(e) => Failure(e)
    case Success(ps) =>
      if |ps| < MIN_PAIRS then Failure(Rejected(MIN_LENGTH_MESSAGE)) else Success(ps)
  }

  /** True when every pair of `value` passes validate_pairs's per-pair test (the loop). */
  predicate EveryPairNamed(value: seq<RawPair>)
    decreases |value|
  {
    value == [] || (PairNamed(value[0]) && EveryPairNamed(value[1..]))
  }

  /** validate_pairs: rejects an empty list, then a pair lacking a name; otherwise returns its input. */
  function ValidatePairs(value: seq<RawPair>): (r: Result<seq<RawPair>, Rejection>)
    ensures r.Success? ==> |value| > 0 && r.value == value
    ensures r.Failure? ==> r.error == Rejected(EMPTY_LIST_MESSAGE) || r.error == Rejected(MISSING_NAME_MESSAGE)
  {
    if |value| == 0 then Failure(Rejected(EMPTY_LIST_MESSAGE))
    else if !EveryPairNamed(value) then Failure(Rejected(MISSING_NAME_MESSAGE))
    else Success(value)
  }

  /** Validated pairs seen as the dictionaries validate_pairs receives. */
  function AsRaw(ps: seq<Pair>): seq<RawPair> {
    seq(|ps|, i requires 0 <= i < |ps| => RawPair(Some(ps[i].class1), Some(ps[i].class2)))
  }

  /** The whole serializer: the `pairs` field is required, then field validation, then validate_pairs. */
  function ValidateRequest(request: ClassificationRequest): (r: Result<seq<Pair>, Rejection>)
    ensures request.pairs.None? ==> r == Failure(PairsMissing)
    ensures r.Success? ==> |r.value| == |request.pairs.value| >= MIN_PAIRS
  {
    match request.pairs
    case None => Failure(PairsMissing)
    case Some(items) =>
      match ValidateList(items)
      case Failure(e) => Failure(e)
      case Success(ps) =>
        match ValidatePairs(AsRaw(ps))
        case Failure(e) => Failure(e)
        case Success(_) => Success(ps)
  }

  /**
   * One class name passes its CharField exactly when it is well formed; a
   * missing name is reported as required, and each later problem is reported
   * only when the earlier checks passed.
   */
  lemma CheckNameIff(v: Option<string>)
    ensures CheckName(v).None? <==> NameWellFormed(v)
    ensures CheckName(v) == Some(Required) <==> v.None?
    ensures CheckName(v) == Some(Blank) <==> v == Some("")
    ensures CheckName(v) == Some(TooLong) <==> v.Some? && |v.value| > MAX_NAME_LENGTH
    ensures CheckName(v) == Some(NullCharacter) <==>
      v.Some? && 0 < |v.value| <= MAX_NAME_LENGTH && '\0' in v.value
  {
  }

  lemma CheckPairIff(p: RawPair, index: nat)
    ensures CheckPair(p, index).None? <==> PairWellFormed(p)
    ensures CheckPair(p, index).Some? ==> CheckPair(p, index).value.ItemRejected? && CheckPair(p, index).value.index == index
  {
  }

  /**
   * Child validation accepts exactly the lists whose every pair is well formed;
   * it then returns the same names in the same order, and otherwise reports the
   * first ill-formed item.
   */
  lemma {:induction false} ValidateItemsCorrect(items: seq<RawPair>)
    ensures ValidateItems(items).Success? <==> forall i :: 0 <= i < |items| ==> PairWellFormed(items[i])
    ensures ValidateItems(items).Success? ==>
      |ValidateItems(items).value| == |items| &&
      forall i :: 0 <= i < |items| ==> ValidateItems(items).value[i] == Validated(items[i])
    ensures ValidateItems(items).Failure? ==>
      var e := ValidateItems(items).error;
      && e.ItemRejected?
      && e.index < |items|
      && !PairWellFormed(items[e.index])
      && forall i :: 0 <= i < e.index ==> PairWellFormed(items[i])
    decreases |items|
  {
    if items != [] {
      var n := |items| - 1;
      var prefix := items[..n];
      ValidateItemsCorrect(prefix);
      CheckPairIff(items[n], n);
      assert forall i :: 0 <= i < n ==> prefix[i] == items[i];
    }
  }

  /** The loop of validate_pairs: every pair passes its test. */
  lemma {:induction false} EveryPairNamedIff(value: seq<RawPair>)
    ensures EveryPairNamed(value) <==> forall i :: 0 <= i < |value| ==> PairNamed(value[i])
    decreases |value|
  {
    if value != [] {
      EveryPairNamedIff(value[1..]);
      assert forall i :: 1 <= i < |value| ==> value[i] == value[1..][i - 1];
    }
  }

  /**
   * validate_pairs accepts exactly the non-empty lists whose every pair names
   * both classes, returns its input unchanged on acceptance, and rejects an empty
   * list before looking for a missing name.
   */
  lemma ValidatePairsCorrect(value: seq<RawPair>)
    ensures ValidatePairs(value).Success? <==> |value| > 0 && forall i :: 0 <= i < |value| ==> PairNamed(value[i])
    ensures ValidatePairs(value).Success? ==> ValidatePairs(value).value == value
    ensures |value| == 0 ==> ValidatePairs(value) == Failure(Rejected(EMPTY_LIST_MESSAGE))
    ensures |value| > 0 && ValidatePairs(value).Failure? ==> ValidatePairs(value) == Failure(Rejected(MISSING_NAME_MESSAGE))
  {
    EveryPairNamedIff(value);
  }

  /**
   * The pairs ListField accepts exactly the lists of at least MIN_PAIRS pairs
   * that are all well formed, and then yields the validated pairs; a list of
   * well-formed pairs that is too short gets the min_length message.
   */
  lemma ValidateListCorrect(items: seq<RawPair>)
    ensures ValidateList(items).Success? <==>
      |items| >= MIN_PAIRS && forall i :: 0 <= i < |items| ==> PairWellFormed(items[i])
    ensures ValidateList(items).Success? ==>
      |ValidateList(items).value| == |items| &&
      forall i :: 0 <= i < |items| ==> ValidateList(items).value[i] == Validated(items[i])
    ensures (forall i :: 0 <= i < |items| ==> PairWellFormed(items[i])) && |items| < MIN_PAIRS ==>
      ValidateList(items) == Failure(Rejected(MIN_LENGTH_MESSAGE))
  {
    ValidateItemsCorrect(items);
  }

  /**
   * validate_pairs never rejects a list that passed the declared constraints:
   * both of its checks are implied by min_length=1 and the non-blank CharFields.
   */
  lemma CustomChecksRedundant(items: seq<RawPair>)
    requires ValidateList(items).Success?
    ensures ValidatePairs(AsRaw(ValidateList(items).value)) == Success(AsRaw(ValidateList(items).value))
  {
    ValidateItemsCorrect(items);
    var raw := AsRaw(ValidateList(items).value);
    assert forall i :: 0 <= i < |raw| ==> PairWellFormed(items[i]) && PairNamed(raw[i]);
    ValidatePairsCorrect(raw);
  }

  /**
   * A request is accepted if and only if it has a non-empty pairs list whose every
   * pair has two present, non-empty class names of at most 50 characters; an
   * accepted request yields exactly its own pairs, in order.
   */
  lemma ValidateRequestCorrect(request: ClassificationRequest)
    ensures ValidateRequest(request).Success? <==>
      && request.pairs.Some?
      && |request.pairs.value| >= MIN_PAIRS
      && forall i :: 0 <= i < |request.pairs.value| ==> PairWellFormed(request.pairs.value[i])
    ensures ValidateRequest(request).Success? ==>
      var items := request.pairs.value;
      && |ValidateRequest(request).value| == |items|
      && forall i :: 0 <= i < |items| ==> ValidateRequest(request).value[i] == Validated(items[i])
  {
    if request.pairs.Some? {
      var items := request.pairs.value;
      ValidateItemsCorrect(items);
      if ValidateList(items).Success? {
        CustomChecksRedundant(items);
      }
    }
  }

  /** An empty list is refused by the declared min_length, with its message. */
  lemma EmptyPairsRejected()
    ensures ValidateRequest(ClassificationRequest(Some([]))) == Failure(Rejected(MIN_LENGTH_MESSAGE))
  {
  }

  /** A class name longer than 50 characters anywhere in the list refuses the request. */
  lemma LongNameRejected(items: seq<RawPair>, i: nat)
    requires i < |items|
    requires || (items[i].class1.Some? && |items[i].class1.value| > MAX_NAME_LENGTH)
             || (items[i].class2.Some? && |items[i].class2.value| > MAX_NAME_LENGTH)
    ensures ValidateRequest(ClassificationRequest(Some(items))).Failure?
  {
    ValidateRequestCorrect(ClassificationRequest(Some(items)));
  }

  /** A class name holding a null character is refused by that field's own validator. */
  lemma NullCharacterRejected(items: seq<RawPair>, i: nat)
    requires i < |items|
    requires || (items[i].class1.Some? && '\0' in items[i].class1.value)
             || (items[i].class2.Some? && '\0' in items[i].class2.value)
    ensures ValidateRequest(ClassificationRequest(Some(items))).Failure?
  {
    ValidateRequestCorrect(ClassificationRequest(Some(items)));
  }

  /** The single pair ("\0", "x") is refused at item 0, field class1, for its null character. */
  lemma NullNameExample()
    ensures ValidateRequest(ClassificationRequest(Some([RawPair(Some("\0"), Some("x"))]))) ==
      Failure(ItemRejected(0, Class1, NullCharacter))
  {
  }

  /** A missing or empty class name anywhere in the list refuses the request. */
  lemma UnnamedPairRejected(items: seq<RawPair>, i: nat)
    requires i < |items|
    requires !PairNamed(items[i])
    ensures ValidateRequest(ClassificationRequest(Some(items))).Failure?
  {
    ValidateRequestCorrect(ClassificationRequest(Some(items)));
  }

  /** One well-formed pair is enough: the minimum is one pair, not two. */
  lemma SinglePairAccepted(p: RawPair)
    requires PairWellFormed(p)
    ensures ValidateRequest(ClassificationRequest(Some([p]))) == Success([Validated(p)])
  {
    var items := [p];
    var r := ValidateRequest(ClassificationRequest(Some(items)));
    ValidateRequestCorrect(ClassificationRequest(Some(items)));
    assert forall i :: 0 <= i < |items| ==> items[i] == p;
    assert r.Success?;
    assert |r.value| == 1 && r.value[0] == Validated(p);
    assert r.value == [Validated(p)];
  }

  /** The verdict does not depend on the order of the pairs. */
  lemma VerdictIgnoresOrder(a: seq<RawPair>, b: seq<RawPair>)
    requires multiset(a) == multiset(b)
    ensures ValidateRequest(ClassificationRequest(Some(a))).Success? == ValidateRequest(ClassificationRequest(Some(b))).Success?
  {
    ValidateRequestCorrect(ClassificationRequest(Some(a)));
    ValidateRequestCorrect(ClassificationRequest(Some(b)));
    assert |a| == |multiset(a)| == |multiset(b)| == |b|;
    if forall i :: 0 <= i < |a| ==> PairWellFormed(a[i]) {
      AllWellFormedByMultiset(a, b);
    }
    if forall j :: 0 <= j < |b| ==> PairWellFormed(b[j]) {
      AllWellFormedByMultiset(b, a);
    }
  }

  lemma AllWellFormedByMultiset(a: seq<RawPair>, b: seq<RawPair>)
    requires multiset(a) == multiset(b)
    requires forall i :: 0 <= i < |a| ==> PairWellFormed(a[i])
    ensures forall j :: 0 <= j < |b| ==> PairWellFormed(b[j])
  {
    forall j | 0 <= j < |b| ensures PairWellFormed(b[j]) {
      assert b[j] in multiset(b);
      assert b[j] in multiset(a);
      var i :| 0 <= i < |a| && a[i] == b[j];
    }
  }
}

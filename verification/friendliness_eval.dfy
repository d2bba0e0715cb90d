/** statistics/friendliness_eval.py: agreement between the LLM's friendliness labels and
    the human raters'. The humans of one (chat, turn) give a soft distribution p(l), the share
    of them picking label l; the LLM gives a hard set y(l); both are compared by a soft Jaccard
    index, the humans among themselves by a leave-one-out baseline, and per label by soft
    precision and recall. Python floats are modelled as `real`, NaN as `None`. */
module FriendlinessEval {
  import opened Results
  import opened PyStrings
  import opened Tables
  import ChatCleaning

  /** Why the evaluation stops. `NoScoredTurns` is the script failing to sort an empty turn
      table by its key columns, when no human group has an LLM row. */
  datatype EvalError = NoFriendlinessRows | EmptyUniverse | MultipleLlmRows(key: Key) | NoScoredTurns

  // ---------------------------------------------------------------------------
  // Label sets
  // ---------------------------------------------------------------------------

  /** `letters_to_set`: a missing cell, or one blank once stripped, is the empty set; any
      other cell is the set of the characters of its stripped text. */
  function LettersToSet(value: Cell): (r: set<char>)
    ensures value.Missing? ==> r == {}
    ensures value.Text? ==> forall c :: c in r <==> c in Strip(value.text)
  {
    match value
    case Missing => {}
    case Text(s) =>
      var t := Strip(s);
      if t == "" then {} else set c | c in t
  }

  /** The letters of a sequence of labels. */
  function TagLetters(tags: seq<string>): set<char>
    decreases |tags|
  {
    if tags == [] then {} else (set c | c in tags[0]) + TagLetters(tags[1..])
  }

  /** The label sets read back from the cleaned table are the labels the rater chose: cleaning
      an answer cell `A: …; B: …` and reading its letters gives exactly the chosen letters. */
  lemma CleanedLetters(pads: seq<string>, tags: seq<string>, notes: seq<string>)
    requires |pads| == |tags| == |notes| >= 1
    requires forall i :: 0 <= i < |tags| ==> ChatCleaning.Blank(pads[i]) && ChatCleaning.PlainLabel(tags[i]) && ';' !in notes[i]
    requires var last := tags[|tags| - 1]; |last| > 0 && !IsSpace(last[|last| - 1])
    ensures var parts := seq(|tags|, i requires 0 <= i < |tags| => ChatCleaning.Answer(pads[i], tags[i], notes[i]));
            LettersToSet(Text(ChatCleaning.FriendlinessLetters(Text(Join(parts, ";"))))) == TagLetters(tags)
  {
    ChatCleaning.LettersRoundTrip(pads, tags, notes);
    var letters := Join(tags, "");
    JoinLetters(tags);
    assert |tags[0]| > 0 && !IsSpace(tags[0][0]) by { assert ChatCleaning.PlainLabel(tags[0]); }
    var last := tags[|tags| - 1];
    assert ChatCleaning.PlainLabel(last);
    JoinLast(tags);
    assert letters[|letters| - 1] == last[|last| - 1] by {
      assert letters[|letters| - |last|..][|last| - 1] == letters[|letters| - 1];
    }
    StripUnchanged(letters);
  }

  /** A joined sequence holds exactly the characters of its parts, starts with the first
      part and ends with the last. */
  lemma {:induction false} JoinLetters(tags: seq<string>)
    ensures forall c :: c in Join(tags, "") <==> c in TagLetters(tags)
    ensures |tags| >= 1 ==> tags[0] <= Join(tags, "")
    decreases |tags|
  {
    if |tags| > 1 {
      JoinLetters(tags[1..]);
      assert Join(tags, "") == tags[0] + Join(tags[1..], "");
    } else if |tags| == 1 {
      assert TagLetters(tags[1..]) == {};
    }
  }

  /** A joined sequence ends with its last part. */
  lemma {:induction false} JoinLast(tags: seq<string>)
    requires |tags| >= 1
    ensures var s := Join(tags, ""); |tags[|tags| - 1]| <= |s| && s[|s| - |tags[|tags| - 1]|..] == tags[|tags| - 1]
  {
    if |tags| > 1 {
      JoinLast(tags[1..]);
      assert Join(tags, "") == tags[0] + Join(tags[1..], "");
    }
  }

  // ---------------------------------------------------------------------------
  // Soft Jaccard
  // ---------------------------------------------------------------------------

  /** `p_dict.get(lab, 0.0)`. */
  function Prob(p: map<char, real>, lab: char): real {
    if lab in p then p[lab] else 0.0
  }

  /** y(l): 1 for a predicted label, 0 otherwise. */
  function Hard(pred: set<char>, lab: char): real {
    if lab in pred then 1.0 else 0.0
  }

  function Min(a: real, b: real): real { if a <= b then a else b }

  function Max(a: real, b: real): real { if a >= b then a else b }

  /** Σ min(p(l), y(l)) over the universe. */
  function Numerator(p: map<char, real>, pred: set<char>, universe: seq<char>): real
    decreases |universe|
  {
    if universe == [] then 0.0
    else
      var lab := universe[|universe| - 1];
      Numerator(p, pred, universe[..|universe| - 1]) + Min(Prob(p, lab), Hard(pred, lab))
  }

  /** Σ max(p(l), y(l)) over the universe. */
  function Denominator(p: map<char, real>, pred: set<char>, universe: seq<char>): real
    decreases |universe|
  {
    if universe == [] then 0.0
    else
      var lab := universe[|universe| - 1];
      Denominator(p, pred, universe[..|universe| - 1]) + Max(Prob(p, lab), Hard(pred, lab))
  }

  /** The soft Jaccard index; `None` (NaN) when the denominator is zero. */
  function SoftJaccardOf(p: map<char, real>, pred: set<char>, universe: seq<char>): Option<real> {
    var d := Denominator(p, pred, universe);
    if d == 0.0 then None else Some(Numerator(p, pred, universe) / d)
  }

  /** `soft_jaccard`: one pass over the universe accumulating both sums. */
  method SoftJaccard(p: map<char, real>, pred: set<char>, universe: seq<char>) returns (r: Option<real>)
    ensures r == SoftJaccardOf(p, pred, universe)
  {
    var num, denom := 0.0, 0.0;
    for i := 0 to |universe|
      invariant num == Numerator(p, pred, universe[..i])
      invariant denom == Denominator(p, pred, universe[..i])
    {
      var lab := universe[i];
      var pl := Prob(p, lab);
      var y := if lab in pred then 1.0 else 0.0;
      assert universe[..i + 1][..i] == universe[..i];
      num := num + Min(pl, y);
      denom := denom + Max(pl, y);
    }
    assert universe[..|universe|] == universe;
    if denom == 0.0 {
      r := None;
    } else {
      r := Some(num / denom);
    }
  }

  /** Every label of the universe has a probability in [0, 1]. */
  predicate Probabilities(p: map<char, real>, universe: seq<char>) {
    forall k :: 0 <= k < |universe| ==> 0.0 <= Prob(p, universe[k]) <= 1.0
  }

  /** Σ_{l ∈ pred} p(l). */
  function PredictedMass(p: map<char, real>, pred: set<char>, universe: seq<char>): real
    decreases |universe|
  {
    if universe == [] then 0.0
    else
      var lab := universe[|universe| - 1];
      PredictedMass(p, pred, universe[..|universe| - 1]) + (if lab in pred then Prob(p, lab) else 0.0)
  }

  /** Σ_{l ∈ pred} 1 + Σ_{l ∉ pred} p(l). */
  function Cover(p: map<char, real>, pred: set<char>, universe: seq<char>): real
    decreases |universe|
  {
    if universe == [] then 0.0
    else
      var lab := universe[|universe| - 1];
      Cover(p, pred, universe[..|universe| - 1]) + (if lab in pred then 1.0 else Prob(p, lab))
  }

  /** With probabilities in [0, 1], the numerator is the mass of the predicted labels and the
      denominator counts each predicted label once and adds the mass of the others; the
      numerator lies between 0 and the denominator. */
  lemma {:induction false} SoftSums(p: map<char, real>, pred: set<char>, universe: seq<char>)
    requires Probabilities(p, universe)
    ensures Numerator(p, pred, universe) == PredictedMass(p, pred, universe)
    ensures Denominator(p, pred, universe) == Cover(p, pred, universe)
    ensures 0.0 <= Numerator(p, pred, universe) <= Denominator(p, pred, universe)
    decreases |universe|
  {
    if universe != [] {
      var front := universe[..|universe| - 1];
      assert Probabilities(p, front) by {
        forall k | 0 <= k < |front| ensures 0.0 <= Prob(p, front[k]) <= 1.0 {
          assert front[k] == universe[k];
        }
      }
      SoftSums(p, pred, front);
      assert 0.0 <= Prob(p, universe[|universe| - 1]) <= 1.0;
    }
  }

  /** The soft Jaccard index of a distribution lies in [0, 1]. */
  lemma SoftJaccardRange(p: map<char, real>, pred: set<char>, universe: seq<char>)
    requires Probabilities(p, universe)
    ensures SoftJaccardOf(p, pred, universe).Some? ==> 0.0 <= SoftJaccardOf(p, pred, universe).value <= 1.0
  {
    SoftSums(p, pred, universe);
    var n, d := Numerator(p, pred, universe), Denominator(p, pred, universe);
    if d != 0.0 {
      assert n / d <= 1.0 by { assert n / d * d == n; }
    }
  }

  /** With non-negative probabilities the index is undefined exactly when no label of the
      universe is predicted and every one has probability 0. */
  lemma {:induction false} UndefinedExactly(p: map<char, real>, pred: set<char>, universe: seq<char>)
    requires forall k :: 0 <= k < |universe| ==> Prob(p, universe[k]) >= 0.0
    ensures SoftJaccardOf(p, pred, universe).None? <==>
            forall k :: 0 <= k < |universe| ==> universe[k] !in pred && Prob(p, universe[k]) == 0.0
    decreases |universe|
  {
    if universe != [] {
      var front := universe[..|universe| - 1];
      var lab := universe[|universe| - 1];
      assert forall k :: 0 <= k < |front| ==> front[k] == universe[k];
      UndefinedExactly(p, pred, front);
      DenominatorNonNegative(p, pred, front);
    }
  }

  lemma {:induction false} DenominatorNonNegative(p: map<char, real>, pred: set<char>, universe: seq<char>)
    requires forall k :: 0 <= k < |universe| ==> Prob(p, universe[k]) >= 0.0
    ensures Denominator(p, pred, universe) >= 0.0
    decreases |universe|
  {
    if universe != [] {
      var front := universe[..|universe| - 1];
      assert forall k :: 0 <= k < |front| ==> front[k] == universe[k];
      DenominatorNonNegative(p, pred, front);
    }
  }

  /** A distribution that agrees with the prediction on every label, with at least one label
      predicted, scores a perfect 1. */
  lemma PerfectMatch(p: map<char, real>, pred: set<char>, universe: seq<char>, k: nat)
    requires forall j :: 0 <= j < |universe| ==> Prob(p, universe[j]) == Hard(pred, universe[j])
    requires k < |universe| && universe[k] in pred
    ensures SoftJaccardOf(p, pred, universe) == Some(1.0)
  {
    AgreeingSums(p, pred, universe, k);
    var d := Denominator(p, pred, universe);
    assert d / d == 1.0;
  }

  lemma {:induction false} AgreeingSums(p: map<char, real>, pred: set<char>, universe: seq<char>, k: nat)
    requires forall j :: 0 <= j < |universe| ==> Prob(p, universe[j]) == Hard(pred, universe[j])
    requires k < |universe| && universe[k] in pred
    ensures Numerator(p, pred, universe) == Denominator(p, pred, universe) >= 1.0
    decreases |universe|
  {
    var front := universe[..|universe| - 1];
    assert forall j :: 0 <= j < |front| ==> front[j] == universe[j];
    if k < |front| {
      AgreeingSums(p, pred, front, k);
    } else {
      assert Probabilities(p, front);
      SoftSums(p, pred, front);
      AgreeingNumerator(p, pred, front);
    }
  }

  lemma {:induction false} AgreeingNumerator(p: map<char, real>, pred: set<char>, universe: seq<char>)
    requires forall j :: 0 <= j < |universe| ==> Prob(p, universe[j]) == Hard(pred, universe[j])
    ensures Numerator(p, pred, universe) == Denominator(p, pred, universe)
    decreases |universe|
  {
    if universe != [] {
      var front := universe[..|universe| - 1];
      assert forall j :: 0 <= j < |front| ==> front[j] == universe[j];
      AgreeingNumerator(p, pred, front);
    }
  }

  // ---------------------------------------------------------------------------
  // Human distribution and the leave-one-out baseline
  // ---------------------------------------------------------------------------

  /** The number of raters whose set holds `lab`. */
  function Count(sets: seq<set<char>>, lab: char): (n: nat)
    ensures n <= |sets|
    decreases |sets|
  {
    if sets == [] then 0
    else Count(sets[..|sets| - 1], lab) + (if lab in sets[|sets| - 1] then 1 else 0)
  }

  /** Counting over two groups of raters adds up. */
  lemma {:induction false} CountAppend(a: seq<set<char>>, b: seq<set<char>>, lab: char)
    ensures Count(a + b, lab) == Count(a, lab) + Count(b, lab)
    decreases |b|
  {
    if b != [] {
      var front := b[..|b| - 1];
      assert (a + b)[..|a + b| - 1] == a + front;
      assert (a + b)[|a + b| - 1] == b[|b| - 1];
      CountAppend(a, front, lab);
    } else {
      assert a + b == a;
    }
  }

  /** `counts = {lab: 0 for lab in label_universe}` followed by the double loop: every
      label of the universe, and only those, is counted, once per rater who chose it. */
  method CountLabels(sets: seq<set<char>>, universe: seq<char>) returns (counts: map<char, nat>)
    ensures forall lab :: lab in counts <==> lab in universe
    ensures forall lab :: lab in counts ==> counts[lab] == Count(sets, lab)
  {
    counts := map lab | lab in universe :: 0;
    for i := 0 to |sets|
      invariant forall lab :: lab in counts <==> lab in universe
      invariant forall lab :: lab in counts ==> counts[lab] == Count(sets[..i], lab)
    {
      var rest := sets[i];
      while rest != {}
        invariant rest <= sets[i]
        invariant forall lab :: lab in counts <==> lab in universe
        invariant forall lab :: lab in counts ==>
          counts[lab] == Count(sets[..i], lab) + (if lab in sets[i] && lab !in rest then 1 else 0)
        decreases rest
      {
        var lab :| lab in rest;
        if lab in counts {
          counts := counts[lab := counts[lab] + 1];
        }
        rest := rest - {lab};
      }
      assert sets[..i + 1][..i] == sets[..i];
    }
    assert sets[..|sets|] == sets;
  }

  /** p(l) = count(l) / n over the universe. */
  function Distribution(sets: seq<set<char>>, universe: seq<char>): (p: map<char, real>)
    requires |sets| > 0
    ensures forall lab :: lab in p <==> lab in universe
    ensures forall lab :: lab in p ==> 0.0 <= p[lab] <= 1.0
  {
    map lab | lab in universe :: Ratio(Count(sets, lab), |sets|)
  }

  /** c / n, which lies in [0, 1] when c <= n. */
  function Ratio(c: nat, n: nat): (r: real)
    requires c <= n && n > 0
    ensures 0.0 <= r <= 1.0
  {
    var q := c as real / n as real;
    assert q * n as real == c as real;
    q
  }

  /** A distribution gives every label of its universe a probability in [0, 1]. */
  lemma DistributionProbabilities(sets: seq<set<char>>, universe: seq<char>)
    requires |sets| > 0
    ensures Probabilities(Distribution(sets, universe), universe)
  {
    var p := Distribution(sets, universe);
    forall k | 0 <= k < |universe| ensures 0.0 <= Prob(p, universe[k]) <= 1.0 {
      assert universe[k] in p;
    }
  }

  /** `p = {lab: counts[lab] / n_humans …}`, from the counts of `CountLabels`. */
  method HumanDistribution(sets: seq<set<char>>, universe: seq<char>) returns (p: map<char, real>)
    requires |sets| > 0
    ensures p == Distribution(sets, universe)
  {
    var counts := CountLabels(sets, universe);
    var n := |sets|;
    p := map lab | lab in counts :: counts[lab] as real / n as real;
    assert p.Keys == Distribution(sets, universe).Keys;
  }

  /** The raters other than rater `i`. */
  function Others(sets: seq<set<char>>, i: nat): seq<set<char>>
    requires i < |sets|
  {
    sets[..i] + sets[i + 1..]
  }

  /** Leaving rater `i` out removes exactly that rater's vote for each label. */
  lemma OthersCount(sets: seq<set<char>>, i: nat, lab: char)
    requires i < |sets|
    ensures |Others(sets, i)| == |sets| - 1
    ensures Count(Others(sets, i), lab) == Count(sets, lab) - (if lab in sets[i] then 1 else 0)
  {
    assert sets == sets[..i] + [sets[i]] + sets[i + 1..];
    CountAppend(sets[..i] + [sets[i]], sets[i + 1..], lab);
    CountAppend(sets[..i], [sets[i]], lab);
    CountAppend(sets[..i], sets[i + 1..], lab);
    assert Count([sets[i]], lab) == (if lab in sets[i] then 1 else 0) by {
      assert [sets[i]][..0] == [];
    }
  }

  /** So the others' distribution is (count(l) - [l ∈ s_i]) / (n - 1). */
  lemma LeaveOneOut(sets: seq<set<char>>, i: nat, universe: seq<char>, lab: char)
    requires 2 <= |sets| && i < |sets|
    ensures |Others(sets, i)| == |sets| - 1
    ensures Count(Others(sets, i), lab) == Count(sets, lab) - (if lab in sets[i] then 1 else 0)
    ensures lab in universe ==>
      Distribution(Others(sets, i), universe)[lab] ==
      (Count(sets, lab) - (if lab in sets[i] then 1 else 0)) as real / (|sets| - 1) as real
  {
    OthersCount(sets, i, lab);
    hide Count, Others;
  }

  /** Each human against the others' distribution, only when there are two humans or more. */
  function BaselineScores(sets: seq<set<char>>, universe: seq<char>): (scores: seq<Option<real>>)
    ensures |sets| >= 2 ==> |scores| == |sets|
    ensures |sets| < 2 ==> scores == []
  {
    if |sets| >= 2 then
      seq(|sets|, i requires 0 <= i < |sets| => SoftJaccardOf(Distribution(Others(sets, i), universe), sets[i], universe))
    else []
  }

  /** The baseline scores lie in [0, 1] wherever they are defined. */
  lemma BaselineRange(sets: seq<set<char>>, universe: seq<char>)
    ensures forall i :: 0 <= i < |BaselineScores(sets, universe)| && BaselineScores(sets, universe)[i].Some? ==>
      0.0 <= BaselineScores(sets, universe)[i].value <= 1.0
  {
    var scores := BaselineScores(sets, universe);
    forall i | 0 <= i < |scores| && scores[i].Some? ensures 0.0 <= scores[i].value <= 1.0 {
      DistributionProbabilities(Others(sets, i), universe);
      SoftJaccardRange(Distribution(Others(sets, i), universe), sets[i], universe);
    }
  }

  /** The loop at the leave-one-out step. */
  method Baseline(sets: seq<set<char>>, universe: seq<char>) returns (scores: seq<Option<real>>)
    ensures scores == BaselineScores(sets, universe)
  {
    scores := [];
    if |sets| >= 2 {
      for i := 0 to |sets|
        invariant |scores| == i
        invariant forall j :: 0 <= j < i ==>
          scores[j] == SoftJaccardOf(Distribution(Others(sets, j), universe), sets[j], universe)
      {
        hide Distribution, SoftJaccardOf;
        var others := sets[..i] + sets[i + 1..];
        var pOther := HumanDistribution(others, universe);
        var score := SoftJaccard(pOther, sets[i], universe);
        scores := scores + [score];
      }
    }
  }

  // ---------------------------------------------------------------------------
  // Means with NaN
  // ---------------------------------------------------------------------------

  /** The sum of the defined values. */
  function Total(xs: seq<Option<real>>): real
    decreases |xs|
  {
    if xs == [] then 0.0
    else Total(xs[..|xs| - 1]) + (if xs[|xs| - 1].Some? then xs[|xs| - 1].value else 0.0)
  }

  /** `np.mean` of a list in which NaN is `None`: NaN as soon as one value is NaN, and the
      script's own NaN for an empty list. */
  function Mean(xs: seq<Option<real>>): Option<real> {
    if xs == [] || exists k :: 0 <= k < |xs| && xs[k].None? then None
    else Some(Total(xs) / |xs| as real)
  }

  /** The mean of values in [0, 1] is in [0, 1]; it is defined exactly when the list is
      non-empty and every value is. */
  lemma MeanRange(xs: seq<Option<real>>)
    requires forall k :: 0 <= k < |xs| && xs[k].Some? ==> 0.0 <= xs[k].value <= 1.0
    ensures Mean(xs).Some? <==> xs != [] && forall k :: 0 <= k < |xs| ==> xs[k].Some?
    ensures Mean(xs).Some? ==> 0.0 <= Mean(xs).value <= 1.0
  {
    TotalRange(xs);
    if Mean(xs).Some? {
      var n := |xs| as real;
      assert Total(xs) / n * n == Total(xs);
    }
  }

  lemma {:induction false} TotalRange(xs: seq<Option<real>>)
    requires forall k :: 0 <= k < |xs| && xs[k].Some? ==> 0.0 <= xs[k].value <= 1.0
    ensures 0.0 <= Total(xs) <= |xs| as real
    decreases |xs|
  {
    if xs != [] {
      var front := xs[..|xs| - 1];
      assert forall k :: 0 <= k < |front| ==> front[k] == xs[k];
      TotalRange(front);
    }
  }

  // ---------------------------------------------------------------------------
  // Turns
  // ---------------------------------------------------------------------------

  /** A (chat, turn) pair, the grouping key. */
  datatype Key = Key(chatId: string, turn: int)

  /** A friendliness row once its value is turned into a label set. */
  datatype Rated = Rated(key: Key, labels: set<char>)

  /** The keys that occur among the rows. */
  function Keys(rows: seq<Rated>): set<Key> {
    set r | r in rows :: r.key
  }

  /** The label sets of the rows with that key, in row order. */
  function SetsAt(rows: seq<Rated>, key: Key): (sets: seq<set<char>>)
    ensures |sets| <= |rows|
    ensures key in Keys(rows) ==> |sets| >= 1
    decreases |rows|
  {
    if rows == [] then []
    else
      var last := rows[|rows| - 1];
      var front := rows[..|rows| - 1];
      assert forall r :: r in rows ==> r in front || r == last;
      SetsAt(front, key) + (if last.key == key then [last.labels] else [])
  }

  /** One row of the turn table; `None` stands for NaN. */
  datatype TurnRow = TurnRow(key: Key, humans: nat, llm: Option<real>, baseline: Option<real>)

  /** What one group of human rows yields. */
  datatype TurnOutcome = Scored(row: TurnRow) | MissingLlm | MultipleLlm

  /** One (chat, turn): skipped without an LLM row, an error with more than one, otherwise
      the LLM's soft Jaccard against the humans' distribution and the mean leave-one-out
      baseline. */
  function EvaluateTurn(key: Key, humans: seq<set<char>>, llm: seq<set<char>>, universe: seq<char>): TurnOutcome
    requires |humans| >= 1
  {
    if llm == [] then MissingLlm
    else if |llm| > 1 then MultipleLlm
    else
      Scored(TurnRow(key, |humans|, SoftJaccardOf(Distribution(humans, universe), llm[0], universe),
                     Mean(BaselineScores(humans, universe))))
  }

  /** A scored turn counts its human raters, and both of its scores lie in [0, 1] where
      defined; the baseline is NaN with fewer than two humans. */
  lemma TurnRange(key: Key, humans: seq<set<char>>, llm: seq<set<char>>, universe: seq<char>)
    requires |humans| >= 1
    ensures var o := EvaluateTurn(key, humans, llm, universe);
            && (o.MissingLlm? <==> llm == [])
            && (o.MultipleLlm? <==> |llm| > 1)
            && (o.Scored? ==> o.row.key == key && o.row.humans == |humans|)
            && (o.Scored? && o.row.llm.Some? ==> 0.0 <= o.row.llm.value <= 1.0)
            && (o.Scored? && o.row.baseline.Some? ==> 2 <= |humans| && 0.0 <= o.row.baseline.value <= 1.0)
  {
    DistributionProbabilities(humans, universe);
    if llm != [] {
      SoftJaccardRange(Distribution(humans, universe), llm[0], universe);
    }
    BaselineRange(humans, universe);
    MeanRange(BaselineScores(humans, universe));
  }

  /** The outcome of the group of `key`. */
  function OutcomeAt(humans: seq<Rated>, llm: seq<Rated>, universe: seq<char>, key: Key): TurnOutcome
    requires key in Keys(humans)
  {
    EvaluateTurn(key, SetsAt(humans, key), SetsAt(llm, key), universe)
  }

  /** The row the loop builds for a key with exactly one LLM row is its scored outcome. */
  lemma ScoredAt(humans: seq<Rated>, llm: seq<Rated>, universe: seq<char>, key: Key, row: TurnRow)
    requires key in Keys(humans) && |SetsAt(llm, key)| == 1
    requires var hs := SetsAt(humans, key); var scores := BaselineScores(hs, universe);
             row == TurnRow(key, |hs|, SoftJaccardOf(Distribution(hs, universe), SetsAt(llm, key)[0], universe),
                            if scores != [] then Mean(scores) else None)
    ensures OutcomeAt(humans, llm, universe, key) == Scored(row)
  {
  }

  /** The turn table is right: each row is the scored outcome of its own key, no key twice,
      and every key with exactly one LLM row has its row. */
  predicate TurnTable(humans: seq<Rated>, llm: seq<Rated>, universe: seq<char>, turns: seq<TurnRow>) {
    && (forall j :: 0 <= j < |turns| ==>
          turns[j].key in Keys(humans) && OutcomeAt(humans, llm, universe, turns[j].key) == Scored(turns[j]))
    && (forall i, j :: 0 <= i < j < |turns| ==> turns[i].key != turns[j].key)
    && (forall k :: k in Keys(humans) && |SetsAt(llm, k)| == 1 ==> exists j :: 0 <= j < |turns| && turns[j].key == k)
  }

  /** The body of the loop over the human groups, for the group of `key`. */
  method ScoreTurn(humans: seq<Rated>, llm: seq<Rated>, universe: seq<char>, key: Key) returns (outcome: TurnOutcome)
    requires key in Keys(humans)
    ensures outcome == OutcomeAt(humans, llm, universe, key)
    ensures outcome.MissingLlm? <==> |SetsAt(llm, key)| == 0
    ensures outcome.MultipleLlm? <==> |SetsAt(llm, key)| > 1
    ensures outcome.Scored? ==> outcome.row.key == key
  {
    hide Distribution, SoftJaccardOf, BaselineScores, Mean;
    var hs := SetsAt(humans, key);
    var p := HumanDistribution(hs, universe);
    var ls := SetsAt(llm, key);
    if |ls| == 0 {
      outcome := MissingLlm;
    } else if |ls| > 1 {
      outcome := MultipleLlm;
    } else {
      var sj := SoftJaccard(p, ls[0], universe);
      var scores := Baseline(hs, universe);
      var mean := if scores != [] then Mean(scores) else None;
      var row := TurnRow(key, |hs|, sj, mean);
      ScoredAt(humans, llm, universe, key, row);
      outcome := Scored(row);
    }
  }

  /** After the groups `done`: each of them has at most one LLM row, the rows built so far
      are the scored outcomes of distinct keys of `done`, and `at` locates the row of every
      group of `done` with exactly one LLM row. */
  predicate Covered(humans: seq<Rated>, llm: seq<Rated>, universe: seq<char>, done: set<Key>,
                    turns: seq<TurnRow>, at: map<Key, nat>) {
    && done <= Keys(humans)
    && (forall k :: k in done ==> |SetsAt(llm, k)| <= 1)
    && (forall j :: 0 <= j < |turns| ==>
          turns[j].key in done && OutcomeAt(humans, llm, universe, turns[j].key) == Scored(turns[j]))
    && (forall i, j :: 0 <= i < j < |turns| ==> turns[i].key != turns[j].key)
    && (forall k :: k in done && |SetsAt(llm, k)| == 1 ==> k in at && at[k] < |turns| && turns[at[k]].key == k)
  }

  /** The kind of a group's outcome depends only on its number of LLM rows, and a scored
      group's row carries its key. */
  lemma OutcomeShape(humans: seq<Rated>, llm: seq<Rated>, universe: seq<char>, key: Key)
    requires key in Keys(humans)
    ensures var o := OutcomeAt(humans, llm, universe, key);
            && (o.MissingLlm? <==> |SetsAt(llm, key)| == 0)
            && (o.MultipleLlm? <==> |SetsAt(llm, key)| > 1)
            && (o.Scored? ==> o.row.key == key)
  {
  }

  /** One more group that is not an error keeps the table covered. */
  lemma CoveredStep(humans: seq<Rated>, llm: seq<Rated>, universe: seq<char>, done: set<Key>,
                    turns: seq<TurnRow>, at: map<Key, nat>, key: Key, outcome: TurnOutcome)
    requires Covered(humans, llm, universe, done, turns, at)
    requires key in Keys(humans) && key !in done
    requires outcome == OutcomeAt(humans, llm, universe, key) && !outcome.MultipleLlm?
    ensures outcome.Scored? ==> Covered(humans, llm, universe, done + {key}, turns + [outcome.row], at[key := |turns|])
    ensures outcome.MissingLlm? ==> Covered(humans, llm, universe, done + {key}, turns, at)
  {
    hide OutcomeAt, SetsAt, Keys;
    OutcomeShape(humans, llm, universe, key);
  }

  /** Once every group is covered the turn table is right. */
  lemma CoveredTable(humans: seq<Rated>, llm: seq<Rated>, universe: seq<char>, turns: seq<TurnRow>, at: map<Key, nat>)
    requires Covered(humans, llm, universe, Keys(humans), turns, at)
    ensures forall k :: k in Keys(humans) ==> |SetsAt(llm, k)| <= 1
    ensures TurnTable(humans, llm, universe, turns)
  {
    forall k | k in Keys(humans) && |SetsAt(llm, k)| == 1
      ensures exists j :: 0 <= j < |turns| && turns[j].key == k
    {
      assert turns[at[k]].key == k;
    }
  }

  /** The loop over the human groups. The order of the rows is not fixed (the script sorts
      them by key afterwards). */
  method EvaluateTurns(humans: seq<Rated>, llm: seq<Rated>, universe: seq<char>) returns (r: Result<seq<TurnRow>, EvalError>)
    ensures r.Failure? ==> r.error.MultipleLlmRows? && r.error.key in Keys(humans) && |SetsAt(llm, r.error.key)| > 1
    ensures r.Success? <==> forall k :: k in Keys(humans) ==> |SetsAt(llm, k)| <= 1
    ensures r.Success? ==> TurnTable(humans, llm, universe, r.value)
  {
    var todo := Keys(humans);
    var turns: seq<TurnRow> := [];
    ghost var at: map<Key, nat> := map[];
    while todo != {}
      invariant todo <= Keys(humans)
      invariant Covered(humans, llm, universe, Keys(humans) - todo, turns, at)
      decreases todo
    {
      hide Covered, OutcomeAt, SetsAt, Keys;
      var key :| key in todo;
      var outcome := ScoreTurn(humans, llm, universe, key);
      if outcome.MultipleLlm? {
        return Failure(MultipleLlmRows(key));
      }
      CoveredStep(humans, llm, universe, Keys(humans) - todo, turns, at, key, outcome);
      assert Keys(humans) - todo + {key} == Keys(humans) - (todo - {key});
      if outcome.Scored? {
        at := at[key := |turns|];
        turns := turns + [outcome.row];
      }
      todo := todo - {key};
    }
    assert Keys(humans) - todo == Keys(humans);
    CoveredTable(humans, llm, universe, turns, at);
    r := Success(turns);
  }

  // ---------------------------------------------------------------------------
  // Label universe
  // ---------------------------------------------------------------------------

  /** Every label some row chose. */
  function AllLabels(rows: seq<Rated>): set<char> {
    set i, c | 0 <= i < |rows| && c in rows[i].labels :: c
  }

  predicate StrictlyIncreasing(u: seq<char>) {
    forall i, j :: 0 <= i < j < |u| ==> u[i] < u[j]
  }

  /** A non-empty set of characters has a least element. */
  lemma {:induction false} MinimumExists(s: set<char>)
    requires s != {}
    ensures exists m :: m in s && forall c :: c in s ==> m <= c
    decreases s
  {
    var x :| x in s;
    if s != {x} {
      var rest := s - {x};
      MinimumExists(rest);
      var m :| m in rest && forall c :: c in rest ==> m <= c;
      if x < m {
        forall c | c in s ensures x <= c {
          if c != x { assert c in rest; }
        }
      } else {
        forall c | c in s ensures m <= c {
          if c != x { assert c in rest; }
        }
      }
    } else {
      assert forall c :: c in s ==> x <= c;
    }
  }

  /** Python's `sorted` on a set of labels: each label once, in increasing order. */
  method Sorted(s: set<char>) returns (u: seq<char>)
    ensures StrictlyIncreasing(u)
    ensures forall c :: c in u <==> c in s
  {
    u := [];
    var rest := s;
    while rest != {}
      invariant rest <= s
      invariant StrictlyIncreasing(u)
      invariant forall c :: c in u <==> c in s && c !in rest
      invariant forall i, c :: 0 <= i < |u| && c in rest ==> u[i] < c
      decreases rest
    {
      MinimumExists(rest);
      var m :| m in rest && forall c :: c in rest ==> m <= c;
      u := u + [m];
      rest := rest - {m};
    }
  }

  // ---------------------------------------------------------------------------
  // Label-wise soft precision and recall
  // ---------------------------------------------------------------------------

  /** The humans' distribution and the LLM's set of one scored turn. */
  datatype TurnSignal = TurnSignal(p: map<char, real>, llm: set<char>)

  /** Σ y·p over the turns. */
  function TruePositives(ts: seq<TurnSignal>, lab: char): real
    decreases |ts|
  {
    if ts == [] then 0.0
    else
      var t := ts[|ts| - 1];
      TruePositives(ts[..|ts| - 1], lab) + Hard(t.llm, lab) * Prob(t.p, lab)
  }

  /** Σ y·(1 - p) over the turns. */
  function FalsePositives(ts: seq<TurnSignal>, lab: char): real
    decreases |ts|
  {
    if ts == [] then 0.0
    else
      var t := ts[|ts| - 1];
      FalsePositives(ts[..|ts| - 1], lab) + Hard(t.llm, lab) * (1.0 - Prob(t.p, lab))
  }

  /** Σ (1 - y)·p over the turns. */
  function FalseNegatives(ts: seq<TurnSignal>, lab: char): real
    decreases |ts|
  {
    if ts == [] then 0.0
    else
      var t := ts[|ts| - 1];
      FalseNegatives(ts[..|ts| - 1], lab) + (1.0 - Hard(t.llm, lab)) * Prob(t.p, lab)
  }

  /** Σ y: the turns in which the LLM predicts the label. */
  function Predicted(ts: seq<TurnSignal>, lab: char): real
    decreases |ts|
  {
    if ts == [] then 0.0 else Predicted(ts[..|ts| - 1], lab) + Hard(ts[|ts| - 1].llm, lab)
  }

  /** Σ p: the humans' total probability for the label. */
  function Mass(ts: seq<TurnSignal>, lab: char): real
    decreases |ts|
  {
    if ts == [] then 0.0 else Mass(ts[..|ts| - 1], lab) + Prob(ts[|ts| - 1].p, lab)
  }

  /** The soft counts split the LLM's predictions and the humans' mass: TP + FP = Σ y and
      TP + FN = Σ p. */
  lemma {:induction false} SoftCountSums(ts: seq<TurnSignal>, lab: char)
    ensures TruePositives(ts, lab) + FalsePositives(ts, lab) == Predicted(ts, lab)
    ensures TruePositives(ts, lab) + FalseNegatives(ts, lab) == Mass(ts, lab)
    decreases |ts|
  {
    if ts != [] {
      SoftCountSums(ts[..|ts| - 1], lab);
    }
  }

  /** One row of the label table; `None` stands for NaN. */
  datatype LabelRow = LabelRow(
    tag: char, humanRate: Option<real>, llmRate: Option<real>,
    precision: Option<real>, recall: Option<real>, f1: Option<real>,
    tp: real, fp: real, fn: real, turns: nat)

  /** `a / b if b > 0 else NaN`. */
  function Quotient(a: real, b: real): Option<real> {
    if b > 0.0 then Some(a / b) else None
  }

  /** The harmonic mean, NaN unless both inputs are defined with a positive sum. */
  function F1(precision: Option<real>, recall: Option<real>): Option<real> {
    if precision.Some? && recall.Some? && precision.value + recall.value > 0.0 then
      Some(2.0 * precision.value * recall.value / (precision.value + recall.value))
    else None
  }

  /** The row of one label over the scored turns. */
  function LabelSummary(ts: seq<TurnSignal>, lab: char): LabelRow {
    var tp, fp, fn := TruePositives(ts, lab), FalsePositives(ts, lab), FalseNegatives(ts, lab);
    var precision, recall := Quotient(tp, tp + fp), Quotient(tp, tp + fn);
    var n := |ts| as real;
    LabelRow(lab,
             if ts == [] then None else Some(Mass(ts, lab) / n),
             if ts == [] then None else Some(Predicted(ts, lab) / n),
             precision, recall, F1(precision, recall), tp, fp, fn, |ts|)
  }

  /** The label loop: one pass over the turns accumulating the soft counts and the two
      rates. */
  method LabelStats(ts: seq<TurnSignal>, lab: char) returns (row: LabelRow)
    ensures row == LabelSummary(ts, lab)
  {
    var humanTotal, llmTotal := 0.0, 0.0;
    var tp, fp, fn := 0.0, 0.0, 0.0;
    for i := 0 to |ts|
      invariant humanTotal == Mass(ts[..i], lab) && llmTotal == Predicted(ts[..i], lab)
      invariant tp == TruePositives(ts[..i], lab)
      invariant fp == FalsePositives(ts[..i], lab)
      invariant fn == FalseNegatives(ts[..i], lab)
    {
      assert ts[..i + 1][..i] == ts[..i];
      var pLab := Prob(ts[i].p, lab);
      var y := if lab in ts[i].llm then 1.0 else 0.0;
      humanTotal, llmTotal := humanTotal + pLab, llmTotal + y;
      tp := tp + y * pLab;
      fp := fp + y * (1.0 - pLab);
      fn := fn + (1.0 - y) * pLab;
    }
    assert ts[..|ts|] == ts;
    var n := |ts|;
    var humanRate := if n > 0 then Some(humanTotal / n as real) else None;
    var llmRate := if n > 0 then Some(llmTotal / n as real) else None;
    var precision := if tp + fp > 0.0 then Some(tp / (tp + fp)) else None;
    var recall := if tp + fn > 0.0 then Some(tp / (tp + fn)) else None;
    var f1 := F1(precision, recall);
    row := LabelRow(lab, humanRate, llmRate, precision, recall, f1, tp, fp, fn, n);
  }

  /** Every turn gives the label a probability in [0, 1]. */
  predicate LabelProbabilities(ts: seq<TurnSignal>, lab: char) {
    forall k :: 0 <= k < |ts| ==> 0.0 <= Prob(ts[k].p, lab) <= 1.0
  }

  /** Bounds on the soft counts: TP lies between 0 and both Σ y and Σ p, which lie between 0
      and the number of turns; Σ y is positive exactly when some turn predicts the label and
      Σ p exactly when some turn gives it a positive probability. */
  lemma {:induction false} CountBounds(ts: seq<TurnSignal>, lab: char)
    requires LabelProbabilities(ts, lab)
    ensures 0.0 <= TruePositives(ts, lab) <= Predicted(ts, lab) <= |ts| as real
    ensures TruePositives(ts, lab) <= Mass(ts, lab) <= |ts| as real
    ensures Predicted(ts, lab) > 0.0 <==> exists k :: 0 <= k < |ts| && lab in ts[k].llm
    ensures Mass(ts, lab) > 0.0 <==> exists k :: 0 <= k < |ts| && Prob(ts[k].p, lab) > 0.0
    decreases |ts|
  {
    if ts != [] {
      var front := ts[..|ts| - 1];
      assert forall k :: 0 <= k < |front| ==> front[k] == ts[k];
      CountBounds(front, lab);
      var last := ts[|ts| - 1];
      assert 0.0 <= Prob(last.p, lab) <= 1.0;
      if exists k :: 0 <= k < |front| && lab in front[k].llm {
        var k :| 0 <= k < |front| && lab in front[k].llm;
        assert lab in ts[k].llm;
      }
      if exists k :: 0 <= k < |front| && Prob(front[k].p, lab) > 0.0 {
        var k :| 0 <= k < |front| && Prob(front[k].p, lab) > 0.0;
        assert Prob(ts[k].p, lab) > 0.0;
      }
    }
  }

  /** a / b lies in [0, 1] for 0 <= a <= b and b > 0. */
  lemma FractionRange(a: real, b: real)
    requires 0.0 <= a <= b && b > 0.0
    ensures 0.0 <= a / b <= 1.0
  {
    assert a / b * b == a;
  }

  /** The harmonic mean of two values in [0, 1] lies in [0, 1]. */
  lemma F1Range(precision: Option<real>, recall: Option<real>)
    requires precision.Some? ==> 0.0 <= precision.value <= 1.0
    requires recall.Some? ==> 0.0 <= recall.value <= 1.0
    ensures F1(precision, recall).Some? <==> precision.Some? && recall.Some? && precision.value + recall.value > 0.0
    ensures F1(precision, recall).Some? ==> 0.0 <= F1(precision, recall).value <= 1.0
  {
    if precision.Some? && recall.Some? && precision.value + recall.value > 0.0 {
      var pr, rc := precision.value, recall.value;
      var num := 2.0 * pr * rc;
      assert F1(precision, recall).value == num / (pr + rc);
      HarmonicBound(pr, rc);
      FractionRange(num, pr + rc);
    }
  }

  /** 0 <= 2·p·r <= p + r for p and r in [0, 1]. */
  lemma HarmonicBound(pr: real, rc: real)
    requires 0.0 <= pr <= 1.0 && 0.0 <= rc <= 1.0
    ensures 0.0 <= 2.0 * pr * rc <= pr + rc
  {
    NonNegativeProduct(pr, rc);
    NonNegativeProduct(pr, 1.0 - rc);
    NonNegativeProduct(rc, 1.0 - pr);
  }

  lemma NonNegativeProduct(a: real, b: real)
    requires a >= 0.0 && b >= 0.0
    ensures a * b >= 0.0
  {
  }

  /** What a label row says: precision is TP / Σ y, defined exactly when the LLM predicts
      the label in some turn; recall is TP / Σ p, defined exactly when some turn's humans
      give it a positive probability; precision, recall, F1 and both rates lie in [0, 1];
      the rates are NaN only without turns. */
  lemma LabelSummaryFacts(ts: seq<TurnSignal>, lab: char)
    requires LabelProbabilities(ts, lab)
    ensures var row := LabelSummary(ts, lab);
            && row.precision == Quotient(TruePositives(ts, lab), Predicted(ts, lab))
            && row.recall == Quotient(TruePositives(ts, lab), Mass(ts, lab))
            && (row.precision.Some? <==> exists k :: 0 <= k < |ts| && lab in ts[k].llm)
            && (row.recall.Some? <==> exists k :: 0 <= k < |ts| && Prob(ts[k].p, lab) > 0.0)
            && (row.precision.Some? ==> 0.0 <= row.precision.value <= 1.0)
            && (row.recall.Some? ==> 0.0 <= row.recall.value <= 1.0)
            && (row.f1.Some? ==> 0.0 <= row.f1.value <= 1.0)
            && (row.humanRate.Some? <==> ts != []) && (row.llmRate.Some? <==> ts != [])
            && (row.humanRate.Some? ==> 0.0 <= row.humanRate.value <= 1.0)
            && (row.llmRate.Some? ==> 0.0 <= row.llmRate.value <= 1.0)
  {
    SoftCountSums(ts, lab);
    CountBounds(ts, lab);
    var tp, y, m := TruePositives(ts, lab), Predicted(ts, lab), Mass(ts, lab);
    if y > 0.0 { FractionRange(tp, y); }
    if m > 0.0 { FractionRange(tp, m); }
    if ts != [] {
      FractionRange(y, |ts| as real);
      FractionRange(m, |ts| as real);
    }
    var row := LabelSummary(ts, lab);
    F1Range(row.precision, row.recall);
  }

  // ---------------------------------------------------------------------------
  // The whole evaluation
  // ---------------------------------------------------------------------------

  /** `df[df["dimension"] == "user_friendliness_score"]`. */
  function Friendliness(rows: seq<ChatCleaning.LongRow>): (r: seq<ChatCleaning.LongRow>)
    ensures r == [] <==> forall i :: 0 <= i < |rows| ==> rows[i].dimension != ChatCleaning.FriendlinessScore
    ensures forall i :: 0 <= i < |r| ==> r[i].dimension == ChatCleaning.FriendlinessScore
    decreases |rows|
  {
    if rows == [] then []
    else
      var front := rows[..|rows| - 1];
      var last := rows[|rows| - 1];
      assert forall i :: 0 <= i < |front| ==> front[i] == rows[i];
      Friendliness(front) + (if last.dimension == ChatCleaning.FriendlinessScore then [last] else [])
  }

  /** A row reduced to its key and its label set. */
  function Rate(row: ChatCleaning.LongRow): Rated {
    Rated(Key(row.chatId, row.turn), LettersToSet(row.value))
  }

  /** The LLM's rows (`llm`) or the humans' rows (`!llm`), as label sets. */
  function RatedBy(rows: seq<ChatCleaning.LongRow>, llm: bool): (r: seq<Rated>)
    decreases |rows|
  {
    if rows == [] then []
    else
      var last := rows[|rows| - 1];
      RatedBy(rows[..|rows| - 1], llm) + (if last.rater.Llm? == llm then [Rate(last)] else [])
  }

  /** Every row goes to exactly one side of the split. */
  lemma {:induction false} SplitPartitions(rows: seq<ChatCleaning.LongRow>)
    ensures |RatedBy(rows, true)| + |RatedBy(rows, false)| == |rows|
    decreases |rows|
  {
    if rows != [] {
      SplitPartitions(rows[..|rows| - 1]);
    }
  }

  /** `turn_map`: the humans' distribution and the LLM's set of a scored key. */
  function Signal(humans: seq<Rated>, llm: seq<Rated>, universe: seq<char>, key: Key): TurnSignal
    requires key in Keys(humans)
  {
    var ls := SetsAt(llm, key);
    TurnSignal(Distribution(SetsAt(humans, key), universe), if ls != [] then ls[0] else {})
  }

  /** The signals of the turn table's keys, in its order. */
  function Signals(humans: seq<Rated>, llm: seq<Rated>, universe: seq<char>, turns: seq<TurnRow>): seq<TurnSignal>
    requires forall j :: 0 <= j < |turns| ==> turns[j].key in Keys(humans)
  {
    seq(|turns|, j requires 0 <= j < |turns| => Signal(humans, llm, universe, turns[j].key))
  }

  /** Everything a finished evaluation reports is in range: the turn scores wherever defined,
      and the humans' probabilities behind each label row, so that `LabelSummaryFacts`
      applies to every label. */
  lemma ReportRanges(humans: seq<Rated>, llm: seq<Rated>, universe: seq<char>, turns: seq<TurnRow>, lab: char)
    requires TurnTable(humans, llm, universe, turns)
    ensures forall j :: 0 <= j < |turns| && turns[j].llm.Some? ==> 0.0 <= turns[j].llm.value <= 1.0
    ensures forall j :: 0 <= j < |turns| && turns[j].baseline.Some? ==> 2 <= turns[j].humans && 0.0 <= turns[j].baseline.value <= 1.0
    ensures LabelProbabilities(Signals(humans, llm, universe, turns), lab)
  {
    forall j | 0 <= j < |turns|
      ensures turns[j].llm.Some? ==> 0.0 <= turns[j].llm.value <= 1.0
      ensures turns[j].baseline.Some? ==> 2 <= turns[j].humans && 0.0 <= turns[j].baseline.value <= 1.0
    {
      var key := turns[j].key;
      TurnRange(key, SetsAt(humans, key), SetsAt(llm, key), universe);
    }
    var ts := Signals(humans, llm, universe, turns);
    forall k | 0 <= k < |ts| ensures 0.0 <= Prob(ts[k].p, lab) <= 1.0 {
      var p := ts[k].p;
      if lab in p {
        assert 0.0 <= p[lab] <= 1.0;
      }
    }
  }

  /** The evaluation's tables. */
  datatype Report = Report(universe: seq<char>, turns: seq<TurnRow>, labels: seq<LabelRow>)

  /** What a successful evaluation reports, given the two sides of the split. */
  predicate Reported(humans: seq<Rated>, llm: seq<Rated>, report: Report) {
    && |report.universe| > 0
    && StrictlyIncreasing(report.universe)
    && (forall c :: c in report.universe <==> c in AllLabels(humans) + AllLabels(llm))
    && TurnTable(humans, llm, report.universe, report.turns)
    && |report.labels| == |report.universe|
    && (forall i :: 0 <= i < |report.labels| ==>
          report.labels[i] == LabelSummary(Signals(humans, llm, report.universe, report.turns), report.universe[i]))
  }

  /** The turn table is empty exactly when no human group has an LLM row. */
  lemma {:induction false} EmptyTable(humans: seq<Rated>, llm: seq<Rated>, universe: seq<char>, turns: seq<TurnRow>)
    requires TurnTable(humans, llm, universe, turns)
    requires forall k :: k in Keys(humans) ==> |SetsAt(llm, k)| <= 1
    ensures turns == [] <==> forall k :: k in Keys(humans) ==> |SetsAt(llm, k)| == 0
  {
    if turns != [] {
      OutcomeShape(humans, llm, universe, turns[0].key);
    }
  }

  /** The script from the friendliness rows to the turn table and the label table: an error
      without friendliness rows, with an empty label universe, with several LLM rows for
      one (chat, turn), or when no turn is scored; otherwise the report built from the sorted
      universe. */
  method Evaluate(rows: seq<ChatCleaning.LongRow>) returns (r: Result<Report, EvalError>)
    ensures var f := Friendliness(rows);
            var humans, llm := RatedBy(f, false), RatedBy(f, true);
            && (r.Failure? && r.error.NoFriendlinessRows? <==> f == [])
            && (r.Failure? && r.error.EmptyUniverse? <==> f != [] && AllLabels(humans) + AllLabels(llm) == {})
            && (r.Failure? && r.error.MultipleLlmRows? ==>
                  r.error.key in Keys(humans) && |SetsAt(llm, r.error.key)| > 1)
            && (r.Failure? && r.error.MultipleLlmRows? <==>
                  f != [] && AllLabels(humans) + AllLabels(llm) != {} &&
                  exists k :: k in Keys(humans) && |SetsAt(llm, k)| > 1)
            && (r.Failure? && r.error.NoScoredTurns? <==>
                  f != [] && AllLabels(humans) + AllLabels(llm) != {} &&
                  forall k :: k in Keys(humans) ==> |SetsAt(llm, k)| == 0)
            && (r.Success? ==> Reported(humans, llm, r.value) && r.value.turns != [])
            && (r.Success? ==> forall k :: k in Keys(humans) ==> |SetsAt(llm, k)| <= 1)
  {
    var f := Friendliness(rows);
    if f == [] {
      return Failure(NoFriendlinessRows);
    }
    var llm := RatedBy(f, true);
    var humans := RatedBy(f, false);
    var universe := Sorted(AllLabels(humans) + AllLabels(llm));
    if |universe| == 0 {
      assert universe == [];
      assert AllLabels(humans) + AllLabels(llm) == {};
      return Failure(EmptyUniverse);
    }
    assert universe[0] in AllLabels(humans) + AllLabels(llm);
    var turned := EvaluateTurns(humans, llm, universe);
    if turned.Failure? {
      return Failure(turned.error);
    }
    var turns := turned.value;
    EmptyTable(humans, llm, universe, turns);
    if turns == [] {
      return Failure(NoScoredTurns);
    }
    var signals := RebuildSignals(humans, llm, universe, turns);
    var labels: seq<LabelRow> := [];
    for i := 0 to |universe|
      invariant |labels| == i
      invariant forall k :: 0 <= k < i ==> labels[k] == LabelSummary(signals, universe[k])
    {
      var row := LabelStats(signals, universe[i]);
      labels := labels + [row];
    }
    r := Success(Report(universe, turns, labels));
  }

  /** The signal of a key is its humans' distribution and its first LLM set, if any. */
  lemma SignalIs(humans: seq<Rated>, llm: seq<Rated>, universe: seq<char>, key: Key, p: map<char, real>, llmSet: set<char>)
    requires key in Keys(humans)
    requires p == Distribution(SetsAt(humans, key), universe)
    requires llmSet == if SetsAt(llm, key) != [] then SetsAt(llm, key)[0] else {}
    ensures Signal(humans, llm, universe, key) == TurnSignal(p, llmSet)
  {
  }

  /** The loop that rebuilds `turn_map` from the turn table. */
  method RebuildSignals(humans: seq<Rated>, llm: seq<Rated>, universe: seq<char>, turns: seq<TurnRow>)
    returns (signals: seq<TurnSignal>)
    requires forall j :: 0 <= j < |turns| ==> turns[j].key in Keys(humans)
    ensures signals == Signals(humans, llm, universe, turns)
  {
    signals := [];
    for j := 0 to |turns|
      invariant |signals| == j
      invariant forall k :: 0 <= k < j ==> signals[k] == Signal(humans, llm, universe, turns[k].key)
    {
      hide Distribution, Keys, Signal;
      var key := turns[j].key;
      var p := HumanDistribution(SetsAt(humans, key), universe);
      var ls := SetsAt(llm, key);
      var llmSet := if ls != [] then ls[0] else {};
      SignalIs(humans, llm, universe, key, p, llmSet);
      signals := signals + [TurnSignal(p, llmSet)];
    }
  }
}

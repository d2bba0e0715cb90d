/** The robot-facing helpers the three drivers share in shape: the threshold directive,
    `int()` on the score, the eye-colour choice and the letter-to-gesture map
    (sir_code/main.py, sir_code/main_desktop.py, sir_code/main_nao.py). Each driver
    supplies its own texts and colour names. */
module NaoControls {
  import opened Results
  import opened Agents

  /** `{"role": "system", "content": (not_allowed, is_allowed)[threshold_met]}` */
  function ThresholdDirective(met: bool, notAllowed: string, isAllowed: string): (m: Message)
    ensures m.role == System
    ensures notAllowed != isAllowed ==> (m.content == isAllowed <==> met)
    ensures m.content == isAllowed || m.content == notAllowed
  {
    Message(System, if met then isAllowed else notAllowed)
  }

  /** `int(x)` on a float: truncation toward zero. */
  function Trunc(x: real): (r: int)
    ensures x >= 0.0 ==> 0 <= r && r as real <= x < r as real + 1.0
    ensures x < 0.0 ==> r <= 0 && r as real - 1.0 < x <= r as real
  {
    if x >= 0.0 then x.Floor else -((-x).Floor)
  }

  /** A score kept in [-5, 5] truncates to an integer in [-5, 5]. */
  lemma TruncInRange(x: real)
    requires -5.0 <= x <= 5.0
    ensures -5 <= Trunc(x) <= 5
  {
  }

  /** An entry of `_thresholds`: `-inf` or a finite bound. */
  datatype Threshold = NegInf | AtLeast(bound: real)

  /** `[-inf, -2.5, -.5, .5, 5]` */
  const Thresholds: seq<Threshold> := [NegInf, AtLeast(-2.5), AtLeast(-0.5), AtLeast(0.5), AtLeast(5.0)]

  predicate Passes(t: Threshold, h: int) {
    t.NegInf? || h as real >= t.bound
  }

  /** `[col for col, t in zip(colours, thresholds) if h >= t]` */
  function Eligible(colours: seq<string>, thresholds: seq<Threshold>, h: int): (r: seq<string>)
    ensures |colours| > 0 && |thresholds| > 0 && thresholds[0].NegInf? ==> |r| > 0
    decreases |colours|
  {
    if colours == [] || thresholds == [] then []
    else (if Passes(thresholds[0], h) then [colours[0]] else []) + Eligible(colours[1..], thresholds[1..], h)
  }

  /** The eye colour for the integer happiness `h`: the last colour whose threshold `h` reaches. */
  function EyeColour(colours: seq<string>, h: int): string
    requires |colours| > 0
  {
    var e := Eligible(colours, Thresholds, h);
    e[|e| - 1]
  }

  /** The bucket of an integer happiness: <= -3, -2..-1, 0, 1..4, >= 5. */
  function Bucket(h: int): nat {
    if h <= -3 then 0 else if h <= -1 then 1 else if h == 0 then 2 else if h <= 4 then 3 else 4
  }

  /** With five colours, the comprehension picks the colour of the happiness's bucket. */
  lemma EyeColourBucket(colours: seq<string>, h: int)
    requires |colours| == 5
    ensures Bucket(h) < 5 && EyeColour(colours, h) == colours[Bucket(h)]
  {
    var t := Thresholds;
    var e4 := Eligible(colours[4..], t[4..], h);
    var e3 := Eligible(colours[3..], t[3..], h);
    var e2 := Eligible(colours[2..], t[2..], h);
    var e1 := Eligible(colours[1..], t[1..], h);
    assert colours[4..][1..] == [] && t[4..][1..] == [];
    assert colours[4..][0] == colours[4] && t[4..][0] == AtLeast(5.0);
    assert Eligible(colours[4..][1..], t[4..][1..], h) == [];
    assert e4 == (if h >= 5 then [colours[4]] else []);
    assert colours[3..][1..] == colours[4..] && t[3..][1..] == t[4..];
    assert e3 == (if h >= 1 then [colours[3]] else []) + e4;
    assert colours[2..][1..] == colours[3..] && t[2..][1..] == t[3..];
    assert e2 == (if h >= 0 then [colours[2]] else []) + e3;
    assert colours[1..][1..] == colours[2..] && t[1..][1..] == t[2..];
    assert e1 == (if h >= -2 then [colours[1]] else []) + e2;
    assert Eligible(colours, t, h) == [colours[0]] + e1;
  }

  /** `"RED AMBER WHITE GREEN BRIGHT-GREEN".split()` of sir_code/main.py and sir_code/main_desktop.py. */
  const GreenPalette: seq<string> := ["RED", "AMBER", "WHITE", "GREEN", "BRIGHT-GREEN"]

  /** `"RED AMBER WHITE BLUE GREEN".split()` of sir_code/main_nao.py. */
  const BluePalette: seq<string> := ["RED", "AMBER", "WHITE", "BLUE", "GREEN"]

  /** With the first palette, `int(current_score)` gives RED for <= -3, AMBER for -2..-1,
      WHITE for 0, GREEN for 1..4 and BRIGHT-GREEN for 5 and above. */
  lemma GreenPaletteEyes(score: real)
    ensures var h := Trunc(score);
            EyeColour(GreenPalette, h)
            == if h <= -3 then "RED" else if h <= -1 then "AMBER" else if h == 0 then "WHITE"
               else if h <= 4 then "GREEN" else "BRIGHT-GREEN"
  {
    EyeColourBucket(GreenPalette, Trunc(score));
  }

  /** With the robot-bar palette the fourth bucket is BLUE and the top one GREEN. */
  lemma BluePaletteEyes(score: real)
    ensures var h := Trunc(score);
            EyeColour(BluePalette, h)
            == if h <= -3 then "RED" else if h <= -1 then "AMBER" else if h == 0 then "WHITE"
               else if h <= 4 then "BLUE" else "GREEN"
  {
    EyeColourBucket(BluePalette, Trunc(score));
  }

  /** `action_map`: the only letters of the scorer that become gestures. */
  const ActionMap: map<char, string> :=
    map['A' := "hands over drink", 'B' := "hands over food", 'H' := "points towards dark forest"]

  /** The `assert self.friendliness.scoring_history` of the robot helpers. */
  datatype ControlError = NoScoringHistory

  /** `_nao_actions`: the gestures for the letters of the last scoring (A, B and H only) and
      the eye colour, which is always shown; refused before any scoring. */
  method NaoActions(scoringHistory: seq<string>, score: real, colours: seq<string>)
    returns (r: Result<set<string>, ControlError>)
    requires |colours| > 0
    ensures r.Failure? <==> scoringHistory == []
    ensures r.Success? ==>
      forall a :: a in r.value <==>
        a == "eyes are " + EyeColour(colours, Trunc(score))
        || exists c :: c in scoringHistory[|scoringHistory| - 1] && c in ActionMap && ActionMap[c] == a
  {
    if scoringHistory == [] {
      return Failure(NoScoringHistory);
    }
    var letters := scoringHistory[|scoringHistory| - 1];
    var actions := set c | c in letters && c in ActionMap :: ActionMap[c];
    actions := actions + {"eyes are " + EyeColour(colours, Trunc(score))};
    r := Success(actions);
  }

  /** `_nao_eye_color`: the eye colour for the current score; refused before any scoring. */
  method NaoEyeColour(scoringHistory: seq<string>, score: real, colours: seq<string>)
    returns (r: Result<string, ControlError>)
    requires |colours| > 0
    ensures r.Failure? <==> scoringHistory == []
    ensures r.Success? ==> r.value == EyeColour(colours, Trunc(score))
  {
    if scoringHistory == [] {
      return Failure(NoScoringHistory);
    }
    r := Success(EyeColour(colours, Trunc(score)));
  }
}

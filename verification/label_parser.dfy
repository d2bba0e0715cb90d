/** The strict reply parser shared by the friendliness scorer (codes A..J,
    sir_code/user_friendliness.py) and the gesture detector (codes A..H,
    sir_code/action.py): the reply is either "None" or a comma list of codes; the
    codes are sorted and a repeated code is an error. */
module LabelParser {
  import opened Results
  import opened PyStrings

  /** The two assertion failures of the parser, each carrying the normalised reply. */
  datatype LabelError = Malformed(reply: string) | DuplicateLabels(reply: string)

  /** A code of the alphabet `A`..`top`, the character class `[A-top]`. */
  predicate IsCode(c: char, top: char) { 'A' <= c <= top }

  /** The regex `^\s*([A-top])(?:\s*,\s*([A-top]))*\s*$`, read left to right over `s`:
      `expectCode` holds before the first code and after each comma. */
  predicate ListFrom(s: string, top: char, expectCode: bool)
    decreases |s|
  {
    if s == [] then !expectCode
    else if IsSpace(s[0]) then ListFrom(s[1..], top, expectCode)
    else if expectCode then IsCode(s[0], top) && ListFrom(s[1..], top, false)
    else s[0] == ',' && ListFrom(s[1..], top, true)
  }

  /** `_resp_regex.match(s)` */
  predicate MatchesRegex(s: string, top: char) { ListFrom(s, top, true) }

  /** `s` without its whitespace. */
  function RemoveSpace(s: string): (r: string)
    ensures |r| <= |s|
    decreases |s|
  {
    if s == [] then [] else if IsSpace(s[0]) then RemoveSpace(s[1..]) else [s[0]] + RemoveSpace(s[1..])
  }

  /** A comma list with nothing else: codes at the even positions, commas at the odd ones,
      and a code at each end. */
  predicate IsCommaList(t: string, top: char) {
    |t| % 2 == 1 && forall i :: 0 <= i < |t| ==> if i % 2 == 0 then IsCode(t[i], top) else t[i] == ','
  }

  /** What may follow a code: nothing, or a comma and another comma list. */
  predicate AfterCode(t: string, top: char) {
    t == [] || (t[0] == ',' && IsCommaList(t[1..], top))
  }

  lemma CommaListUnfold(t: string, top: char)
    ensures IsCommaList(t, top) <==> |t| >= 1 && IsCode(t[0], top) && AfterCode(t[1..], top)
  {
    if |t| >= 1 && IsCode(t[0], top) && AfterCode(t[1..], top) && |t| > 1 {
      var u := t[2..];
      assert t[1..][1..] == u;
      forall i | 2 <= i < |t| ensures if i % 2 == 0 then IsCode(t[i], top) else t[i] == ',' {
        assert t[i] == u[i - 2];
      }
    }
    if IsCommaList(t, top) && |t| > 1 {
      var u := t[2..];
      forall i | 0 <= i < |u| ensures if i % 2 == 0 then IsCode(u[i], top) else u[i] == ',' {
        assert u[i] == t[i + 2];
      }
      assert t[1..][1..] == u;
    }
  }

  lemma {:induction false} ListFromCharacterization(s: string, top: char, expectCode: bool)
    ensures ListFrom(s, top, expectCode)
            <==> if expectCode then IsCommaList(RemoveSpace(s), top) else AfterCode(RemoveSpace(s), top)
    decreases |s|
  {
    if s == [] {
    } else if IsSpace(s[0]) {
      ListFromCharacterization(s[1..], top, expectCode);
    } else {
      var t := RemoveSpace(s);
      assert t == [s[0]] + RemoveSpace(s[1..]);
      assert t[1..] == RemoveSpace(s[1..]);
      CommaListUnfold(t, top);
      ListFromCharacterization(s[1..], top, !expectCode);
    }
  }

  /** The regex accepts exactly the strings that, once their whitespace is removed, are a
      comma list of codes. */
  lemma RegexCharacterization(s: string, top: char)
    ensures MatchesRegex(s, top) <==> IsCommaList(RemoveSpace(s), top)
  {
    ListFromCharacterization(s, top, true);
  }

  /** `re.findall(r"[A-top]", s)`: every code in `s`, in order. */
  function FindCodes(s: string, top: char): (r: string)
    ensures forall i :: 0 <= i < |r| ==> IsCode(r[i], top)
    decreases |s|
  {
    if s == [] then [] else if IsCode(s[0], top) then [s[0]] + FindCodes(s[1..], top) else FindCodes(s[1..], top)
  }

  lemma {:induction false} ListFromHasCode(s: string, top: char)
    requires ListFrom(s, top, true)
    ensures FindCodes(s, top) != []
    decreases |s|
  {
    if IsSpace(s[0]) {
      ListFromHasCode(s[1..], top);
    }
  }

  predicate Sorted(s: string) {
    forall i, j :: 0 <= i < j < |s| ==> s[i] <= s[j]
  }

  predicate StrictlySorted(s: string) {
    forall i, j :: 0 <= i < j < |s| ==> s[i] < s[j]
  }

  function Insert(c: char, s: string): (r: string)
    requires Sorted(s)
    ensures Sorted(r) && multiset(r) == multiset(s) + multiset{c}
    decreases |s|
  {
    if s == [] || c <= s[0] then [c] + s
    else
      var rest := Insert(c, s[1..]);
      InsertBehind(c, s, rest);
      [s[0]] + rest
  }

  /** The step of `Insert` that keeps the head of `s` in front. */
  lemma InsertBehind(c: char, s: string, rest: string)
    requires Sorted(s) && s != [] && s[0] < c
    requires Sorted(rest) && multiset(rest) == multiset(s[1..]) + multiset{c}
    ensures Sorted([s[0]] + rest) && multiset([s[0]] + rest) == multiset(s) + multiset{c}
  {
    assert s == [s[0]] + s[1..];
    forall k | 0 <= k < |rest| ensures s[0] <= rest[k] {
      assert rest[k] in multiset(rest);
      if rest[k] != c {
        assert rest[k] in multiset(s[1..]);
        var j :| 0 <= j < |s[1..]| && s[1..][j] == rest[k];
        assert s[j + 1] == rest[k];
      }
    }
    var u := [s[0]] + rest;
    forall i, j | 0 <= i < j < |u| ensures u[i] <= u[j] {
      assert u[j] == rest[j - 1];
      if i > 0 { assert u[i] == rest[i - 1]; }
    }
  }

  /** `sorted(s)` on a string, by insertion. */
  function SortChars(s: string): (r: string)
    ensures Sorted(r) && multiset(r) == multiset(s)
    decreases |s|
  {
    if s == [] then []
    else
      assert s == [s[0]] + s[1..];
      Insert(s[0], SortChars(s[1..]))
  }

  /** Two sorted strings with the same characters are the same string. */
  lemma {:induction false} SortedUnique(a: string, b: string)
    requires Sorted(a) && Sorted(b) && multiset(a) == multiset(b)
    ensures a == b
    decreases |a|
  {
    if a != [] {
      HeadsAgree(a, b);
      SortedUnique(a[1..], b[1..]);
      assert a == [a[0]] + a[1..] && b == [b[0]] + b[1..];
    }
  }

  /** Two sorted strings with the same characters start alike and go on with the same characters. */
  lemma HeadsAgree(a: string, b: string)
    requires Sorted(a) && Sorted(b) && multiset(a) == multiset(b) && a != []
    ensures b != [] && a[0] == b[0]
    ensures Sorted(a[1..]) && Sorted(b[1..]) && multiset(a[1..]) == multiset(b[1..])
  {
    assert |b| == |a| by { assert |multiset(a)| == |multiset(b)|; }
    assert a[0] in multiset(b) && b[0] in multiset(a);
    SortedHeadIsLeast(a, b[0]);
    SortedHeadIsLeast(b, a[0]);
    TailMultiset(a);
    TailMultiset(b);
    SortedTail(a);
    SortedTail(b);
  }

  lemma SortedHeadIsLeast(s: string, x: char)
    requires Sorted(s) && x in multiset(s)
    ensures s != [] && s[0] <= x
  {
    var k :| 0 <= k < |s| && s[k] == x;
  }

  lemma SortedTail(s: string)
    requires Sorted(s) && s != []
    ensures Sorted(s[1..])
  {
    forall i, j | 0 <= i < j < |s| - 1 ensures s[1..][i] <= s[1..][j] {
      assert s[1..][i] == s[i + 1] && s[1..][j] == s[j + 1];
    }
  }

  lemma TailMultiset(s: string)
    requires s != []
    ensures multiset(s[1..]) == multiset(s) - multiset{s[0]}
  {
    assert s == [s[0]] + s[1..];
  }

  /** No character occurs more than once. */
  predicate NoRepeats(s: string) {
    forall c :: multiset(s)[c] <= 1
  }

  /** `set(s)` */
  function CharSet(s: string): set<char> {
    set c | c in s
  }

  /** `len(s) == len(set(s))` holds exactly when no character repeats. */
  lemma {:induction false} CharSetSize(s: string)
    ensures |CharSet(s)| <= |s|
    ensures |CharSet(s)| == |s| <==> NoRepeats(s)
    decreases |s|
  {
    if s != [] {
      var x, t := s[0], s[1..];
      assert s == [x] + t;
      CharSetSize(t);
      assert CharSet(s) == {x} + CharSet(t);
      if x in t {
        assert CharSet(s) == CharSet(t);
        assert multiset(s)[x] >= 2;
      } else {
        assert x !in CharSet(t);
        assert multiset(t)[x] == 0;
        assert forall c :: multiset(s)[c] == multiset(t)[c] + (if c == x then 1 else 0);
        if !NoRepeats(t) {
          var c :| multiset(t)[c] > 1;
          assert multiset(s)[c] > 1;
        }
      }
    }
  }

  lemma SortedNoRepeatsIsStrict(s: string)
    requires Sorted(s) && NoRepeats(s)
    ensures StrictlySorted(s)
  {
    forall i, j | 0 <= i < j < |s| ensures s[i] < s[j] {
      RepeatedAt(s, i, j);
    }
  }

  lemma RepeatedAt(s: string, i: int, j: int)
    ensures 0 <= i < j < |s| && s[i] == s[j] ==> multiset(s)[s[i]] >= 2
  {
    if 0 <= i < j < |s| {
      assert s == s[..i] + [s[i]] + s[i + 1..j] + [s[j]] + s[j + 1..];
    }
  }

  /** `UserFriendliness.score` / `Action.detect` up to the agent call: normalise the reply,
      accept "None" as no codes, otherwise demand the regex, collect the codes, sort them and
      refuse a repeated one. */
  function ParseLabels(reply: string, top: char): Result<string, LabelError> {
    var resp := NormalizeReply(reply);
    if IsNoneWord(resp) then Success("")
    else if !MatchesRegex(resp, top) then Failure(Malformed(resp))
    else
      var letters := SortChars(FindCodes(resp, top));
      if |letters| != |CharSet(letters)| then Failure(DuplicateLabels(resp)) else Success(letters)
  }

  /** An accepted reply gives codes of the alphabet in strictly ascending order: none for a
      "None" reply, otherwise exactly the codes the reply lists. */
  lemma ParseAccepted(reply: string, top: char)
    requires ParseLabels(reply, top).Success?
    ensures var letters := ParseLabels(reply, top).value;
            var resp := NormalizeReply(reply);
            && StrictlySorted(letters)
            && (forall i :: 0 <= i < |letters| ==> IsCode(letters[i], top))
            && (letters == [] <==> IsNoneWord(resp))
            && (!IsNoneWord(resp) ==> multiset(letters) == multiset(FindCodes(resp, top)))
  {
    var resp := NormalizeReply(reply);
    if !IsNoneWord(resp) {
      var letters := SortChars(FindCodes(resp, top));
      CharSetSize(letters);
      SortedNoRepeatsIsStrict(letters);
      ListFromHasCode(resp, top);
      assert |letters| == |FindCodes(resp, top)| by {
        assert |multiset(letters)| == |multiset(FindCodes(resp, top))|;
      }
      forall i | 0 <= i < |letters| ensures IsCode(letters[i], top) {
        assert letters[i] in multiset(FindCodes(resp, top));
      }
    }
  }

  /** A reply that lists some code twice is refused as a duplicate, never deduplicated; and
      only such a reply is refused as a duplicate. */
  lemma ParseDuplicates(reply: string, top: char)
    ensures var resp := NormalizeReply(reply);
            ParseLabels(reply, top) == Failure(DuplicateLabels(resp))
            <==> !IsNoneWord(resp) && MatchesRegex(resp, top) && !NoRepeats(FindCodes(resp, top))
  {
    var resp := NormalizeReply(reply);
    if !IsNoneWord(resp) && MatchesRegex(resp, top) {
      var letters := SortChars(FindCodes(resp, top));
      CharSetSize(letters);
      assert NoRepeats(letters) <==> NoRepeats(FindCodes(resp, top));
    }
  }

  /** A normalised reply holding any character other than whitespace, commas and codes
      (and not "None") is refused as malformed. */
  lemma ParseStrayCharacter(reply: string, top: char, k: nat)
    requires var resp := NormalizeReply(reply);
             k < |resp| && !IsSpace(resp[k]) && resp[k] != ',' && !IsCode(resp[k], top) && !IsNoneWord(resp)
    ensures ParseLabels(reply, top) == Failure(Malformed(NormalizeReply(reply)))
  {
    var resp := NormalizeReply(reply);
    RegexCharacterization(resp, top);
    StrayCharacterSurvives(resp, top, k);
  }

  lemma {:induction false} StrayCharacterSurvives(s: string, top: char, k: nat)
    requires k < |s| && !IsSpace(s[k]) && s[k] != ',' && !IsCode(s[k], top)
    ensures !IsCommaList(RemoveSpace(s), top)
    decreases |s|
  {
    var t := RemoveSpace(s);
    if k == 0 {
      assert t == [s[0]] + RemoveSpace(s[1..]);
      assert t[0] == s[0];
    } else {
      StrayInRemoveSpace(s[1..], top, k - 1);
      var j :| 0 <= j < |RemoveSpace(s[1..])| && RemoveSpace(s[1..])[j] == s[k];
      if IsSpace(s[0]) {
        assert t[j] == s[k];
      } else {
        assert t == [s[0]] + RemoveSpace(s[1..]);
        assert t[j + 1] == s[k];
      }
    }
  }

  lemma {:induction false} StrayInRemoveSpace(s: string, top: char, k: nat)
    requires k < |s| && !IsSpace(s[k])
    ensures exists j :: 0 <= j < |RemoveSpace(s)| && RemoveSpace(s)[j] == s[k]
    decreases |s|
  {
    var t := RemoveSpace(s);
    if k == 0 {
      assert t == [s[0]] + RemoveSpace(s[1..]);
      assert t[0] == s[0];
    } else {
      StrayInRemoveSpace(s[1..], top, k - 1);
      var j :| 0 <= j < |RemoveSpace(s[1..])| && RemoveSpace(s[1..])[j] == s[k];
      if !IsSpace(s[0]) {
        assert t == [s[0]] + RemoveSpace(s[1..]);
        assert t[j + 1] == s[k];
      } else {
        assert t[j] == s[k];
      }
    }
  }

  /** The order, spacing and listing of the codes do not matter: two well-formed replies
      naming the same codes are both accepted with the same result, or both refused. */
  lemma ParseCanonical(reply1: string, reply2: string, top: char)
    requires var r1, r2 := NormalizeReply(reply1), NormalizeReply(reply2);
             && !IsNoneWord(r1) && !IsNoneWord(r2)
             && MatchesRegex(r1, top) && MatchesRegex(r2, top)
             && multiset(FindCodes(r1, top)) == multiset(FindCodes(r2, top))
    ensures ParseLabels(reply1, top).Success? <==> ParseLabels(reply2, top).Success?
    ensures ParseLabels(reply1, top).Success? ==> ParseLabels(reply1, top) == ParseLabels(reply2, top)
  {
    var r1, r2 := NormalizeReply(reply1), NormalizeReply(reply2);
    SortedUnique(SortChars(FindCodes(r1, top)), SortChars(FindCodes(r2, top)));
  }

  /** The option list of a classification prompt: `"\n".join(f"{k}) {v}" ...)`. */
  function OptionLine(entry: (string, string)): string {
    entry.0 + ") " + entry.1
  }

  function OptionsText(entries: seq<(string, string)>): string {
    Join(seq(|entries|, i requires 0 <= i < |entries| => OptionLine(entries[i])), "\n")
  }

  /** Read back line by line, the option list has one `code) description` line per entry,
      in the entries' order, as long as no code or description holds a newline. */
  lemma OptionsTextLines(entries: seq<(string, string)>)
    requires |entries| >= 1
    requires forall i :: 0 <= i < |entries| ==> '\n' !in entries[i].0 && '\n' !in entries[i].1
    ensures Split(OptionsText(entries), "\n") == seq(|entries|, i requires 0 <= i < |entries| => OptionLine(entries[i]))
  {
    var lines := seq(|entries|, i requires 0 <= i < |entries| => OptionLine(entries[i]));
    forall i | 0 <= i < |lines| ensures '\n' !in lines[i] {
      assert lines[i] == entries[i].0 + ") " + entries[i].1;
    }
    SplitJoin(lines, "\n");
  }
}

/** The analysis artifact: captions, key moments and the analysis document,
    the structural rules the Mongoose schema declares for them, the
    `duration` virtual, the `getTopMoments` document method, and the
    collection whose unique index on `videoId` allows one analysis per video. */
module AnalysisModel {
  import opened Common

  // ---------------------------------------------------------------------
  // Data model
  // ---------------------------------------------------------------------

  /** The three caption variants. */
  datatype CaptionType = Hook | Value | Emotion

  /** The string each variant is stored as. */
  function CaptionTypeValue(t: CaptionType): string {
    match t
    case Hook => "hook"
    case Value => "value"
    case Emotion => "emotion"
  }

  /** The schema's `enum` check on a stored caption type: a string is
      accepted exactly when it is the stored form of some variant. */
  function ParseCaptionType(s: string): (r: Option<CaptionType>)
    ensures r.Some? ==> CaptionTypeValue(r.value) == s
    ensures r.None? ==> forall t :: CaptionTypeValue(t) != s
  {
    if s == "hook" then Some(Hook)
    else if s == "value" then Some(Value)
    else if s == "emotion" then Some(Emotion)
    else None
  }

  lemma ParseCaptionTypeRoundTrip(t: CaptionType)
    ensures ParseCaptionType(CaptionTypeValue(t)) == Some(t)
  {
  }

  datatype Caption = Caption(kind: CaptionType, text: string)

  /** Times are in seconds. JavaScript numbers are only compared and
      subtracted here, so they are modelled as mathematical reals. */
  datatype KeyMoment = KeyMoment(
    startTime: real,
    endTime: real,
    summary: string,
    suggestedHook: string,
    viralScore: real,
    captions: seq<Caption>)

  datatype Analysis = Analysis(
    videoId: ObjectId,
    userId: ObjectId,
    keyMoments: seq<KeyMoment>,
    overallSummary: Option<string>,
    totalDuration: Option<real>)

  // ---------------------------------------------------------------------
  // Schema rules, written as data, and the built-in validators that read them
  // ---------------------------------------------------------------------

  /** The `min` and `max` options of a Number path. */
  datatype NumberRule = NumberRule(min: Option<real>, max: Option<real>)

  /** The `required` and `maxlength` options of a String path. */
  datatype StringRule = StringRule(required: bool, maxLength: Option<nat>)

  /** Mongoose's `min`/`max` validators: both bounds inclusive. */
  predicate NumberAccepts(rule: NumberRule, x: real) {
    && (rule.min.Some? ==> x >= rule.min.value)
    && (rule.max.Some? ==> x <= rule.max.value)
  }

  /** Mongoose's `required` validator on a String rejects the empty string;
      `maxlength` compares JavaScript's `length`, in UTF-16 code units. */
  predicate StringAccepts(rule: StringRule, s: string) {
    && (rule.required ==> s != "")
    && (rule.maxLength.Some? ==> Utf16Length(s) <= rule.maxLength.value)
  }

  /** Validators of an optional path run only when a value is present. */
  predicate OptionalStringAccepts(rule: StringRule, o: Option<string>) {
    o.None? || StringAccepts(rule, o.value)
  }

  predicate OptionalNumberAccepts(rule: NumberRule, o: Option<real>) {
    o.None? || NumberAccepts(rule, o.value)
  }

  const CaptionTextRule := StringRule(true, Some(150))
  const StartTimeRule := NumberRule(Some(0.0), None)
  const EndTimeRule := NumberRule(Some(0.0), None)
  const SummaryRule := StringRule(true, Some(500))
  const SuggestedHookRule := StringRule(true, Some(200))
  const ViralScoreRule := NumberRule(Some(1.0), Some(10.0))
  const OverallSummaryRule := StringRule(false, Some(1000))
  const TotalDurationRule := NumberRule(Some(0.0), None)

  /** CaptionSchema. The `enum` check on `type` is ParseCaptionType; a
      Caption value always holds one of the three variants. */
  predicate ValidCaption(c: Caption) {
    StringAccepts(CaptionTextRule, c.text)
  }

  /** The custom validator on `endTime`. */
  predicate EndsAfterStart(m: KeyMoment) {
    m.endTime > m.startTime
  }

  /** The custom validator on `captions`: only the count is checked. */
  predicate HasThreeCaptions(captions: seq<Caption>) {
    |captions| == 3
  }

  /** KeyMomentSchema, every path with its validators. */
  predicate ValidKeyMoment(m: KeyMoment) {
    && NumberAccepts(StartTimeRule, m.startTime)
    && NumberAccepts(EndTimeRule, m.endTime)
    && EndsAfterStart(m)
    && StringAccepts(SummaryRule, m.summary)
    && StringAccepts(SuggestedHookRule, m.suggestedHook)
    && NumberAccepts(ViralScoreRule, m.viralScore)
    && HasThreeCaptions(m.captions)
    && forall c :: c in m.captions ==> ValidCaption(c)
  }

  /** The custom validator on `keyMoments`. */
  predicate HasThreeToFiveMoments(moments: seq<KeyMoment>) {
    3 <= |moments| <= 5
  }

  /** AnalysisSchema, every path with its validators. */
  predicate ValidAnalysis(a: Analysis) {
    && HasThreeToFiveMoments(a.keyMoments)
    && (forall m :: m in a.keyMoments ==> ValidKeyMoment(m))
    && OptionalStringAccepts(OverallSummaryRule, a.overallSummary)
    && OptionalNumberAccepts(TotalDurationRule, a.totalDuration)
  }

  // ---------------------------------------------------------------------
  // What the rules mean, field by field
  // ---------------------------------------------------------------------

  /** A caption is accepted exactly when its text is non-empty and at most
      150 code units long. */
  lemma ValidCaptionMeaning(c: Caption)
    ensures ValidCaption(c) <==> 0 < Utf16Length(c.text) <= 150
  {
  }

  /** A key moment is accepted exactly when its times are ordered and
      non-negative, its strings are within their ceilings, its score lies in
      [1, 10] and it has three valid captions. The `min: 0` on `endTime` is
      implied by the other two time rules. */
  lemma ValidKeyMomentMeaning(m: KeyMoment)
    ensures ValidKeyMoment(m) <==>
      && 0.0 <= m.startTime < m.endTime
      && 0 < Utf16Length(m.summary) <= 500
      && 0 < Utf16Length(m.suggestedHook) <= 200
      && 1.0 <= m.viralScore <= 10.0
      && |m.captions| == 3
      && forall i :: 0 <= i < |m.captions| ==> 0 < Utf16Length(m.captions[i].text) <= 150
  {
    forall i | 0 <= i < |m.captions| {
      ValidCaptionMeaning(m.captions[i]);
    }
  }

  /** An analysis is accepted exactly when it has three to five moments, all
      of them valid, and its optional fields are absent or within bounds. */
  lemma ValidAnalysisMeaning(a: Analysis)
    ensures ValidAnalysis(a) <==>
      && 3 <= |a.keyMoments| <= 5
      && (forall i :: 0 <= i < |a.keyMoments| ==> ValidKeyMoment(a.keyMoments[i]))
      && (a.overallSummary.None? || Utf16Length(a.overallSummary.value) <= 1000)
      && (a.totalDuration.None? || a.totalDuration.value >= 0.0)
  {
  }

  /** The time rules on their own: equal times, or a start after the end,
      are rejected whatever the other fields hold. */
  lemma UnorderedTimesRejected(m: KeyMoment)
    requires m.startTime >= m.endTime
    ensures !ValidKeyMoment(m)
  {
  }

  /** The score bound in isolation: changing only the score of a valid moment
      keeps it valid exactly when the new score is in [1, 10]. */
  lemma ViralScoreBounds(m: KeyMoment, score: real)
    requires ValidKeyMoment(m)
    ensures ValidKeyMoment(m.(viralScore := score)) <==> 1.0 <= score <= 10.0
  {
    assert m.(viralScore := score).captions == m.captions;
  }

  /** The caption arity in isolation: replacing the captions of a valid moment
      by valid captions keeps it valid exactly when there are three of them. */
  lemma CaptionCountExact(m: KeyMoment, captions: seq<Caption>)
    requires ValidKeyMoment(m)
    requires forall c :: c in captions ==> ValidCaption(c)
    ensures ValidKeyMoment(m.(captions := captions)) <==> |captions| == 3
  {
  }

  /** Distinct caption types are not required: three hook captions pass. */
  lemma ThreeHookCaptionsAccepted(m: KeyMoment)
    requires ValidKeyMoment(m)
    ensures ValidKeyMoment(m.(captions := [Caption(Hook, "a"), Caption(Hook, "b"), Caption(Hook, "c")]))
  {
    var cs := [Caption(Hook, "a"), Caption(Hook, "b"), Caption(Hook, "c")];
    forall c | c in cs ensures ValidCaption(c) {
      assert Utf16Length(c.text) == 1;
    }
  }

  /** A maxlength ceiling is inclusive: a string exactly at the ceiling is
      accepted and one more character of any kind is rejected. */
  lemma StringCeiling(rule: StringRule, s: string, c: char)
    requires rule.maxLength.Some? && Utf16Length(s) == rule.maxLength.value
    requires s != "" || !rule.required
    ensures StringAccepts(rule, s)
    ensures !StringAccepts(rule, s + [c])
  {
    Utf16LengthAppend(s, [c]);
  }

  /** The summary ceiling of 500: one character past it is rejected. */
  lemma SummaryCeiling(m: KeyMoment, c: char)
    requires ValidKeyMoment(m) && Utf16Length(m.summary) == 500
    ensures !ValidKeyMoment(m.(summary := m.summary + [c]))
  {
    StringCeiling(SummaryRule, m.summary, c);
  }

  /** The suggested-hook ceiling of 200: one character past it is rejected. */
  lemma SuggestedHookCeiling(m: KeyMoment, c: char)
    requires ValidKeyMoment(m) && Utf16Length(m.suggestedHook) == 200
    ensures !ValidKeyMoment(m.(suggestedHook := m.suggestedHook + [c]))
  {
    StringCeiling(SuggestedHookRule, m.suggestedHook, c);
  }

  /** The caption-text ceiling of 150: one character past it is rejected. */
  lemma CaptionTextCeiling(cap: Caption, c: char)
    requires ValidCaption(cap) && Utf16Length(cap.text) == 150
    ensures !ValidCaption(cap.(text := cap.text + [c]))
  {
    StringCeiling(CaptionTextRule, cap.text, c);
  }

  // ---------------------------------------------------------------------
  // The `duration` virtual
  // ---------------------------------------------------------------------

  /** `endTime - startTime`: positive exactly when the end-time validator
      passes, and so strictly positive, and no longer than the moment's end,
      for every valid moment. */
  function Duration(m: KeyMoment): (d: real)
    ensures d > 0.0 <==> EndsAfterStart(m)
    ensures ValidKeyMoment(m) ==> 0.0 < d <= m.endTime
  {
    m.endTime - m.startTime
  }

  // ---------------------------------------------------------------------
  // Ranking: the sort inside `getTopMoments`
  // ---------------------------------------------------------------------

  /** Scores never increase along the sequence. */
  predicate SortedByScore(s: seq<KeyMoment>) {
    forall i, j :: 0 <= i < j < |s| ==> s[i].viralScore >= s[j].viralScore
  }

  /** Places `x` after every element of `s` whose score is at least its own,
      scanning from the end; on a sorted `s` this is where a stable sort by
      descending score puts an element that came after all of `s`. */
  function InsertByScore(s: seq<KeyMoment>, x: KeyMoment): seq<KeyMoment>
    decreases |s|
  {
    if s == [] || s[|s| - 1].viralScore >= x.viralScore then s + [x]
    else InsertByScore(s[..|s| - 1], x) + [s[|s| - 1]]
  }

  /** The order `keyMoments.sort((a, b) => b.viralScore - a.viralScore)`
      leaves: JavaScript's sort is stable, so this is the stable sort by
      descending score, here written as an insertion sort. */
  function SortByScore(s: seq<KeyMoment>): seq<KeyMoment>
    decreases |s|
  {
    if s == [] then [] else InsertByScore(SortByScore(s[..|s| - 1]), s[|s| - 1])
  }

  /** `[m]` when `m` scores `v`, otherwise nothing. */
  function Picked(m: KeyMoment, v: real): seq<KeyMoment> {
    if m.viralScore == v then [m] else []
  }

  /** The elements of `s` with score `v`, in their order in `s`. */
  function WithScore(s: seq<KeyMoment>, v: real): seq<KeyMoment>
    decreases |s|
  {
    if s == [] then [] else WithScore(s[..|s| - 1], v) + Picked(s[|s| - 1], v)
  }

  lemma WithScoreSnoc(s: seq<KeyMoment>, m: KeyMoment, v: real)
    ensures WithScore(s + [m], v) == WithScore(s, v) + Picked(m, v)
  {
    assert (s + [m])[..|s|] == s;
  }

  lemma {:induction false} InsertByScorePermutation(s: seq<KeyMoment>, x: KeyMoment)
    ensures multiset(InsertByScore(s, x)) == multiset(s) + multiset{x}
    decreases |s|
  {
    if s != [] && s[|s| - 1].viralScore < x.viralScore {
      var init, last := s[..|s| - 1], s[|s| - 1];
      assert s == init + [last];
      InsertByScorePermutation(init, x);
    }
  }

  lemma {:induction false} InsertByScoreSorted(s: seq<KeyMoment>, x: KeyMoment)
    requires SortedByScore(s)
    ensures SortedByScore(InsertByScore(s, x))
    ensures |InsertByScore(s, x)| == |s| + 1
    ensures forall i :: 0 <= i < |InsertByScore(s, x)| ==>
      InsertByScore(s, x)[i] == x || InsertByScore(s, x)[i] in s
    decreases |s|
  {
    if s != [] && s[|s| - 1].viralScore < x.viralScore {
      var init, last := s[..|s| - 1], s[|s| - 1];
      InsertByScoreSorted(init, x);
      var r := InsertByScore(init, x);
      assert forall i :: 0 <= i < |r| ==> r[i].viralScore >= last.viralScore by {
        forall i | 0 <= i < |r| ensures r[i].viralScore >= last.viralScore {
          if r[i] != x {
            var k :| 0 <= k < |init| && init[k] == r[i];
            assert s[k] == init[k];
          }
        }
      }
      forall i | 0 <= i < |r| + 1 ensures (r + [last])[i] == x || (r + [last])[i] in s {
        if i < |r| && r[i] != x {
          var k :| 0 <= k < |init| && init[k] == r[i];
          assert s[k] == r[i];
        }
      }
    }
  }

  /** The sorted order is a permutation of the original moments. */
  lemma {:induction false} SortByScorePermutation(s: seq<KeyMoment>)
    ensures multiset(SortByScore(s)) == multiset(s)
    ensures |SortByScore(s)| == |s|
    decreases |s|
  {
    if s != [] {
      var init, last := s[..|s| - 1], s[|s| - 1];
      assert s == init + [last];
      SortByScorePermutation(init);
      InsertByScorePermutation(SortByScore(init), last);
    }
  }

  /** The sorted order has non-increasing scores. */
  lemma {:induction false} SortByScoreSorted(s: seq<KeyMoment>)
    ensures SortedByScore(SortByScore(s))
    decreases |s|
  {
    if s != [] {
      SortByScoreSorted(s[..|s| - 1]);
      InsertByScoreSorted(SortByScore(s[..|s| - 1]), s[|s| - 1]);
    }
  }

  lemma {:induction false} InsertByScoreStable(s: seq<KeyMoment>, x: KeyMoment, v: real)
    ensures WithScore(InsertByScore(s, x), v) == WithScore(s, v) + Picked(x, v)
    decreases |s|
  {
    if s == [] || s[|s| - 1].viralScore >= x.viralScore {
      WithScoreSnoc(s, x, v);
    } else {
      var init, last := s[..|s| - 1], s[|s| - 1];
      calc {
        WithScore(InsertByScore(s, x), v);
        WithScore(InsertByScore(init, x) + [last], v);
        { WithScoreSnoc(InsertByScore(init, x), last, v); }
        WithScore(InsertByScore(init, x), v) + Picked(last, v);
        { InsertByScoreStable(init, x, v); }
        WithScore(init, v) + Picked(x, v) + Picked(last, v);
        { assert Picked(x, v) == [] || Picked(last, v) == []; }
        WithScore(init, v) + Picked(last, v) + Picked(x, v);
        WithScore(s, v) + Picked(x, v);
      }
    }
  }

  /** The sort is stable: moments with equal scores keep their relative order. */
  lemma {:induction false} SortByScoreStable(s: seq<KeyMoment>, v: real)
    ensures WithScore(SortByScore(s), v) == WithScore(s, v)
    decreases |s|
  {
    if s != [] {
      var init, last := s[..|s| - 1], s[|s| - 1];
      SortByScoreStable(init, v);
      InsertByScoreStable(SortByScore(init), last, v);
    }
  }

  /** Reordering the moments keeps a valid analysis valid. */
  lemma SortPreservesValidity(a: Analysis)
    requires ValidAnalysis(a)
    ensures ValidAnalysis(a.(keyMoments := SortByScore(a.keyMoments)))
  {
    SortByScorePermutation(a.keyMoments);
    var s := SortByScore(a.keyMoments);
    forall m | m in s ensures ValidKeyMoment(m) {
      assert m in multiset(s);
    }
  }

  // ---------------------------------------------------------------------
  // The slice inside `getTopMoments`
  // ---------------------------------------------------------------------

  /** The end index `slice(0, limit)` uses on a list of length `n`: a negative
      `limit` counts back from the end, and the index is clamped to [0, n]. */
  function SliceEnd(n: nat, limit: int): (k: nat)
    ensures k <= n
    ensures limit >= 0 ==> k == Min(limit, n)
    ensures limit < 0 ==> k == (if n + limit < 0 then 0 else n + limit)
  {
    if limit < 0 then (if n + limit < 0 then 0 else n + limit)
    else Min(limit, n)
  }

  lemma {:induction false} SortedPrefixDominates(t: seq<KeyMoment>, k: nat)
    requires SortedByScore(t) && k <= |t|
    ensures forall m :: m in multiset(t[k..]) ==>
      forall i :: 0 <= i < k ==> t[i].viralScore >= m.viralScore
  {
    forall m | m in multiset(t[k..]) ensures forall i :: 0 <= i < k ==> t[i].viralScore >= m.viralScore {
      assert m in t[k..];
      var j :| 0 <= j < |t[k..]| && t[k..][j] == m;
      assert t[k + j] == m;
    }
  }

  /** What `getTopMoments(limit)` returns for moments `s` (the default limit
      is 3): as many of the best-scoring moments as the slice keeps, in
      non-increasing score order, each scoring at least as high as every
      moment left out. */
  function TopMoments(s: seq<KeyMoment>, limit: int := 3): (r: seq<KeyMoment>)
    ensures |r| == SliceEnd(|s|, limit)
    ensures limit >= 0 ==> |r| == Min(limit, |s|)
    ensures SortedByScore(r)
    ensures multiset(r) <= multiset(s)
    ensures forall m :: m in multiset(s) - multiset(r) ==>
      forall i :: 0 <= i < |r| ==> r[i].viralScore >= m.viralScore
  {
    var t := SortByScore(s);
    SortByScorePermutation(s);
    SortByScoreSorted(s);
    var k := SliceEnd(|s|, limit);
    SortedPrefixDominates(t, k);
    assert t == t[..k] + t[k..];
    assert multiset(t) == multiset(t[..k]) + multiset(t[k..]);
    t[..k]
  }

  // ---------------------------------------------------------------------
  // The in-place sort and the document method
  // ---------------------------------------------------------------------

  /** The state of the array while `key`, taken from index `i`, is being
      inserted into the sorted prefix `p`: the elements before the gap at
      `j` are untouched, those between the gap and `i` have moved one place
      right, and everything after `i` is still the original `o`. */
  ghost predicate Shifting(a: seq<KeyMoment>, p: seq<KeyMoment>, o: seq<KeyMoment>, i: nat, j: nat) {
    && |a| == |o| && j <= i < |a| && |p| == i
    && a[..j] == p[..j]
    && a[j + 1..i + 1] == p[j..i]
    && a[i + 1..] == o[i + 1..]
  }

  /** Moving the element before the gap into it keeps the shifting state,
      with the gap one place further left. */
  lemma ShiftStep(a: seq<KeyMoment>, p: seq<KeyMoment>, o: seq<KeyMoment>, i: nat, j: nat)
    requires Shifting(a, p, o, i, j) && 0 < j
    ensures a[j - 1] == p[j - 1]
    ensures Shifting(a[j := a[j - 1]], p, o, i, j - 1)
  {
    assert a[j - 1] == p[j - 1] by { assert a[..j][j - 1] == p[..j][j - 1]; }
    var b := a[j := a[j - 1]];
    assert b[..j - 1] == p[..j - 1] by {
      assert b[..j - 1] == a[..j - 1] && a[..j - 1] == a[..j][..j - 1];
      assert p[..j - 1] == p[..j][..j - 1];
    }
    assert b[j..i + 1] == p[j - 1..i] by {
      assert b[j..i + 1] == [b[j]] + b[j + 1..i + 1];
      assert b[j + 1..i + 1] == a[j + 1..i + 1];
      assert p[j - 1..i] == [p[j - 1]] + p[j..i];
    }
    assert b[i + 1..] == a[i + 1..];
  }

  /** When `p[j - 1]` scores lower than `x`, `x` is inserted in front of it. */
  lemma InsertShiftStep(p: seq<KeyMoment>, j: nat, x: KeyMoment)
    requires 0 < j <= |p| && p[j - 1].viralScore < x.viralScore
    requires InsertByScore(p, x) == InsertByScore(p[..j], x) + p[j..]
    ensures InsertByScore(p, x) == InsertByScore(p[..j - 1], x) + p[j - 1..]
  {
    assert p[..j][..j - 1] == p[..j - 1];
    assert InsertByScore(p[..j], x) == InsertByScore(p[..j - 1], x) + [p[j - 1]];
    assert p[j - 1..] == [p[j - 1]] + p[j..];
  }

  lemma ShiftDone(a: seq<KeyMoment>, p: seq<KeyMoment>, o: seq<KeyMoment>, i: nat, j: nat, x: KeyMoment)
    requires Shifting(a, p, o, i, j)
    requires InsertByScore(p, x) == InsertByScore(p[..j], x) + p[j..]
    requires j == 0 || a[j - 1].viralScore >= x.viralScore
    ensures a[j := x][..i + 1] == InsertByScore(p, x)
    ensures a[j := x][i + 1..] == o[i + 1..]
  {
    if j > 0 {
      assert a[j - 1] == p[j - 1] by { assert a[..j][j - 1] == p[..j][j - 1]; }
    }
    assert InsertByScore(p[..j], x) == p[..j] + [x];
    var b := a[j := x];
    assert b[..i + 1] == b[..j] + [x] + b[j + 1..i + 1];
    assert b[..j] == a[..j];
    assert b[j + 1..i + 1] == a[j + 1..i + 1];
    assert p[j..] == p[j..i];
    assert b[i + 1..] == a[i + 1..];
  }

  lemma SortStep(b: seq<KeyMoment>, o: seq<KeyMoment>, i: nat)
    requires i < |o| == |b|
    requires b[..i + 1] == InsertByScore(SortByScore(o[..i]), o[i])
    ensures b[..i + 1] == SortByScore(o[..i + 1])
  {
    assert o[..i + 1][..i] == o[..i];
  }

  /** Insertion sort of the array, in place, by descending score; it leaves
      exactly the order SortByScore describes. */
  method SortByScoreInPlace(a: array<KeyMoment>)
    modifies a
    ensures a[..] == SortByScore(old(a[..]))
  {
    ghost var o := a[..];
    var i := 0;
    while i < a.Length
      invariant 0 <= i <= a.Length && |o| == a.Length
      invariant a[..i] == SortByScore(o[..i])
      invariant a[i..] == o[i..]
    {
      var key := a[i];
      assert key == o[i] by { assert a[i..][0] == o[i..][0]; }
      ghost var p := a[..i];
      assert a[i + 1..] == o[i + 1..] by { assert a[i + 1..] == a[i..][1..]; }
      var j := i;
      while j > 0 && a[j - 1].viralScore < key.viralScore
        invariant Shifting(a[..], p, o, i, j)
        invariant InsertByScore(p, key) == InsertByScore(p[..j], key) + p[j..]
      {
        ShiftStep(a[..], p, o, i, j);
        InsertShiftStep(p, j, key);
        a[j] := a[j - 1];
        j := j - 1;
      }
      ShiftDone(a[..], p, o, i, j, key);
      a[j] := key;
      SortStep(a[..], o, i);
      i := i + 1;
    }
    assert a[..] == a[..a.Length];
    assert o[..a.Length] == o;
  }

  /** An analysis document as loaded from the collection. Only `keyMoments`
      is ever changed in place, by `getTopMoments`. */
  class AnalysisDocument {
    const videoId: ObjectId
    const userId: ObjectId
    const keyMoments: array<KeyMoment>
    const overallSummary: Option<string>
    const totalDuration: Option<real>

    /** The document's current contents as a value. */
    function Value(): Analysis
      reads this, keyMoments
    {
      Analysis(videoId, userId, keyMoments[..], overallSummary, totalDuration)
    }

    constructor (a: Analysis)
      ensures Value() == a
      ensures fresh(keyMoments)
    {
      videoId := a.videoId;
      userId := a.userId;
      overallSummary := a.overallSummary;
      totalDuration := a.totalDuration;
      keyMoments := new KeyMoment[|a.keyMoments|](i requires 0 <= i < |a.keyMoments| => a.keyMoments[i]);
    }

    /** `getTopMoments(limit = 3)`: sorts the document's own moments in place
        by descending score and returns the first `limit` of them. */
    method GetTopMoments(limit: int := 3) returns (top: seq<KeyMoment>)
      modifies keyMoments
      ensures keyMoments[..] == SortByScore(old(keyMoments[..]))
      ensures multiset(keyMoments[..]) == multiset(old(keyMoments[..]))
      ensures SortedByScore(keyMoments[..])
      ensures top == TopMoments(old(keyMoments[..]), limit)
      ensures top == keyMoments[..|top|]
      ensures ValidAnalysis(old(Value())) ==> ValidAnalysis(Value())
    {
      ghost var before := Value();
      SortByScoreInPlace(keyMoments);
      SortByScorePermutation(before.keyMoments);
      SortByScoreSorted(before.keyMoments);
      if ValidAnalysis(before) {
        SortPreservesValidity(before);
        assert Value() == before.(keyMoments := SortByScore(before.keyMoments));
      }
      top := keyMoments[..SliceEnd(keyMoments.Length, limit)];
    }
  }

  // ---------------------------------------------------------------------
  // The collection and its unique index on `videoId`
  // ---------------------------------------------------------------------

  /** A failed save: the document did not validate, or the unique index on
      `videoId` already holds an analysis for that video. */
  datatype StoreError = ValidationFailed | DuplicateKey

  datatype SaveResult = Saved(documents: map<ObjectId, Analysis>) | Rejected(error: StoreError)

  /** Stored analyses are keyed by their own video and passed validation. */
  ghost predicate StoreInvariant(documents: map<ObjectId, Analysis>) {
    forall v :: v in documents ==> documents[v].videoId == v && ValidAnalysis(documents[v])
  }

  /** Saving a new analysis: validation runs first, then the insert, which
      the unique index refuses for a video that already has one. */
  function Save(documents: map<ObjectId, Analysis>, a: Analysis): (r: SaveResult)
    ensures r.Saved? <==> ValidAnalysis(a) && a.videoId !in documents
    ensures r.Rejected? ==> (r.error == ValidationFailed <==> !ValidAnalysis(a))
    ensures r.Saved? ==> r.documents.Keys == documents.Keys + {a.videoId}
    ensures r.Saved? ==> r.documents[a.videoId] == a
    ensures r.Saved? ==> forall v :: v in documents ==> r.documents[v] == documents[v]
    ensures r.Saved? && StoreInvariant(documents) ==> StoreInvariant(r.documents)
  {
    if !ValidAnalysis(a) then Rejected(ValidationFailed)
    else if a.videoId in documents then Rejected(DuplicateKey)
    else Saved(documents[a.videoId := a])
  }

  /** Under the store invariant at most one stored analysis names a video.
      This follows from keying the map by `videoId`; what makes the invariant
      hold is Save, which stores under the analysis's own video and keeps it. */
  lemma AtMostOnePerVideo(documents: map<ObjectId, Analysis>, video: ObjectId)
    requires StoreInvariant(documents)
    ensures |set v | v in documents && documents[v].videoId == video| <= 1
  {
    var owners := set v | v in documents && documents[v].videoId == video;
    assert owners <= {video};
    if video in owners {
      assert owners == {video};
    } else {
      assert owners == {};
    }
  }

  /** Redelivery: once an analysis for a video is saved, saving any other
      analysis for that video is refused and would leave the store as it is. */
  lemma SecondSaveRefused(documents: map<ObjectId, Analysis>, a: Analysis, b: Analysis)
    requires Save(documents, a).Saved?
    requires b.videoId == a.videoId
    ensures Save(Save(documents, a).documents, b).Rejected?
    ensures ValidAnalysis(b) ==> Save(Save(documents, a).documents, b) == Rejected(DuplicateKey)
  {
  }

  /** A worked case: four moments with scores 8, 6, 9 and 5, each with one
      caption of every type, validate; the first save for the video succeeds,
      a second one is refused as a duplicate and the store keeps exactly one
      analysis; the three top moments are those scoring 9, 8 and 6. */
  lemma FourMomentScenario(video: ObjectId, owner: ObjectId, other: Analysis)
    requires other.videoId == video && ValidAnalysis(other)
    ensures var a := Analysis(video, owner, ScenarioMoments(), None, None);
      && ValidAnalysis(a)
      && Save(map[], a) == Saved(map[video := a])
      && Save(map[video := a], other) == Rejected(DuplicateKey)
      && TopMoments(a.keyMoments) == [ScenarioMoments()[2], ScenarioMoments()[0], ScenarioMoments()[1]]
  {
    ScenarioMomentsValid();
    var ms := ScenarioMoments();
    assert ms == [ms[0], ms[1], ms[2], ms[3]];
    SortFour(ms[0], ms[1], ms[2], ms[3]);
    assert [ms[2], ms[0], ms[1], ms[3]][..3] == [ms[2], ms[0], ms[1]];
  }

  lemma ScenarioMomentsValid()
    ensures forall m :: m in ScenarioMoments() ==> ValidKeyMoment(m)
  {
    var cs := [Caption(Hook, "h"), Caption(Value, "v"), Caption(Emotion, "e")];
    forall c | c in cs ensures ValidCaption(c) {
      assert Utf16Length(c.text) == 1;
    }
    forall m | m in ScenarioMoments() ensures ValidKeyMoment(m) {
      assert Utf16Length(m.summary) == 1 && Utf16Length(m.suggestedHook) == 1;
    }
  }

  /** Sorting four moments whose scores compare as 8, 6, 9 and 5 do. */
  lemma SortFour(m0: KeyMoment, m1: KeyMoment, m2: KeyMoment, m3: KeyMoment)
    requires m1.viralScore < m0.viralScore < m2.viralScore && m3.viralScore < m1.viralScore
    ensures SortByScore([m0, m1, m2, m3]) == [m2, m0, m1, m3]
  {
    var ms := [m0, m1, m2, m3];
    assert ms[..3] == [m0, m1, m2];
    assert [m0, m1, m2][..2] == [m0, m1];
    assert [m0, m1][..1] == [m0];
    assert [m0][..0] == [];
    assert SortByScore([m0]) == [m0];
    assert SortByScore([m0, m1]) == [m0, m1];
    assert InsertByScore([m0], m2) == [m2, m0];
    assert InsertByScore([m0, m1], m2) == [m2, m0, m1];
    assert SortByScore([m0, m1, m2]) == [m2, m0, m1];
    assert InsertByScore([m2, m0, m1], m3) == [m2, m0, m1, m3];
  }

  function ScenarioMoments(): seq<KeyMoment> {
    var cs := [Caption(Hook, "h"), Caption(Value, "v"), Caption(Emotion, "e")];
    [ KeyMoment(0.0, 15.0, "s", "k", 8.0, cs),
      KeyMoment(20.0, 40.0, "s", "k", 6.0, cs),
      KeyMoment(45.0, 70.0, "s", "k", 9.0, cs),
      KeyMoment(80.0, 100.0, "s", "k", 5.0, cs) ]
  }

  /** The `analyses` collection: documents keyed by `videoId`. */
  class AnalysisCollection {
    var documents: map<ObjectId, Analysis>

    ghost predicate Valid()
      reads this
    {
      StoreInvariant(documents)
    }

    constructor ()
      ensures Valid() && documents == map[]
    {
      documents := map[];
    }

    /** `Analysis.create(a)`: stores the analysis, or reports why it did not;
        a refused save changes nothing. */
    method Create(a: Analysis) returns (error: Option<StoreError>)
      requires Valid()
      modifies this
      ensures Valid()
      ensures error.None? <==> Save(old(documents), a).Saved?
      ensures error.None? ==> documents == Save(old(documents), a).documents
      ensures error.Some? ==> error.value == Save(old(documents), a).error && documents == old(documents)
    {
      match Save(documents, a)
      case Saved(d) =>
        documents := d;
        error := None;
      case Rejected(e) =>
        error := Some(e);
    }
  }
}

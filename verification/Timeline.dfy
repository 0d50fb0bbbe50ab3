/** Shot lists that partition the fifteen-second timeline, and subtitle cues that do not overlap. */
module Timeline {
  import opened Sorting

  const TIMELINE_MS: int := 15000

  /** sequence, start and end of a shot or of a cue */
  datatype Span = Span(sequence: int, start: int, end: int)

  datatype Shot = Shot(span: Span, trimStart: int, trimEnd: int)

  datatype Verdict = Accepted | BadFields | BadSequence | BadTimeline | TrimTooShort | BadEnd

  predicate SpanFields(s: Span) { s.sequence >= 1 && 0 <= s.start < TIMELINE_MS && 0 < s.end <= TIMELINE_MS }

  /** The field bounds, checked before the validators are called. */
  predicate ShotFields(shots: seq<Shot>) {
    && 3 <= |shots| <= 100
    && forall s :: s in shots ==> SpanFields(s.span) && s.trimStart >= 0 && s.trimEnd > 0
  }

  predicate CueFields(cues: seq<Span>) {
    1 <= |cues| <= 120 && forall c :: c in cues ==> SpanFields(c)
  }

  // ----- what the validators are for, on the lists as they were sent -----

  function Spans(shots: seq<Shot>): (r: seq<Span>)
    ensures |r| == |shots| && forall i :: 0 <= i < |r| ==> r[i] == shots[i].span
  {
    seq(|shots|, i requires 0 <= i < |shots| => shots[i].span)
  }

  /** Every number from 1 to the length is used once. */
  predicate Numbered(spans: seq<Span>) {
    && (forall i :: 0 <= i < |spans| ==> 1 <= spans[i].sequence <= |spans|)
    && (forall i, j :: 0 <= i < j < |spans| ==> spans[i].sequence != spans[j].sequence)
  }

  predicate NonEmpty(spans: seq<Span>) { forall s :: s in spans ==> s.start < s.end }

  /** Spans follow each other in time as their numbers do. */
  predicate InOrder(spans: seq<Span>) {
    forall a, b :: a in spans && b in spans && a.sequence < b.sequence ==> a.end <= b.start
  }

  predicate Shows(s: Span, t: int) { s.start <= t < s.end }

  predicate Shown(spans: seq<Span>, t: int) { exists s :: s in spans && Shows(s, t) }

  ghost predicate Covers(spans: seq<Span>) {
    forall t :: 0 <= t < TIMELINE_MS ==> Shown(spans, t)
  }

  /** Every instant of the timeline belongs to exactly one entry of the list. */
  ghost predicate Partitions(spans: seq<Span>) {
    && Covers(spans)
    && forall i, j, t :: 0 <= i < |spans| && 0 <= j < |spans| && Shows(spans[i], t) && Shows(spans[j], t) ==> i == j
  }

  predicate TrimsCover(shots: seq<Shot>) {
    forall s :: s in shots ==> s.trimEnd - s.trimStart >= s.span.end - s.span.start
  }

  function Duration(spans: seq<Span>): int {
    if spans == [] then 0 else spans[0].end - spans[0].start + Duration(spans[1..])
  }

  // ----- the sorted list -----

  predicate SpanLe(a: Span, b: Span) { a.sequence <= b.sequence }

  predicate ShotLe(a: Shot, b: Shot) { SpanLe(a.span, b.span) }

  predicate CountsUp(spans: seq<Span>) { forall i :: 0 <= i < |spans| ==> spans[i].sequence == i + 1 }

  lemma {:induction false} Climbs(spans: seq<Span>, i: nat, j: nat)
    requires Sorted(SpanLe, spans) && Numbered(spans) && i <= j < |spans|
    ensures spans[j].sequence >= spans[i].sequence + (j - i)
    decreases j - i
  {
    if i < j {
      Climbs(spans, i, j - 1);
      assert SpanLe(spans[j - 1], spans[j]);
    }
  }

  lemma SortedNumbersCountUp(spans: seq<Span>)
    requires Sorted(SpanLe, spans) && Numbered(spans)
    ensures CountsUp(spans)
  {
    forall i | 0 <= i < |spans| ensures spans[i].sequence == i + 1 {
      Climbs(spans, 0, i);
      Climbs(spans, i, |spans| - 1);
    }
  }

  lemma NumberedIgnoresOrder(a: seq<Span>, b: seq<Span>)
    requires multiset(a) == multiset(b) && Numbered(a)
    ensures Numbered(b)
  {
    assert |a| == |multiset(a)| && |b| == |multiset(b)|;
    DistinctByMultiset(a, b);
    forall i | 0 <= i < |b| ensures b[i] in a { assert b[i] in multiset(b); }
  }

  /** Counting up from 1 after sorting is the same as using every number once before. */
  lemma SortedCountsUpIffNumbered(spans: seq<Span>)
    ensures CountsUp(Sort(SpanLe, spans)) <==> Numbered(spans)
  {
    var ordered := Sort(SpanLe, spans);
    SortPermutes(SpanLe, spans);
    SortSorts(SpanLe, spans);
    if CountsUp(ordered) { NumberedIgnoresOrder(ordered, spans); }
    if Numbered(spans) {
      NumberedIgnoresOrder(spans, ordered);
      SortedNumbersCountUp(ordered);
    }
  }

  lemma {:induction false} InsertSpans(x: Shot, shots: seq<Shot>)
    ensures Spans(Insert(ShotLe, x, shots)) == Insert(SpanLe, x.span, Spans(shots))
  {
    if shots != [] && !ShotLe(x, shots[0]) {
      InsertSpans(x, shots[1..]);
      assert Spans(shots)[1..] == Spans(shots[1..]);
    }
  }

  lemma {:induction false} SortSpans(shots: seq<Shot>)
    ensures Spans(Sort(ShotLe, shots)) == Sort(SpanLe, Spans(shots))
  {
    if shots != [] {
      SortSpans(shots[1..]);
      InsertSpans(shots[0], Sort(ShotLe, shots[1..]));
      assert Spans(shots)[1..] == Spans(shots[1..]);
    }
  }

  lemma {:induction false} InsertDuration(x: Span, spans: seq<Span>)
    ensures Duration(Insert(SpanLe, x, spans)) == x.end - x.start + Duration(spans)
  {
    if spans != [] && !SpanLe(x, spans[0]) { InsertDuration(x, spans[1..]); }
  }

  lemma {:induction false} SortDuration(spans: seq<Span>)
    ensures Duration(Sort(SpanLe, spans)) == Duration(spans)
  {
    if spans != [] {
      SortDuration(spans[1..]);
      InsertDuration(spans[0], Sort(SpanLe, spans[1..]));
    }
  }

  // ----- the walk over shots -----

  function WalkShots(ordered: seq<Shot>, cursor: int): Verdict {
    if ordered == [] then if cursor == TIMELINE_MS then Accepted else BadEnd
    else
      var s := ordered[0];
      if s.span.start != cursor || s.span.end <= s.span.start then BadTimeline
      else if s.trimEnd - s.trimStart < s.span.end - s.span.start then TrimTooShort
      else WalkShots(ordered[1..], s.span.end)
  }

  function ValidateShots(shots: seq<Shot>): Verdict {
    if !ShotFields(shots) then BadFields
    else if !CountsUp(Spans(Sort(ShotLe, shots))) then BadSequence
    else WalkShots(Sort(ShotLe, shots), 0)
  }

  /** End to end from `cursor` to the end of the timeline. */
  predicate Chained(spans: seq<Span>, cursor: int) {
    if spans == [] then cursor == TIMELINE_MS
    else spans[0].start == cursor && cursor < spans[0].end && Chained(spans[1..], spans[0].end)
  }

  lemma {:induction false} WalkIsChain(ordered: seq<Shot>, cursor: int)
    ensures WalkShots(ordered, cursor) == Accepted <==> Chained(Spans(ordered), cursor) && TrimsCover(ordered)
  {
    if ordered != [] {
      WalkIsChain(ordered[1..], ordered[0].span.end);
      assert Spans(ordered)[1..] == Spans(ordered[1..]);
      assert ordered == [ordered[0]] + ordered[1..];
    }
  }

  lemma {:induction false} ChainCovers(spans: seq<Span>, cursor: int, t: int)
    requires Chained(spans, cursor) && cursor <= t < TIMELINE_MS
    ensures Shown(spans, t)
  {
    assert spans[0] in spans;
    if t >= spans[0].end {
      ChainCovers(spans[1..], spans[0].end, t);
      var s :| s in spans[1..] && Shows(s, t);
      assert s in spans;
    }
  }

  lemma {:induction false} ChainOrdered(spans: seq<Span>, cursor: int, i: nat, j: nat)
    requires Chained(spans, cursor) && i <= j < |spans|
    ensures cursor <= spans[i].start < spans[i].end
    ensures i < j ==> spans[i].end <= spans[j].start
  {
    if i > 0 {
      ChainOrdered(spans[1..], spans[0].end, i - 1, j - 1);
    } else if j > 0 {
      ChainOrdered(spans[1..], spans[0].end, j - 1, j - 1);
    }
  }

  lemma {:induction false} ChainDuration(spans: seq<Span>, cursor: int)
    requires Chained(spans, cursor)
    ensures Duration(spans) == TIMELINE_MS - cursor
  {
    if spans != [] { ChainDuration(spans[1..], spans[0].end); }
  }

  lemma ChainMeaning(spans: seq<Span>)
    requires CountsUp(spans) && Chained(spans, 0)
    ensures NonEmpty(spans) && InOrder(spans) && Covers(spans)
  {
    forall s | s in spans ensures s.start < s.end {
      var i :| 0 <= i < |spans| && spans[i] == s;
      ChainOrdered(spans, 0, i, i);
    }
    forall a, b | a in spans && b in spans && a.sequence < b.sequence ensures a.end <= b.start {
      assert spans[a.sequence - 1] == a && spans[b.sequence - 1] == b;
      ChainOrdered(spans, 0, a.sequence - 1, b.sequence - 1);
    }
    forall t | 0 <= t < TIMELINE_MS ensures Shown(spans, t) { ChainCovers(spans, 0, t); }
  }

  function EndOf(spans: seq<Span>, done: nat): int
    requires done <= |spans|
  {
    if done == 0 then 0 else spans[done - 1].end
  }

  predicate IndexFields(spans: seq<Span>) {
    forall i :: 0 <= i < |spans| ==> SpanFields(spans[i]) && spans[i].start < spans[i].end
  }

  /** The instant at which the first `done` spans end is shown by the next span, or is the end of the timeline. */
  lemma NextStartsThere(spans: seq<Span>, done: nat)
    requires done <= |spans| && IndexFields(spans) && PairsApart(spans) && Covers(spans)
    ensures if done < |spans| then spans[done].start == EndOf(spans, done) else EndOf(spans, done) == TIMELINE_MS
  {
    var cursor := EndOf(spans, done);
    if cursor < TIMELINE_MS {
      assert Shown(spans, cursor);
      var s :| s in spans && Shows(s, cursor);
      var k :| 0 <= k < |spans| && spans[k] == s;
      assert k >= done;
      assert spans[done].start <= cursor;
    }
  }

  /** In time order, nothing empty and nothing uncovered leaves no room for a gap. */
  lemma {:induction false} NoRoomForGaps(spans: seq<Span>, done: nat)
    requires done <= |spans| && IndexFields(spans) && PairsApart(spans) && Covers(spans)
    ensures Chained(spans[done..], EndOf(spans, done))
    decreases |spans| - done
  {
    NextStartsThere(spans, done);
    if done < |spans| {
      NoRoomForGaps(spans, done + 1);
      assert spans[done..][1..] == spans[done + 1..];
    }
  }

  /** For numbered spans, time order makes "covers" and "partitions" the same. */
  lemma OrderedCoverIsPartition(spans: seq<Span>)
    requires Numbered(spans) && InOrder(spans) && Covers(spans)
    ensures Partitions(spans)
  {
    forall i, j, t | 0 <= i < |spans| && 0 <= j < |spans| && Shows(spans[i], t) && Shows(spans[j], t) ensures i == j {
      assert spans[i].sequence == spans[j].sequence;
    }
  }

  lemma SameElements(a: seq<Span>, b: seq<Span>)
    requires multiset(a) == multiset(b)
    ensures forall s :: s in a <==> s in b
  {
    forall s ensures s in a <==> s in b { assert s in multiset(a) <==> s in multiset(b); }
  }

  /** What the list as sent and the sorted list have in common. */
  lemma SortedSpans(shots: seq<Shot>)
    ensures var given, spans := Spans(shots), Spans(Sort(ShotLe, shots));
      && (CountsUp(spans) <==> Numbered(given))
      && (NonEmpty(spans) <==> NonEmpty(given)) && (InOrder(spans) <==> InOrder(given)) && (Covers(spans) <==> Covers(given))
      && (ShotFields(shots) ==> forall s :: s in spans ==> SpanFields(s))
      && (TrimsCover(Sort(ShotLe, shots)) <==> TrimsCover(shots))
  {
    var given, spans := Spans(shots), Spans(Sort(ShotLe, shots));
    SortSpans(shots);
    SortPermutes(SpanLe, given);
    SortedCountsUpIffNumbered(given);
    SameElements(given, spans);
    SortKeepsElements(ShotLe, shots);
    assert forall t :: Shown(given, t) <==> Shown(spans, t);
    if ShotFields(shots) {
      forall s | s in spans ensures SpanFields(s) {
        var i :| 0 <= i < |shots| && given[i] == s;
        assert shots[i] in shots;
      }
    }
  }

  /**
   A shot list is accepted, in whatever order it is sent, exactly when its numbers are 1..n, its shots
   follow each other in time and partition the timeline, and every trim is long enough.
   */
  lemma ShotsAcceptedIff(shots: seq<Shot>)
    requires ShotFields(shots)
    ensures ValidateShots(shots) == BadSequence <==> !Numbered(Spans(shots))
    ensures ValidateShots(shots) == Accepted <==>
            Numbered(Spans(shots)) && NonEmpty(Spans(shots)) && InOrder(Spans(shots)) && Partitions(Spans(shots)) && TrimsCover(shots)
  {
    var given, spans := Spans(shots), Spans(Sort(ShotLe, shots));
    SortedSpans(shots);
    WalkIsChain(Sort(ShotLe, shots), 0);
    WalkNeverBlamesNumbers(Sort(ShotLe, shots), 0);
    if Numbered(given) {
      if Chained(spans, 0) {
        ChainMeaning(spans);
        OrderedCoverIsPartition(given);
      }
      if NonEmpty(given) && InOrder(given) && Partitions(given) {
        ApartIffInOrder(spans);
        NoRoomForGaps(spans, 0);
        assert spans[0..] == spans;
      }
    }
  }

  lemma {:induction false} WalkNeverBlamesNumbers(ordered: seq<Shot>, cursor: int)
    ensures WalkShots(ordered, cursor) != BadSequence
  {
    if ordered != [] { WalkNeverBlamesNumbers(ordered[1..], ordered[0].span.end); }
  }

  /** Shot i is not empty and starts where the one before it ended. */
  predicate Joins(ordered: seq<Shot>, i: nat, cursor: int)
    requires i < |ordered|
  {
    ordered[i].span.start == (if i == 0 then cursor else ordered[i - 1].span.end) && ordered[i].span.start < ordered[i].span.end
  }

  predicate LongEnough(s: Shot) { s.trimEnd - s.trimStart >= s.span.end - s.span.start }

  /** A rejection blames the first shot that does not join or is cut too short, and otherwise the end of the timeline. */
  lemma {:induction false} FirstFaultIsBlamed(ordered: seq<Shot>, cursor: int) returns (i: nat)
    ensures i <= |ordered| && forall j :: 0 <= j < i ==> Joins(ordered, j, cursor) && LongEnough(ordered[j])
    ensures i < |ordered| ==> !(Joins(ordered, i, cursor) && LongEnough(ordered[i]))
                              && WalkShots(ordered, cursor) == if Joins(ordered, i, cursor) then TrimTooShort else BadTimeline
    ensures i == |ordered| ==>
      WalkShots(ordered, cursor) ==
      if (if ordered == [] then cursor else ordered[|ordered| - 1].span.end) == 15000 then Accepted else BadEnd
  {
    if ordered == [] || !Joins(ordered, 0, cursor) || !LongEnough(ordered[0]) {
      i := 0;
    } else {
      var rest := ordered[1..];
      var k := FirstFaultIsBlamed(rest, ordered[0].span.end);
      i := k + 1;
      forall j | 0 <= j < |rest| ensures Joins(ordered, j + 1, cursor) <==> Joins(rest, j, ordered[0].span.end) { }
      forall j | 0 <= j < i ensures Joins(ordered, j, cursor) && LongEnough(ordered[j]) {
        if j > 0 { assert Joins(rest, j - 1, ordered[0].span.end) && ordered[j] == rest[j - 1]; }
      }
    }
  }

  /** The durations of an accepted list add up to the timeline. */
  lemma AcceptedShotsFillTheTimeline(shots: seq<Shot>)
    requires ValidateShots(shots) == Accepted
    ensures Duration(Spans(shots)) == TIMELINE_MS
  {
    SortSpans(shots);
    SortDuration(Spans(shots));
    WalkIsChain(Sort(ShotLe, shots), 0);
    ChainDuration(Spans(Sort(ShotLe, shots)), 0);
  }

  // ----- the walk over cues -----

  function WalkCues(ordered: seq<Span>, previousEnd: int): Verdict {
    if ordered == [] then Accepted
    else if ordered[0].end <= ordered[0].start || ordered[0].start < previousEnd then BadTimeline
    else WalkCues(ordered[1..], ordered[0].end)
  }

  function ValidateCues(cues: seq<Span>): Verdict {
    if !CueFields(cues) then BadFields
    else if !CountsUp(Sort(SpanLe, cues)) then BadSequence
    else WalkCues(Sort(SpanLe, cues), 0)
  }

  predicate PairsApart(ordered: seq<Span>) { forall i, j :: 0 <= i < j < |ordered| ==> ordered[i].end <= ordered[j].start }

  predicate NoneBefore(ordered: seq<Span>, t: int) { forall i :: 0 <= i < |ordered| ==> t <= ordered[i].start }

  lemma TailsApart(ordered: seq<Span>)
    requires ordered != []
    ensures PairsApart(ordered) <==> PairsApart(ordered[1..]) && NoneBefore(ordered[1..], ordered[0].end)
  {
    var rest := ordered[1..];
    if PairsApart(ordered) {
      forall i, j | 0 <= i < j < |rest| ensures rest[i].end <= rest[j].start { assert ordered[i + 1].end <= ordered[j + 1].start; }
      forall i | 0 <= i < |rest| ensures ordered[0].end <= rest[i].start { assert ordered[i + 1] == rest[i]; }
    }
    if PairsApart(rest) && NoneBefore(rest, ordered[0].end) {
      forall i, j | 0 <= i < j < |ordered| ensures ordered[i].end <= ordered[j].start {
        assert ordered[j] == rest[j - 1];
        if i > 0 { assert rest[i - 1].end <= rest[j - 1].start; }
      }
    }
  }

  /** Comparing neighbours is enough to compare all pairs. */
  lemma {:induction false} NeighboursSuffice(ordered: seq<Span>, previousEnd: int)
    ensures WalkCues(ordered, previousEnd) == Accepted <==>
            NonEmpty(ordered) && NoneBefore(ordered, previousEnd) && PairsApart(ordered)
  {
    if ordered != [] {
      var rest := ordered[1..];
      NeighboursSuffice(rest, ordered[0].end);
      TailsApart(ordered);
      assert ordered == [ordered[0]] + rest;
      assert NonEmpty(ordered) <==> ordered[0].start < ordered[0].end && NonEmpty(rest);
      if ordered[0].start < ordered[0].end && previousEnd <= ordered[0].start && NoneBefore(rest, ordered[0].end) {
        forall i | 0 <= i < |ordered| ensures previousEnd <= ordered[i].start { if i > 0 { assert ordered[i] == rest[i - 1]; } }
      }
    }
  }

  lemma ApartIffInOrder(ordered: seq<Span>)
    requires CountsUp(ordered)
    ensures PairsApart(ordered) <==> InOrder(ordered)
  {
    if PairsApart(ordered) {
      forall a, b | a in ordered && b in ordered && a.sequence < b.sequence ensures a.end <= b.start {
        assert ordered[a.sequence - 1] == a && ordered[b.sequence - 1] == b;
      }
    }
  }

  /**
   A cue list is accepted, in whatever order it is sent, exactly when its numbers are 1..n and the
   cues are nonempty and follow each other in time.
   */
  lemma CuesAcceptedIff(cues: seq<Span>)
    requires CueFields(cues)
    ensures ValidateCues(cues) == Accepted <==> Numbered(cues) && NonEmpty(cues) && InOrder(cues)
  {
    var ordered := Sort(SpanLe, cues);
    SortPermutes(SpanLe, cues);
    SortedCountsUpIffNumbered(cues);
    SameElements(cues, ordered);
    NeighboursSuffice(ordered, 0);
    if Numbered(cues) {
      ApartIffInOrder(ordered);
      forall i | 0 <= i < |ordered| ensures 0 <= ordered[i].start { assert ordered[i] in ordered; }
    }
  }

  /** No instant shows two of the cues of an accepted list. */
  lemma AcceptedCuesAreDisjoint(cues: seq<Span>, i: nat, j: nat, t: int)
    requires ValidateCues(cues) == Accepted && i < |cues| && j < |cues| && Shows(cues[i], t) && Shows(cues[j], t)
    ensures i == j
  {
    CuesAcceptedIff(cues);
    assert cues[i].sequence == cues[j].sequence;
  }

  // ----- the validators -----

  method ValidateTimeline(shots: seq<Shot>) returns (verdict: Verdict)
    ensures verdict == ValidateShots(shots)
    ensures verdict == Accepted ==> Partitions(Spans(shots)) && Duration(Spans(shots)) == TIMELINE_MS
  {
    if ValidateShots(shots) == Accepted {
      ShotsAcceptedIff(shots);
      AcceptedShotsFillTheTimeline(shots);
    }
    if !ShotFields(shots) { return BadFields; }
    var ordered := Sort(ShotLe, shots);
    if !CountsUp(Spans(ordered)) { return BadSequence; }
    var cursor := 0;
    for i := 0 to |ordered|
      invariant WalkShots(ordered, 0) == WalkShots(ordered[i..], cursor)
    {
      var shot := ordered[i];
      assert ordered[i..][1..] == ordered[i + 1..];
      if shot.span.start != cursor || shot.span.end <= shot.span.start { return BadTimeline; }
      if shot.trimEnd - shot.trimStart < shot.span.end - shot.span.start { return TrimTooShort; }
      cursor := shot.span.end;
    }
    verdict := if cursor != TIMELINE_MS then BadEnd else Accepted;
  }

  method ValidateSubtitles(cues: seq<Span>) returns (verdict: Verdict)
    ensures verdict == ValidateCues(cues)
    ensures CueFields(cues) ==> (verdict == Accepted <==> Numbered(cues) && NonEmpty(cues) && InOrder(cues))
  {
    if !CueFields(cues) { return BadFields; }
    CuesAcceptedIff(cues);
    var ordered := Sort(SpanLe, cues);
    if !CountsUp(ordered) { return BadSequence; }
    var previousEnd := 0;
    for i := 0 to |ordered|
      invariant WalkCues(ordered, 0) == WalkCues(ordered[i..], previousEnd)
    {
      var cue := ordered[i];
      assert ordered[i..][1..] == ordered[i + 1..];
      if cue.end <= cue.start || cue.start < previousEnd { return BadTimeline; }
      previousEnd := cue.end;
    }
    verdict := Accepted;
  }
}

/** The compacted identity history: at most six witnesses answer every takeover query exactly as
    the full history would. */
module IdentityHistory {
  import opened Values

  datatype Field = Session | Application | Content

  datatype FieldValue = Name(id: Id) | Ref(content: ContentRef)

  function FieldOf(o: PlaybackObservation, field: Field): Option<FieldValue> {
    match field
    case Session => if o.sessionId.Some? then Some(Name(o.sessionId.value)) else None
    case Application => if o.applicationId.Some? then Some(Name(o.applicationId.value)) else None
    case Content => if o.content.Some? then Some(Ref(o.content.value)) else None
  }

  /** What a scope expects of a field. */
  function Expected(scope: PlaybackScope, field: Field): Option<FieldValue> {
    match field
    case Session => Some(Name(scope.sessionId))
    case Application =>
      if scope.applicationId.Some? then Some(Name(scope.applicationId.value)) else None
    case Content => Some(Ref(scope.request.content))
  }

  /** The sample names something else in this field. */
  predicate Differs(o: PlaybackObservation, field: Field, expected: Option<FieldValue>) {
    FieldOf(o, field).Some? && FieldOf(o, field) != expected
  }

  /** The query of the three effect guards: was another session, application or content seen after
      this boundary? */
  predicate Takeover(history: seq<PlaybackObservation>, scope: PlaybackScope,
                     boundary: Monotonic) {
    exists k :: 0 <= k < |history| && history[k].monotonic > boundary
      && (|| (history[k].sessionId.Some? && history[k].sessionId != Some(scope.sessionId))
          || (history[k].applicationId.Some? && history[k].applicationId != scope.applicationId)
          || (history[k].content.Some? && history[k].content != Some(scope.request.content)))
  }

  predicate FieldTakeover(history: seq<PlaybackObservation>, field: Field,
                          expected: Option<FieldValue>, boundary: Monotonic) {
    exists k :: 0 <= k < |history| && history[k].monotonic > boundary
      && Differs(history[k], field, expected)
  }

  lemma {:induction false} TakeoverByField(history: seq<PlaybackObservation>, scope: PlaybackScope,
                                           boundary: Monotonic)
    ensures Takeover(history, scope, boundary)
       <==> exists field :: FieldTakeover(history, field, Expected(scope, field), boundary)
  {
    if Takeover(history, scope, boundary) {
      var k :| 0 <= k < |history| && history[k].monotonic > boundary
        && (|| (history[k].sessionId.Some? && history[k].sessionId != Some(scope.sessionId))
            || (history[k].applicationId.Some? && history[k].applicationId != scope.applicationId)
            || (history[k].content.Some? && history[k].content != Some(scope.request.content)));
      var field := if history[k].sessionId.Some? && history[k].sessionId != Some(scope.sessionId)
                   then Session
                   else if history[k].applicationId.Some?
                           && history[k].applicationId != scope.applicationId
                   then Application else Content;
      assert Differs(history[k], field, Expected(scope, field));
      assert FieldTakeover(history, field, Expected(scope, field), boundary);
    }
  }

  predicate Increasing(history: seq<PlaybackObservation>) {
    forall i, j :: 0 <= i < j < |history| ==> history[i].monotonic < history[j].monotonic
  }

  // ---------------------------------------------------------------- compaction

  /** The newest sample below `n` that names something other than `excluded` in a field. */
  function Newest(history: seq<PlaybackObservation>, n: nat, field: Field,
                  excluded: Option<FieldValue>): (found: Option<nat>)
    requires n <= |history|
    ensures found.Some? ==> found.value < n && Differs(history[found.value], field, excluded)
    ensures forall k :: (if found.Some? then found.value < k else 0 <= k) && k < n ==>
      !Differs(history[k], field, excluded)
  {
    if n == 0 then None
    else if Differs(history[n - 1], field, excluded) then Some(n - 1)
    else Newest(history, n - 1, field, excluded)
  }

  /** The witnesses of a field: its newest value and its newest different value. */
  function Witnesses(history: seq<PlaybackObservation>, field: Field): set<nat> {
    var newest := Newest(history, |history|, field, None);
    if newest.None? then {}
    else
      var other := Newest(history, |history|, field, FieldOf(history[newest.value], field));
      if other.None? then {newest.value} else {newest.value, other.value}
  }

  function Kept(history: seq<PlaybackObservation>): set<nat> {
    Witnesses(history, Session) + Witnesses(history, Application) + Witnesses(history, Content)
  }

  /** The elements at the kept indices below `n`, in order. */
  function Select(history: seq<PlaybackObservation>, kept: set<nat>, n: nat)
    : seq<PlaybackObservation>
    requires n <= |history|
  {
    if n == 0 then []
    else
      Select(history, kept, n - 1) + (if n - 1 in kept then [history[n - 1]] else [])
  }

  function Compacted(history: seq<PlaybackObservation>): seq<PlaybackObservation> {
    Select(history, Kept(history), |history|)
  }

  /** Remembering one more sample. */
  function Remembered(history: seq<PlaybackObservation>, o: PlaybackObservation)
    : seq<PlaybackObservation>
  {
    Compacted(history + [o])
  }

  // ---------------------------------------------------------------- it is bounded

  lemma {:induction false} SelectIsBounded(history: seq<PlaybackObservation>, kept: set<nat>,
                                           n: nat)
    requires n <= |history|
    ensures |Select(history, kept, n)| == |set k: nat | k in kept && k < n|
  {
    if n == 0 {
      assert (set k: nat | k in kept && k < 0) == {};
    } else {
      SelectIsBounded(history, kept, n - 1);
      var below := set k: nat | k in kept && k < n - 1;
      var all := set k: nat | k in kept && k < n;
      assert all == if n - 1 in kept then below + {n - 1} else below;
    }
  }

  lemma {:induction false} SixSuffice(history: seq<PlaybackObservation>)
    ensures |Compacted(history)| <= 6
  {
    var kept := Kept(history);
    var n := |history|;
    SelectIsBounded(history, kept, n);
    assert (set k: nat | k in kept && k < n) == kept;
    var s, a, c := Witnesses(history, Session), Witnesses(history, Application),
                   Witnesses(history, Content);
    assert |s| <= 2 && |a| <= 2 && |c| <= 2;
    assert |s + a| <= 4;
  }

  // ---------------------------------------------------------------- it answers the same

  lemma {:induction false} SelectContains(history: seq<PlaybackObservation>, kept: set<nat>, n: nat,
                                          k: nat)
    requires k < n <= |history| && k in kept
    ensures history[k] in Select(history, kept, n)
  {
    if k < n - 1 {
      SelectContains(history, kept, n - 1, k);
    }
  }

  lemma {:induction false} SelectComes(history: seq<PlaybackObservation>, kept: set<nat>, n: nat,
                                       i: nat)
    requires n <= |history| && i < |Select(history, kept, n)|
    ensures exists k: nat :: k < n && k in kept && Select(history, kept, n)[i] == history[k]
  {
    var before := Select(history, kept, n - 1);
    if i < |before| {
      SelectComes(history, kept, n - 1, i);
      var k: nat :| k < n - 1 && k in kept && before[i] == history[k];
      assert Select(history, kept, n)[i] == history[k];
    } else {
      assert Select(history, kept, n)[i] == history[n - 1];
    }
  }

  lemma {:induction false} SelectIncreases(history: seq<PlaybackObservation>, kept: set<nat>,
                                           n: nat)
    requires n <= |history| && Increasing(history)
    ensures Increasing(Select(history, kept, n))
    ensures forall i :: 0 <= i < |Select(history, kept, n)| && n < |history| ==>
      Select(history, kept, n)[i].monotonic < history[n].monotonic
  {
    if n > 0 {
      SelectIncreases(history, kept, n - 1);
    }
  }

  /** The newest sample that differs from an expectation is always kept. */
  lemma {:induction false} NewestIsKept(history: seq<PlaybackObservation>, field: Field,
                                        expected: Option<FieldValue>)
    ensures var found := Newest(history, |history|, field, expected);
            found.Some? ==> found.value in Kept(history)
  {
    var n := |history|;
    var found := Newest(history, n, field, expected);
    var newest := Newest(history, n, field, None);
    if found.Some? && found != newest {
      var value := FieldOf(history[newest.value], field);
      assert value == expected;
      assert Newest(history, n, field, value) == found;
    }
    assert found.Some? ==> found.value in Witnesses(history, field);
  }

  lemma {:induction false} WitnessSurvives(history: seq<PlaybackObservation>, field: Field,
                                           expected: Option<FieldValue>, boundary: Monotonic)
    requires Increasing(history) && FieldTakeover(history, field, expected, boundary)
    ensures FieldTakeover(Compacted(history), field, expected, boundary)
  {
    hide Kept, Select;
    var kept, n := Kept(history), |history|;
    var compacted := Compacted(history);
    var k :| 0 <= k < n && history[k].monotonic > boundary && Differs(history[k], field, expected);
    var found := Newest(history, n, field, expected).value;
    assert k <= found;
    NewestIsKept(history, field, expected);
    SelectContains(history, kept, n, found);
    var i :| 0 <= i < |compacted| && compacted[i] == history[found];
    assert compacted[i].monotonic > boundary;
  }

  lemma {:induction false} WitnessIsReal(history: seq<PlaybackObservation>, field: Field,
                                         expected: Option<FieldValue>, boundary: Monotonic)
    requires FieldTakeover(Compacted(history), field, expected, boundary)
    ensures FieldTakeover(history, field, expected, boundary)
  {
    hide Kept, Select, Differs;
    var kept, n := Kept(history), |history|;
    var compacted := Compacted(history);
    var i :| 0 <= i < |compacted| && compacted[i].monotonic > boundary
      && Differs(compacted[i], field, expected);
    SelectComes(history, kept, n, i);
    var k: nat :| k < n && k in kept && compacted[i] == history[k];
    assert history[k].monotonic > boundary;
  }

  lemma {:induction false} FieldAnswersSame(history: seq<PlaybackObservation>, field: Field,
                                            expected: Option<FieldValue>, boundary: Monotonic)
    requires Increasing(history)
    ensures FieldTakeover(Compacted(history), field, expected, boundary)
       <==> FieldTakeover(history, field, expected, boundary)
  {
    hide Compacted, Increasing, FieldTakeover;
    if FieldTakeover(history, field, expected, boundary) {
      WitnessSurvives(history, field, expected, boundary);
    }
    if FieldTakeover(Compacted(history), field, expected, boundary) {
      WitnessIsReal(history, field, expected, boundary);
    }
  }

  /** One compaction loses no answer, at any scope and any boundary. */
  lemma {:induction false} CompactionAnswersSame(history: seq<PlaybackObservation>,
                                                 scope: PlaybackScope, boundary: Monotonic)
    requires Increasing(history)
    ensures Takeover(Compacted(history), scope, boundary) <==> Takeover(history, scope, boundary)
  {
    forall field
      ensures FieldTakeover(Compacted(history), field, Expected(scope, field), boundary)
         <==> FieldTakeover(history, field, Expected(scope, field), boundary)
    {
      FieldAnswersSame(history, field, Expected(scope, field), boundary);
    }
    TakeoverByField(history, scope, boundary);
    TakeoverByField(Compacted(history), scope, boundary);
  }

  // ---------------------------------------------------------------- over a whole history

  /** Remembering the samples one by one, compacting each time. */
  function RememberedAll(history: seq<PlaybackObservation>): seq<PlaybackObservation> {
    if history == [] then []
    else Remembered(RememberedAll(history[..|history| - 1]), history[|history| - 1])
  }

  /** What is kept comes from the history, in increasing order. */
  lemma {:induction false} KeptIsIncreasing(history: seq<PlaybackObservation>)
    requires Increasing(history)
    ensures Increasing(RememberedAll(history)) && |RememberedAll(history)| <= 6
    ensures forall i :: 0 <= i < |RememberedAll(history)| ==>
      RememberedAll(history)[i].monotonic <= history[|history| - 1].monotonic && history != []
    decreases |history|
  {
    hide Kept;
    if history != [] {
      var before, o := history[..|history| - 1], history[|history| - 1];
      KeptIsIncreasing(before);
      var all := RememberedAll(before) + [o];
      assert before != [] ==> before[|before| - 1].monotonic < o.monotonic;
      assert Increasing(all);
      SixSuffice(all);
      SelectIncreases(all, Kept(all), |all|);
      forall i | 0 <= i < |Compacted(all)| ensures Compacted(all)[i].monotonic <= o.monotonic {
        SelectComes(all, Kept(all), |all|, i);
      }
    }
  }

  lemma {:induction false} TakeoverAppends(history: seq<PlaybackObservation>,
                                           o: PlaybackObservation, scope: PlaybackScope,
                                           boundary: Monotonic)
    ensures Takeover(history + [o], scope, boundary)
       <==> Takeover(history, scope, boundary) || Takeover([o], scope, boundary)
  {
    var all := history + [o];
    if Takeover(history, scope, boundary) {
      var k :| 0 <= k < |history| && history[k].monotonic > boundary
        && (|| (history[k].sessionId.Some? && history[k].sessionId != Some(scope.sessionId))
            || (history[k].applicationId.Some? && history[k].applicationId != scope.applicationId)
            || (history[k].content.Some? && history[k].content != Some(scope.request.content)));
      assert all[k] == history[k];
    }
    if Takeover([o], scope, boundary) {
      assert all[|history|] == o;
    }
  }

  /** Over any stream of samples with increasing times, at most six are kept, and they answer every
      query, for every scope and every boundary, as the whole stream would: a return to the original
      identity never erases the witness of a takeover. */
  lemma {:induction false} HistoryAnswersSame(history: seq<PlaybackObservation>,
                                              scope: PlaybackScope, boundary: Monotonic)
    requires Increasing(history)
    ensures |RememberedAll(history)| <= 6
    ensures Takeover(RememberedAll(history), scope, boundary)
       <==> Takeover(history, scope, boundary)
    decreases |history|
  {
    hide Takeover, Compacted, Increasing;
    KeptIsIncreasing(history);
    if history != [] {
      var before, o := history[..|history| - 1], history[|history| - 1];
      assert Increasing(before) by { PrefixIncreases(history, |history| - 1); }
      HistoryAnswersSame(before, scope, boundary);
      var all := RememberedAll(before) + [o];
      assert Increasing(all) by { AppendIncreases(history); }
      CompactionAnswersSame(all, scope, boundary);
      TakeoverAppends(RememberedAll(before), o, scope, boundary);
      TakeoverAppends(before, o, scope, boundary);
      assert before + [o] == history;
    }
  }

  lemma {:induction false} PrefixIncreases(history: seq<PlaybackObservation>, n: nat)
    requires Increasing(history) && n <= |history|
    ensures Increasing(history[..n])
  {
  }

  lemma {:induction false} AppendIncreases(history: seq<PlaybackObservation>)
    requires Increasing(history) && history != []
    ensures Increasing(RememberedAll(history[..|history| - 1]) + [history[|history| - 1]])
  {
    KeptIsIncreasing(history[..|history| - 1]);
  }
}

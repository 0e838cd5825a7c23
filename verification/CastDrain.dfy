/** The transport's drain: callbacks of other threads queue events, and every one of them is handed
    over exactly once, in order. */
module CastDrain {
  import opened Values

  function Flatten<T>(batches: seq<seq<T>>): seq<T> {
    if batches == [] then [] else Flatten(batches[..|batches| - 1]) + batches[|batches| - 1]
  }

  lemma {:induction false} FlattenAppends<T>(batches: seq<seq<T>>, batch: seq<T>)
    ensures Flatten(batches + [batch]) == Flatten(batches) + batch
  {
    assert (batches + [batch])[..|batches|] == batches;
  }

  lemma {:induction false} FlattenSplits<T>(first: seq<seq<T>>, second: seq<seq<T>>)
    ensures Flatten(first + second) == Flatten(first) + Flatten(second)
    decreases |second|
  {
    if second == [] {
      assert first + second == first;
    } else {
      var front := second[..|second| - 1];
      assert first + second == (first + front) + [second[|second| - 1]];
      assert (first + second)[..|first + second| - 1] == first + front;
      FlattenSplits(first, front);
    }
  }

  /** How many events are still to come. */
  function Size<T>(batches: seq<seq<T>>): nat {
    if batches == [] then 0 else |batches[0]| + Size(batches[1..])
  }

  /** A connection and everything around it.  What other threads queue, what the clock reads and
      what the caller's predicate answers is arbitrary: each is a list that is used up one entry per
      access, the first at every access of the queue, the second at every look at the clock. */
  class Connection<Event> {
    var events: seq<Event>
    var arrivals: seq<seq<Event>>
    var clock: seq<Monotonic>
    var answers: seq<bool>
    /** Whether a status poll may still correlate a reply. */
    var polling: bool

    ghost var queued: seq<Event>
    ghost var taken: seq<Event>
    ghost var handed: seq<seq<Event>>
    /** What the caller answered to each batch. */
    ghost var given: seq<bool>

    constructor (arrivals: seq<seq<Event>>, clock: seq<Monotonic>, answers: seq<bool>)
      ensures Valid() && queued == [] && taken == [] && handed == [] && given == [] && !polling
      ensures this.arrivals == arrivals && this.clock == clock && this.answers == answers
    {
      this.events, this.arrivals, this.clock, this.answers := [], arrivals, clock, answers;
      this.polling := false;
      this.queued, this.taken, this.handed, this.given := [], [], [], [];
    }

    /** The queue loses, invents and reorders nothing. */
    ghost predicate Valid()
      reads this
    {
      taken + events == queued
    }

    /** The events that are queued or still to come. */
    ghost function Supply(): nat
      reads this
    {
      |events| + Size(arrivals)
    }

    /** Other threads run before this access. */
    method Arrive()
      requires Valid()
      modifies this`events, this`arrivals, this`queued
      ensures Valid() && Supply() == old(Supply()) && old(queued) <= queued
      ensures old(events) <= events
    {
      if arrivals != [] {
        queued := queued + arrivals[0];
        events := events + arrivals[0];
        arrivals := arrivals[1..];
      }
    }

    /** `get_nowait`, or `get` with a timeout that passes. */
    method Get() returns (event: Option<Event>)
      requires Valid()
      modifies this`events, this`arrivals, this`queued, this`taken
      ensures Valid() && old(queued) <= queued
      ensures event.Some? ==> taken == old(taken) + [event.value] && Supply() == old(Supply()) - 1
      ensures event.None? ==> taken == old(taken) && Supply() == old(Supply()) && events == []
    {
      Arrive();
      if events == [] {
        return None;
      }
      event := Some(events[0]);
      taken := taken + [events[0]];
      events := events[1..];
    }

    /** Empties the queue, events that arrive meanwhile included. */
    method Drain() returns (batch: seq<Event>)
      requires Valid()
      modifies this`events, this`arrivals, this`queued, this`taken
      ensures Valid() && old(queued) <= queued && events == []
      ensures taken == old(taken) + batch
      ensures Supply() + |batch| == old(Supply())
    {
      batch := [];
      while true
        invariant Valid() && old(queued) <= queued
        invariant taken == old(taken) + batch
        invariant Supply() + |batch| == old(Supply())
        decreases Supply()
      {
        var event := Get();
        if event.None? {
          return;
        }
        batch := batch + [event.value];
      }
    }

    /** The clock; when its readings are used up, the deadline has passed. */
    method Now(end: Monotonic) returns (now: Monotonic)
      modifies this`clock
      ensures old(clock) == [] ==> now == end && clock == []
      ensures old(clock) != [] ==> now == old(clock)[0] && clock == old(clock)[1..]
    {
      if clock == [] {
        return end;
      }
      now := clock[0];
      clock := clock[1..];
    }

    /** The caller inspects a batch and answers whether it is satisfied. */
    method Ready(batch: seq<Event>) returns (complete: bool)
      modifies this`answers, this`handed, this`given
      ensures handed == old(handed) + [batch] && given == old(given) + [complete]
    {
      handed := handed + [batch];
      complete := answers != [] && answers[0];
      given := given + [complete];
      if answers != [] {
        answers := answers[1..];
      }
    }

    /** Whether the caller was asked since `asked` and its last answer was yes. */
    ghost predicate Satisfied(asked: nat)
      reads this
    {
      |given| > asked && given[|given| - 1]
    }

    /** Retiring the poll waits for a callback that holds the lock. */
    method CancelStatusRequest()
      requires Valid()
      modifies this`events, this`arrivals, this`queued, this`polling
      ensures Valid() && Supply() == old(Supply()) && old(queued) <= queued && !polling
    {
      Arrive();
      polling := false;
    }

    method RequestStatus()
      modifies this`polling
      ensures polling
    {
      polling := true;
    }

    /** Everything taken has been handed over. */
    ghost predicate Idle()
      reads this
    {
      Valid() && taken == Flatten(handed)
    }

    /** Since `before`, exactly these events were handed over, in this order. */
    ghost predicate Delivered(before: seq<seq<Event>>, result: seq<Event>)
      reads this
    {
      Idle() && before <= handed && Flatten(handed) == Flatten(before) + result
    }

    /** Hands over a batch, and whatever is queued meanwhile, until the queue is empty; the last
        answer counts. */
    method HandOver(first: seq<Event>, result: seq<Event>, ghost before: seq<seq<Event>>)
      returns (all: seq<Event>, complete: bool)
      requires Valid() && first != [] && taken == Flatten(handed) + first
      requires before <= handed && Flatten(handed) == Flatten(before) + result
      modifies this`events, this`arrivals, this`queued, this`taken, this`answers, this`handed,
               this`given
      ensures Delivered(before, all) && old(queued) <= queued && events == []
      ensures |given| - |old(given)| == |handed| - |old(handed)| > 0 && old(given) <= given
      ensures complete == Satisfied(|old(given)|)
    {
      hide Flatten;
      all, complete := result, false;
      var batch := first;
      while batch != []
        invariant Valid() && old(queued) <= queued && before <= handed
        invariant taken == Flatten(handed) + batch
        invariant Flatten(handed) == Flatten(before) + all
        invariant batch == [] ==> events == []
        invariant |given| - |old(given)| == |handed| - |old(handed)| && old(given) <= given
        invariant complete == Satisfied(|old(given)|)
        invariant batch == first || |handed| > |old(handed)|
        decreases Supply() + |batch|
      {
        FlattenAppends(handed, batch);
        assert Flatten(before) + (all + batch) == Flatten(before) + all + batch;
        all := all + batch;
        complete := Ready(batch);
        batch := Drain();
      }
    }

    /** One wake-up: hands over what there is; a satisfied caller is asked again after the poll is
        retired and everything queued until then has been handed over.  Accepted is what the last
        answer accepts: a contradiction among the late events revokes the candidate. */
    method Turn(end: Monotonic, nextPoll: Monotonic, result: seq<Event>,
                ghost before: seq<seq<Event>>)
      returns (next: Monotonic, all: seq<Event>, accepted: bool)
      requires Delivered(before, result)
      modifies this
      ensures Delivered(before, all) && old(queued) <= queued && |clock| <= |old(clock)|
      ensures |given| - |old(given)| == |handed| - |old(handed)| && old(given) <= given
      ensures accepted == Satisfied(|old(given)|)
      ensures accepted ==> !polling && events == []
    {
      hide Flatten;
      all, accepted := result, false;
      next := PollWhenDue(end, nextPoll);
      var batch := NextBatch();
      if batch == [] {
        return;
      }
      all, accepted := HandOver(batch, all, before);
      if accepted {
        CancelStatusRequest();
        batch := Drain();
        if batch != [] {
          all, accepted := HandOver(batch, all, before);
          if !accepted {
            next := Now(end);
          }
        }
      }
    }

    /** Hands every event over in batches, waking on callbacks and polling now and then, until the
        caller is satisfied or the deadline passes.  Whatever was queued by then, by whatever
        thread, is part of the result. */
    method ObserveUntil(end: Monotonic) returns (result: seq<Event>)
      requires Idle()
      modifies this
      ensures Idle() && !polling && old(handed) <= handed && old(queued) <= queued
      ensures result == Flatten(handed[|old(handed)|..])
      ensures events == [] && |old(taken)| <= |queued| && result == queued[|old(taken)|..]
      ensures |given| - |old(given)| == |handed| - |old(handed)| && old(given) <= given
    {
      hide Flatten;
      ghost var before := handed;
      var nextPoll := Now(end);
      result := [];
      var accepted := false;
      while !accepted
        invariant Delivered(before, result) && old(queued) <= queued
        invariant |given| - |old(given)| == |handed| - |old(handed)| && old(given) <= given
        invariant accepted ==> Satisfied(|old(given)|)
        decreases |clock|, !accepted
      {
        var now := Now(end);
        if now >= end {
          break;
        }
        nextPoll, result, accepted := Turn(end, nextPoll, result, before);
      }
      CancelStatusRequest();
      var tail := Drain();
      if tail != [] {
        var answer;
        result, answer := HandOver(tail, result, before);
      }
      ResultIsNew(before, handed, result);
    }

    /** A poll is sent when the last one is due for renewal, and never reaches past the deadline. */
    method PollWhenDue(end: Monotonic, nextPoll: Monotonic) returns (next: Monotonic)
      modifies this`clock, this`polling
      ensures |clock| <= |old(clock)|
      ensures next == nextPoll || (polling && next <= end)
    {
      next := nextPoll;
      var now := Now(end);
      if now >= nextPoll {
        var later := Now(end);
        next := if later + 2.0 < end then later + 2.0 else end;
        RequestStatus();
      }
    }

    /** What is queued, or else the first event that arrives in time and what comes with it. */
    method NextBatch() returns (batch: seq<Event>)
      requires Valid()
      modifies this`events, this`arrivals, this`queued, this`taken
      ensures Valid() && old(queued) <= queued && taken == old(taken) + batch
    {
      batch := Drain();
      if batch == [] {
        var waited := Get();
        if waited.Some? {
          var more := Drain();
          batch := [waited.value] + more;
        }
      }
    }
  }

  lemma {:induction false} ResultIsNew<T>(before: seq<seq<T>>, after: seq<seq<T>>, result: seq<T>)
    requires before <= after && Flatten(after) == Flatten(before) + result
    ensures result == Flatten(after[|before|..])
    ensures Flatten(after)[|Flatten(before)|..] == result
  {
    assert after == before + after[|before|..];
    FlattenSplits(before, after[|before|..]);
    assert (Flatten(before) + result)[|Flatten(before)|..] == result;
    assert (Flatten(before) + Flatten(after[|before|..]))[|Flatten(before)|..]
        == Flatten(after[|before|..]);
  }
}

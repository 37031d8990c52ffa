// The periodic clinical reviewer: a rolling buffer of recent thoughts and the
// gates that decide whether a review calls the language model at all.
module PsychologistReviewer {
  import opened Wrappers
  import opened Window

  /** The default rolling-buffer capacity when the configuration leaves it at 0. */
  const DefaultMaxThoughts := 20

  /** A clinical observation: the model's response and when it was made. */
  datatype Observation = Observation(content: string, timestamp: int)

  /** What `Review` returns: nothing (rate-limited or no thoughts), an observation, or the model's error. */
  datatype ReviewOutcome = Skipped | Observed(observation: Observation) | Failed(error: string)

  /**
   * The reviewer over thoughts of type T. Times are integer nanoseconds; `lastReview`
   * is `None` before the first review (Go's zero time, which is always long enough ago).
   */
  class Reviewer<T> {
    var minInterval: int
    var lastReview: Option<int>
    var thoughts: seq<T>
    var maxThoughts: int

    /** The buffer never holds more than its capacity, which is positive. */
    ghost predicate Valid()
      reads this
    {
      0 < maxThoughts && |thoughts| <= maxThoughts
    }

    /**
     * `NewReviewer`: a configured capacity of 0 means the default of 20. A negative capacity
     * makes the source's `make` panic, so callers must not pass one.
     */
    constructor (minInterval: int, maxThoughts: int)
      requires maxThoughts >= 0
      ensures this.maxThoughts == if maxThoughts == 0 then DefaultMaxThoughts else maxThoughts
      ensures this.minInterval == minInterval && lastReview == None && thoughts == []
      ensures Valid()
    {
      this.minInterval := minInterval;
      this.maxThoughts := if maxThoughts == 0 then DefaultMaxThoughts else maxThoughts;
      lastReview := None;
      thoughts := [];
    }

    /**
     * `AddThought`: below capacity append; at capacity shift left, dropping the oldest,
     * and put the new thought last.
     */
    method AddThought(t: T)
      requires Valid()
      modifies this`thoughts
      ensures Valid()
      ensures |old(thoughts)| < maxThoughts ==> thoughts == old(thoughts) + [t]
      ensures |old(thoughts)| == maxThoughts ==> thoughts == old(thoughts)[1..] + [t]
      ensures thoughts == Roll(old(thoughts), t, maxThoughts)
      ensures thoughts == KeepLast(old(thoughts) + [t], maxThoughts) && thoughts[|thoughts| - 1] == t
    {
      RollIsKeepLast(thoughts, t, maxThoughts);
      if |thoughts| >= maxThoughts {
        thoughts := thoughts[1..] + [t];
      } else {
        thoughts := thoughts + [t];
      }
    }

    /** `canCall`: no rate limit at interval 0, otherwise at least the interval since the last review. */
    predicate CanCall(now: int)
      reads this
    {
      minInterval == 0 || lastReview.None? || now - lastReview.value >= minInterval
    }

    /**
     * `Review` at time `now`, where `response` is what the language model would answer.
     * The model is consulted (`called`) only with thoughts buffered and the rate limit passed;
     * only a successful answer records the review time.
     */
    method Review(now: int, response: Result<string, string>) returns (outcome: ReviewOutcome, called: bool)
      modifies this`lastReview
      ensures called <==> thoughts != [] && old(CanCall(now))
      ensures !called ==> outcome == Skipped && lastReview == old(lastReview)
      ensures called && response.Err? ==> outcome == Failed(response.error) && lastReview == old(lastReview)
      ensures called && response.Ok? ==> outcome == Observed(Observation(response.value, now)) && lastReview == Some(now)
    {
      if |thoughts| == 0 {
        return Skipped, false;
      }
      if !CanCall(now) {
        return Skipped, false;
      }
      called := true;
      if response.Err? {
        return Failed(response.error), called;
      }
      lastReview := Some(now);
      outcome := Observed(Observation(response.value, now));
    }
  }

  /** Without a minimum interval the rate limit never blocks. */
  lemma ZeroIntervalAlwaysCalls<T>(r: Reviewer<T>, now: int)
    requires r.minInterval == 0
    ensures r.CanCall(now)
  {
  }

  /** A capacity-3 reviewer given any four thoughts keeps the newest three, oldest first. */
  method EvictsOldestExample<T>(first: T, second: T, third: T, fourth: T) returns (kept: seq<T>)
    ensures kept == [second, third, fourth]
  {
    var r := new Reviewer<T>(0, 3);
    r.AddThought(first);
    r.AddThought(second);
    r.AddThought(third);
    assert r.thoughts == [first, second, third];
    r.AddThought(fourth);
    assert r.thoughts == [first, second, third][1..] + [fourth];
    kept := r.thoughts;
  }

  /** With no configured capacity the buffer holds 20 thoughts. */
  method DefaultCapacityExample() returns (capacity: int)
    ensures capacity == 20
  {
    var r := new Reviewer<string>(0, 0);
    capacity := r.maxThoughts;
  }

  /** An empty buffer is never reviewed, whatever the model would say. */
  method EmptyBufferSkipsExample() returns (outcome: ReviewOutcome, called: bool)
    ensures outcome == Skipped && !called
  {
    var r := new Reviewer<string>(0, 0);
    outcome, called := r.Review(1000, Ok("observation"));
  }
}

// The continuity buffer: a bounded, insertion-ordered memory of recent thoughts.
module ContinuityBufferModule {
  import opened Window
  import opened ConsciousnessTypes

  class ContinuityBuffer {
    var capacity: int
    var thoughts: seq<Thought>

    /** Never more thoughts than the capacity, which is never negative. */
    ghost predicate Valid()
      reads this
    {
      0 <= capacity && |thoughts| <= capacity
    }

    /** `NewContinuityBuffer`: a negative capacity becomes zero. */
    constructor (capacity: int)
      ensures this.capacity == if capacity < 0 then 0 else capacity
      ensures thoughts == []
      ensures Valid()
    {
      this.capacity := if capacity < 0 then 0 else capacity;
      thoughts := [];
    }

    /** `Add`: append, then drop the oldest beyond the capacity; a zero capacity keeps nothing. */
    method Add(thought: Thought)
      requires Valid()
      modifies this`thoughts
      ensures Valid()
      ensures capacity == 0 ==> thoughts == old(thoughts)
      ensures capacity > 0 ==> thoughts == KeepLast(old(thoughts) + [thought], capacity)
    {
      if capacity == 0 {
        return;
      }
      thoughts := thoughts + [thought];
      if |thoughts| > capacity {
        thoughts := thoughts[|thoughts| - capacity..];
      }
    }

    /** `Items`: a copy of the contents, oldest first; the empty sequence stands for nil. */
    method Items() returns (out: seq<Thought>)
      requires Valid()
      ensures out == thoughts
      ensures |out| <= capacity
    {
      if |thoughts| == 0 {
        return [];
      }
      out := thoughts;
    }
  }

  /** A capacity-2 buffer given "first", "second", "third" holds "second" then "third". */
  method KeepsMostRecentExample() returns (items: seq<Thought>)
    ensures |items| == 2 && items[0].text == "second" && items[1].text == "third"
  {
    var first := Thought("", "", "first");
    var second := Thought("", "", "second");
    var third := Thought("", "", "third");
    var buffer := new ContinuityBuffer(2);
    buffer.Add(first);
    buffer.Add(second);
    assert buffer.thoughts == [first, second];
    buffer.Add(third);
    assert [first, second] + [third] == [first, second, third];
    items := buffer.Items();
  }
}

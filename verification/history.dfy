/** The bounded history of completed calculations (script.js:147-152). */
module History {

  /** At most this many entries are kept after a push from a short list. */
  const Capacity: nat := 10

  /**
   * `history.push(entry)` followed by one `history.shift()` when the list
   * has grown past the capacity.
   */
  function Pushed(history: seq<string>, entry: string): seq<string> {
    var grown := history + [entry];
    if |grown| > Capacity then grown[1..] else grown
  }

  /**
   * A push below capacity appends; a push onto a full (or overfull) list
   * drops exactly the oldest entry and keeps the others in order.
   */
  lemma PushedEffect(history: seq<string>, entry: string)
    ensures |history| < Capacity ==> Pushed(history, entry) == history + [entry]
    ensures |history| >= Capacity ==> Pushed(history, entry) == history[1..] + [entry]
    ensures Pushed(history, entry)[|Pushed(history, entry)| - 1] == entry
  {
  }

  /** A list within capacity stays within capacity. */
  lemma PushedBounded(history: seq<string>, entry: string)
    requires |history| <= Capacity
    ensures |Pushed(history, entry)| <= Capacity
    ensures |Pushed(history, entry)| == if |history| < Capacity then |history| + 1 else Capacity
  {
  }

  /** Pushes the entries one after another, oldest first. */
  function PushAll(history: seq<string>, entries: seq<string>): seq<string>
    decreases |entries|
  {
    if entries == [] then history
    else PushAll(Pushed(history, entries[0]), entries[1..])
  }

  /** How many of the oldest entries a run of pushes evicts. */
  function Evicted(kept: nat, pushed: nat): nat {
    if kept + pushed > Capacity then kept + pushed - Capacity else 0
  }

  /**
   * Starting within capacity, any run of pushes leaves exactly the newest
   * entries of the old list followed by the pushed ones, in order, and at
   * most `Capacity` of them.
   */
  lemma {:induction false} PushAllKeepsNewest(history: seq<string>, entries: seq<string>)
    requires |history| <= Capacity
    ensures PushAll(history, entries) == (history + entries)[Evicted(|history|, |entries|)..]
    ensures |PushAll(history, entries)| <= Capacity
    decreases |entries|
  {
    if entries == [] {
      assert history + entries == history;
    } else {
      var e := entries[0];
      var next := Pushed(history, e);
      PushedEffect(history, e);
      PushedBounded(history, e);
      PushAllKeepsNewest(next, entries[1..]);
      var k0 := Evicted(|history|, 1);
      assert next == (history + [e])[k0..];
      assert history + entries == (history + [e]) + entries[1..];
      assert next + entries[1..] == (history + entries)[k0..];
    }
  }

  /**
   * Eleven calculations recorded from an empty history: the first entry is
   * gone and the second to the eleventh remain in order.
   */
  lemma ElevenEntriesDropTheFirst(entries: seq<string>)
    requires |entries| == 11
    ensures PushAll([], entries) == entries[1..]
  {
    PushAllKeepsNewest([], entries);
    assert [] + entries == entries;
  }
}

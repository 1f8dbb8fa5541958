/** Ordering of stored events by time: the `std::multiset<MidiEvent>` queue
    of the legato handlers and the `std::sort` of the melody player.
    `MidiEvent::operator<` is not part of this model; it is taken to compare
    `m_time`. */
module TimeOrder {
  import opened Midi
  import opened MidiEvents

  predicate Sorted(q: seq<MidiEvent>) {
    forall i, j :: 0 <= i < j < |q| ==> q[i].time <= q[j].time
  }

  /** `std::multiset::insert`: the new element goes after every element that
      is not later than it, so events with equal times keep their arrival order. */
  function Insert(q: seq<MidiEvent>, e: MidiEvent): (r: seq<MidiEvent>)
    ensures |r| == |q| + 1
    ensures multiset(r) == multiset(q) + multiset{e}
    ensures Sorted(q) ==> Sorted(r)
    decreases |q|
  {
    if q == [] || e.time < q[0].time then [e] + q
    else
      var tail := Insert(q[1..], e);
      assert q == [q[0]] + q[1..];
      HeadStaysFirst(q, e, tail);
      [q[0]] + tail
  }

  lemma HeadStaysFirst(q: seq<MidiEvent>, e: MidiEvent, tail: seq<MidiEvent>)
    requires q != [] && q[0].time <= e.time
    requires multiset(tail) == multiset(q[1..]) + multiset{e}
    requires Sorted(q) ==> Sorted(tail)
    ensures Sorted(q) ==> Sorted([q[0]] + tail)
  {
    if Sorted(q) {
      forall j | 0 <= j < |tail| ensures q[0].time <= tail[j].time {
        assert tail[j] in multiset(tail);
        if tail[j] != e {
          assert tail[j] in multiset(q[1..]);
          var k :| 0 <= k < |q[1..]| && q[1..][k] == tail[j];
          assert q[k + 1] == tail[j];
        }
      }
    }
  }

  /** `std::sort` on the event vector, modelled as insertion sort by time. */
  function SortByTime(s: seq<MidiEvent>): (r: seq<MidiEvent>)
    ensures Sorted(r)
    ensures multiset(r) == multiset(s)
    ensures |r| == |s|
  {
    if s == [] then []
    else
      assert s == s[..|s| - 1] + [s[|s| - 1]];
      Insert(SortByTime(s[..|s| - 1]), s[|s| - 1])
  }
}

/** The rolling 24-hour equity window: a pruned list of samples that has to answer the same
    question as the complete history. */
module EquityWindow {
  import opened Market

  /** Adds a sample; a second sample at the same instant replaces the first. */
  function Record(h: seq<EquityPoint>, p: EquityPoint): seq<EquityPoint> {
    if h != [] && h[|h| - 1].timestamp == p.timestamp then h[..|h| - 1] + [p] else h + [p]
  }

  /** Drops samples from the front while the next one is still old enough. */
  function Prune(w: seq<EquityPoint>, cutoff: Time): (r: seq<EquityPoint>)
    ensures w != [] ==> r != []
  {
    if |w| > 1 && w[1].timestamp <= cutoff then Prune(w[1..], cutoff) else w
  }

  /** In a complete history: the last sample at or before `cutoff`, or the earliest one when
      none is that old. */
  function Reference(h: seq<EquityPoint>, cutoff: Time): (i: nat)
    requires h != []
    ensures i < |h|
  {
    if |h| == 1 || h[|h| - 1].timestamp <= cutoff then |h| - 1
    else Reference(h[..|h| - 1], cutoff)
  }

  ghost predicate Increasing(h: seq<EquityPoint>) {
    forall i, j :: 0 <= i < j < |h| ==> h[i].timestamp < h[j].timestamp
  }

  /** The window is the tail of the history that starts at its 24-hour reference. */
  ghost predicate IsWindowOf(w: seq<EquityPoint>, h: seq<EquityPoint>) {
    if h == [] then w == []
    else w == h[Reference(h, h[|h| - 1].timestamp - DAY)..]
  }

  lemma {:induction false} ReferenceIsLastOld(h: seq<EquityPoint>, cutoff: Time)
    requires h != [] && Increasing(h)
    ensures Reference(h, cutoff) > 0 ==> h[Reference(h, cutoff)].timestamp <= cutoff
    ensures forall i :: Reference(h, cutoff) < i < |h| ==> h[i].timestamp > cutoff
  {
    if |h| > 1 && h[|h| - 1].timestamp > cutoff {
      ReferenceIsLastOld(h[..|h| - 1], cutoff);
    }
  }

  /** Pruning a tail that starts no later than the reference ends exactly at the reference. */
  lemma {:induction false} PruneReachesReference(h: seq<EquityPoint>, from: nat, cutoff: Time)
    requires h != [] && Increasing(h) && from <= Reference(h, cutoff)
    ensures Prune(h[from..], cutoff) == h[Reference(h, cutoff)..]
    decreases |h| - from
  {
    ReferenceIsLastOld(h, cutoff);
    if from < Reference(h, cutoff) {
      assert h[from..][1] == h[from + 1] && h[from..][1..] == h[from + 1..];
      PruneReachesReference(h, from + 1, cutoff);
    }
  }

  lemma RecordKeepsOrder(h: seq<EquityPoint>, p: EquityPoint)
    requires Increasing(h) && (h != [] ==> h[|h| - 1].timestamp <= p.timestamp)
    ensures Increasing(Record(h, p))
  {
  }

  lemma LastSample(w: seq<EquityPoint>, h: seq<EquityPoint>)
    requires IsWindowOf(w, h)
    ensures w != [] <==> h != []
    ensures w != [] ==> w[|w| - 1] == h[|h| - 1]
  {
  }

  /** One sample: recording into the pruned window and pruning again is the window of the
      complete history with the same sample. */
  lemma SampleKeepsWindow(w: seq<EquityPoint>, h: seq<EquityPoint>, p: EquityPoint)
    requires Increasing(h) && IsWindowOf(w, h)
    requires h != [] ==> h[|h| - 1].timestamp <= p.timestamp
    ensures Increasing(Record(h, p)) && IsWindowOf(Prune(Record(w, p), p.timestamp - DAY), Record(h, p))
    ensures Record(h, p) != [] && Prune(Record(w, p), p.timestamp - DAY) != []
    ensures Prune(Record(w, p), p.timestamp - DAY)[0]
         == Record(h, p)[Reference(Record(h, p), p.timestamp - DAY)]
  {
    hide Record, Prune, Reference, Increasing;
    RecordKeepsOrder(h, p);
    var cutoff := p.timestamp - DAY;
    var h' := Record(h, p);
    var from := RecordedTail(w, h, p);
    RecordedLast(h, p);
    PruneReachesReference(h', from, cutoff);
    assert h'[Reference(h', cutoff)..][0] == h'[Reference(h', cutoff)];
  }

  lemma RecordedLast(h: seq<EquityPoint>, p: EquityPoint)
    ensures Record(h, p) != [] && Record(h, p)[|Record(h, p)| - 1] == p
  {
  }

  /** The recorded window is a tail of the recorded history, from no later than its reference. */
  lemma RecordedTail(w: seq<EquityPoint>, h: seq<EquityPoint>, p: EquityPoint) returns (from: nat)
    requires Increasing(h) && IsWindowOf(w, h)
    requires h != [] ==> h[|h| - 1].timestamp <= p.timestamp
    ensures Record(h, p) != [] && from <= Reference(Record(h, p), p.timestamp - DAY)
    ensures Record(w, p) == Record(h, p)[from..]
  {
    hide Prune, Reference;
    RecordKeepsOrder(h, p);
    if h == [] {
      from := 0;
    } else {
      var last := h[|h| - 1].timestamp;
      from := Reference(h, last - DAY);
      ReferenceIsLastOld(h, last - DAY);
      RecordTail(h, from, p);
      ReferenceIsLastOrLater(Record(h, p), from, p.timestamp - DAY);
    }
  }

  lemma RecordTail(h: seq<EquityPoint>, from: nat, p: EquityPoint)
    requires from < |h|
    ensures Record(h[from..], p) == Record(h, p)[from..]
    ensures from < |h| - 1 ==> Record(h, p)[from] == h[from]
  {
  }

  lemma ReferenceIsLastOrLater(h: seq<EquityPoint>, i: nat, cutoff: Time)
    requires Increasing(h) && i < |h| && (i == 0 || h[i].timestamp <= cutoff)
    ensures i <= Reference(h, cutoff)
  {
    ReferenceIsLastOld(h, cutoff);
  }
}

/**
  Detections as the backend returns them, and the threshold filter that
  decides which of them the overlay shows.

  Confidences, thresholds and coordinates are JavaScript Numbers; the model
  uses `real`. The slider gives an integer percentage `v`, and the threshold
  compared against is `v / 100`.
 */
module Detections {
  import opened Text

  /** `bbox: [x1, y1, x2, y2]` in image pixels. */
  datatype BBox = BBox(x1: real, y1: real, x2: real, y2: real)

  datatype Detection = Detection(name: Utf16, confidence: real, bbox: BBox)

  /** The threshold a slider position `value` (a whole percentage) stands for. */
  function SliderThreshold(value: int): real {
    value as real / 100.0
  }

  /** `detections.filter(d => d.confidence >= threshold)`. */
  function Visible(detections: seq<Detection>, threshold: real): seq<Detection> {
    if detections == [] then []
    else
      (if detections[0].confidence >= threshold then [detections[0]] else [])
      + Visible(detections[1..], threshold)
  }

  /** The number shown in the object counter: `visibleDetections.length`. */
  function Count(detections: seq<Detection>, threshold: real): nat {
    |Visible(detections, threshold)|
  }

  /** A detection is shown exactly when it was received and reaches the threshold (equality included). */
  lemma {:induction false} VisibleMembership(detections: seq<Detection>, threshold: real, d: Detection)
    ensures d in Visible(detections, threshold) <==> d in detections && d.confidence >= threshold
  {
    if detections != [] {
      VisibleMembership(detections[1..], threshold, d);
      assert detections == [detections[0]] + detections[1..];
    }
  }

  /** Filtering distributes over concatenation, so the shown detections keep the order they were received in. */
  lemma {:induction false} VisibleAppend(a: seq<Detection>, b: seq<Detection>, threshold: real)
    ensures Visible(a + b, threshold) == Visible(a, threshold) + Visible(b, threshold)
  {
    if a == [] {
      assert a + b == b;
    } else {
      var head := if a[0].confidence >= threshold then [a[0]] else [];
      assert (a + b)[0] == a[0] && (a + b)[1..] == a[1..] + b;
      VisibleAppend(a[1..], b, threshold);
      calc {
        Visible(a + b, threshold);
        head + Visible(a[1..] + b, threshold);
        head + (Visible(a[1..], threshold) + Visible(b, threshold));
        (head + Visible(a[1..], threshold)) + Visible(b, threshold);
      }
    }
  }

  /** A single detection is shown alone or not at all. */
  lemma VisibleSingleton(d: Detection, threshold: real)
    ensures Visible([d], threshold) == if d.confidence >= threshold then [d] else []
  {
  }

  /** At slider position `value` a detection is shown exactly when its confidence, as a percentage, reaches `value`. */
  lemma SliderShows(value: int, d: Detection)
    ensures d in Visible([d], SliderThreshold(value)) <==> d.confidence * 100.0 >= value as real
  {
  }

  /** Every shown detection reaches the threshold, and a list whose every detection reaches it is shown whole. */
  lemma {:induction false} VisibleAllAbove(detections: seq<Detection>, threshold: real)
    ensures forall i :: 0 <= i < |Visible(detections, threshold)| ==>
              Visible(detections, threshold)[i].confidence >= threshold
    ensures (forall i :: 0 <= i < |detections| ==> detections[i].confidence >= threshold) ==>
              Visible(detections, threshold) == detections
  {
    if detections != [] {
      VisibleAllAbove(detections[1..], threshold);
      assert detections == [detections[0]] + detections[1..];
    }
  }

  /** The shown list is never longer than what was received. */
  lemma {:induction false} CountAtMostTotal(detections: seq<Detection>, threshold: real)
    ensures Count(detections, threshold) <= |detections|
  {
    if detections != [] {
      CountAtMostTotal(detections[1..], threshold);
    }
  }

  /** Raising the threshold filters the already-filtered list: what `t2` shows is what `t1` shows, filtered by `t2`. */
  lemma {:induction false} VisibleNested(detections: seq<Detection>, t1: real, t2: real)
    requires t1 <= t2
    ensures Visible(Visible(detections, t1), t2) == Visible(detections, t2)
  {
    if detections != [] {
      var d := detections[0];
      VisibleNested(detections[1..], t1, t2);
      VisibleAppend(if d.confidence >= t1 then [d] else [], Visible(detections[1..], t1), t2);
      VisibleSingleton(d, t2);
      assert Visible([], t2) == [];
    }
  }

  /** The object count never grows as the threshold rises. */
  lemma CountMonotone(detections: seq<Detection>, t1: real, t2: real)
    requires t1 <= t2
    ensures Count(detections, t2) <= Count(detections, t1)
  {
    VisibleNested(detections, t1, t2);
    CountAtMostTotal(Visible(detections, t1), t2);
  }

  /**
    Two detections, "cat" at 0.92 and "dog" at 0.40: the slider at 50% shows
    one of them, the slider at 30% both.
   */
  lemma CatAndDog()
    ensures var cat := Detection([99, 97, 116], 0.92, BBox(10.0, 10.0, 110.0, 110.0));
            var dog := Detection([100, 111, 103], 0.40, BBox(200.0, 50.0, 300.0, 150.0));
            Visible([cat, dog], SliderThreshold(50)) == [cat] &&
            Count([cat, dog], SliderThreshold(30)) == 2
  {
    var cat := Detection([99, 97, 116], 0.92, BBox(10.0, 10.0, 110.0, 110.0));
    var dog := Detection([100, 111, 103], 0.40, BBox(200.0, 50.0, 300.0, 150.0));
    assert [cat, dog][1..] == [dog];
    VisibleSingleton(dog, SliderThreshold(50));
    VisibleSingleton(dog, SliderThreshold(30));
  }

  /** `Math.round(x)`: the nearest integer, halves rounded up. */
  function Round(x: real): (n: int)
    ensures n as real - 0.5 <= x < n as real + 0.5
  {
    (x + 0.5).Floor
  }

  /** `Math.round(confidence * 100)`: the percentage printed in a tag. */
  function Percentage(confidence: real): (p: int)
    ensures 0.0 <= confidence <= 1.0 ==> 0 <= p <= 100
  {
    Round(confidence * 100.0)
  }
}

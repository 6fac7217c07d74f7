/**
 * The headphone-detection predicate `has_headphones`, identical in switcher.py
 * and client/switcher.py: some prediction's lowered class is exactly one of
 * three names and its confidence is strictly above one half.
 */
module Detection {
  import opened Text
  import opened Protocol

  /** `headphone_classes` */
  const HEADPHONE_CLASSES: seq<string> := ["headphones", "earphones", "earbuds"]

  /** The confidence a prediction must strictly exceed. */
  const THRESHOLD: real := 0.5

  /** The condition evaluated on each prediction inside the loop of `has_headphones`. */
  predicate Qualifies(p: Prediction)
  {
    Lower(p.cls) in HEADPHONE_CLASSES && p.confidence > THRESHOLD
  }

  /**
   * `has_headphones(predictions)`: scans in order and returns at the first
   * qualifying prediction; the result is the existence of one.
   */
  function HasHeadphones(predictions: seq<Prediction>): bool
  {
    if predictions == [] then false
    else if Qualifies(predictions[0]) then true
    else HasHeadphones(predictions[1..])
  }

  /** `has_headphones` returns true exactly when some prediction qualifies, wherever it stands. */
  lemma {:induction false} HasHeadphonesIff(predictions: seq<Prediction>)
    ensures HasHeadphones(predictions) <==> exists i :: 0 <= i < |predictions| && Qualifies(predictions[i])
  {
    if predictions != [] {
      HasHeadphonesIff(predictions[1..]);
      if !Qualifies(predictions[0]) && HasHeadphones(predictions) {
        var i :| 0 <= i < |predictions[1..]| && Qualifies(predictions[1..][i]);
        assert Qualifies(predictions[i + 1]);
      }
    }
  }

  /** The three accepted lowered class names, and nothing else, make a prediction qualify. */
  lemma QualifyingClasses(p: Prediction)
    requires p.confidence > THRESHOLD
    ensures Qualifies(p) <==> Lower(p.cls) == "headphones" || Lower(p.cls) == "earphones" || Lower(p.cls) == "earbuds"
  {
  }

  /** Confidence exactly at (or below) the threshold never qualifies, whatever the class. */
  lemma ThresholdIsStrict(predictions: seq<Prediction>)
    requires forall i :: 0 <= i < |predictions| ==> predictions[i].confidence <= 0.5
    ensures !HasHeadphones(predictions)
  {
    HasHeadphonesIff(predictions);
  }

  /** Only the lowered class matters: any spelling with the same lowering gives the same verdict. */
  lemma ClassIsCaseInsensitive(p: Prediction, q: Prediction)
    requires Lower(p.cls) == Lower(q.cls) && p.confidence == q.confidence
    ensures Qualifies(p) == Qualifies(q)
  {
  }

  /** Lowering a class first does not change whether it qualifies. */
  lemma LoweredClassQualifiesAlike(p: Prediction)
    ensures Qualifies(p) == Qualifies(p.(cls := Lower(p.cls)))
  {
    LowerIdempotent(p.cls);
  }

  /** Mixed case is accepted: "HeadPhones" at 0.92 qualifies. */
  lemma MixedCaseQualifies()
    ensures HasHeadphones([Prediction("HeadPhones", 0.92, [])])
  {
    assert Lower("HeadPhones") == "headphones";
  }

  /** Matching is exact, not by substring or prefix, and the bound is strict. */
  lemma NearMissesDoNotQualify()
    ensures !Qualifies(Prediction("headphone", 0.9, []))
    ensures !Qualifies(Prediction("wireless headphones", 0.9, []))
    ensures !Qualifies(Prediction("Earbuds", 0.5, []))
  {
    assert |Lower("headphone")| == 9 && Lower("headphone")[8] == 'e';
    assert |Lower("wireless headphones")| == 19;
  }

  /** Scanning a concatenation finds a qualifying prediction iff one of the parts holds one. */
  lemma {:induction false} HasHeadphonesAppend(a: seq<Prediction>, b: seq<Prediction>)
    ensures HasHeadphones(a + b) == (HasHeadphones(a) || HasHeadphones(b))
  {
    if a == [] {
      assert a + b == b;
    } else {
      assert (a + b)[1..] == a[1..] + b;
      HasHeadphonesAppend(a[1..], b);
    }
  }

  /** The verdict does not depend on the order of the predictions. */
  lemma HasHeadphonesPermutation(a: seq<Prediction>, b: seq<Prediction>)
    requires multiset(a) == multiset(b)
    ensures HasHeadphones(a) == HasHeadphones(b)
  {
    HasHeadphonesIff(a);
    HasHeadphonesIff(b);
    if HasHeadphones(a) {
      var i :| 0 <= i < |a| && Qualifies(a[i]);
      assert a[i] in multiset(b);
      var j :| 0 <= j < |b| && b[j] == a[i];
    }
    if HasHeadphones(b) {
      var j :| 0 <= j < |b| && Qualifies(b[j]);
      assert b[j] in multiset(a);
      var i :| 0 <= i < |a| && a[i] == b[j];
    }
  }
}

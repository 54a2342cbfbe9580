/** The per-frame recognition logic of the camera view: features relative to the
    wrist, the arg-max label pick, the display gate that decides what the overlay
    shows, the skeleton table and the gating of frame processing on model load. */
module SignDetection {
  import opened Wrappers
  import opened Sequences

  /** One hand landmark in normalized image coordinates. */
  datatype Landmark = Landmark(x: real, y: real, z: real)

  /** What the hand tracker passes to `onResults`: `multiHandLandmarks` may be
      absent (`undefined`) or list one landmark sequence per detected hand. */
  datatype HandResults = HandResults(multiHandLandmarks: Option<seq<seq<Landmark>>>)

  /** The classifier's output: one score per entry of `Labels`. */
  type ScoreVector = s: seq<real> | |s| == 26 witness seq(26, i => 0.0)

  /** Running the loaded model on a feature vector: scores, or a thrown error. */
  datatype Inference = InferenceError | Probabilities(scores: ScoreVector)

  /** The loaded graph model, seen only through its predictions. */
  type Classifier = seq<real> -> Inference

  /** The three state fields the overlay shows. */
  datatype Display = Display(prediction: string, confidence: real, handsDetected: bool)

  const Labels: seq<char> := ['A', 'B', 'C', 'D', 'E', 'F', 'G', 'H', 'I', 'J', 'K', 'L', 'M',
                              'N', 'O', 'P', 'Q', 'R', 'S', 'T', 'U', 'V', 'W', 'X', 'Y', 'Z']

  /** A prediction is shown only when its score is strictly above this. */
  const AcceptanceThreshold: real := 0.2

  /** The 20 bones drawn between landmark indices, as (start, end). */
  const Connections: seq<(nat, nat)> := [
    (0, 1), (1, 2), (2, 3), (3, 4),
    (0, 5), (5, 6), (6, 7), (7, 8),
    (0, 9), (9, 10), (10, 11), (11, 12),
    (0, 13), (13, 14), (14, 15), (15, 16),
    (0, 17), (17, 18), (18, 19), (19, 20)
  ]

  const InitialDisplay: Display := Display("", 0.0, false)

  // ---------------------------------------------------------------------------
  // Static tables

  /** The labels are the letters A to Z, in order, each once. */
  lemma LabelsAreAlphabet()
    ensures |Labels| == 26
    ensures forall i :: 0 <= i < |Labels| ==> Labels[i] as int == 'A' as int + i
    ensures Distinct(Labels)
  {
  }

  /** The skeleton has 20 bones between landmarks 0..20, each pointing away from
      the wrist, and every landmark but the wrist ends exactly one bone: the bones
      form a tree rooted at landmark 0. */
  lemma SkeletonIsTree()
    ensures |Connections| == 20
    ensures forall i :: 0 <= i < |Connections| ==>
              Connections[i].0 < Connections[i].1 <= 20
    ensures forall k :: 1 <= k <= 20 ==> EndsBone(k)
    ensures !EndsBone(0)
    ensures forall i, j :: 0 <= i < j < |Connections| ==> Connections[i].1 != Connections[j].1
  {
    forall k | 1 <= k <= 20
      ensures EndsBone(k)
    {
      assert Connections[k - 1].1 == k;
    }
  }

  /** Landmark `k` is the end of some bone. */
  predicate EndsBone(k: nat) {
    exists i :: 0 <= i < |Connections| && Connections[i].1 == k
  }

  /** Drawing a hand reads `landmarks[start]` and `landmarks[end]` of every bone;
      it throws unless every endpoint is a landmark. */
  predicate CanDraw(landmarks: seq<Landmark>) {
    forall i :: 0 <= i < |Connections| ==> Connections[i].1 < |landmarks|
  }

  /** Drawing succeeds exactly for hands of at least 21 landmarks. */
  lemma CanDrawIff(landmarks: seq<Landmark>)
    ensures CanDraw(landmarks) <==> |landmarks| >= 21
  {
    if CanDraw(landmarks) {
      assert Connections[19].1 == 20;
    }
  }

  // ---------------------------------------------------------------------------
  // Feature extraction

  /** The three coordinates of `p` relative to `wrist`. */
  function Offset(p: Landmark, wrist: Landmark): seq<real> {
    [p.x - wrist.x, p.y - wrist.y, p.z - wrist.z]
  }

  /** The offsets of `ps` relative to `wrist`, flattened in landmark order. */
  function RelativeTo(ps: seq<Landmark>, wrist: Landmark): (r: seq<real>)
    ensures |r| == 3 * |ps|
  {
    if ps == [] then [] else RelativeTo(ps[..|ps| - 1], wrist) + Offset(ps[|ps| - 1], wrist)
  }

  /** The feature vector of a hand: every landmark relative to landmark 0. */
  function Features(landmarks: seq<Landmark>): (r: seq<real>)
    ensures |r| == 3 * |landmarks|
  {
    if landmarks == [] then [] else RelativeTo(landmarks, landmarks[0])
  }

  /** Features 3i, 3i+1, 3i+2 are the offsets of landmark i. */
  lemma {:induction false} RelativeToAt(ps: seq<Landmark>, wrist: Landmark, i: nat)
    requires i < |ps|
    ensures RelativeTo(ps, wrist)[3 * i..3 * i + 3] == Offset(ps[i], wrist)
  {
    var n := |ps|;
    var front := RelativeTo(ps[..n - 1], wrist);
    assert RelativeTo(ps, wrist) == front + Offset(ps[n - 1], wrist);
    if i < n - 1 {
      RelativeToAt(ps[..n - 1], wrist, i);
      assert (front + Offset(ps[n - 1], wrist))[3 * i..3 * i + 3] == front[3 * i..3 * i + 3];
    }
  }

  /** `extractFeatures`: pushes x, y, z of each landmark minus the wrist's. */
  method ExtractFeatures(landmarks: seq<Landmark>) returns (features: seq<real>)
    ensures features == Features(landmarks)
    ensures |features| == 3 * |landmarks|
    ensures forall i :: 0 <= i < |landmarks| ==>
              features[3 * i..3 * i + 3] == Offset(landmarks[i], landmarks[0])
  {
    features := [];
    if landmarks == [] {
      // The loop would not run, so the missing wrist is never read.
      return;
    }
    var wrist := landmarks[0];
    var i := 0;
    while i < |landmarks|
      invariant 0 <= i <= |landmarks|
      invariant features == RelativeTo(landmarks[..i], wrist)
    {
      assert landmarks[..i + 1][..i] == landmarks[..i];
      features := features + [landmarks[i].x - wrist.x, landmarks[i].y - wrist.y, landmarks[i].z - wrist.z];
      i := i + 1;
    }
    assert landmarks[..i] == landmarks;
    forall i | 0 <= i < |landmarks|
      ensures features[3 * i..3 * i + 3] == Offset(landmarks[i], landmarks[0])
    {
      RelativeToAt(landmarks, wrist, i);
    }
  }

  /** The wrist is subtracted from itself: the first three features are zero. */
  lemma WristFeaturesZero(landmarks: seq<Landmark>)
    requires |landmarks| > 0
    ensures |Features(landmarks)| == 3 * |landmarks|
    ensures Features(landmarks)[..3] == [0.0, 0.0, 0.0]
  {
    RelativeToAt(landmarks, landmarks[0], 0);
  }

  /** Moves every landmark by the same offset. */
  function Translate(landmarks: seq<Landmark>, d: Landmark): (r: seq<Landmark>)
    ensures |r| == |landmarks|
    ensures forall i :: 0 <= i < |r| ==>
              r[i] == Landmark(landmarks[i].x + d.x, landmarks[i].y + d.y, landmarks[i].z + d.z)
  {
    seq(|landmarks|, i requires 0 <= i < |landmarks| =>
      Landmark(landmarks[i].x + d.x, landmarks[i].y + d.y, landmarks[i].z + d.z))
  }

  lemma {:induction false} RelativeToTranslate(ps: seq<Landmark>, wrist: Landmark, d: Landmark)
    ensures RelativeTo(Translate(ps, d), Landmark(wrist.x + d.x, wrist.y + d.y, wrist.z + d.z))
         == RelativeTo(ps, wrist)
  {
    if ps != [] {
      var n := |ps|;
      assert Translate(ps, d)[..n - 1] == Translate(ps[..n - 1], d);
      RelativeToTranslate(ps[..n - 1], wrist, d);
    }
  }

  /** Moving the whole hand leaves its features unchanged. */
  lemma TranslationInvariant(landmarks: seq<Landmark>, d: Landmark)
    ensures Features(Translate(landmarks, d)) == Features(landmarks)
  {
    if landmarks != [] {
      RelativeToTranslate(landmarks, landmarks[0], d);
    }
  }

  // ---------------------------------------------------------------------------
  // Arg-max label pick

  /** `Math.max(...s)`. */
  function MaxOf(s: seq<real>): (m: real)
    requires |s| > 0
    ensures m in s
    ensures forall i :: 0 <= i < |s| ==> s[i] <= m
  {
    if |s| == 1 then s[0]
    else
      var rest := MaxOf(s[1..]);
      if s[0] >= rest then s[0] else rest
  }

  /** `s.indexOf(Math.max(...s))`: the first position of a largest score. */
  function ArgMax(s: seq<real>): (k: nat)
    requires |s| > 0
    ensures k < |s|
    ensures forall j :: 0 <= j < |s| ==> s[j] <= s[k]
    ensures forall j :: 0 <= j < k ==> s[j] < s[k]
  {
    IndexOf(s, MaxOf(s))
  }

  // ---------------------------------------------------------------------------
  // The display gate

  /** What one call of `onResults` does to the displayed state, for a loaded
      model `classify`. A hand of fewer than 21 landmarks makes the drawing
      throw right after `handsDetected` is set, and an inference error is
      caught: both leave the label as it was. */
  function Step(d: Display, results: HandResults, classify: Classifier): (r: Display)
    ensures r.handsDetected <==> HasHand(results)
    ensures !HasHand(results) ==> r.prediction == "" && r.confidence == d.confidence
  {
    if results.multiHandLandmarks.Some? && |results.multiHandLandmarks.value| > 0 then
      var landmarks := results.multiHandLandmarks.value[0];
      var seen := d.(handsDetected := true);
      if !CanDraw(landmarks) then seen
      else
        match classify(Features(landmarks))
        case InferenceError => seen
        case Probabilities(p) =>
          var k := ArgMax(p);
          if p[k] > AcceptanceThreshold then seen.(prediction := [Labels[k]], confidence := p[k])
          else seen
    else
      d.(handsDetected := false, prediction := "")
  }

  /** The frame reports at least one hand. */
  predicate HasHand(results: HandResults) {
    results.multiHandLandmarks.Some? && |results.multiHandLandmarks.value| > 0
  }

  /** The frame's first hand is drawn and scored, with `p` the winning score. */
  predicate ScoredAs(results: HandResults, classify: Classifier, k: nat, p: real) {
    && HasHand(results)
    && CanDraw(results.multiHandLandmarks.value[0])
    && classify(Features(results.multiHandLandmarks.value[0])).Probabilities?
    && var scores := classify(Features(results.multiHandLandmarks.value[0])).scores;
       k == ArgMax(scores) && p == scores[k]
  }

  /** A frame with no hand clears the label whatever was shown before, and
      leaves the confidence alone. */
  lemma NoHandClears(d: Display, results: HandResults, classify: Classifier)
    requires !HasHand(results)
    ensures Step(d, results, classify) == Display("", d.confidence, false)
  {
  }

  /** A frame with a hand always sets `handsDetected`, and only the first hand
      decides the label. */
  lemma HandFrameUsesFirstHand(d: Display, hands: seq<seq<Landmark>>, rest: seq<seq<Landmark>>,
                               classify: Classifier)
    requires |hands| > 0
    ensures Step(d, HandResults(Some(hands)), classify).handsDetected
    ensures Step(d, HandResults(Some(hands)), classify)
         == Step(d, HandResults(Some([hands[0]] + rest)), classify)
  {
  }

  /** The label and confidence change only on a hand frame whose winning score
      is above the threshold, and then become that letter and that score; a
      no-hand frame is the other way the label changes, to empty. */
  lemma LabelChangesOnlyWhenConfident(d: Display, results: HandResults, classify: Classifier)
    ensures var r := Step(d, results, classify);
            HasHand(results) && (r.prediction != d.prediction || r.confidence != d.confidence) ==>
              exists k: nat, p: real :: ScoredAs(results, classify, k, p) && p > AcceptanceThreshold &&
                                        r.prediction == [Labels[k]] && r.confidence == p
  {
    var r := Step(d, results, classify);
    if HasHand(results) && (r.prediction != d.prediction || r.confidence != d.confidence) {
      var landmarks := results.multiHandLandmarks.value[0];
      var scores := classify(Features(landmarks)).scores;
      var k := ArgMax(scores);
      assert ScoredAs(results, classify, k, scores[k]);
    }
  }

  /** A confident frame shows its arg-max letter at once; a frame that is not
      confident keeps what was shown. */
  lemma ConfidentFrameShows(d: Display, results: HandResults, classify: Classifier, k: nat, p: real)
    requires ScoredAs(results, classify, k, p)
    ensures p > AcceptanceThreshold ==>
              Step(d, results, classify) == Display([Labels[k]], p, true)
    ensures p <= AcceptanceThreshold ==>
              Step(d, results, classify) == d.(handsDetected := true)
  {
  }

  /** What may be on screen: an empty label, or one letter shown with a
      confidence above the threshold while a hand is present. */
  predicate Shown(d: Display) {
    d.prediction != "" ==>
      |d.prediction| == 1 && d.prediction[0] in Labels &&
      d.confidence > AcceptanceThreshold && d.handsDetected
  }

  /** Every frame keeps the display within what may be shown. */
  lemma StepKeepsShown(d: Display, results: HandResults, classify: Classifier)
    requires Shown(d)
    ensures Shown(Step(d, results, classify))
  {
  }

  /** The four-frame scenario: no hand, a confident 'A', a weak 'B', no hand
      shows nothing, 'A', 'A', nothing. */
  lemma Scenario(noHand: HandResults, handA: HandResults, handB: HandResults, classify: Classifier,
                 pa: real, pb: real)
    requires !HasHand(noHand)
    requires ScoredAs(handA, classify, 0, pa) && pa == 0.9
    requires ScoredAs(handB, classify, 1, pb) && pb == 0.1
    ensures var d1 := Step(InitialDisplay, noHand, classify);
            var d2 := Step(d1, handA, classify);
            var d3 := Step(d2, handB, classify);
            var d4 := Step(d3, noHand, classify);
            d1.prediction == "" && d2.prediction == "A" && d3.prediction == "A" && d4.prediction == ""
  {
  }

  // ---------------------------------------------------------------------------
  // The component's state

  /** The detector view. `framesWired` records that the hand tracker's results
      are routed to `onResults`, which the wiring effect does only once a
      model is set. */
  class CameraSignDetector {
    var model: Option<Classifier>
    var prediction: string
    var confidence: real
    var isLoading: bool
    var error: Option<string>
    var handsDetected: bool
    var framesWired: bool

    /** The loading states: loading (no model, no error), loaded (a model) or
        failed (an error, never a model); frames flow only with a model. */
    ghost predicate Valid()
      reads this
    {
      && (isLoading ==> model.None? && error.None?)
      && !(model.Some? && error.Some?)
      && (!isLoading ==> model.Some? || error.Some?)
      && (framesWired ==> model.Some?)
      && Shown(View())
    }

    function View(): Display
      reads this
    {
      Display(prediction, confidence, handsDetected)
    }

    /** The view as first rendered. */
    constructor ()
      ensures Valid()
      ensures model.None? && isLoading && error.None? && !framesWired
      ensures View() == InitialDisplay
    {
      model := None;
      prediction := "";
      confidence := 0.0;
      isLoading := true;
      error := None;
      handsDetected := false;
      framesWired := false;
    }

    /** `loadModel` succeeds: the model is set and loading ends. */
    method ModelLoaded(loaded: Classifier)
      requires Valid() && isLoading
      modifies this`model, this`isLoading
      ensures Valid()
      ensures model == Some(loaded) && !isLoading && error.None?
    {
      model := Some(loaded);
      isLoading := false;
    }

    /** `loadModel` fails: the error is set and loading ends; no model is set. */
    method ModelLoadFailed()
      requires Valid() && isLoading
      modifies this`error, this`isLoading
      ensures Valid()
      ensures error == Some("Failed to load ML model") && !isLoading && model.None?
      ensures !framesWired
    {
      error := Some("Failed to load ML model");
      isLoading := false;
    }

    /** The wiring effect, run whenever `model` changes: it returns at once
        without a model, and otherwise routes frames to `onResults`. */
    method WireFrames()
      requires Valid()
      modifies this`framesWired
      ensures Valid()
      ensures framesWired == (old(framesWired) || model.Some?)
      ensures framesWired ==> model.Some?
    {
      if model.None? {
        return;
      }
      framesWired := true;
    }

    /** `onResults` for one frame. */
    method OnResults(results: HandResults)
      requires Valid() && framesWired
      modifies this`prediction, this`confidence, this`handsDetected
      ensures Valid()
      ensures View() == Step(old(View()), results, model.value)
    {
      StepKeepsShown(View(), results, model.value);
      if results.multiHandLandmarks.Some? && |results.multiHandLandmarks.value| > 0 {
        var landmarks := results.multiHandLandmarks.value[0];
        handsDetected := true;
        if !CanDraw(landmarks) {
          // drawLandmarks throws: the rest of the frame is skipped.
          return;
        }
        var features := ExtractFeatures(landmarks);
        var inference := model.value(features);
        if inference.Probabilities? {
          var probabilities := inference.scores;
          var maxIndex := ArgMax(probabilities);
          var maxConfidence := probabilities[maxIndex];
          if maxConfidence > AcceptanceThreshold {
            prediction := [Labels[maxIndex]];
            confidence := maxConfidence;
          }
        }
      } else {
        handsDetected := false;
        prediction := "";
      }
    }
  }
}

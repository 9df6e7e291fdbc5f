/** Frame-to-frame data association: a detected box is scored against the boxes
    predicted for map quadrics and against live object trackers, joins the best
    candidate when that reaches the IoU threshold, and otherwise starts a new
    object under a fresh key. */
module Association {
  import opened Wrappers
  import opened Geometry

  /** OpenCV's box: top-left corner, width and height. */
  datatype CvBox = CvBox(x: real, y: real, w: real, h: real)

  /** BoxTracker.to_cvbox. */
  function ToCvBox(b: AlignedBox2): (c: CvBox)
    ensures c.x == b.xmin && c.y == b.ymin
    ensures b.xmin <= b.xmax && b.ymin <= b.ymax ==> c.w >= 0.0 && c.h >= 0.0
  {
    CvBox(b.xmin, b.ymin, b.xmax - b.xmin, b.ymax - b.ymin)
  }

  /** BoxTracker.from_cvbox, the inverse of ToCvBox. */
  function FromCvBox(t: CvBox): (b: AlignedBox2)
    ensures ToCvBox(b) == t
  {
    AlignedBox2(t.x, t.y, t.x + t.w, t.y + t.h)
  }

  /** Converting a box to OpenCV's form and back gives the same corners. */
  lemma CvBoxRoundTrip(b: AlignedBox2)
    ensures FromCvBox(ToCvBox(b)) == b
  {
  }

  /** An OpenCV tracker: its type and the box it was initialised with. The
      tracker's internal state lives in OpenCV and is not modelled. */
  datatype BoxTracker = BoxTracker(trackerType: string, initialBox: CvBox)

  /** A tracker initialised on `box`. */
  function NewBoxTracker(box: AlignedBox2, trackerType: string): BoxTracker {
    BoxTracker(trackerType, ToCvBox(box))
  }

  /** What OpenCV's tracker.update reports: whether it found the object, and where. */
  datatype TrackOutcome = TrackOutcome(ok: bool, cvbox: CvBox)

  /** BoxTracker.update: the report, with its box converted to corner form. */
  function TrackerReport(o: TrackOutcome): (r: (bool, AlignedBox2))
    ensures r.0 == o.ok && ToCvBox(r.1) == o.cvbox
  {
    (o.ok, FromCvBox(o.cvbox))
  }

  /** Python's s[-n:]: the last n elements, all of s when n exceeds its length, and
      also all of s when n is 0 (since -0 == 0). */
  function LastN<T>(s: seq<T>, n: nat): (r: seq<T>)
    ensures |r| == if n == 0 || n >= |s| then |s| else n
    ensures r == s[|s| - |r|..]
  {
    if n == 0 || n >= |s| then s else s[|s| - n..]
  }

  /** The converted boxes of the reports that are ok, in report order. */
  function OkBoxes(outcomes: seq<TrackOutcome>): (r: seq<AlignedBox2>)
    ensures |r| <= |outcomes|
    ensures (forall i :: 0 <= i < |outcomes| ==> outcomes[i].ok) ==> |r| == |outcomes|
  {
    if outcomes == [] then []
    else
      var last := outcomes[|outcomes| - 1];
      OkBoxes(outcomes[..|outcomes| - 1]) + (if last.ok then [FromCvBox(last.cvbox)] else [])
  }

  /** There are no more ok boxes than reports, each one comes from an ok report,
      and when every report is ok there is one box per report. */
  lemma {:induction false} OkBoxesFromOkReports(outcomes: seq<TrackOutcome>)
    ensures |OkBoxes(outcomes)| <= |outcomes|
    ensures forall b :: b in OkBoxes(outcomes) ==>
      exists i :: 0 <= i < |outcomes| && outcomes[i].ok && b == FromCvBox(outcomes[i].cvbox)
    ensures (forall i :: 0 <= i < |outcomes| ==> outcomes[i].ok) ==> |OkBoxes(outcomes)| == |outcomes|
  {
    if outcomes != [] {
      var n := |outcomes|;
      var init := outcomes[..n - 1];
      OkBoxesFromOkReports(init);
      forall b | b in OkBoxes(outcomes)
        ensures exists i :: 0 <= i < n && outcomes[i].ok && b == FromCvBox(outcomes[i].cvbox)
      {
        if b in OkBoxes(init) {
          var i :| 0 <= i < |init| && init[i].ok && b == FromCvBox(init[i].cvbox);
          assert outcomes[i] == init[i];
        } else {
          assert outcomes[n - 1].ok && b == FromCvBox(outcomes[n - 1].cvbox);
        }
      }
      if forall i :: 0 <= i < n ==> outcomes[i].ok {
        assert forall i :: 0 <= i < |init| ==> init[i] == outcomes[i];
      }
    }
  }

  /** The index Python's max(..., key=...) picks: a maximum, and the first one,
      since a later element replaces the running maximum only when strictly greater. */
  function ArgMax(scores: seq<real>): (k: nat)
    requires |scores| > 0
    ensures k < |scores|
    ensures forall j :: 0 <= j < |scores| ==> scores[j] <= scores[k]
    ensures forall j :: 0 <= j < k ==> scores[j] < scores[k]
  {
    if |scores| == 1 then 0
    else
      var k := ArgMax(scores[..|scores| - 1]);
      if scores[|scores| - 1] > scores[k] then |scores| - 1 else k
  }

  /** box.iou(other), computed outside this model. */
  type IoU = (AlignedBox2, AlignedBox2) -> real

  /** The IoU of `box` with each of `boxes`. */
  function IoUs(box: AlignedBox2, boxes: seq<AlignedBox2>, iou: IoU): (s: seq<real>)
    ensures |s| == |boxes| && forall i :: 0 <= i < |boxes| ==> s[i] == iou(box, boxes[i])
  {
    seq(|boxes|, i requires 0 <= i < |boxes| => iou(box, boxes[i]))
  }

  /** An object tracker's state as a value. */
  datatype TrackerView = TrackerView(trackers: seq<BoxTracker>, predictions: seq<AlignedBox2>, alive: bool)

  /** Tracks one object from frame to frame with a growing list of box trackers,
      of which only the most recent ones are updated. */
  class ObjectTracker {
    const trackerType: string
    const nActiveTrackers: nat := 1
    var trackers: seq<BoxTracker>
    var predictions: seq<AlignedBox2>
    var alive: bool

    function View(): TrackerView
      reads this
    {
      TrackerView(trackers, predictions, alive)
    }

    /** A live tracker with one box tracker on `box` and no predictions. */
    constructor (box: AlignedBox2, trackerType: string)
      ensures this.trackerType == trackerType
      ensures View() == TrackerView([NewBoxTracker(box, trackerType)], [], true)
    {
      this.trackerType := trackerType;
      trackers := [NewBoxTracker(box, trackerType)];
      predictions := [];
      alive := true;
    }

    /** The box trackers that Update consults: the last nActiveTrackers of them. */
    function ActiveTrackers(): seq<BoxTracker>
      reads this
    {
      LastN(trackers, nActiveTrackers)
    }

    /** ObjectTracker.update: `outcomes[i]` is what OpenCV reports for the i-th
        active box tracker. The old predictions are discarded and the ok boxes kept. */
    method Update(outcomes: seq<TrackOutcome>)
      requires |outcomes| == |ActiveTrackers()|
      modifies this`predictions
      ensures predictions == OkBoxes(outcomes)
      ensures |predictions| <= nActiveTrackers
    {
      predictions := [];
      var active := ActiveTrackers();
      var i := 0;
      while i < |active|
        invariant 0 <= i <= |active|
        invariant predictions == OkBoxes(outcomes[..i])
      {
        var (ok, box) := TrackerReport(outcomes[i]);
        if ok {
          predictions := predictions + [box];
        }
        assert outcomes[..i + 1][..i] == outcomes[..i];
        i := i + 1;
      }
      assert outcomes[..|active|] == outcomes;
      OkBoxesFromOkReports(outcomes);
    }

    /** ObjectTracker.compatability: (0.0, None) without predictions, otherwise the
        first prediction of largest IoU with `box`, with that IoU. */
    function Compatability(box: AlignedBox2, iou: IoU): (r: (real, Option<AlignedBox2>))
      reads this
      ensures predictions == [] ==> r == (0.0, None)
      ensures predictions != [] ==> r.1.Some? && r.1.value in predictions && r.0 == iou(box, r.1.value)
      ensures forall p :: p in predictions ==> iou(box, p) <= r.0
      ensures predictions != [] ==>
        exists k :: 0 <= k < |predictions| && predictions[k] == r.1.value &&
          forall j :: 0 <= j < k ==> iou(box, predictions[j]) < r.0
    {
      if |predictions| == 0 then (0.0, None)
      else
        var k := ArgMax(IoUs(box, predictions, iou));
        (iou(box, predictions[k]), Some(predictions[k]))
    }

    /** ObjectTracker.add_tracker: one more box tracker, initialised on `box`. */
    method AddTracker(box: AlignedBox2)
      modifies this`trackers
      ensures View() == old(View()).(trackers := old(trackers) + [NewBoxTracker(box, trackerType)])
    {
      trackers := trackers + [NewBoxTracker(box, trackerType)];
    }
  }

  /** Where a candidate association comes from. */
  datatype CandidateKind = MapCandidate | TrackerCandidate

  /** One entry of associate_detection's compatability list. */
  datatype Candidate = Candidate(compatability: real, objectKey: nat, kind: CandidateKind)

  /** One item of the map, in iteration order. */
  datatype MapEntry = MapEntry(objectKey: nat, quadric: ConstrainedDualQuadric)

  /** Projection of a map quadric into the current view followed by bounds(), which
      may raise a projection exception. */
  type BoxPredictor = ConstrainedDualQuadric -> Result<AlignedBox2, QuadricProjectionException>

  function Compatabilities(cs: seq<Candidate>): (s: seq<real>)
    ensures |s| == |cs| && forall i :: 0 <= i < |cs| ==> s[i] == cs[i].compatability
  {
    seq(|cs|, i requires 0 <= i < |cs| => cs[i].compatability)
  }

  /** The map candidates in map order, or the first projection exception. */
  function MapCandidates(entries: seq<MapEntry>, predict: BoxPredictor, box: AlignedBox2, iou: IoU): (r: Result<seq<Candidate>, QuadricProjectionException>)
    ensures r.Success? ==> |r.value| == |entries|
    ensures r.Success? ==>
      forall i :: 0 <= i < |entries| ==>
        predict(entries[i].quadric).Success? &&
        r.value[i] == Candidate(iou(box, predict(entries[i].quadric).value), entries[i].objectKey, MapCandidate)
    ensures (forall i :: 0 <= i < |entries| ==> predict(entries[i].quadric).Success?) ==> r.Success?
  {
    if entries == [] then Success([])
    else
      var n := |entries|;
      match MapCandidates(entries[..n - 1], predict, box, iou)
      case Failure(e) => Failure(e)
      case Success(cs) =>
        match predict(entries[n - 1].quadric)
        case Failure(e) => Failure(e)
        case Success(b) => Success(cs + [Candidate(iou(box, b), entries[n - 1].objectKey, MapCandidate)])
  }

  /** The first projection that fails decides the exception. */
  lemma {:induction false} MapCandidatesFirstFailure(entries: seq<MapEntry>, i: nat, predict: BoxPredictor, box: AlignedBox2, iou: IoU)
    requires i < |entries|
    requires MapCandidates(entries[..i], predict, box, iou).Success?
    requires predict(entries[i].quadric).Failure?
    ensures MapCandidates(entries, predict, box, iou) == Failure(predict(entries[i].quadric).error)
  {
    var n := |entries|;
    if i == n - 1 {
      assert entries[..n - 1] == entries[..i];
    } else {
      var init := entries[..n - 1];
      assert init[..i] == entries[..i];
      assert init[i] == entries[i];
      MapCandidatesFirstFailure(init, i, predict, box, iou);
    }
  }

  /** associate_detection's decision: the best candidate, the first of equals,
      when it reaches the threshold. */
  function Select(cs: seq<Candidate>, thresh: real): (r: Option<Candidate>)
    ensures r.Some? ==> r.value in cs && r.value.compatability >= thresh
    ensures r.None? ==> forall i :: 0 <= i < |cs| ==> cs[i].compatability < thresh
  {
    if |cs| == 0 then None
    else
      var best := cs[ArgMax(Compatabilities(cs))];
      if best.compatability >= thresh then Some(best) else None
  }

  /** A candidate is chosen exactly when some candidate reaches the threshold; the
      chosen one has the largest compatability and is the first such. */
  lemma SelectChoosesFirstBest(cs: seq<Candidate>, thresh: real)
    ensures Select(cs, thresh).Some? <==> exists i :: 0 <= i < |cs| && cs[i].compatability >= thresh
    ensures Select(cs, thresh).Some? ==>
      var c := Select(cs, thresh).value;
      c.compatability >= thresh &&
      exists k :: 0 <= k < |cs| && cs[k] == c &&
        (forall j :: 0 <= j < |cs| ==> cs[j].compatability <= c.compatability) &&
        (forall j :: 0 <= j < k ==> cs[j].compatability < c.compatability)
  {
    if |cs| > 0 {
      var k := ArgMax(Compatabilities(cs));
      assert cs[k].compatability == Compatabilities(cs)[k];
      if exists i :: 0 <= i < |cs| && cs[i].compatability >= thresh {
        var i :| 0 <= i < |cs| && cs[i].compatability >= thresh;
        assert Compatabilities(cs)[i] <= Compatabilities(cs)[k];
      }
    }
  }

  /** What associate_detection does with a detection. */
  datatype Decision =
    | Escape(error: QuadricProjectionException)  // a projection exception leaves the call
    | JoinMap(key: nat)                          // associate with a map object
    | JoinTracker(key: nat)                      // associate with a tracked object
    | Create                                     // start a new object

  /** The decision taken for a compatability list (or the exception computing it raised). */
  function Decide(cs: Result<seq<Candidate>, QuadricProjectionException>, thresh: real): (d: Decision)
    ensures cs.Failure? <==> d.Escape?
    ensures d.JoinMap? ==> exists c :: c in cs.value && c.kind == MapCandidate && c.objectKey == d.key && c.compatability >= thresh
    ensures d.JoinTracker? ==> exists c :: c in cs.value && c.kind == TrackerCandidate && c.objectKey == d.key && c.compatability >= thresh
    ensures d.Create? ==> forall c :: c in cs.value ==> c.compatability < thresh
  {
    match cs
    case Failure(e) => Escape(e)
    case Success(c) =>
      SelectChoosesFirstBest(c, thresh);
      match Select(c, thresh)
      case None => Create
      case Some(best) =>
        assert best in c;
        if best.kind == MapCandidate then JoinMap(best.objectKey)
        else assert best.kind == TrackerCandidate; JoinTracker(best.objectKey)
  }

  /** Decide, read the way associate_detection computes it: the best candidate,
      checked against the threshold and then by kind. */
  lemma DecideByBest(cs: seq<Candidate>, thresh: real)
    ensures |cs| == 0 ==> Decide(Success(cs), thresh) == Create
    ensures |cs| > 0 ==>
      var best := cs[ArgMax(Compatabilities(cs))];
      Decide(Success(cs), thresh) ==
        if best.compatability >= thresh && best.kind == MapCandidate then JoinMap(best.objectKey)
        else if best.compatability >= thresh && best.kind == TrackerCandidate then JoinTracker(best.objectKey)
        else Create
  {
  }

  /** The object-tracker dict of the association state is well formed: every key was
      minted by the counter and is listed once in the iteration order, which is
      minting order; no two keys share a tracker; every tracker has the configured type. */
  ghost predicate Registry(trackers: map<nat, ObjectTracker>, order: seq<nat>, count: nat, trackerType: string) {
    (forall k :: k in trackers ==> k < count && trackers[k].trackerType == trackerType) &&
    (forall i :: 0 <= i < |order| ==> order[i] in trackers) &&
    (forall k :: k in trackers ==> k in order) &&
    (forall i, j :: 0 <= i < j < |order| ==> order[i] < order[j]) &&
    (forall k1, k2 :: k1 in trackers && k2 in trackers && k1 != k2 ==> trackers[k1] != trackers[k2])
  }

  /** Storing a new tracker under the counter's value and advancing the counter keeps
      the dict well formed. */
  lemma RegistryAdd(trackers: map<nat, ObjectTracker>, order: seq<nat>, count: nat, trackerType: string, t: ObjectTracker)
    requires Registry(trackers, order, count, trackerType)
    requires t.trackerType == trackerType && forall k :: k in trackers ==> trackers[k] != t
    ensures count !in trackers
    ensures Registry(trackers[count := t], order + [count], count + 1, trackerType)
  {
    var m, o := trackers[count := t], order + [count];
    forall i | 0 <= i < |o|
      ensures o[i] in m
    {
      if i < |order| {
        assert o[i] == order[i];
      }
    }
    forall k | k in m
      ensures k in o
    {
      if k != count {
        var i :| 0 <= i < |order| && order[i] == k;
        assert o[i] == k;
      } else {
        assert o[|order|] == k;
      }
    }
    forall i, j | 0 <= i < j < |o|
      ensures o[i] < o[j]
    {
      if j < |order| {
        assert o[i] == order[i] && o[j] == order[j];
      } else {
        assert o[i] == order[i] && order[i] in trackers;
      }
    }
  }

  /** The association state: object trackers by key, and the counter that mints keys. */
  class DataAssociation {
    const calibration: Cal3S2
    const iouThresh: real
    const objectLimit: int
    const trackerType: string
    var objectTrackers: map<nat, ObjectTracker>
    /** The keys of objectTrackers in insertion order, the order a Python dict iterates in. */
    var keyOrder: seq<nat>
    var objectCount: nat

    /** The dict, its iteration order and the counter are consistent. */
    ghost predicate Valid()
      reads this
    {
      Registry(objectTrackers, keyOrder, objectCount, trackerType)
    }

    /** DataAssociation.__init__: no trackers, and the counter at 0. */
    constructor (calibration: Cal3S2, iouThresh: real, objectLimit: int, trackerType: string)
      ensures Valid()
      ensures this.calibration == calibration && this.iouThresh == iouThresh
      ensures this.objectLimit == objectLimit && this.trackerType == trackerType
      ensures objectTrackers == map[] && keyOrder == [] && objectCount == 0
    {
      this.calibration := calibration;
      this.iouThresh := iouThresh;
      this.objectLimit := objectLimit;
      this.trackerType := trackerType;
      objectTrackers := map[];
      keyOrder := [];
      objectCount := 0;
    }

    /** The candidates of the live trackers listed in `order`, in that order. */
    function TrackerCandidates(order: seq<nat>, box: AlignedBox2, iou: IoU): (r: seq<Candidate>)
      requires forall i :: 0 <= i < |order| ==> order[i] in objectTrackers
      reads this, objectTrackers.Values
      ensures forall c :: c in r ==> c.kind == TrackerCandidate && c.objectKey in order
      ensures forall c :: c in r ==>
        objectTrackers[c.objectKey].alive && c.compatability == objectTrackers[c.objectKey].Compatability(box, iou).0
      ensures forall i :: 0 <= i < |order| && objectTrackers[order[i]].alive ==>
        Candidate(objectTrackers[order[i]].Compatability(box, iou).0, order[i], TrackerCandidate) in r
    {
      if order == [] then []
      else
        var key := order[|order| - 1];
        var t := objectTrackers[key];
        TrackerCandidates(order[..|order| - 1], box, iou) +
          (if t.alive then [Candidate(t.Compatability(box, iou).0, key, TrackerCandidate)] else [])
    }

    /** The full compatability list: map candidates, then tracker candidates. */
    function Candidates(entries: seq<MapEntry>, predict: BoxPredictor, box: AlignedBox2, iou: IoU): (r: Result<seq<Candidate>, QuadricProjectionException>)
      requires Valid()
      reads this, objectTrackers.Values
      ensures r.Failure? <==> MapCandidates(entries, predict, box, iou).Failure?
      ensures r.Success? ==> |r.value| >= |entries|
      ensures r.Success? ==> r.value[..|entries|] == MapCandidates(entries, predict, box, iou).value
      ensures r.Success? ==> forall i :: |entries| <= i < |r.value| ==> r.value[i].kind == TrackerCandidate
      ensures r.Success? ==> r.value[|entries|..] == TrackerCandidates(keyOrder, box, iou)
      ensures r.Success? ==> forall c :: c in r.value && c.kind == TrackerCandidate ==> c.objectKey in objectTrackers
    {
      match MapCandidates(entries, predict, box, iou)
      case Failure(e) => Failure(e)
      case Success(mc) => Success(mc + TrackerCandidates(keyOrder, box, iou))
    }

    /** The first loop of associate_detection: the map candidates, or the
        projection exception that escapes from it. */
    static method ComputeMapCandidates(entries: seq<MapEntry>, predict: BoxPredictor, box: AlignedBox2, iou: IoU)
      returns (r: Result<seq<Candidate>, QuadricProjectionException>)
      ensures r == MapCandidates(entries, predict, box, iou)
    {
      var compatabilities: seq<Candidate> := [];
      var i := 0;
      while i < |entries|
        invariant 0 <= i <= |entries|
        invariant MapCandidates(entries[..i], predict, box, iou) == Success(compatabilities)
      {
        var predicted := predict(entries[i].quadric);
        if predicted.Failure? {
          MapCandidatesFirstFailure(entries, i, predict, box, iou);
          return Failure(predicted.error);
        }
        compatabilities := compatabilities + [Candidate(iou(box, predicted.value), entries[i].objectKey, MapCandidate)];
        assert entries[..i + 1][..i] == entries[..i];
        i := i + 1;
      }
      assert entries[..|entries|] == entries;
      return Success(compatabilities);
    }

    /** The second loop of associate_detection: one candidate per live object
        tracker, in the dict's iteration order. */
    method ComputeTrackerCandidates(box: AlignedBox2, iou: IoU) returns (r: seq<Candidate>)
      requires Valid()
      ensures r == TrackerCandidates(keyOrder, box, iou)
    {
      r := [];
      var j := 0;
      while j < |keyOrder|
        invariant 0 <= j <= |keyOrder|
        invariant r == TrackerCandidates(keyOrder[..j], box, iou)
      {
        var key := keyOrder[j];
        var t := objectTrackers[key];
        if t.alive {
          var (comp, _) := t.Compatability(box, iou);
          r := r + [Candidate(comp, key, TrackerCandidate)];
        }
        assert keyOrder[..j + 1][..j] == keyOrder[..j];
        j := j + 1;
      }
      assert keyOrder[..|keyOrder|] == keyOrder;
    }

    /** Both loops of associate_detection: the compatability list, or the
        projection exception that escapes. */
    method ComputeCandidates(entries: seq<MapEntry>, predict: BoxPredictor, box: AlignedBox2, iou: IoU)
      returns (r: Result<seq<Candidate>, QuadricProjectionException>)
      requires Valid()
      ensures r == Candidates(entries, predict, box, iou)
    {
      var fromMap := ComputeMapCandidates(entries, predict, box, iou);
      if fromMap.Failure? {
        return Failure(fromMap.error);
      }
      var fromTrackers := ComputeTrackerCandidates(box, iou);
      return Success(fromMap.value + fromTrackers);
    }

    /** The tracker-hit branch: one more box tracker for the object under `key`. */
    method ExtendTracker(key: nat, box: AlignedBox2)
      requires Valid() && key in objectTrackers
      modifies objectTrackers[key]
      ensures objectTrackers[key].View() ==
        old(objectTrackers[key].View()).(trackers := old(objectTrackers[key].trackers) + [NewBoxTracker(box, trackerType)])
      ensures unchanged(objectTrackers.Values - {objectTrackers[key]})
    {
      objectTrackers[key].AddTracker(box);
    }

    /** The new-object branch: a fresh tracker stored under the next key from the counter. */
    method AddObject(box: AlignedBox2) returns (key: nat)
      requires Valid()
      modifies this
      ensures Valid()
      ensures key == old(objectCount) && key !in old(objectTrackers)
      ensures objectCount == old(objectCount) + 1
      ensures keyOrder == old(keyOrder) + [key]
      ensures key in objectTrackers && objectTrackers == old(objectTrackers)[key := objectTrackers[key]]
      ensures fresh(objectTrackers[key])
      ensures objectTrackers[key].View() == TrackerView([NewBoxTracker(box, trackerType)], [], true)
      ensures unchanged(old(objectTrackers.Values))
    {
      key := objectCount;
      var t := new ObjectTracker(box, trackerType);
      RegistryAdd(objectTrackers, keyOrder, objectCount, trackerType, t);
      objectCount := objectCount + 1;
      objectTrackers := objectTrackers[key := t];
      keyOrder := keyOrder + [key];
    }

    /** The second half of associate_detection: act on the compatability list `cs`
        (map candidates first, then tracker candidates of stored objects). */
    method Resolve(cs: seq<Candidate>, box: AlignedBox2) returns (key: nat, ghost d: Decision)
      requires Valid()
      requires forall c :: c in cs && c.kind == TrackerCandidate ==> c.objectKey in objectTrackers
      modifies this, objectTrackers.Values
      ensures Valid()
      ensures d == Decide(Success(cs), iouThresh)
      ensures d.JoinMap? ==> key == d.key && unchanged(this) && unchanged(objectTrackers.Values)
      ensures d.JoinTracker? ==>
        key == d.key && d.key in old(objectTrackers) && unchanged(this) &&
        objectTrackers[d.key].View() ==
          old(objectTrackers[d.key].View()).(trackers := old(objectTrackers[d.key].trackers) + [NewBoxTracker(box, trackerType)]) &&
        unchanged(objectTrackers.Values - {objectTrackers[d.key]})
      ensures d.Create? ==>
        key == old(objectCount) && key !in old(objectTrackers) &&
        objectCount == old(objectCount) + 1 &&
        keyOrder == old(keyOrder) + [key] &&
        key in objectTrackers && objectTrackers == old(objectTrackers)[key := objectTrackers[key]] &&
        fresh(objectTrackers[key]) &&
        objectTrackers[key].View() == TrackerView([NewBoxTracker(box, trackerType)], [], true) &&
        unchanged(old(objectTrackers.Values))
    {
      d := Decide(Success(cs), iouThresh);
      DecideByBest(cs, iouThresh);
      if |cs| > 0 {
        var best := cs[ArgMax(Compatabilities(cs))];
        if best.compatability >= iouThresh && best.kind == MapCandidate {
          return best.objectKey, d;
        } else if best.compatability >= iouThresh && best.kind == TrackerCandidate {
          ExtendTracker(best.objectKey, box);
          return best.objectKey, d;
        }
      }
      key := AddObject(box);
    }

    /** DataAssociation.associate_detection for a detection with box `box`, the map
        as `entries` and the current view folded into `predict`. Returns the key;
        `d` records the branch taken (map, tracker, new, or the escaping exception). */
    method AssociateDetection(box: AlignedBox2, entries: seq<MapEntry>, predict: BoxPredictor, iou: IoU)
      returns (r: Result<nat, QuadricProjectionException>, ghost d: Decision)
      requires Valid()
      modifies this, objectTrackers.Values
      ensures Valid()
      ensures d == Decide(old(Candidates(entries, predict, box, iou)), iouThresh)
      // a projection exception escapes before anything changes
      ensures d.Escape? ==> r == Failure(d.error) && unchanged(this) && unchanged(objectTrackers.Values)
      // a map hit changes nothing
      ensures d.JoinMap? ==> r == Success(d.key) && unchanged(this) && unchanged(objectTrackers.Values)
      // a tracker hit adds one box tracker to that object and changes nothing else
      ensures d.JoinTracker? ==>
        r == Success(d.key) && d.key in old(objectTrackers) && unchanged(this) &&
        objectTrackers[d.key].View() ==
          old(objectTrackers[d.key].View()).(trackers := old(objectTrackers[d.key].trackers) + [NewBoxTracker(box, trackerType)]) &&
        unchanged(objectTrackers.Values - {objectTrackers[d.key]})
      // otherwise a new object under the next key, overwriting nothing
      ensures d.Create? ==>
        r == Success(old(objectCount)) && old(objectCount) !in old(objectTrackers) &&
        objectCount == old(objectCount) + 1 &&
        keyOrder == old(keyOrder) + [old(objectCount)] &&
        old(objectCount) in objectTrackers &&
        objectTrackers == old(objectTrackers)[old(objectCount) := objectTrackers[old(objectCount)]] &&
        fresh(objectTrackers[old(objectCount)]) &&
        objectTrackers[old(objectCount)].View() == TrackerView([NewBoxTracker(box, trackerType)], [], true) &&
        unchanged(old(objectTrackers.Values))
    {
      ghost var before := Candidates(entries, predict, box, iou);
      var candidates := ComputeCandidates(entries, predict, box, iou);
      assert candidates == before;
      if candidates.Failure? {
        return Failure(candidates.error), Decide(before, iouThresh);
      }
      var key;
      key, d := Resolve(candidates.value, box);
      r := Success(key);
    }
  }
}

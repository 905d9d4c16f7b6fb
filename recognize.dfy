/** The verdict of the recognition screen (RecognizeScreen.tsx): every tool
    of the order's set is looked up among the detected boxes by name; a tool
    without a box rejects the kit, a tool whose box has confidence below 0.7
    sends it to manual review, and the first tool with a problem decides. */
module Recognize {
  import opened Wrappers
  import opened Domain
  import opened Text

  const ConfidenceThreshold: real := 0.7

  /** bboxes.find(b => b.class_name === name): the first box with that name. */
  function FindByName(bboxes: seq<BBox>, name: string): (r: Option<BBox>)
    ensures r.None? <==> forall i :: 0 <= i < |bboxes| ==> bboxes[i].className != name
    ensures r.Some? ==> exists i :: 0 <= i < |bboxes| && bboxes[i] == r.value && r.value.className == name &&
                                    forall j :: 0 <= j < i ==> bboxes[j].className != name
  {
    if bboxes == [] then None
    else if bboxes[0].className == name then Some(bboxes[0])
    else
      var r := FindByName(bboxes[1..], name);
      assert forall i :: 1 <= i < |bboxes| ==> bboxes[i] == bboxes[1..][i - 1];
      if r.Some? then
        assert exists i :: 1 <= i < |bboxes| && bboxes[i] == r.value && r.value.className == name &&
                           forall j :: 0 <= j < i ==> bboxes[j].className != name by {
          var k :| 0 <= k < |bboxes[1..]| && bboxes[1..][k] == r.value &&
            forall j :: 0 <= j < k ==> bboxes[1..][j].className != name;
          assert bboxes[k + 1] == r.value;
          assert forall j :: 1 <= j < k + 1 ==> bboxes[j] == bboxes[1..][j - 1];
        }
        r
      else r
  }

  /** The class getItemStyle gives a tool of the set. */
  datatype ItemStyle = Missing | LowConfidence | Recognized

  function ItemStyleOf(bboxes: seq<BBox>, name: string): ItemStyle {
    var bbox := FindByName(bboxes, name);
    if bbox.None? then Missing
    else if bbox.value.confidence < ConfidenceThreshold then LowConfidence
    else Recognized
  }

  /** The CSS class names of the three styles. */
  function StyleClass(s: ItemStyle): string {
    match s
    case Missing => "item missing"
    case LowConfidence => "item low-confidence"
    case Recognized => "item recognized"
  }

  datatype Status = Ok | Rejected | ManualReview

  /** The status text shown in the header. */
  function StatusText(s: Status): string {
    match s
    case Ok => "OK"
    case Rejected => "Отклонено"
    case ManualReview => "Ручная проверка"
  }

  /** The status computed by the loop over originalSet, returning at the first
      tool with a problem. */
  function StatusOf(bboxes: seq<BBox>, originalSet: seq<string>): Status {
    if originalSet == [] then Status.Ok
    else
      var bbox := FindByName(bboxes, originalSet[0]);
      if bbox.None? then Rejected
      else if bbox.value.confidence < ConfidenceThreshold then ManualReview
      else StatusOf(bboxes, originalSet[1..])
  }

  /** A tool of the set whose style is not 'recognized'. */
  predicate Problem(bboxes: seq<BBox>, name: string) {
    ItemStyleOf(bboxes, name) != Recognized
  }

  /** The status is decided by the first tool whose style is not 'recognized':
      'missing' gives Rejected, 'low-confidence' gives ManualReview, and a set
      without such a tool gives Ok. */
  lemma {:induction false} StatusIsFirstProblem(bboxes: seq<BBox>, originalSet: seq<string>)
    ensures StatusOf(bboxes, originalSet) == Status.Ok <==>
      forall i :: 0 <= i < |originalSet| ==> ItemStyleOf(bboxes, originalSet[i]) == Recognized
    ensures forall k :: (0 <= k < |originalSet| && Problem(bboxes, originalSet[k]) &&
                         (forall i :: 0 <= i < k ==> !Problem(bboxes, originalSet[i]))) ==>
        StatusOf(bboxes, originalSet) == (if ItemStyleOf(bboxes, originalSet[k]) == Missing then Rejected else ManualReview)
  {
    if originalSet != [] {
      var rest := originalSet[1..];
      StatusIsFirstProblem(bboxes, rest);
      assert forall i :: 1 <= i < |originalSet| ==> originalSet[i] == rest[i - 1];
      forall k | 0 <= k < |originalSet| && Problem(bboxes, originalSet[k]) &&
        (forall i :: 0 <= i < k ==> !Problem(bboxes, originalSet[i]))
        ensures StatusOf(bboxes, originalSet) ==
          (if ItemStyleOf(bboxes, originalSet[k]) == Missing then Rejected else ManualReview)
      {
        if k > 0 {
          assert !Problem(bboxes, originalSet[0]);
          assert Problem(bboxes, rest[k - 1]);
          assert forall i :: 0 <= i < k - 1 ==> !Problem(bboxes, rest[i]) by {
            assert forall i :: 0 <= i < k - 1 ==> rest[i] == originalSet[i + 1];
          }
        }
      }
    }
  }

  /** 'OK' exactly when every tool of the set has a box named after it whose
      confidence is at least 0.7; an empty set is always 'OK'. */
  lemma StatusOkIff(bboxes: seq<BBox>, originalSet: seq<string>)
    ensures StatusOf(bboxes, originalSet) == Status.Ok <==>
      forall i :: 0 <= i < |originalSet| ==>
        FindByName(bboxes, originalSet[i]).Some? &&
        FindByName(bboxes, originalSet[i]).value.confidence >= ConfidenceThreshold
    ensures StatusOf(bboxes, []) == Status.Ok
  {
    StatusIsFirstProblem(bboxes, originalSet);
  }

  /** A tool with a low-confidence box ahead of a tool without any box: the
      earlier tool decides, and the kit goes to manual review. */
  lemma LowConfidenceBeforeMissing(bboxes: seq<BBox>, low: string, missing: string)
    requires FindByName(bboxes, low).Some? && FindByName(bboxes, low).value.confidence < ConfidenceThreshold
    requires FindByName(bboxes, missing).None?
    ensures StatusOf(bboxes, [low, missing]) == ManualReview
    ensures StatusOf(bboxes, [missing, low]) == Rejected
  {
  }

  /** Only the first box with a name counts: boxes after it are ignored, even
      with a higher confidence. */
  lemma FirstMatchWins(before: seq<BBox>, b: BBox, after: seq<BBox>, name: string)
    requires b.className == name
    requires forall i :: 0 <= i < |before| ==> before[i].className != name
    ensures FindByName(before + [b] + after, name) == Some(b)
    ensures ItemStyleOf(before + [b] + after, name) == ItemStyleOf(before + [b], name)
  {
    var all := before + [b] + after;
    assert all[|before|] == b;
    assert (before + [b])[|before|] == b;
  }

  /** Only a confidence below 0.7 is low: exactly 0.7 is recognized. */
  lemma ThresholdIsInclusive(b: BBox, bboxes: seq<BBox>)
    requires b.confidence == ConfidenceThreshold
    ensures ItemStyleOf([b] + bboxes, b.className) == Recognized
  {
  }

  const NotFoundHint := "Некоторые инструменты не найдены"
  const LowConfidenceHint := "Уверенность некоторых инструментов ниже порога, требуется ручная проверка"

  /** The hint under the list, read off the status text: none for 'OK', the
      'not found' text for 'Отклонено' and the low-confidence text otherwise. */
  function Hint(status: Status): Option<string> {
    if StatusText(status) == "OK" then None
    else if StatusText(status) == "Отклонено" then Some(NotFoundHint)
    else Some(LowConfidenceHint)
  }

  /** The three status texts are distinct, so each status has its own hint. */
  lemma HintOfStatus(status: Status)
    ensures Hint(status) == match status
      case Ok => None
      case Rejected => Some(NotFoundHint)
      case ManualReview => Some(LowConfidenceHint)
  {
    assert StatusText(Rejected) != "OK" && StatusText(ManualReview) != "OK" && StatusText(ManualReview) != "Отклонено";
  }

  /** A hint is shown exactly when some tool of the set is not recognized, and
      it says tools were not found exactly when the first such tool has no box. */
  lemma HintShownIffProblem(bboxes: seq<BBox>, originalSet: seq<string>)
    ensures Hint(StatusOf(bboxes, originalSet)).Some? <==>
      exists i :: 0 <= i < |originalSet| && Problem(bboxes, originalSet[i])
    ensures forall k :: (0 <= k < |originalSet| && Problem(bboxes, originalSet[k]) &&
                         (forall i :: 0 <= i < k ==> !Problem(bboxes, originalSet[i]))) ==>
      Hint(StatusOf(bboxes, originalSet)) ==
        if ItemStyleOf(bboxes, originalSet[k]) == Missing then Some(NotFoundHint) else Some(LowConfidenceHint)
  {
    StatusIsFirstProblem(bboxes, originalSet);
    HintOfStatus(StatusOf(bboxes, originalSet));
  }

  /** Math.round(x): the nearest integer, halves rounded up. */
  function Round(x: real): (n: int)
    ensures n as real - 0.5 <= x < n as real + 0.5
  {
    (x + 0.5).Floor
  }

  /** The text shown next to a tool for the box found for it: 'не найдено'
      without a box, else the confidence as a whole percent followed by '%';
      for a confidence in [0, 1] the digits read back as a number in 0..100
      within half a percent of it. */
  function ConfidenceText(bbox: Option<BBox>): (t: string)
    ensures bbox.None? ==> t == "не найдено"
    ensures bbox.Some? && 0.0 <= bbox.value.confidence <= 1.0 ==>
      |t| >= 2 && t[|t| - 1] == '%' && AllDigits(t[..|t| - 1]) &&
      0 <= DigitsValue(t[..|t| - 1]) <= 100 && DigitsValue(t[..|t| - 1]) == Round(bbox.value.confidence * 100.0)
  {
    match bbox
    case None => "не найдено"
    case Some(b) =>
      var n := Round(b.confidence * 100.0);
      PercentInRange(b.confidence);
      var t := IntToString(n) + "%";
      assert 0.0 <= b.confidence <= 1.0 ==> t[..|t| - 1] == NatToString(n);
      t
  }

  /** A confidence in [0, 1] rounds to a whole percent in 0..100. */
  lemma PercentInRange(c: real)
    ensures 0.0 <= c <= 1.0 ==> 0 <= Round(c * 100.0) <= 100
  {
    var n := Round(c * 100.0);
    if 0.0 <= c <= 1.0 {
      assert n as real <= c * 100.0 + 0.5 <= 100.5;
      assert n as real > c * 100.0 - 0.5 >= -0.5;
    }
  }
}

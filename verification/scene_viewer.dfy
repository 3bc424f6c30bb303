/** The hazard-hunt page (src/pages/SceneViewer.tsx): a scene looked up by id,
    a list of identified hazard ids, a results flag and a completion flag,
    changed by three handlers (identify, submit, reset). */
module SceneViewer {
  import opened Types
  import opened Seqs
  import GameResults

  /** `mockScenes.find(s => s.id === sceneId)`; None is the "Scene Not Found" page. */
  function FindScene(scenes: seq<Scene>, sceneId: string): (r: Option<Scene>)
    ensures r.None? <==> forall i :: 0 <= i < |scenes| ==> scenes[i].id != sceneId
    ensures r.Some? ==> r.value.id == sceneId && r.value in scenes
  {
    Find(scenes, (s: Scene) => s.id == sceneId)
  }

  /** The ids of a scene's hazards, as a set. */
  function HazardIds(hazards: seq<Hazard>): set<string> {
    set h | h in hazards :: h.id
  }

  /** No two hazards of the scene share an id. */
  predicate DistinctIds(hazards: seq<Hazard>) {
    forall i, j :: 0 <= i < j < |hazards| ==> hazards[i].id != hazards[j].id
  }

  predicate NoDuplicates<T(==)>(s: seq<T>) {
    forall i, j :: 0 <= i < j < |s| ==> s[i] != s[j]
  }

  /** The page's state: `identifiedHazards`, `showResults`, `isComplete`. */
  datatype Session = Session(identified: seq<string>, showResults: bool, isComplete: bool)

  const Initial := Session([], false, false)

  /** `handleHazardClick(hazardId)` in a scene of `hazardCount` hazards. */
  function Click(s: Session, hazardCount: nat, hazardId: string): (r: Session)
    ensures r.showResults == s.showResults
    ensures s.identified <= r.identified && |r.identified| <= |s.identified| + 1
    ensures NoDuplicates(s.identified) ==> NoDuplicates(r.identified)
    ensures !s.isComplete ==> hazardId in r.identified
    ensures forall x :: x in r.identified <==> x in s.identified || (x == hazardId && !s.isComplete)
  {
    if s.isComplete then s
    else if hazardId in s.identified then s
    else
      var next := s.identified + [hazardId];
      Session(next, s.showResults, |next| == hazardCount)
  }

  /** Identifying an id already in the list changes nothing. */
  lemma ClickKnownIsNoOp(s: Session, hazardCount: nat, hazardId: string)
    requires hazardId in s.identified
    ensures Click(s, hazardCount, hazardId) == s
  {
  }

  /** Once the scene is complete, identifying anything changes nothing. */
  lemma ClickAfterCompleteIsNoOp(s: Session, hazardCount: nat, hazardId: string)
    requires s.isComplete
    ensures Click(s, hazardCount, hazardId) == s
  {
  }

  /** Identifying twice is identifying once. */
  lemma ClickIdempotent(s: Session, hazardCount: nat, hazardId: string)
    ensures Click(Click(s, hazardCount, hazardId), hazardCount, hazardId) == Click(s, hazardCount, hazardId)
  {
  }

  /** A new id is appended at the end, and completion is decided by the new length. */
  lemma ClickNewAppends(s: Session, hazardCount: nat, hazardId: string)
    requires !s.isComplete && hazardId !in s.identified
    ensures Click(s, hazardCount, hazardId).identified == s.identified + [hazardId]
    ensures Click(s, hazardCount, hazardId).isComplete <==> |s.identified| + 1 == hazardCount
  {
  }

  /** The user actions of the page. */
  datatype Event = Identify(hazardId: string) | Submit | Reset

  /** One handler: `handleHazardClick`, `handleSubmit` or `handleReset`. */
  function Step(s: Session, hazardCount: nat, e: Event): (r: Session)
    ensures e.Reset? ==> r == Initial
    ensures !e.Reset? ==> s.identified <= r.identified
    ensures !e.Reset? && s.showResults ==> r.showResults
  {
    match e
    case Identify(id) => Click(s, hazardCount, id)
    case Submit => s.(showResults := true)
    case Reset => Initial
  }

  /** The state after a sequence of user actions. */
  function Run(s: Session, hazardCount: nat, events: seq<Event>): Session
    decreases |events|
  {
    if events == [] then s else Run(Step(s, hazardCount, events[0]), hazardCount, events[1..])
  }

  /** The consistency of a session: no id twice; complete only with as many
      ids as hazards; in a non-empty scene never more ids than hazards, and
      complete as soon as there are as many. */
  predicate Inv(s: Session, hazardCount: nat) {
    && NoDuplicates(s.identified)
    && (s.isComplete ==> |s.identified| == hazardCount)
    && (hazardCount > 0 ==> |s.identified| <= hazardCount && (|s.identified| == hazardCount ==> s.isComplete))
  }

  lemma StepPreservesInv(s: Session, hazardCount: nat, e: Event)
    requires Inv(s, hazardCount)
    ensures Inv(Step(s, hazardCount, e), hazardCount)
  {
  }

  /** Every sequence of actions from a consistent state keeps it consistent. */
  lemma {:induction false} RunPreservesInv(s: Session, hazardCount: nat, events: seq<Event>)
    requires Inv(s, hazardCount)
    ensures Inv(Run(s, hazardCount, events), hazardCount)
    decreases |events|
  {
    if events != [] {
      StepPreservesInv(s, hazardCount, events[0]);
      RunPreservesInv(Step(s, hazardCount, events[0]), hazardCount, events[1..]);
    }
  }

  /** Only the scene's hotspots call the identify handler. */
  predicate ClicksInScene(events: seq<Event>, ids: set<string>) {
    forall k :: 0 <= k < |events| && events[k].Identify? ==> events[k].hazardId in ids
  }

  /** Clicking only scene hotspots leaves only scene hazard ids in the list. */
  lemma {:induction false} RunStaysInScene(s: Session, hazardCount: nat, events: seq<Event>, ids: set<string>)
    requires forall x :: x in s.identified ==> x in ids
    requires ClicksInScene(events, ids)
    ensures forall x :: x in Run(s, hazardCount, events).identified ==> x in ids
    decreases |events|
  {
    if events != [] {
      RunStaysInScene(Step(s, hazardCount, events[0]), hazardCount, events[1..], ids);
    }
  }

  /** The submit button is enabled only once something is identified. */
  predicate SubmitEnabled(s: Session) {
    |s.identified| > 0
  }

  /** Identifying any hazard enables the submit button, and only a reset
      disables it again. */
  lemma SubmitStaysEnabled(s: Session, hazardCount: nat, e: Event)
    ensures e.Identify? && !s.isComplete ==> SubmitEnabled(Step(s, hazardCount, e))
    ensures SubmitEnabled(s) && !SubmitEnabled(Step(s, hazardCount, e)) ==> e.Reset?
  {
  }

  /** Submits that go through the enabled button. */
  predicate SubmitsWhenEnabled(s: Session, hazardCount: nat, events: seq<Event>)
    decreases |events|
  {
    events == [] ||
    ((events[0].Submit? ==> SubmitEnabled(s)) &&
     SubmitsWhenEnabled(Step(s, hazardCount, events[0]), hazardCount, events[1..]))
  }

  /** Results are only ever shown for a non-empty list when the button gates submit. */
  lemma {:induction false} ResultsOnlyAfterSomeFound(s: Session, hazardCount: nat, events: seq<Event>)
    requires s.showResults ==> |s.identified| > 0
    requires SubmitsWhenEnabled(s, hazardCount, events)
    ensures Run(s, hazardCount, events).showResults ==> |Run(s, hazardCount, events).identified| > 0
    decreases |events|
  {
    if events != [] {
      ResultsOnlyAfterSomeFound(Step(s, hazardCount, events[0]), hazardCount, events[1..]);
    }
  }

  /** A sequence without repetitions has as many distinct elements as entries. */
  lemma {:induction false} DistinctCard<T>(s: seq<T>)
    requires NoDuplicates(s)
    ensures |set x | x in s| == |s|
  {
    if s != [] {
      DistinctCard(s[1..]);
      assert (set x | x in s) == {s[0]} + (set x | x in s[1..]);
      assert s[0] !in (set x | x in s[1..]);
    }
  }

  /** A subset is no larger, and a subset of equal size is the whole set. */
  lemma {:induction false} SubsetCard<T>(a: set<T>, b: set<T>)
    requires a <= b
    ensures |a| <= |b|
    ensures |a| == |b| ==> a == b
    decreases b
  {
    if b != {} {
      var x :| x in b;
      SubsetCard(a - {x}, b - {x});
      assert |b| == |b - {x}| + 1;
      if x in a {
        assert a == (a - {x}) + {x};
        assert |a| == |a - {x}| + 1;
      } else {
        assert a - {x} == a;
      }
    }
  }

  /** The scene's hazard ids, when distinct, are as many as its hazards. */
  lemma {:induction false} HazardIdsCard(hazards: seq<Hazard>)
    requires DistinctIds(hazards)
    ensures |HazardIds(hazards)| == |hazards|
  {
    if hazards != [] {
      HazardIdsCard(hazards[1..]);
      assert HazardIds(hazards) == {hazards[0].id} + HazardIds(hazards[1..]);
      assert hazards[0].id !in HazardIds(hazards[1..]);
    }
  }

  /** Every hazard of the scene has been identified. */
  predicate AllFound(s: Session, hazards: seq<Hazard>) {
    forall h :: h in hazards ==> h.id in s.identified
  }

  /** With only scene ids clickable, the list is as long as the scene's
      hazard list exactly when every hazard has been found. */
  lemma LengthIsCountIffAllFound(s: Session, hazards: seq<Hazard>)
    requires NoDuplicates(s.identified) && DistinctIds(hazards)
    requires forall x :: x in s.identified ==> x in HazardIds(hazards)
    ensures |s.identified| == |hazards| <==> AllFound(s, hazards)
  {
    var found := set x | x in s.identified;
    DistinctCard(s.identified);
    HazardIdsCard(hazards);
    SubsetCard(found, HazardIds(hazards));
    if AllFound(s, hazards) {
      assert HazardIds(hazards) <= found;
      assert found == HazardIds(hazards);
    }
    if |s.identified| == |hazards| {
      assert found == HazardIds(hazards);
      forall h | h in hazards
        ensures h.id in s.identified
      {
        assert h.id in HazardIds(hazards);
      }
    }
  }

  /** In a consistent session whose list holds only scene ids, the page is
      complete exactly when every hazard has been found. */
  lemma CompleteIffAllFound(s: Session, hazards: seq<Hazard>)
    requires Inv(s, |hazards|) && |hazards| > 0 && DistinctIds(hazards)
    requires forall x :: x in s.identified ==> x in HazardIds(hazards)
    ensures s.isComplete <==> AllFound(s, hazards)
  {
    LengthIsCountIffAllFound(s, hazards);
  }

  /** The displayed accuracy is 100% exactly when every hazard has been found
      (for scenes of fewer than 200 hazards). */
  lemma AccuracyFullIffAllFound(s: Session, hazards: seq<Hazard>)
    requires Inv(s, |hazards|) && 0 < |hazards| < 200 && DistinctIds(hazards)
    requires forall x :: x in s.identified ==> x in HazardIds(hazards)
    ensures GameResults.Accuracy(|s.identified|, |hazards|) <= 100
    ensures GameResults.Accuracy(|s.identified|, |hazards|) == 100 <==> AllFound(s, hazards)
  {
    LengthIsCountIffAllFound(s, hazards);
  }

  /** `getSeverityColor`: the badge colour of each severity. */
  function SeverityColor(severity: Severity): (c: string)
    ensures severity == Critical ==> c == "bg-destructive"
    ensures c in {"bg-destructive", "bg-accent", "bg-warning", "bg-success"}
  {
    match severity
    case Critical => "bg-destructive"
    case High => "bg-accent"
    case Medium => "bg-warning"
    case Low => "bg-success"
  }

  /** Different severities get different badge colours. */
  lemma SeverityColorInjective(s1: Severity, s2: Severity)
    requires s1 != s2
    ensures SeverityColor(s1) != SeverityColor(s2)
  {
  }

  /** The page component with its three state fields; `hazards` is the
      scene's hazard list, fixed while the page is shown. */
  class HazardHuntPage {
    const hazards: seq<Hazard>
    var identifiedHazards: seq<string>
    var showResults: bool
    var isComplete: bool

    function State(): Session
      reads this
    {
      Session(identifiedHazards, showResults, isComplete)
    }

    ghost predicate Valid()
      reads this
    {
      Inv(State(), |hazards|)
    }

    constructor (scene: Scene)
      ensures Valid() && hazards == scene.hazards && State() == Initial
    {
      hazards := scene.hazards;
      identifiedHazards := [];
      showResults := false;
      isComplete := false;
    }

    method HandleHazardClick(hazardId: string)
      requires Valid()
      modifies this
      ensures Valid()
      ensures State() == Click(old(State()), |hazards|, hazardId)
    {
      if isComplete {
        return;
      }
      if hazardId !in identifiedHazards {
        var newIdentified := identifiedHazards + [hazardId];
        identifiedHazards := newIdentified;
        if |newIdentified| == |hazards| {
          isComplete := true;
        }
      }
    }

    method HandleSubmit()
      requires Valid()
      modifies this
      ensures Valid()
      ensures State() == old(State()).(showResults := true)
    {
      showResults := true;
    }

    method HandleReset()
      requires Valid()
      modifies this
      ensures Valid()
      ensures State() == Initial
    {
      identifiedHazards := [];
      showResults := false;
      isComplete := false;
    }

    /** `accuracy`, shown once results are requested. */
    function Accuracy(): (r: nat)
      reads this
      requires Valid() && |hazards| > 0
      ensures 2 * |hazards| * r <= 200 * |identifiedHazards| + |hazards| < 2 * |hazards| * (r + 1)
      ensures r <= 100
    {
      GameResults.Accuracy(|identifiedHazards|, |hazards|)
    }
  }
}

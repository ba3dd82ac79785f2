/**
 The list of per-label confidence readings the game displays, the
 simulated classifier refresh that replaces every confidence, and the
 first-match lookup of a label's reading.
 */
module Readings {

  import opened Emotions

  datatype Option<T> = None | Some(value: T)

  /** One label's current confidence. */
  datatype Reading = Reading(emotion: Emotion, confidence: real)

  /** The label order of the reading list; it differs from the draw order. */
  const ReadingOrder: seq<Emotion> := [Happy, Fear, Disgust, Sad, Angry, Surprised, Neutral]

  /** The reading list before the first refresh: every confidence is 0. */
  const InitialReadings: seq<Reading> := [
    Reading(Happy, 0.0),
    Reading(Fear, 0.0),
    Reading(Disgust, 0.0),
    Reading(Sad, 0.0),
    Reading(Angry, 0.0),
    Reading(Surprised, 0.0),
    Reading(Neutral, 0.0)
  ]

  /** Position of a label in the reading list. */
  function ReadingPosition(e: Emotion): (i: nat)
    ensures i < |ReadingOrder| && ReadingOrder[i] == e
  {
    match e
    case Happy => 0
    case Fear => 1
    case Disgust => 2
    case Sad => 3
    case Angry => 4
    case Surprised => 5
    case Neutral => 6
  }

  /** The labels of a reading list, in list order. */
  function Labels(rs: seq<Reading>): (ls: seq<Emotion>)
    ensures |ls| == |rs|
    ensures forall i :: 0 <= i < |rs| ==> ls[i] == rs[i].emotion
  {
    if rs == [] then [] else [rs[0].emotion] + Labels(rs[1..])
  }

  /** Every confidence of the list lies in [0, 1). */
  predicate AllInUnit(rs: seq<Reading>) {
    forall i :: 0 <= i < |rs| ==> InUnit(rs[i].confidence)
  }

  /**
   The simulated classifier tick: each reading keeps its label and takes
   the next random draw, `draws[i]` for the reading at position `i`, as
   its new confidence.
   */
  function Refresh(rs: seq<Reading>, draws: seq<real>): (out: seq<Reading>)
    requires |draws| == |rs|
    ensures |out| == |rs|
    ensures forall i :: 0 <= i < |rs| ==> out[i].emotion == rs[i].emotion
    ensures forall i :: 0 <= i < |rs| ==> out[i].confidence == draws[i]
  {
    if rs == [] then []
    else [Reading(rs[0].emotion, draws[0])] + Refresh(rs[1..], draws[1..])
  }

  /** The confidence of the first reading carrying label `e`, if any does. */
  function Find(rs: seq<Reading>, e: Emotion): (o: Option<real>)
    ensures o.None? <==> forall i :: 0 <= i < |rs| ==> rs[i].emotion != e
    ensures o.Some? ==>
      exists i :: 0 <= i < |rs| && rs[i] == Reading(e, o.value) &&
        forall j :: 0 <= j < i ==> rs[j].emotion != e
  {
    if rs == [] then None
    else if rs[0].emotion == e then Some(rs[0].confidence)
    else
      var o := Find(rs[1..], e);
      if o.Some? then
        var i :| 0 <= i < |rs[1..]| && rs[1..][i] == Reading(e, o.value) &&
          forall j :: 0 <= j < i ==> rs[1..][j].emotion != e;
        assert rs[i + 1] == Reading(e, o.value);
        o
      else
        o
  }

  /** A refresh keeps exactly the same labels in the same order. */
  lemma RefreshPreservesLabels(rs: seq<Reading>, draws: seq<real>)
    requires |draws| == |rs|
    ensures Labels(Refresh(rs, draws)) == Labels(rs)
  {
  }

  /** A refresh with draws from [0, 1) leaves every confidence in [0, 1). */
  lemma RefreshInUnit(rs: seq<Reading>, draws: seq<real>)
    requires |draws| == |rs|
    requires forall i :: 0 <= i < |draws| ==> InUnit(draws[i])
    ensures AllInUnit(Refresh(rs, draws))
  {
  }

  /** The initial list carries the seven labels in reading order. */
  lemma InitialLabels()
    ensures Labels(InitialReadings) == ReadingOrder
    ensures AllInUnit(InitialReadings)
  {
    var ls := Labels(InitialReadings);
    assert |ls| == |ReadingOrder| == 7;
    assert ls[0] == Happy && ls[1] == Fear && ls[2] == Disgust && ls[3] == Sad;
    assert ls[4] == Angry && ls[5] == Surprised && ls[6] == Neutral;
    assert forall i :: 0 <= i < 7 ==> ls[i] == ReadingOrder[i];
    assert ls == ReadingOrder;
  }

  /**
   On a list with the reading-order labels the lookup of any label
   succeeds, and finds the confidence at that label's fixed position.
   */
  lemma FindInReadingOrder(rs: seq<Reading>, e: Emotion)
    requires Labels(rs) == ReadingOrder
    ensures Find(rs, e) == Some(rs[ReadingPosition(e)].confidence)
  {
    var p := ReadingPosition(e);
    assert rs[p].emotion == e;
    var o := Find(rs, e);
    var i :| 0 <= i < |rs| && rs[i] == Reading(e, o.value) &&
      forall j :: 0 <= j < i ==> rs[j].emotion != e;
    assert Labels(rs)[i] == e;
    ReadingPositionUnique(i, e);
  }

  /** A label occurs only once in the reading order. */
  lemma ReadingPositionUnique(i: int, e: Emotion)
    requires 0 <= i < |ReadingOrder| && ReadingOrder[i] == e
    ensures i == ReadingPosition(e)
  {
    if i == 0 {} else if i == 1 {} else if i == 2 {} else if i == 3 {}
    else if i == 4 {} else if i == 5 {} else {}
  }

  /** After a refresh, the target's confidence is the draw at the target's position. */
  lemma FindAfterRefresh(rs: seq<Reading>, draws: seq<real>, e: Emotion)
    requires |draws| == |rs|
    requires Labels(rs) == ReadingOrder
    ensures Find(Refresh(rs, draws), e) == Some(draws[ReadingPosition(e)])
  {
    RefreshPreservesLabels(rs, draws);
    FindInReadingOrder(Refresh(rs, draws), e);
  }
}

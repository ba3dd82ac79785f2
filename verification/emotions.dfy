/**
 The closed set of seven emotion labels the game works with, the uniform
 draw that picks a target label, and the two pure display helpers: the
 glyph shown for a label and the colour band of a confidence bar.
 */
module Emotions {

  datatype Emotion = Happy | Sad | Angry | Surprised | Neutral | Fear | Disgust

  /** The label list a target is drawn from, in the order the draw indexes it. */
  const DrawOrder: seq<Emotion> := [Happy, Sad, Angry, Surprised, Neutral, Fear, Disgust]

  /** The real interval a uniform random draw lies in: [0, 1). */
  predicate InUnit(r: real) {
    0.0 <= r < 1.0
  }

  /** Position of a label in the draw list. */
  function DrawPosition(e: Emotion): (i: nat)
    ensures i < |DrawOrder| && DrawOrder[i] == e
  {
    match e
    case Happy => 0
    case Sad => 1
    case Angry => 2
    case Surprised => 3
    case Neutral => 4
    case Fear => 5
    case Disgust => 6
  }

  /** The index `floor(r * 7)` chosen for a uniform draw `r`; always a valid index. */
  function DrawIndex(r: real): (i: int)
    requires InUnit(r)
    ensures 0 <= i < |DrawOrder|
  {
    (r * |DrawOrder| as real).Floor
  }

  /** The target label picked by a uniform draw `r`. */
  function Draw(r: real): (e: Emotion)
    requires InUnit(r)
    ensures DrawPosition(e) == DrawIndex(r)
  {
    DrawOrder[DrawIndex(r)]
  }

  /** Each index owns exactly one seventh of the unit interval: the draw is uniform. */
  lemma DrawIndexInterval(r: real, i: int)
    requires InUnit(r)
    requires 0 <= i < |DrawOrder|
    ensures DrawIndex(r) == i <==> i as real / 7.0 <= r < (i + 1) as real / 7.0
  {
    var k := DrawIndex(r);
    assert k as real <= r * 7.0 < k as real + 1.0;
    if k < i {
      assert (k + 1) as real <= i as real;
    } else if k > i {
      assert (i + 1) as real <= k as real;
    }
  }

  /** A draw picks label `e` exactly when it lies in `e`'s seventh of the unit interval. */
  lemma DrawSelects(r: real, e: Emotion)
    requires InUnit(r)
    ensures Draw(r) == e <==>
      DrawPosition(e) as real / 7.0 <= r < (DrawPosition(e) + 1) as real / 7.0
  {
    DrawIndexInterval(r, DrawPosition(e));
    if Draw(r) != e {
      assert DrawOrder[DrawIndex(r)] != DrawOrder[DrawPosition(e)];
    }
  }

  /** Every one of the seven labels can come out of the draw. */
  lemma EveryLabelDrawable(e: Emotion)
    ensures exists r :: InUnit(r) && Draw(r) == e
  {
    var i := DrawPosition(e);
    var r := i as real / 7.0;
    DrawIndexInterval(r, i);
    assert Draw(r) == e;
  }

  /** The label as the string the glyph dictionary is keyed by. */
  function Name(e: Emotion): string {
    match e
    case Happy => "Happy"
    case Sad => "Sad"
    case Angry => "Angry"
    case Surprised => "Surprised"
    case Neutral => "Neutral"
    case Fear => "Fear"
    case Disgust => "Disgust"
  }

  /** The neutral face, also used for any name the dictionary does not know. */
  const NeutralGlyph: string := "\U{1F610}"

  /** The emoji dictionary: one glyph per label name. */
  const Glyphs: map<string, string> := map[
    "Happy" := "\U{1F60A}",
    "Sad" := "\U{1F622}",
    "Angry" := "\U{1F620}",
    "Surprised" := "\U{1F62E}",
    "Neutral" := NeutralGlyph,
    "Fear" := "\U{1F62C}",
    "Disgust" := "\U{1F92E}"
  ]

  /** The glyph shown for a label name, falling back to the neutral face. */
  function EmojiFor(name: string): (g: string)
    ensures g in Glyphs.Values
    ensures name in Glyphs ==> g == Glyphs[name]
    ensures name !in Glyphs ==> g == NeutralGlyph
  {
    if name in Glyphs then Glyphs[name]
    else
      assert Glyphs["Neutral"] == NeutralGlyph;
      NeutralGlyph
  }

  /** Every label has its own dictionary entry, and no two labels share a glyph. */
  lemma GlyphsDistinguishLabels(e1: Emotion, e2: Emotion)
    ensures Name(e1) in Glyphs
    ensures EmojiFor(Name(e1)) == EmojiFor(Name(e2)) <==> e1 == e2
  {
  }

  /** A string that names no label is shown with the same glyph as Neutral. */
  lemma UnknownNameLooksNeutral(name: string)
    requires forall e: Emotion :: name != Name(e)
    ensures EmojiFor(name) == EmojiFor(Name(Neutral))
  {
    assert name != Name(Happy) && name != Name(Sad) && name != Name(Angry);
    assert name != Name(Surprised) && name != Name(Neutral);
    assert name != Name(Fear) && name != Name(Disgust);
  }

  /** The three colour classes of a confidence bar, from low to high. */
  datatype ColorClass = Gray400 | Yellow400 | Green500 {

    function CssClass(): string {
      match this
      case Gray400 => "bg-gray-400"
      case Yellow400 => "bg-yellow-400"
      case Green500 => "bg-green-500"
    }

    /** Position of the band on the low-to-high scale. */
    function Rank(): nat {
      match this
      case Gray400 => 0
      case Yellow400 => 1
      case Green500 => 2
    }
  }

  const LowBandLimit: real := 0.33
  const MidBandLimit: real := 0.66

  /** The colour band of a confidence: below 0.33, below 0.66, or the rest. */
  function ConfidenceColor(c: real): (k: ColorClass)
    ensures k == Gray400 <==> c < LowBandLimit
    ensures k == Yellow400 <==> LowBandLimit <= c < MidBandLimit
    ensures k == Green500 <==> MidBandLimit <= c
  {
    if c < LowBandLimit then Gray400
    else if c < MidBandLimit then Yellow400
    else Green500
  }

  /** A higher confidence never gets a lower band. */
  lemma ConfidenceColorMonotone(c1: real, c2: real)
    requires c1 <= c2
    ensures ConfidenceColor(c1).Rank() <= ConfidenceColor(c2).Rank()
  {
  }
}

/**
 Risk banding of a predicted AQI. The regression model that produces the value
 is outside the model: the predicted AQI is the input here.
 */
module Prediction {

  /** The four risk bands, from least to most severe. */
  datatype RiskBand = Good | Moderate | Unhealthy | Hazardous

  /** Position of a band on the severity scale. */
  function Severity(b: RiskBand): nat {
    match b
    case Good => 0
    case Moderate => 1
    case Unhealthy => 2
    case Hazardous => 3
  }

  /** The band a predicted AQI falls in; each upper bound is inclusive. */
  function Classify(aqi: real): (b: RiskBand)
    ensures b == Good <==> aqi <= 50.0
    ensures b == Moderate <==> 50.0 < aqi <= 100.0
    ensures b == Unhealthy <==> 100.0 < aqi <= 200.0
    ensures b == Hazardous <==> 200.0 < aqi
  {
    if aqi <= 50.0 then Good
    else if aqi <= 100.0 then Moderate
    else if aqi <= 200.0 then Unhealthy
    else Hazardous
  }

  /** The highest AQI a band admits; the most severe band has none. */
  function UpperBound(b: RiskBand): real
    requires b != Hazardous
  {
    match b
    case Good => 50.0
    case Moderate => 100.0
    case Unhealthy => 200.0
  }

  /** Classification picks the least severe band whose upper bound admits the
      value, and the most severe band only when no bound does. */
  lemma ClassifyIsFirstAdmitting(aqi: real, b: RiskBand)
    ensures Classify(aqi) == b <==>
      && (b != Hazardous ==> aqi <= UpperBound(b))
      && (forall c :: c != Hazardous && Severity(c) < Severity(b) ==> aqi > UpperBound(c))
  {
    if Classify(aqi) != b && b != Hazardous && aqi <= UpperBound(b) {
      var c := Classify(aqi);
      assert c != Hazardous && Severity(c) < Severity(b) && aqi <= UpperBound(c);
    }
    if Classify(aqi) != b && b == Hazardous {
      var c := Classify(aqi);
      assert c != Hazardous && Severity(c) < Severity(b) && aqi <= UpperBound(c);
    }
  }

  /** A higher AQI never lands in a less severe band. */
  lemma ClassifyMonotone(a1: real, a2: real)
    requires a1 <= a2
    ensures Severity(Classify(a1)) <= Severity(Classify(a2))
  {
  }

  /** The boundaries: 50 is GOOD and just above it MODERATE; 100 is MODERATE;
      200 is UNHEALTHY and just above it HAZARDOUS. */
  lemma ClassifyBoundaries()
    ensures Classify(50.0) == Good && Classify(50.01) == Moderate
    ensures Classify(100.0) == Moderate && Classify(100.01) == Unhealthy
    ensures Classify(200.0) == Unhealthy && Classify(200.01) == Hazardous
  {
  }

  /** The band name the page shows before the emoji. */
  function BandName(b: RiskBand): string {
    match b
    case Good => "GOOD"
    case Moderate => "MODERATE"
    case Unhealthy => "UNHEALTHY"
    case Hazardous => "HAZARDOUS"
  }

  /** The emoji each band's label ends with: smiling face, slightly smiling
      face, face with medical mask, and skull and crossbones with its emoji
      presentation selector. */
  function BandEmoji(b: RiskBand): string {
    match b
    case Good => "\U{1F60A}"
    case Moderate => "\U{1F642}"
    case Unhealthy => "\U{1F637}"
    case Hazardous => "\U{2620}\U{FE0F}"
  }

  /** The intended risk label: band name, a space, the band's emoji. */
  function RiskLabel(b: RiskBand): string {
    BandName(b) + " " + BandEmoji(b)
  }

  /** The risk label as the source spells it: the emoji's UTF-8 bytes were
      decoded as Windows-1252 and saved again, so each emoji reads as several
      Latin characters, and the skull's byte 0x8F, which Windows-1252 leaves
      undefined, is gone. */
  function RiskLabelAsWritten(b: RiskBand): string {
    match b
    case Good => "GOOD \U{00F0}\U{0178}\U{02DC}\U{0160}"
    case Moderate => "MODERATE \U{00F0}\U{0178}\U{2122}\U{201A}"
    case Unhealthy => "UNHEALTHY \U{00F0}\U{0178}\U{02DC}\U{00B7}"
    case Hazardous => "HAZARDOUS \U{00E2}\U{02DC}\U{00A0}\U{00EF}\U{00B8}"
  }

  /** Distinct bands carry distinct labels, and each label names its band. */
  lemma RiskLabelsDistinct(b1: RiskBand, b2: RiskBand)
    ensures RiskLabel(b1) == RiskLabel(b2) <==> b1 == b2
    ensures RiskLabel(b1)[..|BandName(b1)|] == BandName(b1)
  {
    if b1 != b2 {
      assert RiskLabel(b1)[0] != RiskLabel(b2)[0];
    }
  }

  /** The intended risk label for a predicted AQI: a band's label exactly when
      the value falls in that band. */
  function RiskOf(aqi: real): (shown: string)
    ensures forall b :: shown == RiskLabel(b) <==> Classify(aqi) == b
  {
    var b := Classify(aqi);
    assert forall c :: RiskLabel(b) == RiskLabel(c) ==> b == c by {
      forall c ensures RiskLabel(b) == RiskLabel(c) ==> b == c {
        RiskLabelsDistinct(b, c);
      }
    }
    RiskLabel(b)
  }

  /** Distinct bands carry distinct labels as the source spells them too. */
  lemma RiskLabelsAsWrittenDistinct(b1: RiskBand, b2: RiskBand)
    ensures RiskLabelAsWritten(b1) == RiskLabelAsWritten(b2) <==> b1 == b2
  {
    if b1 != b2 {
      assert RiskLabelAsWritten(b1)[0] != RiskLabelAsWritten(b2)[0];
    }
  }

  /** The risk label the prediction page shows for a predicted AQI, spelled as
      the source spells it: a band's label exactly when the value falls in that
      band. */
  function RiskOfAsWritten(aqi: real): (shown: string)
    ensures forall b :: shown == RiskLabelAsWritten(b) <==> Classify(aqi) == b
  {
    var b := Classify(aqi);
    assert forall c :: RiskLabelAsWritten(b) == RiskLabelAsWritten(c) ==> b == c by {
      forall c ensures RiskLabelAsWritten(b) == RiskLabelAsWritten(c) ==> b == c {
        RiskLabelsAsWrittenDistinct(b, c);
      }
    }
    RiskLabelAsWritten(b)
  }

  /** Every as-written label differs from the intended one: the part after the
      band name holds no emoji code point, only characters below U+2200. */
  lemma RiskLabelAsWrittenGarbled(b: RiskBand)
    ensures RiskLabelAsWritten(b) != RiskLabel(b)
    ensures RiskLabelAsWritten(b)[..|BandName(b)| + 1] == BandName(b) + " "
    ensures forall i :: |BandName(b)| < i < |RiskLabelAsWritten(b)| ==>
      RiskLabelAsWritten(b)[i] < '\U{2200}'
  {
    var n := |BandName(b)|;
    assert RiskLabelAsWritten(b)[n + 1] != RiskLabel(b)[n + 1];
  }
}

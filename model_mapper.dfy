/**
 * The measurement vector and its morph basis (`src/models/model-mapper.ts`).
 *
 * A host object is overlaid onto all-zero defaults (`Object.assign`) and then
 * projected to a fixed-order array of 49 numbers: 31 shape parameters, the
 * `male`/`female` blend and 16 indicator-disable flags. The deformation
 * channels of the avatar asset are addressed by position, so this order is
 * the contract between the host and the asset.
 */
module ModelMapper {

  /** The properties `ModelTargetMapper` declares, in declaration order. */
  datatype Field =
    Muscular
    | BodyFat
    | Skinny
    | NeckGirth
    | BaseNeckGirth
    | AcrossBackShoulderWidth
    | BreastSize
    | UnderBustGirth
    | WaistGirth
    | BellyWaistGirth
    | TopHipGirth
    | HipGirth
    | ThighGirthR
    | MidThighGirthR
    | KneeGirthR
    | CalfGirthR
    | UpperArmGirthR
    | ForearmGirthR
    | WristGirthR
    | ShoulderToElbowR
    | ForearmLength
    | TopToBackNeck
    | BackNeckToBust
    | BustToWaist
    | WaistToBellyWaist
    | BellyWaistToTopHip
    | TopHipToHip
    | HipToInsideLeg
    | InsideLegToKnee
    | KneeHeight
    | OuterAnkleHeightR
    | Male
    | Female
    | NeckIndicatorDisable
    | ShoulderIndicatorDisable
    | BackLengthIndicatorDisable
    | BustIndicatorDisable
    | UnderBustIndicatorDisable
    | WaistIndicatorDisable
    | HipIndicatorDisable
    | ThighIndicatorDisable
    | CalfIndicatorDisable
    | UpperArmIndicatorDisable
    | ForeArmIndicatorDisable
    | OuterArmLengthIndicatorDisable
    | SleeveLengthIndicatorDisable
    | InsideLegHeightIndicatorDisable
    | OutsideLegHeightIndicatorDisable
    | BackNeckHeightIndicatorDisable
    | HeightInM

  /** The JavaScript property name of each declared field. */
  function Name(f: Field): string
  {
    match f
    case Muscular => "muscular"
    case BodyFat => "bodyFat"
    case Skinny => "skinny"
    case NeckGirth => "neckGirth"
    case BaseNeckGirth => "baseNeckGirth"
    case AcrossBackShoulderWidth => "acrossBackShoulderWidth"
    case BreastSize => "breastSize"
    case UnderBustGirth => "underBustGirth"
    case WaistGirth => "waistGirth"
    case BellyWaistGirth => "bellyWaistGirth"
    case TopHipGirth => "topHipGirth"
    case HipGirth => "hipGirth"
    case ThighGirthR => "thighGirthR"
    case MidThighGirthR => "midThighGirthR"
    case KneeGirthR => "kneeGirthR"
    case CalfGirthR => "calfGirthR"
    case UpperArmGirthR => "upperArmGirthR"
    case ForearmGirthR => "forearmGirthR"
    case WristGirthR => "wristGirthR"
    case ShoulderToElbowR => "shoulderToElbowR"
    case ForearmLength => "forearmLength"
    case TopToBackNeck => "topToBackNeck"
    case BackNeckToBust => "backNeckToBust"
    case BustToWaist => "bustToWaist"
    case WaistToBellyWaist => "waistToBellyWaist"
    case BellyWaistToTopHip => "bellyWaistToTopHip"
    case TopHipToHip => "topHipToHip"
    case HipToInsideLeg => "hipToInsideLeg"
    case InsideLegToKnee => "insideLegToKnee"
    case KneeHeight => "kneeHeight"
    case OuterAnkleHeightR => "outerAnkleHeightR"
    case Male => "male"
    case Female => "female"
    case NeckIndicatorDisable => "neckIndicatorDisable"
    case ShoulderIndicatorDisable => "shoulderIndicatorDisable"
    case BackLengthIndicatorDisable => "backLengthIndicatorDisable"
    case BustIndicatorDisable => "bustIndicatorDisable"
    case UnderBustIndicatorDisable => "underBustIndicatorDisable"
    case WaistIndicatorDisable => "waistIndicatorDisable"
    case HipIndicatorDisable => "hipIndicatorDisable"
    case ThighIndicatorDisable => "thighIndicatorDisable"
    case CalfIndicatorDisable => "calfIndicatorDisable"
    case UpperArmIndicatorDisable => "upperArmIndicatorDisable"
    case ForeArmIndicatorDisable => "foreArmIndicatorDisable"
    case OuterArmLengthIndicatorDisable => "outerArmLengthIndicatorDisable"
    case SleeveLengthIndicatorDisable => "sleeveLengthIndicatorDisable"
    case InsideLegHeightIndicatorDisable => "insideLegHeightIndicatorDisable"
    case OutsideLegHeightIndicatorDisable => "outsideLegHeightIndicatorDisable"
    case BackNeckHeightIndicatorDisable => "backNeckHeightIndicatorDisable"
    case HeightInM => "heightInM"
  }

  /**
   * A property key of a host object: one of the declared fields, or a name
   * the class does not declare (such as `neckBaseGirth`, the spelling of
   * `src/models/base.ts`, or `topHipIndicatorDisable`).
   */
  datatype Key = Declared(field: Field) | Undeclared(name: string)

  /** A host-supplied object of numeric properties. */
  type HostObject = map<Key, real>

  /** A JavaScript object holds one entry per property name, so a host object
      never carries an undeclared key spelled like a declared field. */
  ghost predicate WellKeyed(data: HostObject)
  {
    forall k :: k in data && k.Undeclared? ==> !IsFieldName(k.name)
  }

  /** `s` spells one of the declared fields. */
  ghost predicate IsFieldName(s: string)
  {
    exists f :: Name(f) == s
  }

  /** An instance: one value per declared field, plus the undeclared
      properties `Object.assign` copied onto it. */
  datatype ModelTargetMapper = ModelTargetMapper(
    muscular: real,
    bodyFat: real,
    skinny: real,
    neckGirth: real,
    baseNeckGirth: real,
    acrossBackShoulderWidth: real,
    breastSize: real,
    underBustGirth: real,
    waistGirth: real,
    bellyWaistGirth: real,
    topHipGirth: real,
    hipGirth: real,
    thighGirthR: real,
    midThighGirthR: real,
    kneeGirthR: real,
    calfGirthR: real,
    upperArmGirthR: real,
    forearmGirthR: real,
    wristGirthR: real,
    shoulderToElbowR: real,
    forearmLength: real,
    topToBackNeck: real,
    backNeckToBust: real,
    bustToWaist: real,
    waistToBellyWaist: real,
    bellyWaistToTopHip: real,
    topHipToHip: real,
    hipToInsideLeg: real,
    insideLegToKnee: real,
    kneeHeight: real,
    outerAnkleHeightR: real,
    male: real,
    female: real,
    neckIndicatorDisable: real,
    shoulderIndicatorDisable: real,
    backLengthIndicatorDisable: real,
    bustIndicatorDisable: real,
    underBustIndicatorDisable: real,
    waistIndicatorDisable: real,
    hipIndicatorDisable: real,
    thighIndicatorDisable: real,
    calfIndicatorDisable: real,
    upperArmIndicatorDisable: real,
    foreArmIndicatorDisable: real,
    outerArmLengthIndicatorDisable: real,
    sleeveLengthIndicatorDisable: real,
    insideLegHeightIndicatorDisable: real,
    outsideLegHeightIndicatorDisable: real,
    backNeckHeightIndicatorDisable: real,
    heightInM: real,
    extras: HostObject)

  /** Channels 0-2: the body type. */
  const BodyTypeFields: seq<Field> := [
    Muscular,
    BodyFat,
    Skinny]

  /** Channels 3-18: girths and widths. */
  const GirthFields: seq<Field> := [
    NeckGirth,
    BaseNeckGirth,
    AcrossBackShoulderWidth,
    BreastSize,
    UnderBustGirth,
    WaistGirth,
    BellyWaistGirth,
    TopHipGirth,
    HipGirth,
    ThighGirthR,
    MidThighGirthR,
    KneeGirthR,
    CalfGirthR,
    UpperArmGirthR,
    ForearmGirthR,
    WristGirthR]

  /** Channels 19-30: lengths and heights. */
  const LengthFields: seq<Field> := [
    ShoulderToElbowR,
    ForearmLength,
    TopToBackNeck,
    BackNeckToBust,
    BustToWaist,
    WaistToBellyWaist,
    BellyWaistToTopHip,
    TopHipToHip,
    HipToInsideLeg,
    InsideLegToKnee,
    KneeHeight,
    OuterAnkleHeightR]

  /** Channels 31-32: the gender blend. */
  const BlendFields: seq<Field> := [
    Male,
    Female]

  /** Channels 33-48: the indicator-disable flags. */
  const IndicatorFields: seq<Field> := [
    NeckIndicatorDisable,
    ShoulderIndicatorDisable,
    BackLengthIndicatorDisable,
    BustIndicatorDisable,
    UnderBustIndicatorDisable,
    WaistIndicatorDisable,
    HipIndicatorDisable,
    ThighIndicatorDisable,
    CalfIndicatorDisable,
    UpperArmIndicatorDisable,
    ForeArmIndicatorDisable,
    OuterArmLengthIndicatorDisable,
    SleeveLengthIndicatorDisable,
    InsideLegHeightIndicatorDisable,
    OutsideLegHeightIndicatorDisable,
    BackNeckHeightIndicatorDisable]

  /** The morph-basis channels, by array position. */
  const BasisFields: seq<Field> := BodyTypeFields + GirthFields + LengthFields + BlendFields + IndicatorFields

  /** The value `m` holds under the declared property `f`. */
  function Get(m: ModelTargetMapper, f: Field): real
  {
    match f
    case Muscular => m.muscular
    case BodyFat => m.bodyFat
    case Skinny => m.skinny
    case NeckGirth => m.neckGirth
    case BaseNeckGirth => m.baseNeckGirth
    case AcrossBackShoulderWidth => m.acrossBackShoulderWidth
    case BreastSize => m.breastSize
    case UnderBustGirth => m.underBustGirth
    case WaistGirth => m.waistGirth
    case BellyWaistGirth => m.bellyWaistGirth
    case TopHipGirth => m.topHipGirth
    case HipGirth => m.hipGirth
    case ThighGirthR => m.thighGirthR
    case MidThighGirthR => m.midThighGirthR
    case KneeGirthR => m.kneeGirthR
    case CalfGirthR => m.calfGirthR
    case UpperArmGirthR => m.upperArmGirthR
    case ForearmGirthR => m.forearmGirthR
    case WristGirthR => m.wristGirthR
    case ShoulderToElbowR => m.shoulderToElbowR
    case ForearmLength => m.forearmLength
    case TopToBackNeck => m.topToBackNeck
    case BackNeckToBust => m.backNeckToBust
    case BustToWaist => m.bustToWaist
    case WaistToBellyWaist => m.waistToBellyWaist
    case BellyWaistToTopHip => m.bellyWaistToTopHip
    case TopHipToHip => m.topHipToHip
    case HipToInsideLeg => m.hipToInsideLeg
    case InsideLegToKnee => m.insideLegToKnee
    case KneeHeight => m.kneeHeight
    case OuterAnkleHeightR => m.outerAnkleHeightR
    case Male => m.male
    case Female => m.female
    case NeckIndicatorDisable => m.neckIndicatorDisable
    case ShoulderIndicatorDisable => m.shoulderIndicatorDisable
    case BackLengthIndicatorDisable => m.backLengthIndicatorDisable
    case BustIndicatorDisable => m.bustIndicatorDisable
    case UnderBustIndicatorDisable => m.underBustIndicatorDisable
    case WaistIndicatorDisable => m.waistIndicatorDisable
    case HipIndicatorDisable => m.hipIndicatorDisable
    case ThighIndicatorDisable => m.thighIndicatorDisable
    case CalfIndicatorDisable => m.calfIndicatorDisable
    case UpperArmIndicatorDisable => m.upperArmIndicatorDisable
    case ForeArmIndicatorDisable => m.foreArmIndicatorDisable
    case OuterArmLengthIndicatorDisable => m.outerArmLengthIndicatorDisable
    case SleeveLengthIndicatorDisable => m.sleeveLengthIndicatorDisable
    case InsideLegHeightIndicatorDisable => m.insideLegHeightIndicatorDisable
    case OutsideLegHeightIndicatorDisable => m.outsideLegHeightIndicatorDisable
    case BackNeckHeightIndicatorDisable => m.backNeckHeightIndicatorDisable
    case HeightInM => m.heightInM
  }

  /** A declared field after the overlay: the host value if supplied, else the default 0. */
  function Overlay(data: HostObject, f: Field): real
  {
    if Declared(f) in data then data[Declared(f)] else 0.0
  }

  /** `new ModelTargetMapper(data)`: zero defaults, then `Object.assign(this, data)`. */
  function FromInput(data: HostObject): (m: ModelTargetMapper)
    requires WellKeyed(data)
    ensures forall f :: Get(m, f) == Overlay(data, f)
    ensures forall k :: k in m.extras <==> k in data && k.Undeclared?
    ensures forall k :: k in m.extras ==> m.extras[k] == data[k]
  {
    ModelTargetMapper(
      Overlay(data, Muscular),
      Overlay(data, BodyFat),
      Overlay(data, Skinny),
      Overlay(data, NeckGirth),
      Overlay(data, BaseNeckGirth),
      Overlay(data, AcrossBackShoulderWidth),
      Overlay(data, BreastSize),
      Overlay(data, UnderBustGirth),
      Overlay(data, WaistGirth),
      Overlay(data, BellyWaistGirth),
      Overlay(data, TopHipGirth),
      Overlay(data, HipGirth),
      Overlay(data, ThighGirthR),
      Overlay(data, MidThighGirthR),
      Overlay(data, KneeGirthR),
      Overlay(data, CalfGirthR),
      Overlay(data, UpperArmGirthR),
      Overlay(data, ForearmGirthR),
      Overlay(data, WristGirthR),
      Overlay(data, ShoulderToElbowR),
      Overlay(data, ForearmLength),
      Overlay(data, TopToBackNeck),
      Overlay(data, BackNeckToBust),
      Overlay(data, BustToWaist),
      Overlay(data, WaistToBellyWaist),
      Overlay(data, BellyWaistToTopHip),
      Overlay(data, TopHipToHip),
      Overlay(data, HipToInsideLeg),
      Overlay(data, InsideLegToKnee),
      Overlay(data, KneeHeight),
      Overlay(data, OuterAnkleHeightR),
      Overlay(data, Male),
      Overlay(data, Female),
      Overlay(data, NeckIndicatorDisable),
      Overlay(data, ShoulderIndicatorDisable),
      Overlay(data, BackLengthIndicatorDisable),
      Overlay(data, BustIndicatorDisable),
      Overlay(data, UnderBustIndicatorDisable),
      Overlay(data, WaistIndicatorDisable),
      Overlay(data, HipIndicatorDisable),
      Overlay(data, ThighIndicatorDisable),
      Overlay(data, CalfIndicatorDisable),
      Overlay(data, UpperArmIndicatorDisable),
      Overlay(data, ForeArmIndicatorDisable),
      Overlay(data, OuterArmLengthIndicatorDisable),
      Overlay(data, SleeveLengthIndicatorDisable),
      Overlay(data, InsideLegHeightIndicatorDisable),
      Overlay(data, OutsideLegHeightIndicatorDisable),
      Overlay(data, BackNeckHeightIndicatorDisable),
      Overlay(data, HeightInM),
      map k | k in data && k.Undeclared? :: data[k])
  }

  /** `toArray()`: the properties at their channel positions. The source writes
      one array literal; here it is split at the five groups of `BasisFields`. */
  function ToArray(m: ModelTargetMapper): (r: seq<real>)
    ensures |r| == |BasisFields| == 49
  {
    [m.muscular,
       m.bodyFat,
       m.skinny]
    + [m.neckGirth,
       m.baseNeckGirth,
       m.acrossBackShoulderWidth,
       m.breastSize,
       m.underBustGirth,
       m.waistGirth,
       m.bellyWaistGirth,
       m.topHipGirth,
       m.hipGirth,
       m.thighGirthR,
       m.midThighGirthR,
       m.kneeGirthR,
       m.calfGirthR,
       m.upperArmGirthR,
       m.forearmGirthR,
       m.wristGirthR]
    + [m.shoulderToElbowR,
       m.forearmLength,
       m.topToBackNeck,
       m.backNeckToBust,
       m.bustToWaist,
       m.waistToBellyWaist,
       m.bellyWaistToTopHip,
       m.topHipToHip,
       m.hipToInsideLeg,
       m.insideLegToKnee,
       m.kneeHeight,
       m.outerAnkleHeightR]
    + [m.male,
       m.female]
    + [m.neckIndicatorDisable,
       m.shoulderIndicatorDisable,
       m.backLengthIndicatorDisable,
       m.bustIndicatorDisable,
       m.underBustIndicatorDisable,
       m.waistIndicatorDisable,
       m.hipIndicatorDisable,
       m.thighIndicatorDisable,
       m.calfIndicatorDisable,
       m.upperArmIndicatorDisable,
       m.foreArmIndicatorDisable,
       m.outerArmLengthIndicatorDisable,
       m.sleeveLengthIndicatorDisable,
       m.insideLegHeightIndicatorDisable,
       m.outsideLegHeightIndicatorDisable,
       m.backNeckHeightIndicatorDisable]
  }

  // Channels 0-48 checked five at a time, to keep each proof small.

  lemma Layout0(m: ModelTargetMapper, i: int)
    requires 0 <= i < 5
    ensures ToArray(m)[i] == Get(m, BasisFields[i])
  {
  }

  lemma Layout1(m: ModelTargetMapper, i: int)
    requires 5 <= i < 10
    ensures ToArray(m)[i] == Get(m, BasisFields[i])
  {
  }

  lemma Layout2(m: ModelTargetMapper, i: int)
    requires 10 <= i < 15
    ensures ToArray(m)[i] == Get(m, BasisFields[i])
  {
  }

  lemma Layout3(m: ModelTargetMapper, i: int)
    requires 15 <= i < 20
    ensures ToArray(m)[i] == Get(m, BasisFields[i])
  {
  }

  lemma Layout4(m: ModelTargetMapper, i: int)
    requires 20 <= i < 25
    ensures ToArray(m)[i] == Get(m, BasisFields[i])
  {
  }

  lemma Layout5(m: ModelTargetMapper, i: int)
    requires 25 <= i < 30
    ensures ToArray(m)[i] == Get(m, BasisFields[i])
  {
  }

  lemma Layout6(m: ModelTargetMapper, i: int)
    requires 30 <= i < 35
    ensures ToArray(m)[i] == Get(m, BasisFields[i])
  {
  }

  lemma Layout7(m: ModelTargetMapper, i: int)
    requires 35 <= i < 40
    ensures ToArray(m)[i] == Get(m, BasisFields[i])
  {
  }

  lemma Layout8(m: ModelTargetMapper, i: int)
    requires 40 <= i < 45
    ensures ToArray(m)[i] == Get(m, BasisFields[i])
  {
  }

  lemma Layout9(m: ModelTargetMapper, i: int)
    requires 45 <= i < 49
    ensures ToArray(m)[i] == Get(m, BasisFields[i])
  {
  }

  /** Position i of `toArray()` carries the property `BasisFields[i]`, unscaled. */
  lemma ToArrayLayout(m: ModelTargetMapper)
    ensures |ToArray(m)| == |BasisFields|
    ensures forall i :: 0 <= i < |BasisFields| ==> ToArray(m)[i] == Get(m, BasisFields[i])
  {
    forall i | 0 <= i < |BasisFields| ensures ToArray(m)[i] == Get(m, BasisFields[i]) {
      if i < 5 {
        Layout0(m, i);
      } else if i < 10 {
        Layout1(m, i);
      } else if i < 15 {
        Layout2(m, i);
      } else if i < 20 {
        Layout3(m, i);
      } else if i < 25 {
        Layout4(m, i);
      } else if i < 30 {
        Layout5(m, i);
      } else if i < 35 {
        Layout6(m, i);
      } else if i < 40 {
        Layout7(m, i);
      } else if i < 45 {
        Layout8(m, i);
      } else {
        Layout9(m, i);
      }
  }
  }

  /** The basis built from a host object: channel i is the host value for
      `BasisFields[i]` when supplied and 0 otherwise. */
  lemma BasisLayout(data: HostObject)
    requires WellKeyed(data)
    ensures |ToArray(FromInput(data))| == |BasisFields|
    ensures forall i :: 0 <= i < |BasisFields| ==> ToArray(FromInput(data))[i] == Overlay(data, BasisFields[i])
  {
    ToArrayLayout(FromInput(data));
  }

  /** `heightInM` is stored on the object but has no channel. */
  lemma HeightNotInBasis(i: int)
    requires 0 <= i < |BasisFields|
    ensures BasisFields[i] != HeightInM
  {
  }

  /** `heightInM` and the undeclared properties are stored but never reach the basis. */
  lemma BasisIgnoresHeightAndExtras(m: ModelTargetMapper, height: real, extras: HostObject)
    ensures ToArray(m.(heightInM := height, extras := extras)) == ToArray(m)
  {
  }

  /** An input spelled after the other `IModelTargetMapper` interface
      (`neckBaseGirth`) is copied onto the object but leaves channel 4
      (`baseNeckGirth`) at 0. */
  lemma NeckBaseGirthNotInBasis(data: HostObject)
    requires WellKeyed(data)
    requires Undeclared("neckBaseGirth") in data && Declared(BaseNeckGirth) !in data
    ensures Undeclared("neckBaseGirth") in FromInput(data).extras
    ensures FromInput(data).extras[Undeclared("neckBaseGirth")] == data[Undeclared("neckBaseGirth")]
    ensures BasisFields[4] == BaseNeckGirth && ToArray(FromInput(data))[4] == 0.0
  {
    BasisLayout(data);
  }

  /** `neckBaseGirth` is not the name of any declared field. */
  lemma NeckBaseGirthUndeclared(f: Field)
    ensures Name(f) != "neckBaseGirth"
  {
  }
}

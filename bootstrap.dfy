/**
 * The bootstrap helpers of `src/main.ts`: the request `window.loadModel`
 * builds from the host's parameters, and the synthetic timeline played by
 * `playDummyTimeline`. `Math.random()` is a parameter: the draw in [0, 1)
 * each call returns.
 */
module Bootstrap {
  import opened ModelMapper

  /** `topHipIndicatorDisable`: sent by the bootstrap, not declared by `ModelTargetMapper`. */
  const TopHipFlag: Key := Undeclared("topHipIndicatorDisable")

  /** The 16 declared indicator-disable flags (channels 33-48 of the basis). */
  predicate IsIndicator(f: Field)
  {
    || f.NeckIndicatorDisable? || f.ShoulderIndicatorDisable? || f.BackLengthIndicatorDisable?
    || f.BustIndicatorDisable? || f.UnderBustIndicatorDisable? || f.WaistIndicatorDisable?
    || f.HipIndicatorDisable? || f.ThighIndicatorDisable? || f.CalfIndicatorDisable?
    || f.UpperArmIndicatorDisable? || f.ForeArmIndicatorDisable? || f.OuterArmLengthIndicatorDisable?
    || f.SleeveLengthIndicatorDisable? || f.InsideLegHeightIndicatorDisable?
    || f.OutsideLegHeightIndicatorDisable? || f.BackNeckHeightIndicatorDisable?
  }

  /** The keys of `baseParams`: the declared indicator flags and `topHipIndicatorDisable`. */
  predicate IsBaseFlag(k: Key)
  {
    match k
    case Declared(f) => IsIndicator(f)
    case Undeclared(name) => k == TopHipFlag
  }

  /** `baseParams`: every indicator-disable flag set to 1 (the indicator hidden). */
  const BaseParams: HostObject := (map f: Field | IsIndicator(f) :: Declared(f) := 1.0)[TopHipFlag := 1.0]

  /** `{...baseParams, ...params}`: the host's fields override the defaults. */
  function MergeRequest(params: HostObject): (r: HostObject)
    ensures forall k :: k in params ==> k in r && r[k] == params[k]
    ensures forall k :: k !in params ==> (k in r <==> IsBaseFlag(k))
    ensures forall k :: k in r && k !in params ==> r[k] == 1.0
    ensures WellKeyed(params) ==> WellKeyed(r)
  {
    FlagNamesUndeclared();
    BaseParams + params
  }

  /** Neither undeclared name the bootstrap writes spells a declared field. */
  lemma FlagNamesUndeclared()
    ensures forall f :: Name(f) != TopHipFlag.name && Name(f) != NeckBaseKey.name
  {
    forall f
      ensures Name(f) != TopHipFlag.name && Name(f) != NeckBaseKey.name
    {
      NeckBaseGirthUndeclared(f);
    }
  }

  /** Through the mapper, the merged request leaves every flag channel (33-48)
      at 1 unless the host supplied that flag, and takes the host's value if it did. */
  lemma FlagChannelsDefaultToOne(params: HostObject, i: int)
    requires WellKeyed(params)
    requires 33 <= i < 49
    ensures ToArray(FromInput(MergeRequest(params)))[i]
         == if Declared(BasisFields[i]) in params then params[Declared(BasisFields[i])] else 1.0
  {
    var request := MergeRequest(params);
    var f := BasisFields[i];
    assert f == IndicatorFields[i - 33];
    IndicatorChannelsAreFlags(i - 33);
    assert Declared(f) in request;
    BasisLayout(request);
    assert ToArray(FromInput(request))[i] == request[Declared(f)];
  }

  /** Every field of the indicator channels is an indicator flag. */
  lemma IndicatorChannelsAreFlags(j: int)
    requires 0 <= j < |IndicatorFields|
    ensures IsIndicator(IndicatorFields[j])
  {
  }

  /** `applyRandomVariation`: scales by a multiplier drawn from [0.9, 1.1) and caps at 1. */
  function ApplyRandomVariation(currentValue: real, draw: real): (r: real)
    ensures r <= 1.0
    ensures currentValue * (0.9 + draw * 0.2) <= 1.0 ==> r == currentValue * (0.9 + draw * 0.2)
    ensures currentValue * (0.9 + draw * 0.2) > 1.0 ==> r == 1.0
  {
    var newVal := currentValue * (0.9 + draw * 0.2);
    if newVal > 1.0 then 1.0 else newVal
  }

  /** For a non-negative value and a genuine draw, the result is the cap or
      lies within 10% of the value. */
  lemma VariationBand(currentValue: real, draw: real)
    requires 0.0 <= currentValue && 0.0 <= draw < 1.0
    ensures var r := ApplyRandomVariation(currentValue, draw);
            r == 1.0 || (0.9 * currentValue <= r <= 1.1 * currentValue)
  {
    assert 0.0 <= currentValue * draw <= currentValue;
  }

  /** `neckBaseGirth`: the name the dummy timeline writes for `baseNeckGirth`. */
  const NeckBaseKey: Key := Undeclared("neckBaseGirth")

  /** The declared measurements the dummy timeline varies: every body-type,
      girth and length field except `skinny` and `baseNeckGirth`. */
  predicate IsVariedField(f: Field)
  {
    || f.Muscular? || f.BodyFat? || f.NeckGirth? || f.AcrossBackShoulderWidth?
    || f.BreastSize? || f.UnderBustGirth? || f.WaistGirth? || f.BellyWaistGirth?
    || f.TopHipGirth? || f.HipGirth? || f.ThighGirthR? || f.MidThighGirthR?
    || f.KneeGirthR? || f.CalfGirthR? || f.UpperArmGirthR? || f.ForearmGirthR?
    || f.WristGirthR? || f.ShoulderToElbowR? || f.ForearmLength? || f.TopToBackNeck?
    || f.BackNeckToBust? || f.BustToWaist? || f.WaistToBellyWaist? || f.BellyWaistToTopHip?
    || f.TopHipToHip? || f.HipToInsideLeg? || f.InsideLegToKnee? || f.KneeHeight?
    || f.OuterAnkleHeightR?
  }

  /** The keys the dummy timeline varies: the fields above and `neckBaseGirth`. */
  predicate IsVaried(k: Key)
  {
    match k
    case Declared(f) => IsVariedField(f)
    case Undeclared(name) => k == NeckBaseKey
  }

  /** The body type every dummy keyframe fixes: not skinny, fully male. */
  const FixedShape: HostObject := map[Declared(Skinny) := 0.0, Declared(Male) := 1.0, Declared(Female) := 0.0]

  /** The test parameters hold every key the dummy timeline varies. */
  ghost predicate HasVariedKeys(testParams: HostObject)
  {
    forall k :: IsVaried(k) ==> k in testParams
  }

  /** The varied part of keyframe `i`: each varied key under a fresh draw. */
  function Varied(testParams: HostObject, draws: (nat, Key) -> real, i: nat): (r: HostObject)
    requires HasVariedKeys(testParams)
    ensures forall k :: k in r <==> IsVaried(k)
    ensures forall k :: k in r ==> r[k] == ApplyRandomVariation(testParams[k], draws(i, k))
  {
    map k | k in testParams && IsVaried(k) :: ApplyRandomVariation(testParams[k], draws(i, k))
  }

  /** Keyframe `i`'s measurements: each varied key is the test value under a
      fresh draw, the body type is fixed, and every flag is 1. */
  function DummyMeasurement(testParams: HostObject, draws: (nat, Key) -> real, i: nat): (r: HostObject)
    requires HasVariedKeys(testParams)
    ensures WellKeyed(r)
  {
    FlagNamesUndeclared();
    assert MergeRequest(map[]) == BaseParams;
    Varied(testParams, draws, i) + FixedShape + BaseParams
  }

  /** `ITimelineData`: a date in milliseconds and the measurements at that date. */
  datatype Keyframe = Keyframe(date: int, measurements: HostObject)

  /** `generateDummyTimeline`: ten keyframes one second apart, from 10 s. */
  method GenerateDummyTimeline(testParams: HostObject, draws: (nat, Key) -> real) returns (timeline: seq<Keyframe>)
    requires HasVariedKeys(testParams)
    ensures |timeline| == 10
    ensures forall i :: 0 <= i < |timeline| ==>
              timeline[i] == Keyframe(10000 + i * 1000, DummyMeasurement(testParams, draws, i))
    ensures forall i, j :: 0 <= i < j < |timeline| ==> timeline[i].date < timeline[j].date
  {
    timeline := [];
    var i := 0;
    while i < 10
      invariant 0 <= i <= 10 && |timeline| == i
      invariant forall j :: 0 <= j < i ==>
                  timeline[j] == Keyframe(10000 + j * 1000, DummyMeasurement(testParams, draws, j))
    {
      var newMeasurement := DummyMeasurement(testParams, draws, i);
      ghost var prev := timeline;
      timeline := timeline + [Keyframe(10000 + i * 1000, newMeasurement)];
      assert forall j :: 0 <= j < i ==> timeline[j] == prev[j];
      i := i + 1;
    }
  }

  /** A key of a dummy keyframe is a flag, one of the fixed body-type keys, or
      a varied key; nothing else. */
  lemma DummyKeys(testParams: HostObject, draws: (nat, Key) -> real, i: nat, k: Key)
    requires HasVariedKeys(testParams)
    ensures k in DummyMeasurement(testParams, draws, i) <==> IsBaseFlag(k) || k in FixedShape || IsVaried(k)
  {
    assert MergeRequest(map[]) == BaseParams;
  }

  /** Every dummy keyframe hides every indicator. */
  lemma DummyFlagsHidden(testParams: HostObject, draws: (nat, Key) -> real, i: nat, k: Key)
    requires HasVariedKeys(testParams)
    requires IsBaseFlag(k)
    ensures k in DummyMeasurement(testParams, draws, i) && DummyMeasurement(testParams, draws, i)[k] == 1.0
  {
    assert MergeRequest(map[]) == BaseParams;
  }

  /** A body-type key keeps its fixed value: the flags do not overlap it. */
  lemma DummyFixedValue(testParams: HostObject, draws: (nat, Key) -> real, i: nat, k: Key)
    requires HasVariedKeys(testParams)
    requires k in FixedShape
    ensures k in DummyMeasurement(testParams, draws, i) && DummyMeasurement(testParams, draws, i)[k] == FixedShape[k]
  {
    var varied := Varied(testParams, draws, i);
    FixedNotFlag(k);
    assert MergeRequest(map[]) == BaseParams;
    assert (varied + FixedShape)[k] == FixedShape[k];
  }

  /** A varied key carries the test value under its draw: neither the body
      type nor the flags overlap it. */
  lemma DummyVariedValue(testParams: HostObject, draws: (nat, Key) -> real, i: nat, k: Key)
    requires HasVariedKeys(testParams)
    requires IsVaried(k)
    ensures k in DummyMeasurement(testParams, draws, i)
    ensures DummyMeasurement(testParams, draws, i)[k] == ApplyRandomVariation(testParams[k], draws(i, k))
  {
    var varied := Varied(testParams, draws, i);
    VariedNotFlag(k);
    VariedNotFixed(k);
    assert MergeRequest(map[]) == BaseParams;
    assert (varied + FixedShape)[k] == varied[k];
  }

  /** No varied key is a flag. */
  lemma VariedNotFlag(k: Key)
    requires IsVaried(k)
    ensures !IsBaseFlag(k)
  {
  }

  /** No varied key is a body-type key. */
  lemma VariedNotFixed(k: Key)
    requires IsVaried(k)
    ensures k !in FixedShape
  {
  }

  /** No body-type key is a flag or a varied key. */
  lemma FixedNotFlag(k: Key)
    requires k in FixedShape
    ensures !IsBaseFlag(k) && !IsVaried(k)
  {
  }

  /** Every dummy keyframe fixes the body type: `skinny` 0, `male` 1, `female` 0. */
  lemma DummyBodyType(testParams: HostObject, draws: (nat, Key) -> real, i: nat)
    requires HasVariedKeys(testParams)
    ensures var m := DummyMeasurement(testParams, draws, i);
            && Declared(Skinny) in m && m[Declared(Skinny)] == 0.0
            && Declared(Male) in m && m[Declared(Male)] == 1.0
            && Declared(Female) in m && m[Declared(Female)] == 0.0
  {
    DummyFixedValue(testParams, draws, i, Declared(Skinny));
    DummyFixedValue(testParams, draws, i, Declared(Male));
    DummyFixedValue(testParams, draws, i, Declared(Female));
  }

  /** No value of a dummy keyframe exceeds 1. */
  lemma DummyValuesCapped(testParams: HostObject, draws: (nat, Key) -> real, i: nat, k: Key)
    requires HasVariedKeys(testParams)
    requires k in DummyMeasurement(testParams, draws, i)
    ensures DummyMeasurement(testParams, draws, i)[k] <= 1.0
  {
    DummyKeys(testParams, draws, i, k);
    if IsBaseFlag(k) {
      DummyFlagsHidden(testParams, draws, i, k);
    } else if k in FixedShape {
      DummyFixedValue(testParams, draws, i, k);
    } else {
      DummyVariedValue(testParams, draws, i, k);
    }
  }

  /** Because the dummy timeline writes `neckBaseGirth`, channel 4 (`baseNeckGirth`)
      of every keyframe's basis is 0. */
  lemma DummyNeckBaseChannelZero(testParams: HostObject, draws: (nat, Key) -> real, i: nat)
    requires HasVariedKeys(testParams)
    ensures ToArray(FromInput(DummyMeasurement(testParams, draws, i)))[4] == 0.0
  {
    DummyNeckBaseKeys(testParams, draws, i);
    NeckBaseGirthNotInBasis(DummyMeasurement(testParams, draws, i));
  }

  /** A dummy keyframe carries `neckBaseGirth` and not `baseNeckGirth`. */
  lemma DummyNeckBaseKeys(testParams: HostObject, draws: (nat, Key) -> real, i: nat)
    requires HasVariedKeys(testParams)
    ensures NeckBaseKey in DummyMeasurement(testParams, draws, i)
    ensures Declared(BaseNeckGirth) !in DummyMeasurement(testParams, draws, i)
  {
    assert IsVaried(NeckBaseKey) && !IsVaried(Declared(BaseNeckGirth));
    assert !IsBaseFlag(Declared(BaseNeckGirth));
    assert MergeRequest(map[]) == BaseParams;
  }
}

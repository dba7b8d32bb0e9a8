/** Audio filter payload builders (pomice/filters.py).

    Each builder mirrors one filter class's constructor: it checks its
    arguments in the same order as the class, failing with the same
    message, and otherwise yields the filter whose payload is the JSON
    object the node receives. Gains and ratios are only compared and copied,
    never computed with, so they are `real`. */
module Filters {
  import opened Results

  /** One `{"band": i, "gain": g}` entry of the equalizer payload. */
  datatype Band = Band(band: int, gain: real)

  /** A `(band, gain)` pair as a caller passes it in `levels`. */
  type BandLevel = (int, real)

  /** The payload's top-level keys, one per filter kind. */
  datatype FilterName =
    | EqualizerKey | TimescaleKey | KaraokeKey | TremoloKey | VibratoKey
    | RotationKey | ChannelMixKey | DistortionKey | LowPassKey
  {
    /** The key as it appears in the JSON payload. */
    function JsonName(): string {
      match this
      case EqualizerKey => "equalizer"
      case TimescaleKey => "timescale"
      case KaraokeKey => "karaoke"
      case TremoloKey => "tremolo"
      case VibratoKey => "vibrato"
      case RotationKey => "rotation"
      case ChannelMixKey => "channelMix"
      case DistortionKey => "distortion"
      case LowPassKey => "lowPass"
    }
  }

  /** The keys inside a filter's JSON object. */
  datatype SettingKey =
    | Speed | Pitch | Rate
    | Level | MonoLevel | FilterBand | FilterWidth
    | Frequency | Depth
    | RotationHz
    | LeftToLeft | LeftToRight | RightToLeft | RightToRight
    | SinOffset | SinScale | CosOffset | CosScale | TanOffset | TanScale | Offset | Scale
    | Smoothing
  {
    /** The key as it appears in the JSON payload. */
    function JsonName(): string {
      match this
      case Speed => "speed"
      case Pitch => "pitch"
      case Rate => "rate"
      case Level => "level"
      case MonoLevel => "monoLevel"
      case FilterBand => "filterBand"
      case FilterWidth => "filterWidth"
      case Frequency => "frequency"
      case Depth => "depth"
      case RotationHz => "rotationHz"
      case LeftToLeft => "leftToLeft"
      case LeftToRight => "leftToRight"
      case RightToLeft => "rightToLeft"
      case RightToRight => "rightToRight"
      case SinOffset => "sinOffset"
      case SinScale => "sinScale"
      case CosOffset => "cosOffset"
      case CosScale => "cosScale"
      case TanOffset => "tanOffset"
      case TanScale => "tanScale"
      case Offset => "offset"
      case Scale => "scale"
      case Smoothing => "smoothing"
    }
  }

  /** The JSON value under a payload's key: an object of numbers, or the
      equalizer's list of bands. */
  datatype Body = Fields(values: map<SettingKey, real>) | BandList(bands: seq<Band>)

  /** A filter payload: filter name to its settings. */
  type Payload = map<FilterName, Body>

  datatype FilterError =
    | FilterInvalidArgument(message: string)
    | ValueError(message: string)

  /** The filters as constructed; each variant keeps the constructor's arguments. */
  datatype Filter =
    | EmptyFilter
    | EqualizerFilter(name: string, levels: seq<BandLevel>)
    | TimescaleFilter(speed: real, pitch: real, rate: real)
    | KaraokeFilter(level: real, monoLevel: real, filterBand: real, filterWidth: real)
    | TremoloFilter(frequency: real, depth: real)
    | VibratoFilter(frequency: real, depth: real)
    | RotationFilter(rotationHertz: real)
    | ChannelMixFilter(leftToLeft: real, leftToRight: real, rightToLeft: real, rightToRight: real)
    | DistortionFilter(sinOffset: real, sinScale: real, cosOffset: real, cosScale: real,
                       tanOffset: real, tanScale: real, offset: real, scale: real)
    | LowPassFilter(smoothing: real)

  const BandCount: nat := 15

  // ---------------------------------------------------------------------------
  // The equalizer's band normalisation
  // ---------------------------------------------------------------------------

  /** `dict.update(levels)`: pairs are stored left to right, so a later pair
      for a band overwrites an earlier one. */
  function Absorb(d: map<int, real>, levels: seq<BandLevel>): map<int, real>
    decreases |levels|
  {
    if levels == [] then d else Absorb(d[levels[0].0 := levels[0].1], levels[1..])
  }

  /** A `defaultdict(int)` lookup: a band never supplied reads as 0. */
  function GainOf(d: map<int, real>, i: int): real {
    if i in d then d[i] else 0.0
  }

  /** `Equalizer._factory`: one entry per band 0..14, in band order. */
  function Factory(levels: seq<BandLevel>): (eq: seq<Band>)
    ensures |eq| == BandCount
    ensures forall i :: 0 <= i < BandCount ==> eq[i].band == i
  {
    var d := Absorb(map[], levels);
    seq(BandCount, i => Band(i, GainOf(d, i)))
  }

  /** Absorbing pairs none of which names band `k` leaves `k`'s entry alone. */
  lemma {:induction false} AbsorbUntouched(d: map<int, real>, levels: seq<BandLevel>, k: int)
    requires forall m :: 0 <= m < |levels| ==> levels[m].0 != k
    ensures (k in Absorb(d, levels)) == (k in d)
    ensures k in d ==> Absorb(d, levels)[k] == d[k]
    decreases |levels|
  {
    if levels != [] {
      AbsorbUntouched(d[levels[0].0 := levels[0].1], levels[1..], k);
    }
  }

  /** After absorbing, band `k` holds the gain of the last pair naming it. */
  lemma {:induction false} AbsorbLast(d: map<int, real>, levels: seq<BandLevel>, k: int, j: nat)
    requires j < |levels| && levels[j].0 == k
    requires forall m :: j < m < |levels| ==> levels[m].0 != k
    ensures k in Absorb(d, levels) && Absorb(d, levels)[k] == levels[j].1
    decreases |levels|
  {
    var d' := d[levels[0].0 := levels[0].1];
    if j == 0 {
      AbsorbUntouched(d', levels[1..], k);
    } else {
      AbsorbLast(d', levels[1..], k, j - 1);
    }
  }

  /** Absorbing a concatenation absorbs the two parts in turn. */
  lemma {:induction false} AbsorbAppend(d: map<int, real>, xs: seq<BandLevel>, ys: seq<BandLevel>)
    ensures Absorb(d, xs + ys) == Absorb(Absorb(d, xs), ys)
    decreases |xs|
  {
    if xs != [] {
      assert (xs + ys)[0] == xs[0] && (xs + ys)[1..] == xs[1..] + ys;
      AbsorbAppend(d[xs[0].0 := xs[0].1], xs[1..], ys);
    } else {
      assert xs + ys == ys;
    }
  }

  /** Band `i`'s gain is the gain of the last pair supplied for band `i`. */
  lemma FactoryLastGain(levels: seq<BandLevel>, i: nat, j: nat)
    requires i < BandCount
    requires j < |levels| && levels[j].0 == i
    requires forall m :: j < m < |levels| ==> levels[m].0 != i
    ensures Factory(levels)[i] == Band(i, levels[j].1)
  {
    AbsorbLast(map[], levels, i, j);
  }

  /** A band no pair names has gain 0. */
  lemma FactoryMissingGain(levels: seq<BandLevel>, i: nat)
    requires i < BandCount
    requires forall m :: 0 <= m < |levels| ==> levels[m].0 != i
    ensures Factory(levels)[i] == Band(i, 0.0)
  {
    AbsorbUntouched(map[], levels, i);
  }

  /** Pairs for bands outside 0..14 do not change the equalizer. */
  lemma FactoryIgnoresOutOfRange(levels: seq<BandLevel>, extra: seq<BandLevel>)
    requires forall m :: 0 <= m < |extra| ==> extra[m].0 < 0 || extra[m].0 >= BandCount as int
    ensures Factory(levels + extra) == Factory(levels)
  {
    var d := Absorb(map[], levels);
    AbsorbAppend(map[], levels, extra);
    forall i | 0 <= i < BandCount
      ensures GainOf(Absorb(d, extra), i) == GainOf(d, i)
    {
      AbsorbUntouched(d, extra, i);
    }
  }

  /** Levels that list bands 0..14 in order come out with exactly their gains. */
  lemma FactoryOfOrderedLevels(levels: seq<BandLevel>)
    requires |levels| == BandCount
    requires forall m :: 0 <= m < |levels| ==> levels[m].0 == m
    ensures forall i :: 0 <= i < BandCount ==> Factory(levels)[i] == Band(i, levels[i].1)
  {
    forall i | 0 <= i < BandCount
      ensures Factory(levels)[i] == Band(i, levels[i].1)
    {
      FactoryLastGain(levels, i, i);
    }
  }

  // ---------------------------------------------------------------------------
  // Payloads and the payload schema
  // ---------------------------------------------------------------------------

  /** The `payload` attribute of a constructed filter. */
  function PayloadOf(f: Filter): Payload {
    match f
    case EmptyFilter => map[]
    case EqualizerFilter(_, levels) => map[EqualizerKey := BandList(Factory(levels))]
    case TimescaleFilter(speed, pitch, rate) =>
      map[TimescaleKey := Fields(map[Speed := speed, Pitch := pitch, Rate := rate])]
    case KaraokeFilter(level, monoLevel, filterBand, filterWidth) =>
      map[KaraokeKey := Fields(map[Level := level, MonoLevel := monoLevel,
                                   FilterBand := filterBand, FilterWidth := filterWidth])]
    case TremoloFilter(frequency, depth) =>
      map[TremoloKey := Fields(map[Frequency := frequency, Depth := depth])]
    case VibratoFilter(frequency, depth) =>
      map[VibratoKey := Fields(map[Frequency := frequency, Depth := depth])]
    case RotationFilter(rotationHertz) =>
      map[RotationKey := Fields(map[RotationHz := rotationHertz])]
    case ChannelMixFilter(leftToLeft, leftToRight, rightToLeft, rightToRight) =>
      map[ChannelMixKey := Fields(map[LeftToLeft := leftToLeft, LeftToRight := leftToRight,
                                      RightToLeft := rightToLeft, RightToRight := rightToRight])]
    case DistortionFilter(sinOffset, sinScale, cosOffset, cosScale, tanOffset, tanScale, offset, scale) =>
      map[DistortionKey := Fields(map[SinOffset := sinOffset, SinScale := sinScale,
                                      CosOffset := cosOffset, CosScale := cosScale,
                                      TanOffset := tanOffset, TanScale := tanScale,
                                      Offset := offset, Scale := scale])]
    case LowPassFilter(smoothing) =>
      map[LowPassKey := Fields(map[Smoothing := smoothing])]
  }

  /** The keys each filter's JSON object carries in the node's filter schema. */
  function SchemaKeys(name: FilterName): set<SettingKey> {
    match name
    case EqualizerKey => {}
    case TimescaleKey => {Speed, Pitch, Rate}
    case KaraokeKey => {Level, MonoLevel, FilterBand, FilterWidth}
    case TremoloKey => {Frequency, Depth}
    case VibratoKey => {Frequency, Depth}
    case RotationKey => {RotationHz}
    case ChannelMixKey => {LeftToLeft, LeftToRight, RightToLeft, RightToRight}
    case DistortionKey => {SinOffset, SinScale, CosOffset, CosScale, TanOffset, TanScale, Offset, Scale}
    case LowPassKey => {Smoothing}
  }

  /** A payload names at most one filter, and that filter's value has the
      schema's shape: exactly its keys, or 15 bands numbered 0..14. */
  ghost predicate Conforms(p: Payload) {
    && |p| <= 1
    && forall name :: name in p ==>
         match p[name]
         case Fields(values) => name != EqualizerKey && values.Keys == SchemaKeys(name)
         case BandList(bands) =>
           name == EqualizerKey && |bands| == BandCount
           && forall i :: 0 <= i < |bands| ==> bands[i].band == i
  }

  /** Reads one number back out of a payload. */
  function ValueAt(p: Payload, name: FilterName, key: SettingKey): Option<real> {
    if name in p && p[name].Fields? && key in p[name].values then Some(p[name].values[key]) else None
  }

  /** A channel-mix ratio lies within [0, 1]. */
  predicate IsRatio(x: real) { 0.0 <= x <= 1.0 }

  /** The construction-time argument rules of the filter schema. */
  predicate InRange(f: Filter) {
    match f
    case TimescaleFilter(speed, pitch, rate) => speed >= 0.0 && pitch >= 0.0 && rate >= 0.0
    case TremoloFilter(frequency, depth) => frequency >= 0.0 && 0.0 <= depth <= 1.0
    case VibratoFilter(frequency, depth) => 0.0 <= frequency <= 14.0 && 0.0 <= depth <= 1.0
    case ChannelMixFilter(ll, lr, rl, rr) => IsRatio(ll) && IsRatio(lr) && IsRatio(rl) && IsRatio(rr)
    case _ => true
  }

  /** A payload naming one filter conforms when that filter's value has the schema's shape. */
  lemma SingleConforms(name: FilterName, body: Body)
    requires body.Fields? ==> name != EqualizerKey && body.values.Keys == SchemaKeys(name)
    requires body.BandList? ==>
               name == EqualizerKey && |body.bands| == BandCount
               && forall i :: 0 <= i < |body.bands| ==> body.bands[i].band == i
    ensures Conforms(map[name := body])
  {
    assert map[name := body].Keys == {name};
  }

  lemma KaraokeConforms(level: real, monoLevel: real, filterBand: real, filterWidth: real)
    ensures Conforms(PayloadOf(KaraokeFilter(level, monoLevel, filterBand, filterWidth)))
  {
    SingleConforms(KaraokeKey, Fields(map[Level := level, MonoLevel := monoLevel,
                                          FilterBand := filterBand, FilterWidth := filterWidth]));
  }

  lemma ChannelMixConforms(leftToLeft: real, leftToRight: real, rightToLeft: real, rightToRight: real)
    ensures Conforms(PayloadOf(ChannelMixFilter(leftToLeft, leftToRight, rightToLeft, rightToRight)))
  {
    SingleConforms(ChannelMixKey, Fields(map[LeftToLeft := leftToLeft, LeftToRight := leftToRight,
                                             RightToLeft := rightToLeft, RightToRight := rightToRight]));
  }

  lemma DistortionConforms(sinOffset: real, sinScale: real, cosOffset: real, cosScale: real,
                           tanOffset: real, tanScale: real, offset: real, scale: real)
    ensures Conforms(PayloadOf(DistortionFilter(sinOffset, sinScale, cosOffset, cosScale, tanOffset, tanScale, offset, scale)))
  {
    SingleConforms(DistortionKey, Fields(map[SinOffset := sinOffset, SinScale := sinScale,
                                             CosOffset := cosOffset, CosScale := cosScale,
                                             TanOffset := tanOffset, TanScale := tanScale,
                                             Offset := offset, Scale := scale]));
  }

  /** Every filter's payload has the schema's shape. */
  lemma PayloadConforms(f: Filter)
    ensures Conforms(PayloadOf(f))
  {
    match f
    case EmptyFilter =>
    case EqualizerFilter(_, levels) =>
      SingleConforms(EqualizerKey, BandList(Factory(levels)));
    case TimescaleFilter(speed, pitch, rate) =>
      SingleConforms(TimescaleKey, Fields(map[Speed := speed, Pitch := pitch, Rate := rate]));
    case KaraokeFilter(level, monoLevel, filterBand, filterWidth) =>
      KaraokeConforms(level, monoLevel, filterBand, filterWidth);
    case TremoloFilter(frequency, depth) =>
      SingleConforms(TremoloKey, Fields(map[Frequency := frequency, Depth := depth]));
    case VibratoFilter(frequency, depth) =>
      SingleConforms(VibratoKey, Fields(map[Frequency := frequency, Depth := depth]));
    case RotationFilter(rotationHertz) =>
      SingleConforms(RotationKey, Fields(map[RotationHz := rotationHertz]));
    case ChannelMixFilter(leftToLeft, leftToRight, rightToLeft, rightToRight) =>
      ChannelMixConforms(leftToLeft, leftToRight, rightToLeft, rightToRight);
    case DistortionFilter(sinOffset, sinScale, cosOffset, cosScale, tanOffset, tanScale, offset, scale) =>
      DistortionConforms(sinOffset, sinScale, cosOffset, cosScale, tanOffset, tanScale, offset, scale);
    case LowPassFilter(smoothing) =>
      SingleConforms(LowPassKey, Fields(map[Smoothing := smoothing]));
  }

  /** The distortion object has exactly eight keys. */
  lemma DistortionHasEightKeys()
    ensures |SchemaKeys(DistortionKey)| == 8
  {
  }

  // ---------------------------------------------------------------------------
  // The constructors
  // ---------------------------------------------------------------------------

  /** `Filter.none()`: a filter with an empty payload. */
  function NoFilter(): (f: Filter)
    ensures PayloadOf(f) == map[]
  {
    EmptyFilter
  }

  /** `Equalizer(levels=..., name=...)` and `Equalizer.build`. */
  function Equalizer(levels: seq<BandLevel>, name: string := "CustomEqualizer"): (f: Filter)
    ensures f.EqualizerFilter? && f.name == name && f.levels == levels
    ensures EqualizerKey in PayloadOf(f) && PayloadOf(f)[EqualizerKey].BandList?
    ensures |PayloadOf(f)[EqualizerKey].bands| == BandCount
  {
    EqualizerFilter(name, levels)
  }

  /** The presets list their pairs as `(0, g0), (1, g1), ...`: band i with the i-th gain. */
  function Numbered(gains: seq<real>): (levels: seq<BandLevel>)
    ensures |levels| == |gains|
    ensures forall i :: 0 <= i < |gains| ==> levels[i] == (i, gains[i])
  {
    seq(|gains|, i requires 0 <= i < |gains| => (i, gains[i]))
  }

  const FlatGains: seq<real> :=
    [0.0, 0.0, 0.0, 0.0, 0.0, 0.0, 0.0, 0.0, 0.0, 0.0, 0.0, 0.0, 0.0, 0.0, 0.0]

  const BoostGains: seq<real> :=
    [-0.075, 0.125, 0.125, 0.1, 0.1, 0.05, 0.075, 0.0, 0.0, 0.0, 0.0, 0.0, 0.125, 0.15, 0.05]

  const MetalGains: seq<real> :=
    [0.0, 0.1, 0.1, 0.15, 0.13, 0.1, 0.0, 0.125, 0.175, 0.175, 0.125, 0.125, 0.1, 0.075, 0.0]

  /** Piano supplies bands 0..13 only. */
  const PianoGains: seq<real> :=
    [-0.25, -0.25, -0.125, 0.0, 0.25, 0.25, 0.0, -0.25, -0.25, 0.0, 0.0, 0.5, 0.25, -0.025]

  /** `Equalizer.flat()`. */
  function Flat(): Filter { Equalizer(Numbered(FlatGains), "Flat") }
  /** `Equalizer.boost()`. */
  function Boost(): Filter { Equalizer(Numbered(BoostGains), "Boost") }
  /** `Equalizer.metal()`. */
  function Metal(): Filter { Equalizer(Numbered(MetalGains), "Metal") }
  /** `Equalizer.piano()`. */
  function Piano(): Filter { Equalizer(Numbered(PianoGains), "Piano") }

  /** The flat preset: 15 bands numbered 0..14, every gain 0. */
  lemma FlatIsFlat()
    ensures forall i :: 0 <= i < BandCount ==> PayloadOf(Flat())[EqualizerKey].bands[i] == Band(i, 0.0)
  {
    assert forall g :: g in FlatGains ==> g == 0.0;
    FactoryOfOrderedLevels(Numbered(FlatGains));
    forall i | 0 <= i < BandCount
      ensures PayloadOf(Flat())[EqualizerKey].bands[i] == Band(i, 0.0)
    {
      assert FlatGains[i] in FlatGains;
    }
  }

  /** The boost and metal presets name all 15 bands, so each band gets its listed gain. */
  lemma BoostAndMetalGains()
    ensures forall i :: 0 <= i < BandCount ==> PayloadOf(Boost())[EqualizerKey].bands[i] == Band(i, BoostGains[i])
    ensures forall i :: 0 <= i < BandCount ==> PayloadOf(Metal())[EqualizerKey].bands[i] == Band(i, MetalGains[i])
  {
    FactoryOfOrderedLevels(Numbered(BoostGains));
    FactoryOfOrderedLevels(Numbered(MetalGains));
  }

  /** The piano preset: bands 0..13 get their listed gain and band 14, never named, gets 0. */
  lemma PianoBands()
    ensures forall i :: 0 <= i < 14 ==> PayloadOf(Piano())[EqualizerKey].bands[i] == Band(i, PianoGains[i])
    ensures PayloadOf(Piano())[EqualizerKey].bands[14] == Band(14, 0.0)
  {
    var levels := Numbered(PianoGains);
    forall i | 0 <= i < 14
      ensures Factory(levels)[i] == Band(i, PianoGains[i])
    {
      FactoryLastGain(levels, i, i);
    }
    FactoryMissingGain(levels, 14);
  }

  // The messages the constructors raise with.
  const TimescaleSpeedMessage: string := "Timescale speed must be more than 0."
  const TimescalePitchMessage: string := "Timescale pitch must be more than 0."
  const TimescaleRateMessage: string := "Timescale rate must be more than 0."
  const TremoloFrequencyMessage: string := "Tremolo frequency must be more than 0."
  const TremoloDepthMessage: string := "Tremolo depth must be between 0 and 1."
  const VibratoFrequencyMessage: string := "Vibrato frequency must be between 0 and 14."
  const VibratoDepthMessage: string := "Vibrato depth must be between 0 and 1."
  const LeftToLeftMessage: string := "'left_to_left' value must be more than or equal to 0 or less than or equal to 1."
  const RightToRightMessage: string := "'right_to_right' value must be more than or equal to 0 or less than or equal to 1."
  const LeftToRightMessage: string := "'left_to_right' value must be more than or equal to 0 or less than or equal to 1."
  const RightToLeftMessage: string := "'right_to_left' value must be more than or equal to 0 or less than or equal to 1."

  /** `Timescale(speed, pitch, rate)`: speed, then pitch, then rate must not be negative. */
  function Timescale(speed: real := 1.0, pitch: real := 1.0, rate: real := 1.0): (r: Result<Filter, FilterError>)
    ensures r.Ok? <==> InRange(TimescaleFilter(speed, pitch, rate))
    ensures speed < 0.0 ==> r == Err(FilterInvalidArgument(TimescaleSpeedMessage))
    ensures speed >= 0.0 && pitch < 0.0 ==> r == Err(FilterInvalidArgument(TimescalePitchMessage))
    ensures speed >= 0.0 && pitch >= 0.0 && rate < 0.0 ==> r == Err(FilterInvalidArgument(TimescaleRateMessage))
    ensures r.Ok? ==>
              && PayloadOf(r.value).Keys == {TimescaleKey}
              && ValueAt(PayloadOf(r.value), TimescaleKey, Speed) == Some(speed)
              && ValueAt(PayloadOf(r.value), TimescaleKey, Pitch) == Some(pitch)
              && ValueAt(PayloadOf(r.value), TimescaleKey, Rate) == Some(rate)
  {
    if speed < 0.0 then Err(FilterInvalidArgument(TimescaleSpeedMessage))
    else if pitch < 0.0 then Err(FilterInvalidArgument(TimescalePitchMessage))
    else if rate < 0.0 then Err(FilterInvalidArgument(TimescaleRateMessage))
    else Ok(TimescaleFilter(speed, pitch, rate))
  }

  /** `Karaoke(...)`: no validation; the four settings are copied under their camelCase keys. */
  function Karaoke(level: real := 1.0, monoLevel: real := 1.0, filterBand: real := 220.0,
                   filterWidth: real := 100.0): (f: Filter)
    ensures PayloadOf(f).Keys == {KaraokeKey}
    ensures ValueAt(PayloadOf(f), KaraokeKey, Level) == Some(level)
    ensures ValueAt(PayloadOf(f), KaraokeKey, MonoLevel) == Some(monoLevel)
    ensures ValueAt(PayloadOf(f), KaraokeKey, FilterBand) == Some(filterBand)
    ensures ValueAt(PayloadOf(f), KaraokeKey, FilterWidth) == Some(filterWidth)
  {
    KaraokeFilter(level, monoLevel, filterBand, filterWidth)
  }

  /** `Tremolo(frequency, depth)`: frequency not negative, depth within [0, 1]. */
  function Tremolo(frequency: real := 2.0, depth: real := 0.5): (r: Result<Filter, FilterError>)
    ensures r.Ok? <==> InRange(TremoloFilter(frequency, depth))
    ensures frequency < 0.0 ==> r == Err(FilterInvalidArgument(TremoloFrequencyMessage))
    ensures frequency >= 0.0 && (depth < 0.0 || depth > 1.0) ==>
              r == Err(FilterInvalidArgument(TremoloDepthMessage))
    ensures r.Ok? ==>
              && PayloadOf(r.value).Keys == {TremoloKey}
              && ValueAt(PayloadOf(r.value), TremoloKey, Frequency) == Some(frequency)
              && ValueAt(PayloadOf(r.value), TremoloKey, Depth) == Some(depth)
  {
    if frequency < 0.0 then Err(FilterInvalidArgument(TremoloFrequencyMessage))
    else if depth < 0.0 || depth > 1.0 then Err(FilterInvalidArgument(TremoloDepthMessage))
    else Ok(TremoloFilter(frequency, depth))
  }

  /** `Vibrato(frequency, depth)`: frequency within [0, 14], depth within [0, 1]. */
  function Vibrato(frequency: real := 2.0, depth: real := 0.5): (r: Result<Filter, FilterError>)
    ensures r.Ok? <==> InRange(VibratoFilter(frequency, depth))
    ensures (frequency < 0.0 || frequency > 14.0) ==>
              r == Err(FilterInvalidArgument(VibratoFrequencyMessage))
    ensures 0.0 <= frequency <= 14.0 && (depth < 0.0 || depth > 1.0) ==>
              r == Err(FilterInvalidArgument(VibratoDepthMessage))
    ensures r.Ok? ==>
              && PayloadOf(r.value).Keys == {VibratoKey}
              && ValueAt(PayloadOf(r.value), VibratoKey, Frequency) == Some(frequency)
              && ValueAt(PayloadOf(r.value), VibratoKey, Depth) == Some(depth)
  {
    if frequency < 0.0 || frequency > 14.0 then Err(FilterInvalidArgument(VibratoFrequencyMessage))
    else if depth < 0.0 || depth > 1.0 then Err(FilterInvalidArgument(VibratoDepthMessage))
    else Ok(VibratoFilter(frequency, depth))
  }

  /** `Rotation(rotation_hertz)`: copied under `rotationHz`. */
  function Rotation(rotationHertz: real := 0.2): (f: Filter)
    ensures PayloadOf(f).Keys == {RotationKey}
    ensures ValueAt(PayloadOf(f), RotationKey, RotationHz) == Some(rotationHertz)
  {
    RotationFilter(rotationHertz)
  }

  /** `ChannelMix(...)` as written: each guard has the form `0 > x > 1`, which
      no number meets, so construction never fails. */
  function ChannelMix(leftToLeft: real := 1.0, rightToRight: real := 1.0,
                      leftToRight: real := 0.0, rightToLeft: real := 0.0): (r: Result<Filter, FilterError>)
    ensures r.Ok?
    ensures PayloadOf(r.value).Keys == {ChannelMixKey}
    ensures ValueAt(PayloadOf(r.value), ChannelMixKey, LeftToLeft) == Some(leftToLeft)
    ensures ValueAt(PayloadOf(r.value), ChannelMixKey, LeftToRight) == Some(leftToRight)
    ensures ValueAt(PayloadOf(r.value), ChannelMixKey, RightToLeft) == Some(rightToLeft)
    ensures ValueAt(PayloadOf(r.value), ChannelMixKey, RightToRight) == Some(rightToRight)
  {
    if 0.0 > leftToLeft > 1.0 then
      Err(ValueError(LeftToLeftMessage))
    else if 0.0 > rightToRight > 1.0 then
      Err(ValueError(RightToRightMessage))
    else if 0.0 > leftToRight > 1.0 then
      Err(ValueError(LeftToRightMessage))
    else if 0.0 > rightToLeft > 1.0 then
      Err(ValueError(RightToLeftMessage))
    else
      Ok(ChannelMixFilter(leftToLeft, leftToRight, rightToLeft, rightToRight))
  }

  /** The as-written guard lets a ratio outside [0, 1] through. */
  lemma ChannelMixAcceptsOutOfRange()
    ensures ChannelMix(leftToLeft := 2.0).Ok?
    ensures !InRange(ChannelMix(leftToLeft := 2.0).value)
  {
  }

  /** `ChannelMix` with the guard its messages describe (`x < 0 or x > 1`). */
  function ChannelMixChecked(leftToLeft: real := 1.0, rightToRight: real := 1.0,
                             leftToRight: real := 0.0, rightToLeft: real := 0.0): (r: Result<Filter, FilterError>)
    ensures r.Ok? <==> InRange(ChannelMixFilter(leftToLeft, leftToRight, rightToLeft, rightToRight))
    ensures r.Ok? ==> r == ChannelMix(leftToLeft, rightToRight, leftToRight, rightToLeft)
  {
    if !IsRatio(leftToLeft) then
      Err(ValueError(LeftToLeftMessage))
    else if !IsRatio(rightToRight) then
      Err(ValueError(RightToRightMessage))
    else if !IsRatio(leftToRight) then
      Err(ValueError(LeftToRightMessage))
    else if !IsRatio(rightToLeft) then
      Err(ValueError(RightToLeftMessage))
    else
      Ok(ChannelMixFilter(leftToLeft, leftToRight, rightToLeft, rightToRight))
  }

  /** `Distortion(...)`: the eight settings copied under their camelCase keys. */
  function Distortion(sinOffset: real := 0.0, sinScale: real := 1.0, cosOffset: real := 0.0,
                      cosScale: real := 1.0, tanOffset: real := 0.0, tanScale: real := 1.0,
                      offset: real := 0.0, scale: real := 1.0): (f: Filter)
    ensures PayloadOf(f).Keys == {DistortionKey}
    ensures PayloadOf(f)[DistortionKey].values.Keys == SchemaKeys(DistortionKey)
    ensures ValueAt(PayloadOf(f), DistortionKey, SinOffset) == Some(sinOffset)
    ensures ValueAt(PayloadOf(f), DistortionKey, SinScale) == Some(sinScale)
    ensures ValueAt(PayloadOf(f), DistortionKey, CosOffset) == Some(cosOffset)
    ensures ValueAt(PayloadOf(f), DistortionKey, CosScale) == Some(cosScale)
    ensures ValueAt(PayloadOf(f), DistortionKey, TanOffset) == Some(tanOffset)
    ensures ValueAt(PayloadOf(f), DistortionKey, TanScale) == Some(tanScale)
    ensures ValueAt(PayloadOf(f), DistortionKey, Offset) == Some(offset)
    ensures ValueAt(PayloadOf(f), DistortionKey, Scale) == Some(scale)
  {
    DistortionFilter(sinOffset, sinScale, cosOffset, cosScale, tanOffset, tanScale, offset, scale)
  }

  /** `LowPass(smoothing)`: copied under `smoothing`. */
  function LowPass(smoothing: real := 20.0): (f: Filter)
    ensures PayloadOf(f).Keys == {LowPassKey}
    ensures ValueAt(PayloadOf(f), LowPassKey, Smoothing) == Some(smoothing)
  {
    LowPassFilter(smoothing)
  }
}

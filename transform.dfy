/**
 * The transformation editor: the parameter record, its default table, the encoder that turns a
 * record into a `t_…` path segment spliced into the asset path, and the edits the editor makes.
 */
module Transform {
  import opened Wrappers
  import Seqs
  import Strings
  import opened Numbers

  datatype ResizeMode = Scale | Fill | Fit | Crop
  datatype CompressionLevel = High | Medium | Low
  datatype FlipDirection = Horizontal | Vertical | NoFlip
  datatype Effect = Grayscale | Negative | Sepia

  function ModeName(m: ResizeMode): string {
    match m
    case Scale => "scale"
    case Fill => "fill"
    case Fit => "fit"
    case Crop => "crop"
  }

  function CompressionName(c: CompressionLevel): string {
    match c
    case High => "high"
    case Medium => "medium"
    case Low => "low"
  }

  function FlipName(f: FlipDirection): string {
    match f
    case Horizontal => "h"
    case Vertical => "v"
    case NoFlip => "none"
  }

  function EffectName(e: Effect): (name: string)
    ensures name != "" && ',' !in name
  {
    match e
    case Grayscale => "grayscale"
    case Negative => "negative"
    case Sepia => "sepia"
  }

  datatype ResizeParams = ResizeParams(width: Num, height: Num)

  datatype Params = Params(
    resize: ResizeParams,
    mode: ResizeMode,
    format: string,
    quality: Num,
    compression: CompressionLevel,
    effects: seq<Effect>,
    blur: Num,
    brightness: Num,
    contrast: Num,
    saturation: Num,
    hue: Num,
    radius: Num,
    rotate: Num,
    flip: FlipDirection,
    border: Num,
    borderColor: string,
    background: string,
    opacity: Num,
    noise: Num,
    median: Num,
    threshold: Num)

  // The default table, one constant per knob: a knob is encoded only when it differs from its default.
  const DefaultWidth := Int(800)
  const DefaultHeight := Int(600)
  const DefaultMode := Fit
  const DefaultFormat := "jpeg"
  const DefaultQuality := Int(80)
  const DefaultCompression := High
  const DefaultBlur := Int(0)
  const DefaultBrightness := Int(0)
  const DefaultContrast := Int(0)
  const DefaultSaturation := Int(0)
  const DefaultHue := Int(0)
  const DefaultRadius := Int(0)
  const DefaultRotate := Int(0)
  const DefaultFlip := NoFlip
  const DefaultBorder := Int(0)
  const DefaultBorderColor := "#FFFFFF"
  const DefaultBackground := "#FFFFFF"
  const DefaultOpacity := Int(1)
  const DefaultNoise := Int(0)
  const DefaultMedian := Int(0)
  const DefaultThreshold := Int(128)

  /** The default record, with no effect selected. */
  const Defaults := Params(
    resize := ResizeParams(DefaultWidth, DefaultHeight),
    mode := DefaultMode,
    format := DefaultFormat,
    quality := DefaultQuality,
    compression := DefaultCompression,
    effects := [],
    blur := DefaultBlur,
    brightness := DefaultBrightness,
    contrast := DefaultContrast,
    saturation := DefaultSaturation,
    hue := DefaultHue,
    radius := DefaultRadius,
    rotate := DefaultRotate,
    flip := DefaultFlip,
    border := DefaultBorder,
    borderColor := DefaultBorderColor,
    background := DefaultBackground,
    opacity := DefaultOpacity,
    noise := DefaultNoise,
    median := DefaultMedian,
    threshold := DefaultThreshold)

  /** The record a freshly opened editor starts from. */
  const InitialParams := Params(
    resize := ResizeParams(Int(800), Int(600)),
    format := "jpeg",
    mode := Fit,
    quality := Int(100),
    blur := Int(0),
    compression := High,
    effects := [],
    brightness := Int(0),
    contrast := Int(0),
    saturation := Int(0),
    hue := Int(0),
    radius := Int(0),
    rotate := Int(0),
    flip := NoFlip,
    border := Int(0),
    borderColor := "#FFFFFF",
    background := "#FFFFFF",
    opacity := Int(1),
    noise := Int(0),
    median := Int(0),
    threshold := Int(128))

  /** The encoded knobs, one per check the encoder makes. */
  datatype Knob =
    | Width | Height | Mode | Blur | Format | Quality | Compression
    | Brightness | Contrast | Saturation | Hue | Radius | Rotate | Flip
    | Effects | Border | BorderColor | Background | Opacity | Noise | Median | Threshold

  /** Position of a knob among the encoder's checks. */
  function Rank(k: Knob): nat {
    match k
    case Width => 0 case Height => 1 case Mode => 2 case Blur => 3 case Format => 4
    case Quality => 5 case Compression => 6 case Brightness => 7 case Contrast => 8
    case Saturation => 9 case Hue => 10 case Radius => 11 case Rotate => 12 case Flip => 13
    case Effects => 14 case Border => 15 case BorderColor => 16 case Background => 17
    case Opacity => 18 case Noise => 19 case Median => 20 case Threshold => 21
  }

  /** Different knobs have different positions. */
  lemma RankInjective(a: Knob, b: Knob)
    requires Rank(a) == Rank(b)
    ensures a == b
  {
  }

  predicate HasAnyEffect(effects: seq<Effect>) {
    Grayscale in effects || Negative in effects || Sepia in effects
  }

  /** Whether the encoder emits a token for knob `k` of `p`. */
  predicate Deviates(p: Params, k: Knob) {
    match k
    case Width => p.resize.width != DefaultWidth
    case Height => p.resize.height != DefaultHeight
    case Mode => p.mode != DefaultMode
    case Blur => p.blur != DefaultBlur
    case Format => p.format != DefaultFormat
    case Quality => p.quality != DefaultQuality
    case Compression => p.compression != DefaultCompression
    case Brightness => p.brightness != DefaultBrightness
    case Contrast => p.contrast != DefaultContrast
    case Saturation => p.saturation != DefaultSaturation
    case Hue => p.hue != DefaultHue
    case Radius => p.radius != DefaultRadius
    case Rotate => p.rotate != DefaultRotate
    case Flip => p.flip != DefaultFlip
    case Effects => HasAnyEffect(p.effects)
    case Border => p.border != DefaultBorder
    case BorderColor => p.borderColor != DefaultBorderColor
    case Background => p.background != DefaultBackground
    case Opacity => p.opacity != DefaultOpacity
    case Noise => p.noise != DefaultNoise
    case Median => p.median != DefaultMedian
    case Threshold => p.threshold != DefaultThreshold
  }

  /** The effects check fires exactly when the list is not the default empty one. */
  lemma EffectsNonEmpty(effects: seq<Effect>)
    ensures HasAnyEffect(effects) <==> effects != []
  {
    if effects != [] {
      assert effects[0] in effects;
      match effects[0]
      case Grayscale =>
      case Negative =>
      case Sepia =>
    }
  }

  /** The default record deviates nowhere: encoding it adds no token. */
  lemma DefaultsDeviateNowhere(k: Knob)
    ensures !Deviates(Defaults, k)
  {
  }

  /** A record that deviates at no knob is the default record. */
  lemma NoDeviationIsDefaults(p: Params)
    requires forall k :: !Deviates(p, k)
    ensures p == Defaults
  {
    EffectsNonEmpty(p.effects);
    AtDefaultSize(p);
    AtDefaultOutput(p);
    AtDefaultColour(p);
    AtDefaultShape(p);
    AtDefaultFinish(p);
  }

  lemma AtDefaultSize(p: Params)
    requires forall k :: !Deviates(p, k)
    ensures p.resize == ResizeParams(DefaultWidth, DefaultHeight) && p.mode == DefaultMode && p.blur == DefaultBlur
  {
    assert !Deviates(p, Width) && !Deviates(p, Height) && !Deviates(p, Mode) && !Deviates(p, Blur);
  }

  lemma AtDefaultOutput(p: Params)
    requires forall k :: !Deviates(p, k)
    ensures p.format == DefaultFormat && p.quality == DefaultQuality && p.compression == DefaultCompression
    ensures p.brightness == DefaultBrightness
  {
    assert !Deviates(p, Format) && !Deviates(p, Quality) && !Deviates(p, Compression) && !Deviates(p, Brightness);
  }

  lemma AtDefaultColour(p: Params)
    requires forall k :: !Deviates(p, k)
    ensures p.contrast == DefaultContrast && p.saturation == DefaultSaturation && p.hue == DefaultHue
    ensures p.radius == DefaultRadius && p.rotate == DefaultRotate
  {
    assert !Deviates(p, Contrast) && !Deviates(p, Saturation) && !Deviates(p, Hue);
    assert !Deviates(p, Radius) && !Deviates(p, Rotate);
  }

  lemma AtDefaultShape(p: Params)
    requires forall k :: !Deviates(p, k)
    ensures p.flip == DefaultFlip && !HasAnyEffect(p.effects) && p.border == DefaultBorder
    ensures p.borderColor == DefaultBorderColor
  {
    assert !Deviates(p, Flip) && !Deviates(p, Effects) && !Deviates(p, Border) && !Deviates(p, BorderColor);
  }

  lemma AtDefaultFinish(p: Params)
    requires forall k :: !Deviates(p, k)
    ensures p.background == DefaultBackground && p.opacity == DefaultOpacity && p.noise == DefaultNoise
    ensures p.median == DefaultMedian && p.threshold == DefaultThreshold
  {
    assert !Deviates(p, Background) && !Deviates(p, Opacity) && !Deviates(p, Noise);
    assert !Deviates(p, Median) && !Deviates(p, Threshold);
  }

  /** `${effects}`: the effect names comma-joined in stored order. */
  function EffectNames(effects: seq<Effect>): (names: seq<string>)
    ensures |names| == |effects|
    ensures forall i :: 0 <= i < |effects| ==> names[i] == EffectName(effects[i])
  {
    seq(|effects|, i requires 0 <= i < |effects| => EffectName(effects[i]))
  }

  /** The `key-value` token for knob `k` of `p`. */
  function Token(p: Params, k: Knob): string {
    match k
    case Width => "w-" + Show(p.resize.width)
    case Height => "h-" + Show(p.resize.height)
    case Mode => "mode-" + ModeName(p.mode)
    case Blur => "blur-" + Show(p.blur)
    case Format => "f-" + p.format
    case Quality => "q-" + Show(p.quality)
    case Compression => "comp-" + CompressionName(p.compression)
    case Brightness => "bright-" + Show(p.brightness)
    case Contrast => "cont-" + Show(p.contrast)
    case Saturation => "sat-" + Show(p.saturation)
    case Hue => "hue-" + Show(p.hue)
    case Radius => "r-" + Show(p.radius)
    case Rotate => "rot-" + Show(p.rotate)
    case Flip => "flip-" + FlipName(p.flip)
    case Effects => "e-" + Strings.Join(EffectNames(p.effects), ",")
    case Border => "b-" + Show(p.border)
    case BorderColor => "bc-" + Strings.RemoveFirst(p.borderColor, '#')
    case Background => "bg-" + Strings.RemoveFirst(p.background, '#')
    case Opacity => "op-" + Show(p.opacity)
    case Noise => "noise-" + Show(p.noise)
    case Median => "median-" + Show(p.median)
    case Threshold => "thr-" + Show(p.threshold)
  }

  /** One check of the encoder: push the knob's token when it deviates. */
  function Emit(segments: seq<string>, p: Params, k: Knob): seq<string> {
    if Deviates(p, k) then segments + [Token(p, k)] else segments
  }

  /** The knob checked just before `k`. */
  function Previous(k: Knob): Knob
    requires k != Width
  {
    match k
    case Height => Width
    case Mode => Height
    case Blur => Mode
    case Format => Blur
    case Quality => Format
    case Compression => Quality
    case Brightness => Compression
    case Contrast => Brightness
    case Saturation => Contrast
    case Hue => Saturation
    case Radius => Hue
    case Rotate => Radius
    case Flip => Rotate
    case Effects => Flip
    case Border => Effects
    case BorderColor => Border
    case Background => BorderColor
    case Opacity => Background
    case Noise => Opacity
    case Median => Noise
    case Threshold => Median
  }

  /** The encoder's `segments` array once it has checked knob `k` and every knob before it. */
  function Segments(p: Params, k: Knob): seq<string>
    decreases Rank(k)
  {
    var before := if k == Width then ["t"] else Segments(p, Previous(k));
    Emit(before, p, k)
  }

  function Keep(p: Params): Knob -> bool {
    k => Deviates(p, k)
  }

  /** The deviating knobs, in the order the encoder checks them. */
  function Emitted(p: Params): seq<Knob> {
    Seqs.Filter(KnobsUpTo(Threshold), Keep(p))
  }

  function TokensFor(p: Params, ks: seq<Knob>): (tokens: seq<string>)
    ensures |tokens| == |ks|
    ensures forall i :: 0 <= i < |ks| ==> tokens[i] == Token(p, ks[i])
  {
    seq(|ks|, i requires 0 <= i < |ks| => Token(p, ks[i]))
  }

  lemma PreviousRank(k: Knob)
    requires k != Width
    ensures Rank(Previous(k)) + 1 == Rank(k)
  {
  }

  /** The knobs checked up to and including `k`, in the encoder's order. */
  function KnobsUpTo(k: Knob): (ks: seq<Knob>)
    decreases Rank(k)
  {
    if k == Width then [Width] else KnobsUpTo(Previous(k)) + [k]
  }

  /** The checks up to `k` visit the knobs of positions 0 to `Rank(k)`, one each, in that order. */
  lemma {:induction false} KnobsUpToRanks(k: Knob)
    ensures |KnobsUpTo(k)| == Rank(k) + 1
    ensures forall i :: 0 <= i < |KnobsUpTo(k)| ==> Rank(KnobsUpTo(k)[i]) == i
    decreases Rank(k)
  {
    if k != Width {
      PreviousRank(k);
      KnobsUpToRanks(Previous(k));
    }
  }

  /** The encoder checks every knob. */
  lemma AllKnobsChecked(k: Knob)
    ensures k in KnobsUpTo(Threshold)
  {
    KnobsUpToRanks(Threshold);
    RankInjective(KnobsUpTo(Threshold)[Rank(k)], k);
  }

  lemma {:induction false} TokensForAppend(p: Params, a: seq<Knob>, b: seq<Knob>)
    ensures TokensFor(p, a + b) == TokensFor(p, a) + TokensFor(p, b)
  {
    assert forall i :: 0 <= i < |a + b| ==> (a + b)[i] == if i < |a| then a[i] else b[i - |a|];
  }

  /** One check appends the knob's token exactly when the knob is kept. */
  lemma {:induction false} EmitExtends(p: Params, ks: seq<Knob>, k: Knob)
    ensures Emit(["t"] + TokensFor(p, Seqs.Filter(ks, Keep(p))), p, k)
         == ["t"] + TokensFor(p, Seqs.Filter(ks + [k], Keep(p)))
  {
    var kept := Seqs.Filter([k], Keep(p));
    assert kept == if Deviates(p, k) then [k] else [];
    assert TokensFor(p, kept) == if Deviates(p, k) then [Token(p, k)] else [];
    Seqs.FilterAppend(ks, [k], Keep(p));
    TokensForAppend(p, Seqs.Filter(ks, Keep(p)), kept);
  }

  /** After the check of `k`, `segments` holds "t" and then the tokens of the deviating knobs up to `k`, in order. */
  lemma {:induction false} SegmentsSpec(p: Params, k: Knob)
    ensures Segments(p, k) == ["t"] + TokensFor(p, Seqs.Filter(KnobsUpTo(k), Keep(p)))
    decreases Rank(k)
  {
    if k == Width {
      EmitExtends(p, [], k);
      assert [] + [k] == KnobsUpTo(k);
    } else {
      PreviousRank(k);
      SegmentsSpec(p, Previous(k));
      EmitExtends(p, KnobsUpTo(Previous(k)), k);
    }
  }

  /** The encoder's final `segments`: "t" and the tokens of exactly the deviating knobs, in check order. */
  lemma EncodedSegments(p: Params)
    ensures Segments(p, Threshold) == ["t"] + TokensFor(p, Emitted(p))
  {
    SegmentsSpec(p, Threshold);
  }

  /** A knob has a token exactly when it deviates from its default. */
  lemma EmittedExactly(p: Params, k: Knob)
    ensures k in Emitted(p) <==> Deviates(p, k)
  {
    AllKnobsChecked(k);
  }

  /** Tokens come in the order of the encoder's checks, whatever record they come from. */
  lemma EmittedInOrder(p: Params)
    ensures forall i, j :: 0 <= i < j < |Emitted(p)| ==> Rank(Emitted(p)[i]) < Rank(Emitted(p)[j])
  {
    var ks := KnobsUpTo(Threshold);
    var rank := (k: Knob) => Rank(k);
    KnobsUpToRanks(Threshold);
    assert forall i, j :: 0 <= i < j < |ks| ==> rank(ks[i]) < rank(ks[j]);
    Seqs.FilterKeepsOrder(ks, Keep(p), rank);
  }

  /** The `t_…` segment, or "" when nothing was pushed after "t". */
  function TransformString(segments: seq<string>): string {
    if |segments| > 1 then Strings.Join(segments, "_") else ""
  }

  /** The encoder adds no token at all exactly when the record is the default one. */
  lemma NoTokensIffDefaults(p: Params)
    ensures Segments(p, Threshold) == ["t"] <==> p == Defaults
  {
    EncodedSegments(p);
    var ks := KnobsUpTo(Threshold);
    if p == Defaults {
      forall i | 0 <= i < |ks|
        ensures !Keep(p)(ks[i])
      {
        DefaultsDeviateNowhere(ks[i]);
      }
      Seqs.FilterNone(ks, Keep(p));
    }
    if Segments(p, Threshold) == ["t"] {
      assert Emitted(p) == [];
      forall k
        ensures !Deviates(p, k)
      {
        EmittedExactly(p, k);
      }
      NoDeviationIsDefaults(p);
    }
  }

  lemma TaggedJoin(tokens: seq<string>)
    requires tokens != []
    ensures TransformString(["t"] + tokens) == "t_" + Strings.Join(tokens, "_")
  {
    assert (["t"] + tokens)[1..] == tokens;
  }

  /** When something was pushed, the transform string is "t_" followed by the tokens joined with "_". */
  lemma TransformStringShape(p: Params)
    requires p != Defaults
    ensures TransformString(Segments(p, Threshold)) == "t_" + Strings.Join(TokensFor(p, Emitted(p)), "_")
  {
    EncodedSegments(p);
    NoTokensIffDefaults(p);
    TaggedJoin(TokensFor(p, Emitted(p)));
  }

  /** When exactly one knob deviates, the encoder emits exactly its token. */
  lemma SingleDeviation(p: Params, k0: Knob)
    requires forall k :: Deviates(p, k) <==> k == k0
    ensures Emitted(p) == [k0]
    ensures Segments(p, Threshold) == ["t", Token(p, k0)]
    ensures TransformString(Segments(p, Threshold)) == "t_" + Token(p, k0)
  {
    var e := Emitted(p);
    EmittedExactly(p, k0);
    if |e| > 1 {
      EmittedInOrder(p);
      EmittedExactly(p, e[0]);
      EmittedExactly(p, e[1]);
      assert false;
    }
    assert e[0] in e;
    EmittedExactly(p, e[0]);
    EncodedSegments(p);
    OneTokenString(Token(p, k0));
  }

  /** A freshly opened editor differs from the default table only in its quality. */
  lemma InitialDiffersOnlyInQuality()
    ensures InitialParams == Defaults.(quality := Int(100))
  {
  }

  /** Of a freshly opened editor's knobs, only the quality deviates. */
  lemma InitialDeviatesOnlyInQuality()
    ensures forall k :: Deviates(InitialParams, k) <==> k == Quality
  {
  }

  lemma ShowHundred()
    ensures Show(Int(100)) == "100"
  {
    ShowInt(100);
    assert Strings.NatToString(10) == "10";
  }

  /** The first encoding of a freshly opened editor is the single token "q-100". */
  lemma InitialEncoding()
    ensures Segments(InitialParams, Threshold) == ["t", "q-100"]
    ensures TransformString(Segments(InitialParams, Threshold)) == "t_q-100"
  {
    InitialSegments();
    InitialQualityToken();
    OneTokenString("q-100");
  }

  lemma InitialSegments()
    ensures Segments(InitialParams, Threshold) == ["t", Token(InitialParams, Quality)]
  {
    InitialDeviatesOnlyInQuality();
    SingleDeviation(InitialParams, Quality);
  }

  lemma InitialQualityToken()
    ensures Token(InitialParams, Quality) == "q-100"
  {
    QualityToken(InitialParams, 100);
    ShowHundred();
  }

  lemma QualityToken(p: Params, q: int)
    requires p.quality == Int(q)
    ensures Token(p, Quality) == "q-" + Show(Int(q))
  {
  }

  lemma OneTokenString(token: string)
    ensures TransformString(["t", token]) == "t_" + token
  {
    TaggedJoin([token]);
  }

  /** `parts.splice(-1, 0, x)`: `x` goes in front of the last part, or alone into an empty list. */
  function InsertBeforeLast(parts: seq<string>, x: string): (r: seq<string>)
    ensures |r| == |parts| + 1
    ensures |parts| == 0 ==> r == [x]
    ensures |parts| > 0 ==> r[|r| - 2] == x && r[|r| - 1] == parts[|parts| - 1]
    ensures |parts| > 0 ==> r[..|r| - 2] == parts[..|parts| - 1]
    ensures forall y :: y in r <==> y in parts || y == x
  {
    if |parts| == 0 then [x]
    else
      var r := parts[..|parts| - 1] + [x] + [parts[|parts| - 1]];
      assert parts == parts[..|parts| - 1] + [parts[|parts| - 1]];
      r
  }

  datatype UrlError = InvalidUrl

  /** The path the encoder returns, given its final `segments` and the pathname of the image URL. */
  function SplicedPath(segments: seq<string>, pathname: string): string {
    var pathSegments := Strings.NonEmptyParts(pathname, '/');
    var spliced := if |segments| > 1 then InsertBeforeLast(pathSegments, TransformString(segments)) else pathSegments;
    "/" + Strings.Join(spliced, "/")
  }

  /**
   * The encoder's outcome. `parse` stands for URL parsing: it returns the pathname of a URL, or
   * None where constructing the URL throws.
   */
  function ConvertedUrl(p: Params, imageUrl: string, parse: string -> Option<string>): Result<string, UrlError> {
    match parse(imageUrl)
    case None => Failure(InvalidUrl)
    case Some(pathname) => Success(SplicedPath(Segments(p, Threshold), pathname))
  }

  /** Read back as segments, the result is the leading "" and the spliced segments, when no token holds a '/'. */
  lemma SplicedPathSegments(segments: seq<string>, pathname: string)
    requires |segments| > 1
    requires '/' !in TransformString(segments)
    ensures Strings.Split(SplicedPath(segments, pathname), '/')
         == [""] + InsertBeforeLast(Strings.NonEmptyParts(pathname, '/'), TransformString(segments))
  {
    var parts := Strings.NonEmptyParts(pathname, '/');
    var spliced := InsertBeforeLast(parts, TransformString(segments));
    assert forall i :: 0 <= i < |spliced| ==> '/' !in spliced[i] by {
      assert forall i :: 0 <= i < |spliced| ==> spliced[i] in spliced;
    }
    assert ([""] + spliced)[1..] == spliced;
    Strings.SplitJoin([""] + spliced, '/');
  }

  /** A record at its defaults keeps the path, only dropping empty segments; an unparsable URL fails. */
  lemma DefaultsKeepPath(imageUrl: string, parse: string -> Option<string>)
    ensures ConvertedUrl(Defaults, imageUrl, parse) == match parse(imageUrl)
      case None => Failure(InvalidUrl)
      case Some(pathname) => Success("/" + Strings.Join(Strings.NonEmptyParts(pathname, '/'), "/"))
  {
    NoTokensIffDefaults(Defaults);
  }

  /** Any other record gets "t_" and its tokens inserted in front of the last path segment. */
  lemma DeviationInsertsSegment(p: Params, imageUrl: string, parse: string -> Option<string>, pathname: string)
    requires p != Defaults
    requires parse(imageUrl) == Some(pathname)
    ensures ConvertedUrl(p, imageUrl, parse) == Success("/" + Strings.Join(InsertBeforeLast(
      Strings.NonEmptyParts(pathname, '/'), "t_" + Strings.Join(TokensFor(p, Emitted(p)), "_")), "/"))
  {
    NoTokensIffDefaults(p);
    TransformStringShape(p);
  }

  /** The name of an effect, read back. */
  function EffectNamed(name: string): (e: Option<Effect>)
    ensures e.Some? ==> EffectName(e.value) == name
  {
    if name == "grayscale" then Some(Grayscale)
    else if name == "negative" then Some(Negative)
    else if name == "sepia" then Some(Sepia)
    else None
  }

  lemma EffectNameRoundTrip(e: Effect)
    ensures EffectNamed(EffectName(e)) == Some(e)
  {
  }

  /** The `e-` value splits at ',' into the effects' names, in stored order, duplicates included. */
  lemma EffectsTokenNames(effects: seq<Effect>)
    requires effects != []
    ensures Strings.Split(Strings.Join(EffectNames(effects), ","), ',') == EffectNames(effects)
  {
    Strings.SplitJoin(EffectNames(effects), ',');
  }

  /** A border colour written with a leading '#' is encoded without it; an example is "#112233". */
  lemma BorderColorToken(p: Params)
    requires |p.borderColor| > 0 && p.borderColor[0] == '#'
    ensures Token(p, BorderColor) == "bc-" + p.borderColor[1..]
    ensures p.borderColor == "#112233" ==> Token(p, BorderColor) == "bc-112233"
  {
  }

  /** The same for the background colour. */
  lemma BackgroundToken(p: Params)
    requires |p.background| > 0 && p.background[0] == '#'
    ensures Token(p, Background) == "bg-" + p.background[1..]
  {
  }

  // The editor's edits

  /** `handleInputChange(field, value)`: one top-level field of the record and its new value. */
  datatype Setting =
    | SetResize(ResizeParams)
    | SetMode(ResizeMode)
    | SetFormat(string)
    | SetQuality(Num)
    | SetCompression(CompressionLevel)
    | SetEffects(seq<Effect>)
    | SetBlur(Num)
    | SetBrightness(Num)
    | SetContrast(Num)
    | SetSaturation(Num)
    | SetHue(Num)
    | SetRadius(Num)
    | SetRotate(Num)
    | SetFlip(FlipDirection)
    | SetBorder(Num)
    | SetBorderColor(string)
    | SetBackground(string)
    | SetOpacity(Num)
    | SetNoise(Num)
    | SetMedian(Num)
    | SetThreshold(Num)

  /** The record after `handleInputChange`: `{...prev, [field]: value}`. */
  function ApplySetting(p: Params, s: Setting): Params {
    match s
    case SetResize(v) => p.(resize := v)
    case SetMode(v) => p.(mode := v)
    case SetFormat(v) => p.(format := v)
    case SetQuality(v) => p.(quality := v)
    case SetCompression(v) => p.(compression := v)
    case SetEffects(v) => p.(effects := v)
    case SetBlur(v) => p.(blur := v)
    case SetBrightness(v) => p.(brightness := v)
    case SetContrast(v) => p.(contrast := v)
    case SetSaturation(v) => p.(saturation := v)
    case SetHue(v) => p.(hue := v)
    case SetRadius(v) => p.(radius := v)
    case SetRotate(v) => p.(rotate := v)
    case SetFlip(v) => p.(flip := v)
    case SetBorder(v) => p.(border := v)
    case SetBorderColor(v) => p.(borderColor := v)
    case SetBackground(v) => p.(background := v)
    case SetOpacity(v) => p.(opacity := v)
    case SetNoise(v) => p.(noise := v)
    case SetMedian(v) => p.(median := v)
    case SetThreshold(v) => p.(threshold := v)
  }

  /** The setting that names the same field as `s`, holding the value `p` has there. */
  function CurrentSetting(p: Params, s: Setting): (c: Setting)
    ensures c.SetResize? == s.SetResize? && c.SetEffects? == s.SetEffects?
  {
    match s
    case SetResize(_) => SetResize(p.resize)
    case SetMode(_) => SetMode(p.mode)
    case SetFormat(_) => SetFormat(p.format)
    case SetQuality(_) => SetQuality(p.quality)
    case SetCompression(_) => SetCompression(p.compression)
    case SetEffects(_) => SetEffects(p.effects)
    case SetBlur(_) => SetBlur(p.blur)
    case SetBrightness(_) => SetBrightness(p.brightness)
    case SetContrast(_) => SetContrast(p.contrast)
    case SetSaturation(_) => SetSaturation(p.saturation)
    case SetHue(_) => SetHue(p.hue)
    case SetRadius(_) => SetRadius(p.radius)
    case SetRotate(_) => SetRotate(p.rotate)
    case SetFlip(_) => SetFlip(p.flip)
    case SetBorder(_) => SetBorder(p.border)
    case SetBorderColor(_) => SetBorderColor(p.borderColor)
    case SetBackground(_) => SetBackground(p.background)
    case SetOpacity(_) => SetOpacity(p.opacity)
    case SetNoise(_) => SetNoise(p.noise)
    case SetMedian(_) => SetMedian(p.median)
    case SetThreshold(_) => SetThreshold(p.threshold)
  }

  /** The knobs whose check reads the field a setting names. */
  predicate Writes(s: Setting, k: Knob) {
    match s
    case SetResize(_) => k == Width || k == Height
    case SetMode(_) => k == Mode
    case SetFormat(_) => k == Format
    case SetQuality(_) => k == Quality
    case SetCompression(_) => k == Compression
    case SetEffects(_) => k == Effects
    case SetBlur(_) => k == Blur
    case SetBrightness(_) => k == Brightness
    case SetContrast(_) => k == Contrast
    case SetSaturation(_) => k == Saturation
    case SetHue(_) => k == Hue
    case SetRadius(_) => k == Radius
    case SetRotate(_) => k == Rotate
    case SetFlip(_) => k == Flip
    case SetBorder(_) => k == Border
    case SetBorderColor(_) => k == BorderColor
    case SetBackground(_) => k == Background
    case SetOpacity(_) => k == Opacity
    case SetNoise(_) => k == Noise
    case SetMedian(_) => k == Median
    case SetThreshold(_) => k == Threshold
  }

  /** After the edit the named field holds the new value. */
  lemma SettingTakesEffect(p: Params, s: Setting)
    ensures CurrentSetting(ApplySetting(p, s), s) == s
  {
  }

  /** Writing back the value a field already holds changes nothing. */
  lemma SettingOwnValue(p: Params, s: Setting)
    ensures ApplySetting(p, CurrentSetting(p, s)) == p
  {
  }

  /** `p` and `q` agree on the field that knob `k` is read from. */
  predicate SameField(p: Params, q: Params, k: Knob) {
    match k
    case Width => p.resize.width == q.resize.width
    case Height => p.resize.height == q.resize.height
    case Mode => p.mode == q.mode
    case Blur => p.blur == q.blur
    case Format => p.format == q.format
    case Quality => p.quality == q.quality
    case Compression => p.compression == q.compression
    case Brightness => p.brightness == q.brightness
    case Contrast => p.contrast == q.contrast
    case Saturation => p.saturation == q.saturation
    case Hue => p.hue == q.hue
    case Radius => p.radius == q.radius
    case Rotate => p.rotate == q.rotate
    case Flip => p.flip == q.flip
    case Effects => p.effects == q.effects
    case Border => p.border == q.border
    case BorderColor => p.borderColor == q.borderColor
    case Background => p.background == q.background
    case Opacity => p.opacity == q.opacity
    case Noise => p.noise == q.noise
    case Median => p.median == q.median
    case Threshold => p.threshold == q.threshold
  }

  /** A knob's check and token read nothing but the knob's own field. */
  lemma KnobReadsOnlyItsField(p: Params, q: Params, k: Knob)
    requires SameField(p, q, k)
    ensures Deviates(p, k) == Deviates(q, k)
    ensures Token(p, k) == Token(q, k)
  {
  }

  /** An edit keeps every field it does not name. */
  lemma SettingKeepsOtherFields(p: Params, s: Setting, k: Knob)
    requires !Writes(s, k)
    ensures SameField(ApplySetting(p, s), p, k)
  {
  }

  /** So an edit leaves the check and the token of every knob it does not name as they were. */
  lemma SettingKeepsOtherTokens(p: Params, s: Setting, k: Knob)
    requires !Writes(s, k)
    ensures Deviates(ApplySetting(p, s), k) == Deviates(p, k)
    ensures Token(ApplySetting(p, s), k) == Token(p, k)
  {
    SettingKeepsOtherFields(p, s, k);
    KnobReadsOnlyItsField(ApplySetting(p, s), p, k);
  }

  datatype Dimension = WidthSide | HeightSide

  /** `handleNestedChange("resize", subfield, value)`: sets one side and keeps the other and every other field. */
  function ApplyDimension(p: Params, d: Dimension, v: Num): (q: Params)
    ensures q.resize.width == if d == WidthSide then v else p.resize.width
    ensures q.resize.height == if d == HeightSide then v else p.resize.height
    ensures q == p.(resize := q.resize)
  {
    match d
    case WidthSide => p.(resize := ResizeParams(v, p.resize.height))
    case HeightSide => p.(resize := ResizeParams(p.resize.width, v))
  }

  /** A change of one side is the resize setting with the other side kept. */
  lemma DimensionIsResizeSetting(p: Params, d: Dimension, v: Num)
    ensures ApplyDimension(p, d, v) == ApplySetting(p, SetResize(
      if d == WidthSide then ResizeParams(v, p.resize.height) else ResizeParams(p.resize.width, v)))
  {
  }

  /** The effects checkbox's `checked`: some stored effect equals `e`. */
  predicate EffectChecked(effects: seq<Effect>, e: Effect) {
    |Seqs.Filter(effects, (x: Effect) => x == e)| > 0
  }

  lemma EffectCheckedIffIn(effects: seq<Effect>, e: Effect)
    ensures EffectChecked(effects, e) <==> e in effects
  {
    var hits := Seqs.Filter(effects, (x: Effect) => x == e);
    if e in effects {
      assert e in hits;
    }
    if |hits| > 0 {
      assert hits[0] in hits;
    }
  }

  /** The effects checkbox's change handler: checking appends `e`, unchecking removes every `e`. */
  function ToggleEffect(effects: seq<Effect>, e: Effect, checked: bool): (r: seq<Effect>)
    ensures checked ==> r == effects + [e]
    ensures !checked ==> e !in r
    ensures !checked ==> forall x :: x in r <==> x in effects && x != e
  {
    if checked then effects + [e] else Seqs.Filter(effects, (x: Effect) => x != e)
  }

  /** Unchecking keeps every other effect as often as it was stored. */
  lemma UncheckKeepsOthers(effects: seq<Effect>, e: Effect, x: Effect)
    requires x != e
    ensures multiset(ToggleEffect(effects, e, false))[x] == multiset(effects)[x]
  {
    Seqs.FilterCounts(effects, (y: Effect) => y != e);
  }

  /** Unchecking keeps the relative order: it acts on each part of the list separately. */
  lemma UncheckKeepsOrder(a: seq<Effect>, b: seq<Effect>, e: Effect)
    ensures ToggleEffect(a + b, e, false) == ToggleEffect(a, e, false) + ToggleEffect(b, e, false)
  {
    Seqs.FilterAppend(a, b, (y: Effect) => y != e);
  }

  /** After a toggle the checkbox shows the state it was toggled to. */
  lemma ToggleShows(effects: seq<Effect>, e: Effect, checked: bool)
    ensures EffectChecked(ToggleEffect(effects, e, checked), e) == checked
  {
    EffectCheckedIffIn(ToggleEffect(effects, e, checked), e);
  }

  /**
   * `handleUserPrompt`: the generated text is used only when it contains "t_", as the path
   * `/bucketId/text/fileKey`. `None` stands for a reply that is `undefined`.
   */
  function PromptPath(bucketId: string, reply: Option<string>, fileKey: string): (path: Option<string>)
    ensures path.Some? <==> reply.Some? && exists i :: Strings.OccursAt(reply.value, "t_", i)
    ensures path.Some? ==> path.value == "/" + bucketId + "/" + reply.value + "/" + fileKey
  {
    match reply
    case None => None
    case Some(text) =>
      Strings.ContainsAt(text, "t_");
      if Strings.Contains(text, "t_") then Some("/" + bucketId + "/" + text + "/" + fileKey) else None
  }

  /** Each check extends the array the checks before it left. */
  lemma SegmentsStep(p: Params, prev: Knob, k: Knob)
    requires k != Width && Previous(k) == prev
    ensures Segments(p, k) == Emit(Segments(p, prev), p, k)
  {
  }

  // The array after each group of checks, in terms of the array before the group.

  lemma ResizeSegments(p: Params)
    ensures Segments(p, Height) == Emit(Emit(["t"], p, Width), p, Height)
  {
  }

  lemma ModeSegments(p: Params)
    ensures Segments(p, Blur) == Emit(Emit(Segments(p, Height), p, Mode), p, Blur)
  {
    assert Previous(Mode) == Height && Previous(Blur) == Mode;
    SegmentsStep(p, Height, Mode);
    SegmentsStep(p, Mode, Blur);
  }

  lemma OutputSegments(p: Params)
    ensures Segments(p, Compression) == Emit(Emit(Emit(Segments(p, Blur), p, Format), p, Quality), p, Compression)
  {
    assert Previous(Format) == Blur && Previous(Quality) == Format && Previous(Compression) == Quality;
    SegmentsStep(p, Blur, Format);
    SegmentsStep(p, Format, Quality);
    SegmentsStep(p, Quality, Compression);
  }

  lemma ColourSegments(p: Params)
    ensures Segments(p, Hue) == Emit(Emit(Emit(Emit(Segments(p, Compression), p, Brightness), p, Contrast), p, Saturation), p, Hue)
  {
    assert Previous(Brightness) == Compression && Previous(Contrast) == Brightness && Previous(Saturation) == Contrast && Previous(Hue) == Saturation;
    SegmentsStep(p, Compression, Brightness);
    SegmentsStep(p, Brightness, Contrast);
    SegmentsStep(p, Contrast, Saturation);
    SegmentsStep(p, Saturation, Hue);
  }

  lemma ShapeSegments(p: Params)
    ensures Segments(p, Rotate) == Emit(Emit(Segments(p, Hue), p, Radius), p, Rotate)
  {
    assert Previous(Radius) == Hue && Previous(Rotate) == Radius;
    SegmentsStep(p, Hue, Radius);
    SegmentsStep(p, Radius, Rotate);
  }

  lemma FlipSegments(p: Params)
    ensures Segments(p, Effects) == Emit(Emit(Segments(p, Rotate), p, Flip), p, Effects)
  {
    assert Previous(Flip) == Rotate && Previous(Effects) == Flip;
    SegmentsStep(p, Rotate, Flip);
    SegmentsStep(p, Flip, Effects);
  }

  lemma BorderSegments(p: Params)
    ensures Segments(p, Background) == Emit(Emit(Emit(Segments(p, Effects), p, Border), p, BorderColor), p, Background)
  {
    assert Previous(Border) == Effects && Previous(BorderColor) == Border && Previous(Background) == BorderColor;
    SegmentsStep(p, Effects, Border);
    SegmentsStep(p, Border, BorderColor);
    SegmentsStep(p, BorderColor, Background);
  }

  lemma FinishSegments(p: Params)
    ensures Segments(p, Threshold) == Emit(Emit(Emit(Emit(Segments(p, Background), p, Opacity), p, Noise), p, Median), p, Threshold)
  {
    assert Previous(Opacity) == Background && Previous(Noise) == Opacity && Previous(Median) == Noise && Previous(Threshold) == Median;
    SegmentsStep(p, Background, Opacity);
    SegmentsStep(p, Opacity, Noise);
    SegmentsStep(p, Noise, Median);
    SegmentsStep(p, Median, Threshold);
  }

  // The encoder's checks, in the groups the encoder's own comments give them. Each pushes the
  // token of every deviating knob onto `segments`.

  /** The resize checks: width, then height. */
  method PushResizeTokens(p: Params, segments: seq<string>) returns (pushed: seq<string>)
    requires segments == ["t"]
    ensures pushed == Segments(p, Height)
  {
    pushed := segments;
    if Deviates(p, Width) {
      pushed := pushed + [Token(p, Width)];
    }
    if Deviates(p, Height) {
      pushed := pushed + [Token(p, Height)];
    }
    ResizeSegments(p);
  }

  /** The fit mode and blur checks. */
  method PushModeTokens(p: Params, segments: seq<string>) returns (pushed: seq<string>)
    requires segments == Segments(p, Height)
    ensures pushed == Segments(p, Blur)
  {
    pushed := segments;
    if Deviates(p, Mode) {
      pushed := pushed + [Token(p, Mode)];
    }
    if Deviates(p, Blur) {
      pushed := pushed + [Token(p, Blur)];
    }
    ModeSegments(p);
  }

  /** The format, quality and compression checks. */
  method PushOutputTokens(p: Params, segments: seq<string>) returns (pushed: seq<string>)
    requires segments == Segments(p, Blur)
    ensures pushed == Segments(p, Compression)
  {
    pushed := segments;
    if Deviates(p, Format) {
      pushed := pushed + [Token(p, Format)];
    }
    if Deviates(p, Quality) {
      pushed := pushed + [Token(p, Quality)];
    }
    if Deviates(p, Compression) {
      pushed := pushed + [Token(p, Compression)];
    }
    OutputSegments(p);
  }

  /** The colour adjustment checks: brightness, contrast, saturation, hue. */
  method PushColourTokens(p: Params, segments: seq<string>) returns (pushed: seq<string>)
    requires segments == Segments(p, Compression)
    ensures pushed == Segments(p, Hue)
  {
    pushed := segments;
    if Deviates(p, Brightness) {
      pushed := pushed + [Token(p, Brightness)];
    }
    if Deviates(p, Contrast) {
      pushed := pushed + [Token(p, Contrast)];
    }
    if Deviates(p, Saturation) {
      pushed := pushed + [Token(p, Saturation)];
    }
    if Deviates(p, Hue) {
      pushed := pushed + [Token(p, Hue)];
    }
    ColourSegments(p);
  }

  /** The radius and rotation checks. */
  method PushShapeTokens(p: Params, segments: seq<string>) returns (pushed: seq<string>)
    requires segments == Segments(p, Hue)
    ensures pushed == Segments(p, Rotate)
  {
    pushed := segments;
    if Deviates(p, Radius) {
      pushed := pushed + [Token(p, Radius)];
    }
    if Deviates(p, Rotate) {
      pushed := pushed + [Token(p, Rotate)];
    }
    ShapeSegments(p);
  }

  /** The flip check and the effects check. */
  method PushFlipTokens(p: Params, segments: seq<string>) returns (pushed: seq<string>)
    requires segments == Segments(p, Rotate)
    ensures pushed == Segments(p, Effects)
  {
    pushed := segments;
    if Deviates(p, Flip) {
      pushed := pushed + [Token(p, Flip)];
    }
    if Deviates(p, Effects) {
      pushed := pushed + [Token(p, Effects)];
    }
    FlipSegments(p);
  }

  /** The border, border colour and background checks. */
  method PushBorderTokens(p: Params, segments: seq<string>) returns (pushed: seq<string>)
    requires segments == Segments(p, Effects)
    ensures pushed == Segments(p, Background)
  {
    pushed := segments;
    if Deviates(p, Border) {
      pushed := pushed + [Token(p, Border)];
    }
    if Deviates(p, BorderColor) {
      pushed := pushed + [Token(p, BorderColor)];
    }
    if Deviates(p, Background) {
      pushed := pushed + [Token(p, Background)];
    }
    BorderSegments(p);
  }

  /** The opacity check and the advanced effect checks: noise, median, threshold. */
  method PushFinishTokens(p: Params, segments: seq<string>) returns (pushed: seq<string>)
    requires segments == Segments(p, Background)
    ensures pushed == Segments(p, Threshold)
  {
    pushed := segments;
    if Deviates(p, Opacity) {
      pushed := pushed + [Token(p, Opacity)];
    }
    if Deviates(p, Noise) {
      pushed := pushed + [Token(p, Noise)];
    }
    if Deviates(p, Median) {
      pushed := pushed + [Token(p, Median)];
    }
    if Deviates(p, Threshold) {
      pushed := pushed + [Token(p, Threshold)];
    }
    FinishSegments(p);
  }

  /**
   * `convertParamsToUrl`: collects the tokens, joins them with "_" behind the leading "t", and
   * splices the result in front of the last segment of the image URL's path.
   */
  method ConvertParamsToUrl(p: Params, imageUrl: string, parse: string -> Option<string>)
    returns (r: Result<string, UrlError>)
    ensures r == ConvertedUrl(p, imageUrl, parse)
  {
    var segments := ["t"];
    segments := PushResizeTokens(p, segments);
    segments := PushModeTokens(p, segments);
    segments := PushOutputTokens(p, segments);
    segments := PushColourTokens(p, segments);
    segments := PushShapeTokens(p, segments);
    segments := PushFlipTokens(p, segments);
    segments := PushBorderTokens(p, segments);
    segments := PushFinishTokens(p, segments);

    var baseUrl := parse(imageUrl);
    if baseUrl.None? {
      return Failure(InvalidUrl);
    }
    var path := SplicePath(segments, baseUrl.value);
    return Success(path);
  }

  /** The end of the encoder: the `t_…` string goes in front of the last path segment when there is one to add. */
  method SplicePath(segments: seq<string>, pathname: string) returns (path: string)
    ensures path == SplicedPath(segments, pathname)
  {
    var transformString := if |segments| > 1 then Strings.Join(segments, "_") else "";
    var pathSegments := Strings.NonEmptyParts(pathname, '/');
    if |segments| > 1 {
      pathSegments := InsertBeforeLast(pathSegments, transformString);
    }
    path := "/" + Strings.Join(pathSegments, "/");
  }
}

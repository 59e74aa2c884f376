/** The configuration constants: the video size, the downsample ratio and model
    path, and the table of the eight background options. */
module Constants {
  import opened Types

  datatype SegmentationConfig = SegmentationConfig(
    videoWidth: nat, videoHeight: nat, downsampleRatio: real, modelPath: string)

  const SEGMENTATION_CONFIG: SegmentationConfig :=
    SegmentationConfig(640, 480, 0.5, "/model/model.json")

  /** One entry of the option table: the option, its menu label (`label` in the source) and the CSS
      background the canvas gets while it is selected. */
  datatype BackgroundConfig = BackgroundConfig(value: ViewOption, caption: string, background: string)

  const BACKGROUND_OPTIONS: seq<BackgroundConfig> := [
    BackgroundConfig(White, "White Background", "rgb(255, 255, 255)"),
    BackgroundConfig(Green, "Green Background", "rgb(120, 255, 155)"),
    BackgroundConfig(Alpha, "Alpha", "rgb(0, 0, 0)"),
    BackgroundConfig(Foreground, "Foreground", "transparent"),
    BackgroundConfig(Recurrent1, "Recurrent State 1", "transparent"),
    BackgroundConfig(Recurrent2, "Recurrent State 2", "transparent"),
    BackgroundConfig(Recurrent3, "Recurrent State 3", "transparent"),
    BackgroundConfig(Recurrent4, "Recurrent State 4", "transparent")
  ]

  /** Position of the first entry whose value is the string s, or the table's
      length when there is none. */
  function FindIndex(options: seq<BackgroundConfig>, s: string): (i: nat)
    ensures i <= |options|
    ensures i < |options| ==> Value(options[i].value) == s
    ensures forall j :: 0 <= j < i ==> Value(options[j].value) != s
  {
    if options == [] then 0
    else if Value(options[0].value) == s then 0
    else 1 + FindIndex(options[1..], s)
  }

  /** `options.find(bg => bg.value === s)`: the first entry whose value is the
      string s, or nothing when no entry has it. */
  function FindByValue(options: seq<BackgroundConfig>, s: string): (r: Option<BackgroundConfig>)
    ensures r.Some? ==> r.value in options && Value(r.value.value) == s
    ensures r.None? <==> forall i :: 0 <= i < |options| ==> Value(options[i].value) != s
  {
    var i := FindIndex(options, s);
    if i < |options| then Some(options[i]) else None
  }

  /** The backdrop each option is meant to show: white, green, black behind the
      matte, and no backdrop for the foreground and the recurrent views. */
  function BackgroundOf(o: ViewOption): string
  {
    match o
    case White => "rgb(255, 255, 255)"
    case Green => "rgb(120, 255, 155)"
    case Alpha => "rgb(0, 0, 0)"
    case _ => "transparent"
  }

  /** There are eight options, pairwise distinct in value. */
  lemma OptionsDistinct()
    ensures |BACKGROUND_OPTIONS| == 8
    ensures forall i, j :: 0 <= i < j < |BACKGROUND_OPTIONS| ==>
      Value(BACKGROUND_OPTIONS[i].value) != Value(BACKGROUND_OPTIONS[j].value)
  {
  }

  /** Every option of the union has its entry, so `find` never fails for a
      well-typed option, and the entry carries the option's backdrop. */
  lemma FindOption(o: ViewOption)
    ensures FindByValue(BACKGROUND_OPTIONS, Value(o)).Some?
    ensures FindByValue(BACKGROUND_OPTIONS, Value(o)).value.value == o
    ensures FindByValue(BACKGROUND_OPTIONS, Value(o)).value.background == BackgroundOf(o)
  {
    var k := match o
      case White => 0 case Green => 1 case Alpha => 2 case Foreground => 3
      case Recurrent1 => 4 case Recurrent2 => 5 case Recurrent3 => 6 case Recurrent4 => 7;
    assert BACKGROUND_OPTIONS[k].value == o;
    var i := FindIndex(BACKGROUND_OPTIONS, Value(o));
    assert i <= k;
    ValueInjective(BACKGROUND_OPTIONS[i].value, o);
  }

  /** A string that is no option's value finds nothing. */
  lemma FindUnknown(s: string)
    requires forall o: ViewOption :: Value(o) != s
    ensures FindByValue(BACKGROUND_OPTIONS, s) == None
  {
    forall i | 0 <= i < |BACKGROUND_OPTIONS|
      ensures Value(BACKGROUND_OPTIONS[i].value) != s
    {
      assert Value(BACKGROUND_OPTIONS[i].value) != s;
    }
  }
}

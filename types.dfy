/** The value types the segmentation code passes around: the record of four
    recurrent states, the six model outputs, the model's input record, the
    eight-way view option, and what a `catch` clause can receive. */
module Types {

  datatype Option<T> = None | Some(value: T)

  datatype Result<T, E> = Ok(value: T) | Err(error: E)

  /** The view the user selects. `BackgroundOption` and `ViewOption` in the
      source are the same eight-member union of strings; one datatype serves both. */
  datatype ViewOption =
    | White | Green | Alpha | Foreground
    | Recurrent1 | Recurrent2 | Recurrent3 | Recurrent4

  /** The string literal each option stands for. */
  function Value(o: ViewOption): string
  {
    match o
    case White => "white"
    case Green => "green"
    case Alpha => "alpha"
    case Foreground => "foreground"
    case Recurrent1 => "recurrent1"
    case Recurrent2 => "recurrent2"
    case Recurrent3 => "recurrent3"
    case Recurrent4 => "recurrent4"
  }

  /** Distinct options are distinct strings, so a lookup by string value is a
      lookup by option. */
  lemma ValueInjective(o: ViewOption, p: ViewOption)
    ensures Value(o) == Value(p) <==> o == p
  {
  }

  /** The option a string names, if any. */
  function OptionNamed(s: string): Option<ViewOption>
  {
    if s == "white" then Some(White)
    else if s == "green" then Some(Green)
    else if s == "alpha" then Some(Alpha)
    else if s == "foreground" then Some(Foreground)
    else if s == "recurrent1" then Some(Recurrent1)
    else if s == "recurrent2" then Some(Recurrent2)
    else if s == "recurrent3" then Some(Recurrent3)
    else if s == "recurrent4" then Some(Recurrent4)
    else None
  }

  /** `OptionNamed` inverts `Value`, and finds nothing exactly for the strings
      that are no option's value. */
  lemma OptionNamedValue(s: string)
    ensures OptionNamed(s).Some? ==> Value(OptionNamed(s).value) == s
    ensures OptionNamed(s).None? <==> forall o: ViewOption :: Value(o) != s
  {
  }

  lemma NamedOption(o: ViewOption)
    ensures OptionNamed(Value(o)) == Some(o)
  {
  }

  /** Which of the four recurrent states is meant. */
  datatype Slot = R1 | R2 | R3 | R4

  /** `{r1, r2, r3, r4}`: the recurrent state record, over handles or over values. */
  datatype States<T> = States(r1: T, r2: T, r3: T, r4: T)
  {
    /** `Object.values` of the record: its fields in declaration order. */
    function Values(): seq<T>
    {
      [r1, r2, r3, r4]
    }

    function At(k: Slot): T
    {
      match k
      case R1 => r1
      case R2 => r2
      case R3 => r3
      case R4 => r4
    }
  }

  /** `{fgr, pha, r1o, r2o, r3o, r4o}`: what one inference call returns. */
  datatype Outputs<T> = Outputs(fgr: T, pha: T, r1o: T, r2o: T, r3o: T, r4o: T)
  {
    /** `Object.values` of the record, in the order the literal lists its fields. */
    function Values(): seq<T>
    {
      [fgr, pha, r1o, r2o, r3o, r4o]
    }

    /** The recurrent outputs, as the record that becomes the next state. */
    function NextStates(): States<T>
    {
      States(r1o, r2o, r3o, r4o)
    }

    function Recurrent(k: Slot): T
    {
      NextStates().At(k)
    }
  }

  /** `{src, r1i, r2i, r3i, r4i, downsample_ratio}`: the record handed to the model. */
  datatype Inputs<T> = Inputs(src: T, r1i: T, r2i: T, r3i: T, r4i: T, downsampleRatio: T)

  /** A value reaching a `catch` clause: an `Error` object with its message, or
      anything else that was thrown. */
  datatype Thrown = ErrorObject(message: string) | OtherValue

  /** `err instanceof Error ? err.message : fallback`. */
  function Message(t: Thrown, fallback: string): string
  {
    match t
    case ErrorObject(msg) => msg
    case OtherValue => fallback
  }
}

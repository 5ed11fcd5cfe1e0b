/**
 * The thirteen parameters the loader recognises, the token that names each
 * one in the parameter file, and the dispatch from a name token to its field.
 */
module Fields {
  import opened Options

  /** The parameters, in the order of the loader's argument list. */
  datatype Field =
    | ModelName | ForceType | Alpha | Beta | TimeStep | TotalTime | Waveform
    | AreaX | AreaY | NX | NY | Moment | Density

  /** How the token after a name is stored: verbatim, as a `%e` scan or as a `%d` scan. */
  datatype Kind = Text | Float | Integer

  function KindOf(f: Field): Kind {
    match f
    case ModelName | ForceType | Waveform => Text
    case NX | NY => Integer
    case Alpha | Beta | TimeStep | TotalTime | AreaX | AreaY | Moment | Density => Float
  }

  /** The token that names a field in the parameter file; `Density` is stored in `rho`. */
  function Name(f: Field): string {
    match f
    case ModelName => "model_name"
    case ForceType => "force_type"
    case Alpha => "alpha"
    case Beta => "beta"
    case TimeStep => "time_step"
    case TotalTime => "total_time"
    case Waveform => "waveform"
    case AreaX => "area_x"
    case AreaY => "area_y"
    case NX => "n_x"
    case NY => "n_y"
    case Moment => "moment"
    case Density => "density"
  }

  /**
   * The field a token selects: the one whose name is exactly that token.
   * Tests run in the order of the loader's chain of comparisons.
   */
  function Lookup(tok: string): (r: Option<Field>)
    ensures forall f :: r == Some(f) <==> Name(f) == tok
  {
    if tok == "model_name" then Some(ModelName)
    else if tok == "force_type" then Some(ForceType)
    else if tok == "alpha" then Some(Alpha)
    else if tok == "waveform" then Some(Waveform)
    else if tok == "beta" then Some(Beta)
    else if tok == "time_step" then Some(TimeStep)
    else if tok == "total_time" then Some(TotalTime)
    else if tok == "area_x" then Some(AreaX)
    else if tok == "area_y" then Some(AreaY)
    else if tok == "n_x" then Some(NX)
    else if tok == "n_y" then Some(NY)
    else if tok == "moment" then Some(Moment)
    else if tok == "density" then Some(Density)
    else None
  }

  /** Each comparison in the chain succeeds exactly when the token selects that comparison's field. */
  lemma LookupByComparison(tok: string)
    ensures (tok == "model_name") == (Lookup(tok) == Some(ModelName))
    ensures (tok == "force_type") == (Lookup(tok) == Some(ForceType))
    ensures (tok == "alpha") == (Lookup(tok) == Some(Alpha))
    ensures (tok == "waveform") == (Lookup(tok) == Some(Waveform))
    ensures (tok == "beta") == (Lookup(tok) == Some(Beta))
    ensures (tok == "time_step") == (Lookup(tok) == Some(TimeStep))
    ensures (tok == "total_time") == (Lookup(tok) == Some(TotalTime))
    ensures (tok == "area_x") == (Lookup(tok) == Some(AreaX))
    ensures (tok == "area_y") == (Lookup(tok) == Some(AreaY))
    ensures (tok == "n_x") == (Lookup(tok) == Some(NX))
    ensures (tok == "n_y") == (Lookup(tok) == Some(NY))
    ensures (tok == "moment") == (Lookup(tok) == Some(Moment))
    ensures (tok == "density") == (Lookup(tok) == Some(Density))
  {
  }

  /** No two fields share a name, so at most one comparison succeeds for a token. */
  lemma NamesDistinct(f: Field, g: Field)
    requires Name(f) == Name(g)
    ensures f == g
  {
    var r := Lookup(Name(f));
    assert r == Some(f) && r == Some(g);
  }

  /** No name contains a blank, so a name ends exactly where the blank of its log label starts. */
  lemma NameHasNoBlank(f: Field)
    ensures |Name(f)| > 0
    ensures forall i :: 0 <= i < |Name(f)| ==> Name(f)[i] != ' '
  {
  }
}

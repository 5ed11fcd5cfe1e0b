/**
 * What the loader's scan does to the thirteen parameters, as values: one
 * dispatch step for the token at an index and the token after it, and the
 * whole scan over the indices below a stopping point.
 */
module Dispatch {
  import opened Options
  import opened Fields
  import opened DecimalScan

  /**
   * A floating-point parameter is kept as the token its `%e` scan reads;
   * the conversion itself is floating-point numerics and is not modelled.
   */
  type FloatText = string

  /** The thirteen parameters, in the order of the loader's argument list. */
  datatype Config = Config(
    modelName: string, forceType: string, alpha: FloatText, beta: FloatText,
    timeStep: FloatText, totalTime: FloatText, waveform: string,
    areaX: FloatText, areaY: FloatText, nX: int, nY: int,
    moment: FloatText, rho: FloatText)

  /** The content of one parameter, tagged by how it was stored. */
  datatype Value = TextValue(text: string) | FloatValue(token: FloatText) | IntValue(n: int)

  /** The parameter a field names; `Density` is the `rho` variable. */
  function Get(c: Config, f: Field): Value {
    match f
    case ModelName => TextValue(c.modelName)
    case ForceType => TextValue(c.forceType)
    case Alpha => FloatValue(c.alpha)
    case Beta => FloatValue(c.beta)
    case TimeStep => FloatValue(c.timeStep)
    case TotalTime => FloatValue(c.totalTime)
    case Waveform => TextValue(c.waveform)
    case AreaX => FloatValue(c.areaX)
    case AreaY => FloatValue(c.areaY)
    case NX => IntValue(c.nX)
    case NY => IntValue(c.nY)
    case Moment => FloatValue(c.moment)
    case Density => FloatValue(c.rho)
  }

  /** Two configurations that agree on every field are the same. */
  lemma ConfigExt(a: Config, b: Config)
    requires forall f :: Get(a, f) == Get(b, f)
    ensures a == b
  {
    assert Get(a, ModelName) == Get(b, ModelName) && Get(a, ForceType) == Get(b, ForceType);
    assert Get(a, Alpha) == Get(b, Alpha) && Get(a, Beta) == Get(b, Beta);
    assert Get(a, TimeStep) == Get(b, TimeStep) && Get(a, TotalTime) == Get(b, TotalTime);
    assert Get(a, Waveform) == Get(b, Waveform);
    assert Get(a, AreaX) == Get(b, AreaX) && Get(a, AreaY) == Get(b, AreaY);
    assert Get(a, NX) == Get(b, NX) && Get(a, NY) == Get(b, NY);
    assert Get(a, Moment) == Get(b, Moment) && Get(a, Density) == Get(b, Density);
  }

  /**
   * The integer helper: the `%d` scan of the value token, or the variable's
   * current value when the scan converts nothing.
   */
  function ReadInt(token: string, current: int): (v: int)
    ensures HasDigits(token) ==> Some(v) == ScanDecimal(token)
    ensures !HasDigits(token) ==> v == current
  {
    match ScanDecimal(token)
    case Some(n) => n
    case None => current
  }

  /** Whether storing `v` into `f` changes the field: always, except an integer scan that fails. */
  predicate Converts(f: Field, v: string) {
    KindOf(f) == Integer ==> HasDigits(v)
  }

  /** The value a field receives from the value token `v` when the store converts. */
  function Decoded(f: Field, v: string): Value
    requires Converts(f, v)
  {
    match KindOf(f)
    case Text => TextValue(v)
    case Float => FloatValue(v)
    case Integer => IntValue(ScanDecimal(v).value)
  }

  /** The value a field holds after its name is met with value token `v`, given its value `cur` before. */
  function Decode(f: Field, v: string, cur: Value): (r: Value)
    ensures KindOf(f) == Text ==> r == TextValue(v)
    ensures KindOf(f) == Float ==> r == FloatValue(v)
    ensures KindOf(f) == Integer && cur.IntValue? ==> r == IntValue(ReadInt(v, cur.n))
  {
    if Converts(f, v) then Decoded(f, v) else cur
  }

  /**
   * One iteration of the scan: the token `name` is compared with every field
   * name, and the one field it names, if any, is stored from `value`.
   */
  function Step(c: Config, name: string, value: string): (r: Config)
    ensures Lookup(name) == None ==> r == c
  {
    match Lookup(name)
    case None => c
    case Some(ModelName) => c.(modelName := value)
    case Some(ForceType) => c.(forceType := value)
    case Some(Alpha) => c.(alpha := value)
    case Some(Waveform) => c.(waveform := value)
    case Some(Beta) => c.(beta := value)
    case Some(TimeStep) => c.(timeStep := value)
    case Some(TotalTime) => c.(totalTime := value)
    case Some(AreaX) => c.(areaX := value)
    case Some(AreaY) => c.(areaY := value)
    case Some(NX) => c.(nX := ReadInt(value, c.nX))
    case Some(NY) => c.(nY := ReadInt(value, c.nY))
    case Some(Moment) => c.(moment := value)
    case Some(Density) => c.(rho := value)
  }

  /** One iteration written field by field: each field is stored exactly when the token equals its name. */
  lemma StepFieldwise(c: Config, name: string, value: string)
    ensures Step(c, name, value) == Config(
      if name == "model_name" then value else c.modelName,
      if name == "force_type" then value else c.forceType,
      if name == "alpha" then value else c.alpha,
      if name == "beta" then value else c.beta,
      if name == "time_step" then value else c.timeStep,
      if name == "total_time" then value else c.totalTime,
      if name == "waveform" then value else c.waveform,
      if name == "area_x" then value else c.areaX,
      if name == "area_y" then value else c.areaY,
      if name == "n_x" then ReadInt(value, c.nX) else c.nX,
      if name == "n_y" then ReadInt(value, c.nY) else c.nY,
      if name == "moment" then value else c.moment,
      if name == "density" then value else c.rho)
  {
    LookupByComparison(name);
  }

  /**
   * One iteration changes only the field the token names, and that field
   * receives the value token decoded by its kind; every other field keeps
   * its value.
   */
  lemma StepStoresNamedField(c: Config, name: string, value: string, f: Field)
    ensures Get(Step(c, name, value), f) == if Name(f) == name then Decode(f, value, Get(c, f)) else Get(c, f)
  {
    StepFieldwise(c, name, value);
  }

  /**
   * The parameters after the scan has examined indices 0 .. k-1 of `s`,
   * starting from `c`: index j is dispatched with the token at j + 1.
   */
  function StoreUpTo(c: Config, s: seq<string>, k: nat): Config
    requires k < |s|
    decreases k
  {
    if k == 0 then c else Step(StoreUpTo(c, s, k - 1), s[k - 1], s[k])
  }

  /** Whether the iteration at index j changes field f. */
  predicate Writes(f: Field, s: seq<string>, j: nat)
    requires j + 1 < |s|
  {
    s[j] == Name(f) && Converts(f, s[j + 1])
  }

  /** The index of the first empty token, where the scan stops. */
  function FirstEmpty(s: seq<string>): (r: nat)
    requires "" in s
    ensures r < |s| && s[r] == ""
    ensures forall j :: 0 <= j < r ==> s[j] != ""
  {
    if s[0] == "" then 0 else 1 + FirstEmpty(s[1..])
  }

  /** A field that no examined index writes keeps its incoming value. */
  lemma {:induction false} StoreKeepsUnwritten(c: Config, s: seq<string>, k: nat, f: Field)
    requires k < |s|
    requires forall j :: 0 <= j < k ==> !Writes(f, s, j)
    ensures Get(StoreUpTo(c, s, k), f) == Get(c, f)
  {
    if k > 0 {
      StoreKeepsUnwritten(c, s, k - 1, f);
      assert !Writes(f, s, k - 1);
      StepStoresNamedField(StoreUpTo(c, s, k - 1), s[k - 1], s[k], f);
      assert StoreUpTo(c, s, k) == Step(StoreUpTo(c, s, k - 1), s[k - 1], s[k]);
    }
  }

  /** The last index that writes a field decides its value. */
  lemma {:induction false} StoreLastWriteWins(c: Config, s: seq<string>, k: nat, f: Field, j: nat)
    requires j < k < |s|
    requires Writes(f, s, j)
    requires forall i :: j < i < k ==> !Writes(f, s, i)
    ensures Get(StoreUpTo(c, s, k), f) == Decoded(f, s[j + 1])
  {
    if k > j + 1 {
      StoreLastWriteWins(c, s, k - 1, f, j);
      assert !Writes(f, s, k - 1);
    }
    StepStoresNamedField(StoreUpTo(c, s, k - 1), s[k - 1], s[k], f);
    assert StoreUpTo(c, s, k) == Step(StoreUpTo(c, s, k - 1), s[k - 1], s[k]);
  }

  /** When every write of a field uses the same value token, that token decides the field. */
  lemma {:induction false} StoreConsistentWrites(c: Config, s: seq<string>, k: nat, f: Field, j: nat, v: string)
    requires j < k < |s|
    requires Writes(f, s, j)
    requires forall i :: 0 <= i < k && Writes(f, s, i) ==> s[i + 1] == v
    ensures Converts(f, v) && Get(StoreUpTo(c, s, k), f) == Decoded(f, v)
  {
    if !Writes(f, s, k - 1) {
      StoreConsistentWrites(c, s, k - 1, f, j, v);
    }
    StepStoresNamedField(StoreUpTo(c, s, k - 1), s[k - 1], s[k], f);
  }

  /** A token that names no field leaves every parameter as it was. */
  lemma UnknownTokenChangesNothing(c: Config, s: seq<string>, j: nat)
    requires j + 1 < |s|
    requires Lookup(s[j]) == None
    ensures StoreUpTo(c, s, j + 1) == StoreUpTo(c, s, j)
  {
    var before := StoreUpTo(c, s, j);
    forall f ensures Get(StoreUpTo(c, s, j + 1), f) == Get(before, f) {
      assert Name(f) != s[j];
      StepStoresNamedField(before, s[j], s[j + 1], f);
    }
    ConfigExt(StoreUpTo(c, s, j + 1), before);
  }

  /** The scan up to k reads only the tokens at indices 0 .. k. */
  lemma {:induction false} StoreReadsOnlyWindow(c: Config, s: seq<string>, t: seq<string>, k: nat)
    requires k < |s| && k < |t|
    requires s[..k + 1] == t[..k + 1]
    ensures StoreUpTo(c, s, k) == StoreUpTo(c, t, k)
  {
    if k > 0 {
      assert s[..k] == s[..k + 1][..k] && t[..k] == t[..k + 1][..k];
      StoreReadsOnlyWindow(c, s, t, k - 1);
      assert s[k - 1] == s[..k + 1][k - 1] && s[k] == s[..k + 1][k];
      assert t[k - 1] == t[..k + 1][k - 1] && t[k] == t[..k + 1][k];
    }
  }

  /**
   * The index advances by one, so a value token that is itself a field name
   * is dispatched too: the first field receives that name as its value, and
   * the second receives the token after it.
   */
  lemma ValueTokenIsDispatched(c: Config, s: seq<string>, j: nat, f: Field, g: Field)
    requires j + 2 < |s|
    requires f != g
    requires Writes(f, s, j) && Writes(g, s, j + 1)
    ensures Get(StoreUpTo(c, s, j + 2), f) == Decoded(f, Name(g))
    ensures Get(StoreUpTo(c, s, j + 2), g) == Decoded(g, s[j + 2])
  {
    if Name(f) == Name(g) {
      NamesDistinct(f, g);
    }
    StoreLastWriteWins(c, s, j + 2, f, j);
    StoreLastWriteWins(c, s, j + 2, g, j + 1);
  }
}

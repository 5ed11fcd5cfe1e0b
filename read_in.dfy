/**
 * The loader itself: the token array filled from the parameter file, the
 * scan that stores each named parameter into the caller's variables, and
 * the sequence of steps that ties them together. The caller's thirteen
 * variables, which the loader receives as pointers and overwrites, are
 * passed in as a `Config` and handed back with their new contents.
 */
module ReadIn {
  import opened Fields
  import opened Dispatch
  import opened Login

  /** Number of slots in the token array. */
  const Slots := 100

  /**
   * Copies the tokens of the parameter file into the array, in file order
   * from slot 0. The loop has no bound of its own: the file must not hold
   * more tokens than the array has slots.
   */
  method ReadInfile(tokens: seq<string>, str: array<string>)
    requires |tokens| <= str.Length
    modifies str
    ensures str[..|tokens|] == tokens
    ensures str[|tokens|..] == old(str[|tokens|..])
  {
    var i := 0;
    while i < |tokens|
      invariant 0 <= i <= |tokens|
      invariant str[..i] == tokens[..i]
      invariant str[i..] == old(str[i..])
    {
      str[i] := tokens[i];
      i := i + 1;
      assert str[i..] == old(str[..])[i..];
    }
  }

  /**
   * One iteration of the scan: `name` is compared with each field name in
   * the order of the source's chain of comparisons, and the field it
   * equals is stored from `value`: verbatim for text and floating-point
   * fields, by a `%d` scan for the integer fields.
   */
  method StoreToken(name: string, value: string, incoming: Config) returns (params: Config)
    ensures params == Step(incoming, name, value)
  {
    params := incoming;
    if name == "model_name" {
      params := params.(modelName := value);
    }
    if name == "force_type" {
      params := params.(forceType := value);
    }
    if name == "alpha" {
      params := params.(alpha := value);
    }
    if name == "waveform" {
      params := params.(waveform := value);
    }
    if name == "beta" {
      params := params.(beta := value);
    }
    if name == "time_step" {
      params := params.(timeStep := value);
    }
    if name == "total_time" {
      params := params.(totalTime := value);
    }
    if name == "area_x" {
      params := params.(areaX := value);
    }
    if name == "area_y" {
      params := params.(areaY := value);
    }
    if name == "n_x" {
      params := params.(nX := ReadInt(value, params.nX));
    }
    if name == "n_y" {
      params := params.(nY := ReadInt(value, params.nY));
    }
    if name == "moment" {
      params := params.(moment := value);
    }
    if name == "density" {
      params := params.(rho := value);
    }
    StepFieldwise(incoming, name, value);
  }

  /**
   * Examines the slots 0, 1, 2, ... in turn until the first empty one; a
   * slot holding a field name stores the token in the next slot into that
   * field. The array must hold an empty slot for the scan to stop inside it.
   */
  method StoreParameters(str: array<string>, incoming: Config) returns (params: Config)
    requires "" in str[..]
    ensures params == StoreUpTo(incoming, str[..], FirstEmpty(str[..]))
  {
    ghost var stop := FirstEmpty(str[..]);
    params := incoming;
    var i := 0;
    while str[i] != ""
      invariant 0 <= i <= stop
      invariant params == StoreUpTo(incoming, str[..], i)
      decreases stop - i
    {
      params := StoreToken(str[i], str[i + 1], params);
      i := i + 1;
    }
  }

  /**
   * The load: fill a fresh, empty token array from the file, store the
   * named parameters into the caller's variables, then produce the log.
   * `printed(f)` is the text the log stream inserts for the argument of
   * `f`'s line.
   */
  method ProcessParameter(tokens: seq<string>, incoming: Config, printed: Field -> string)
    returns (status: int, params: Config, log: seq<string>)
    requires |tokens| < Slots
    requires forall k :: 0 <= k < |tokens| ==> tokens[k] != ""
    ensures status == 0
    ensures params == StoreUpTo(incoming, tokens + [""], |tokens|)
    ensures log == LogFile(printed)
  {
    var str := new string[Slots](_ => "");
    ReadInfile(tokens, str);
    assert str[|tokens|] == str[|tokens|..][0];
    assert FirstEmpty(str[..]) == |tokens| by {
      assert str[..][..|tokens|] == tokens;
    }
    params := StoreParameters(str, incoming);
    assert str[..][..|tokens| + 1] == (tokens + [""])[..|tokens| + 1];
    StoreReadsOnlyWindow(incoming, str[..], tokens + [""], |tokens|);
    log := LogFile(printed);
    status := 0;
  }
}

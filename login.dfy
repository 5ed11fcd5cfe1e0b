/**
 * The log file `login.txt`: thirteen lines, one per parameter, each a label
 * `<name> =\t` followed by the text the stream inserts for that line's
 * argument. The order is fixed and does not depend on the parameter file.
 */
module Login {
  import opened Options
  import opened Fields

  /** The order in which the parameters are written. */
  const LogOrder: seq<Field> :=
    [ModelName, ForceType, Alpha, Beta, TimeStep, TotalTime, Waveform,
     AreaX, AreaY, NX, NY, Moment, Density]

  /** The label that opens a parameter's line. */
  function Label(f: Field): (l: string)
    ensures Name(f) < l && l[|Name(f)|..] == " =\t"
  {
    Name(f) + " =\t"
  }

  /** The line on which a field is written: the one place where `LogOrder` lists it. */
  function LogPosition(f: Field): (k: nat)
    ensures k < |LogOrder| && LogOrder[k] == f
    ensures forall j :: 0 <= j < |LogOrder| && LogOrder[j] == f ==> j == k
  {
    match f
    case ModelName => 0
    case ForceType => 1
    case Alpha => 2
    case Beta => 3
    case TimeStep => 4
    case TotalTime => 5
    case Waveform => 6
    case AreaX => 7
    case AreaY => 8
    case NX => 9
    case NY => 10
    case Moment => 11
    case Density => 12
  }

  /**
   * The lines of the log, without their line ends. `printed(f)` is the text
   * inserted after the label of `f`'s line.
   */
  function LogFile(printed: Field -> string): (lines: seq<string>)
    ensures |lines| == |LogOrder|
    ensures forall k :: 0 <= k < |LogOrder| ==> lines[k] == Label(LogOrder[k]) + printed(LogOrder[k])
    ensures forall f :: lines[LogPosition(f)] == Label(f) + printed(f)
  {
    [ Label(ModelName) + printed(ModelName),
      Label(ForceType) + printed(ForceType),
      Label(Alpha) + printed(Alpha),
      Label(Beta) + printed(Beta),
      Label(TimeStep) + printed(TimeStep),
      Label(TotalTime) + printed(TotalTime),
      Label(Waveform) + printed(Waveform),
      Label(AreaX) + printed(AreaX),
      Label(AreaY) + printed(AreaY),
      Label(NX) + printed(NX),
      Label(NY) + printed(NY),
      Label(Moment) + printed(Moment),
      Label(Density) + printed(Density) ]
  }

  datatype LogEntry = LogEntry(field: Field, text: string)

  /** Reads a log line back: the field whose label opens it and the text after the label. */
  function ParseLogLine(line: string): Option<LogEntry> {
    ParseWith(line, LogOrder)
  }

  function ParseWith(line: string, candidates: seq<Field>): Option<LogEntry> {
    if candidates == [] then None
    else if Label(candidates[0]) <= line then
      Some(LogEntry(candidates[0], line[|Label(candidates[0])|..]))
    else ParseWith(line, candidates[1..])
  }

  /** A label can open a line only if it is that line's own label. */
  lemma LabelOpensOnlyItsLine(f: Field, g: Field, x: string)
    requires Label(g) <= Label(f) + x
    ensures g == f
  {
    var line := Label(f) + x;
    var nf, ng := Name(f), Name(g);
    NameHasNoBlank(f);
    NameHasNoBlank(g);
    assert line[|nf|] == ' ';
    assert Label(g)[|ng|] == ' ';
    if |ng| != |nf| {
      assert false;
    }
    assert ng == Label(g)[..|ng|] == line[..|nf|] == nf;
    NamesDistinct(f, g);
  }

  lemma {:induction false} ParseWithFinds(f: Field, x: string, candidates: seq<Field>)
    requires f in candidates
    ensures ParseWith(Label(f) + x, candidates) == Some(LogEntry(f, x))
  {
    var line := Label(f) + x;
    if Label(candidates[0]) <= line {
      LabelOpensOnlyItsLine(f, candidates[0], x);
      assert line[|Label(f)|..] == x;
    } else {
      ParseWithFinds(f, x, candidates[1..]);
    }
  }

  /** Every line of the log reads back as its field and the text printed for it. */
  lemma LogFileReadsBack(printed: Field -> string, k: nat)
    requires k < |LogOrder|
    ensures ParseLogLine(LogFile(printed)[k]) == Some(LogEntry(LogOrder[k], printed(LogOrder[k])))
  {
    ParseWithFinds(LogOrder[k], printed(LogOrder[k]), LogOrder);
  }

  /** The line of each field reads back as that field and the text printed for it. */
  lemma LogLineOfField(printed: Field -> string, f: Field)
    ensures ParseLogLine(LogFile(printed)[LogPosition(f)]) == Some(LogEntry(f, printed(f)))
  {
    LogFileReadsBack(printed, LogPosition(f));
  }
}

# RadPattern2017 parameter loader: a Dafny model

RadPattern2017's simulation starts by reading its parameters from a text
file (`read_in.cpp`). The loader works in four steps:

1. `read_infile` reads the whitespace-separated tokens of the file into a
   100-slot `string` array.
2. `store_parameters` scans the array one index at a time until the first
   empty slot. When the token at index `i` equals one of thirteen field
   names, the token at `i + 1` is stored into that field: verbatim for
   `model_name`, `force_type` and `waveform`, by `sscanf "%e"` for the
   floating-point fields, and by `sscanf "%d"` for `n_x` and `n_y`. The
   token `density` sets the variable `rho`.
3. `out_logfile` writes `login.txt`: thirteen lines `<name> =\t…` in a
   fixed order.
4. `process_parameter` runs these steps in order and returns 0.

The model is written in Dafny, in seven modules:

- `Options` is the optional value.
- `Fields` holds the thirteen fields, their names and kinds, and the name
  lookup.
- `DecimalScan` models the `%d` conversion, with its inverse.
- `Dispatch` holds the parameters as a `Config` record. It specifies one
  iteration of the scan (`Step`) and the scan up to an index
  (`StoreUpTo`), and proves what the scan does to each field.
- `Entries` proves a property of well-formed files, that is, files written as
  `<name> <value>` pairs where no value token is a field name and no field
  is given two different values. For such files, the result does not depend
  on the order of the pairs or on pairs with unknown names. Without these
  conditions the order matters: `alpha 1 alpha 2` loads differently from
  `alpha 2 alpha 1`.
- `Login` defines the log's lines and reads each line back to its field.
- `ReadIn` holds the imperative loader:
  - `ReadInfile` fills an `array<string>`;
  - `StoreParameters` loops over it until the first empty slot;
  - `StoreToken` is one iteration of that loop, with the thirteen
    comparisons in the source's order;
  - `ProcessParameter` runs the whole pipeline.

  Each method is proved against the specification functions of `Dispatch`
  and `Login`.

Some consequences of the code, which the model follows:

- the scan advances one index at a time, so a value token that is a field
  name is dispatched as a name too;
- a field named more than once keeps the value after its last occurrence;
- the range checks are in `check_variables` (read_in.cpp:49-50), whose body
  is not part of this model;
- the log streams the pointer arguments, that is, their addresses, not the
  values they point to.

## Model

| member | source | states |
|---|---|---|
| Fields.Lookup | read_in.cpp:112-175 | A token selects field `f` exactly when it equals `f`'s name; every other token selects nothing. |
| Fields.NamesDistinct | read_in.cpp:112-175 | The thirteen names are pairwise distinct, so at most one comparison of the chain succeeds for a token. |
| Fields.NameHasNoBlank | read_in.cpp:267-279 | Every field name is non-empty and has no blank, so the blank in a log label marks where the name ends. |
| DecimalScan.DigitRun | read_in.cpp:243-244 | The length of the longest leading run of decimal digits: the characters before it are digits and the one after it is not. |
| DecimalScan.ScanDecimal | read_in.cpp:243-244 | The `%d` conversion succeeds exactly when the token has an optional sign followed by at least one digit; otherwise it yields nothing. |
| DecimalScan.ScanFormatRoundTrip | read_in.cpp:243-244 | For every integer `n`, scanning its decimal text followed by any non-digit text gives back `n`. |
| Dispatch.ReadInt | read_in.cpp:236-248 | `read_int` yields the `%d` value when the token has one; otherwise the variable keeps its current value, because `sscanf` assigns nothing. |
| Dispatch.ConfigExt | read_in.cpp:32-35 | Two parameter sets that agree on all thirteen fields are equal. |
| Dispatch.Step | read_in.cpp:112-175 | One iteration of the comparison chain on the token pair (name, value): a token that names no field leaves the parameters as they were. What it does to each field is stated by `Dispatch.StepStoresNamedField`. |
| Dispatch.StepFieldwise | read_in.cpp:112-175 | One iteration sets each field exactly when the token equals that field's name; `density` sets `rho`. |
| Dispatch.StepStoresNamedField | read_in.cpp:112-175 | One iteration stores the field that the token names, decoded by the field's kind (text verbatim, float token, `%d` scan); every other field is unchanged. |
| Dispatch.Decode | read_in.cpp:194-248 | The combined effect of the three helpers on the named field. `read_string` stores the value token verbatim for a text field. `read_float` stores it as the float's token. `read_int` stores the `%d` scan, or the field's current value when the scan converts nothing. |
| Dispatch.FirstEmpty | read_in.cpp:110 | The scan stops at the first empty slot: that slot is empty and every slot before it is non-empty. |
| Dispatch.StoreUpTo | read_in.cpp:110-178 | The scan loop: the parameters after indices 0 .. k-1 have each been dispatched, in order, with the token that follows them. Its effect is stated by the `Store…` lemmas below. |
| Dispatch.StoreKeepsUnwritten | read_in.cpp:110-178 | A field that no examined index writes keeps its incoming value. |
| Dispatch.StoreLastWriteWins | read_in.cpp:110-178 | The last index that writes a field decides its value, whatever earlier occurrences stored. |
| Dispatch.StoreConsistentWrites | read_in.cpp:110-178 | When every write to a field uses the same value token, that token decides the field. |
| Dispatch.UnknownTokenChangesNothing | read_in.cpp:110-178 | An index whose token names no field leaves all thirteen parameters unchanged. |
| Dispatch.StoreReadsOnlyWindow | read_in.cpp:107-177 | The scan up to index k reads only slots 0 .. k, so tokens after the stopping slot are never looked at. |
| Dispatch.ValueTokenIsDispatched | read_in.cpp:110-178 | Because the index advances by one, a value token that is itself a field name is also dispatched: the first field receives that name, and the second receives the token after it. |
| Entries.Flatten | read_in.cpp:80-84 | The token sequence of a pair list puts each pair's name at an even index and its value at the next index. |
| Entries.OnlyNameSlotsWrite | read_in.cpp:110-178 | In a well-formed pair file, only the name slot of a pair that names a field can write that field, and the value it stores is the pair's value. |
| Entries.LoadEntry | read_in.cpp:110-178 | A field named by a pair ends up holding that pair's value, decoded by the field's kind. |
| Entries.LoadAbsent | read_in.cpp:110-178 | A field named by no pair keeps its incoming value. |
| Entries.SameEntriesSameLoad | read_in.cpp:110-178 | Two well-formed files that hold the same pairs with field names load identical parameters. |
| Entries.PermutedEntriesSameLoad | read_in.cpp:110-178 | Reordering the pairs of a well-formed file keeps it well-formed and loads identical parameters. |
| Entries.UnknownEntryIgnored | read_in.cpp:110-178 | Inserting a pair whose name and value are not field names keeps the file well-formed and does not change what it loads. |
| Login.LogPosition | read_in.cpp:267-279 | Every field is written on exactly one line of the log: the order lists it once, at this position. |
| Login.Label | read_in.cpp:267-279 | The label that opens a field's log line: its name followed by ` =` and a tab. |
| Login.LogFile | read_in.cpp:267-279 | The log has exactly thirteen lines. Line k is the label `<name> =\t` of the k-th field in the order model_name, force_type, alpha, beta, time_step, total_time, waveform, area_x, area_y, n_x, n_y, moment, density, followed by the text printed for that field. The line at a field's position is that field's label and printed text. |
| Login.LabelOpensOnlyItsLine | read_in.cpp:267-279 | A label can open a log line only if it is that line's own label. |
| Login.LogFileReadsBack | read_in.cpp:267-279 | Every log line reads back as its field and the text printed for it, whatever that text is. |
| Login.LogLineOfField | read_in.cpp:267-279 | The line on which a field is written reads back as that field and the text printed for it. |
| ReadIn.ReadInfile | read_in.cpp:69-89 | The array's first n slots hold the n tokens in file order, and every later slot is unchanged. The file may hold at most as many tokens as the array has slots. |
| ReadIn.StoreToken | read_in.cpp:112-175 | The chain of thirteen comparisons and stores performs exactly one iteration of the scan, as `Dispatch.Step` specifies. |
| ReadIn.StoreParameters | read_in.cpp:101-183 | The loop over the array leaves the parameters equal to the scan of every index before the first empty slot. |
| ReadIn.ProcessParameter | read_in.cpp:32-57 | The load returns 0. The parameters are the scan of the file's tokens, terminated by the array's first empty slot. The log is the fixed thirteen-line log. |

## Left out

- The `%e` conversion in `read_float` (read_in.cpp:221-222) is floating-point numerics. Each floating-point field holds the token it was read from, so the model also does not capture a failed `%e` scan leaving the field unchanged.
- DecimalScan.ScanDecimal: the value is an unbounded integer, so the model does not capture what `%d` does with a number beyond 32 bits.
- DecimalScan.ScanDecimal: leading white space is not skipped, because the tokens the file reader produces contain none.
- `check_file_num`, `check_file_open` and `check_variables` are declared in error_check.h:23-28, but their bodies are not part of this model. Their checks, their exits and their effect on the return status are not modelled.
- File I/O is not modelled:
  - opening and reading the parameter file: its tokens are a parameter of `ProcessParameter`;
  - writing `login.txt`: the log is returned as a sequence of lines without line ends.
- Login.LogFile: `out_logfile` streams the pointer arguments, which prints addresses. What is printed after each label is therefore a parameter (`printed`), not the stored value.
- Console echoes (read_in.cpp:105, 180, 197-200, 219-223, 241-245, 283) are a diagnostic sink only and are not modelled.
- Command-line handling (`argc`, `argv`) is not modelled; it only names the file.
- ReadIn.ProcessParameter requires fewer than 100 tokens. With 100 tokens no empty slot remains and the scan reads past the array; with more, `read_infile` writes past it. Both are undefined behaviour, which the model excludes.
- ReadIn.ProcessParameter requires the tokens to be non-empty, because extraction with `>>` never produces an empty token.
- ReadIn.StoreParameters: the caller's thirteen variables are passed in as a `Config` value and returned with their new contents. Writes through pointers and aliasing between the variables are not captured.

# hc-info, modelled in Dafny

`hc-info` is a small command-line tool of the HCC (Heterogeneous Compute
Compiler) runtime. It prints what the HC runtime knows about the HSA
accelerators of a machine. Run with no argument, it lists every accelerator
and then the default one. Run with a device path, it prints the report of
that one accelerator. Run with `-h` or `--help`, it prints its usage text.
Run with more than one argument, it prints the usage text to standard error
and fails.

This project models that program in Dafny and proves what it writes, on which
stream, and with which exit status.

- `Accelerator` (accelerator.dfy): a device is a record of what its getters
  return. The module holds the value renderers: the access-type and profile
  names, `bool_str`, the raw `bool` insertion (`1`/`0`),
  `double_precision_str`, and `version_string` with its split of the packed
  32-bit version into major and minor. `ParseVersion` is not part of the
  program. It is the inverse that the round-trip property is stated against.
- `Report` (report.dfy): the stream insertion of an accelerator. As a pure
  function, it is the twelve report lines. Each line is a label padded to 25
  columns followed by the value, and the twelve lines joined with `'\n'`
  give the report text. As methods, `WriteReport`, `WriteField` and
  `WritePeers` append that text to a stream piece by piece, as the program
  does. `WritePeers` includes the loop over the peers.
- `HcInfo` (hc_info.dfy): `display_usage` and `main`.
  - `Main` is the pure outcome of a run: standard output, standard error and
    exit status, given the arguments, the accelerators and the version string.
  - `Run`, `DisplayUsage`, `PrintAccelerator` and `ListAccelerators` write to
    two `OutStream` objects, one for standard output and one for standard
    error. Each is proved to write exactly what `Main` or its parts say.
  - The lemmas state each branch of `main` in terms of output lines.
- `Streams`, `Text`, `Decimal`, `Wrappers`: the output stream, joining and
  splitting `'\n'`-terminated lines, left-justified padding, decimal
  rendering with its inverse, and `Option`.

The HC runtime is an input, not part of the model. A `Catalog` holds:

- `all`: the result of `hc::accelerator::get_all()`;
- `default`: the default-constructed accelerator;
- `resolve`: a partial map standing for the `hc::accelerator(path)`
  constructor. A path with no entry stands for the constructor throwing.

The model follows the code. Five behaviours are worth spelling out:

- The lookup error line is `error getting accelerator for path: <path>`. The
  path is not quoted.
- The path of the resolved device is never compared with the requested path.
- `default` is looked up like any other path.
- The report has no compute-unit or tile-static lines.
- "CPU shared memory" is a raw `bool` inserted without `std::boolalpha`, so it
  prints `1` or `0`, not `true` or `false`.

## Model

| member | source | states |
|---|---|---|
| Accelerator.AccessTypeName | hc-info.cpp:9-30 | each access type has its own name: "auto", "none", "read", "write" and "read write", each exactly for its variant |
| Accelerator.ProfileName | hc-info.cpp:32-46 | each profile has its own name: "base", "full" and "none", each exactly for its variant |
| Accelerator.AccessTypeNameInjective | hc-info.cpp:9-30 | the five access types are rendered as five distinct texts (auto, none, read, write, read write): equal texts iff equal access types |
| Accelerator.ProfileNameInjective | hc-info.cpp:32-46 | the three profiles are rendered as three distinct texts (base, full, none): equal texts iff equal profiles |
| Accelerator.DoublePrecisionStr | hc-info.cpp:48-58 | "yes" iff full double precision, whatever the limited flag says; "limited" iff not full but limited; "none" iff neither |
| Accelerator.BoolStr | hc-info.cpp:60-63 | "true" iff the value is true, "false" iff it is false |
| Accelerator.BoolDigit | hc-info.cpp:86 | the raw `bool` insertion gives "1" iff true and "0" iff false |
| Accelerator.VersionParts | hc-info.cpp:65-69 | major * 65536 + minor equals the version, and both parts are below 65536 |
| Accelerator.VersionString | hc-info.cpp:65-72 | the version text is decimal digits, one dot, decimal digits, with digits on both sides |
| Accelerator.VersionStringRoundTrip | hc-info.cpp:65-72 | "<major>.<minor>" in decimal reads back as exactly the version it was made from |
| Accelerator.VersionStringInjective | hc-info.cpp:65-72 | two versions are rendered alike iff they are equal |
| Accelerator.VersionStringExample | hc-info.cpp:65-72 | version 0x00020003 is rendered "2.3" |
| Decimal.NatToString | hc-info.cpp:71 | `std::to_wstring` of an unsigned value: at least one decimal digit, and no leading zero unless the number is 0 |
| Decimal.StringToNatOfNatToString | hc-info.cpp:71 | the decimal text of a number reads back as that number |
| Decimal.NatToStringInjective | hc-info.cpp:82 | distinct numbers have distinct decimal texts |
| Text.PadRight | hc-info.cpp:76-77 | a left-justified field of width w: the text, then blanks up to w columns; it is never cut short |
| Report.PeersText | hc-info.cpp:91-98 | the peers value is "-" iff there are no peers; otherwise it is each peer's path followed by one blank, in list order |
| Report.PeersTextAmbiguousWithBlanks | hc-info.cpp:91-98 | a peer path that holds a blank cannot be told apart from two peers |
| Report.FieldValues | hc-info.cpp:78-98 | one value text per label, and none holds a line break unless the device's path, description or a peer path does |
| Report.ReportLines | hc-info.cpp:74-101 | a report has exactly 12 lines, and none holds a line break unless the device's free text does |
| Report.ReportText | hc-info.cpp:74-101 | when no free-text attribute holds a line break, the report text splits into exactly its 12 lines, in label order |
| Report.ReportLayout | hc-info.cpp:74-89 | a report has 12 lines; line k is label k padded with blanks to 25 columns, then value k; every label is narrower than 25 columns |
| Report.ReportDeterminesDevice | hc-info.cpp:74-101 | two devices with the same report agree on path, description, version, memory, all flags, access type, profile and (given blank-free paths) peers; the limited flag counts only without full precision |
| Report.WriteField | hc-info.cpp:78-89 | one labelled statement appends line k and its '\n' to the lines already written |
| Report.WritePeers | hc-info.cpp:91-98 | the peers loop and the "-" case append the peers line of the report |
| Report.WriteReport | hc-info.cpp:74-101 | the stream insertion appends exactly the report text of the device |
| HcInfo.UsageText | hc-info.cpp:103-111 | the usage text is its six lines, synopsis, blank, purpose, link, blank, version, each ending in '\n' |
| HcInfo.DisplayUsage | hc-info.cpp:103-111 | appends exactly the usage text to the stream it is given |
| HcInfo.UsageIsSixLines | hc-info.cpp:103-111 | for a version string without a line break, the usage text splits back into exactly those six lines |
| HcInfo.SynopsisPrintable | hc-info.cpp:105 | the first usage line starts with "usage:" and holds no line break |
| HcInfo.Lookup | hc-info.cpp:134-135 | a device exactly when one is registered for the path, and then that device, whatever path it reports itself |
| HcInfo.LookupErrorText | hc-info.cpp:136 | the message, the path unquoted and '\n'; a single line that splits back to message and path when the path has no line break |
| HcInfo.PrintAccelerator | hc-info.cpp:129-138 | no accelerator for the path: only the error line on standard error, and failure; otherwise only that device's report on standard output, and success |
| HcInfo.ListingText | hc-info.cpp:139-152 | the listing text is the listing lines, each ending in '\n' |
| HcInfo.ListAccelerators | hc-info.cpp:139-152 | appends exactly the listing: "no accelerators found." or the header, each report and a blank line in order, and the default accelerator's path |
| HcInfo.Main | hc-info.cpp:115-156 | the outcome of `main`: it fails iff there is more than one argument or a single non-help argument with no accelerator; a failing run writes nothing to standard output, a successful one nothing to standard error |
| HcInfo.Run | hc-info.cpp:115-156 | writes to standard output and standard error exactly what `Main` gives for the arguments, and returns its exit status |
| HcInfo.TooManyArguments | hc-info.cpp:117-120 | more than one argument: the usage on standard error, nothing on standard output, failure, whatever the arguments and accelerators are |
| HcInfo.HelpShowsUsage | hc-info.cpp:123-128 | "-h" or "--help": the usage on standard output, nothing on standard error, success, whatever the accelerators are |
| HcInfo.LookupFailure | hc-info.cpp:129-138 | a path with no accelerator: nothing on standard output, failure, and standard error is "error getting accelerator for path: ", the path unquoted, and '\n', which is a single line when the path has no line break |
| HcInfo.LookupSuccess | hc-info.cpp:129-138 | a path with an accelerator: standard output splits into that device's 12 report lines, whose first line shows the resolved device's own path; nothing on standard error; success |
| HcInfo.DefaultIsAnOrdinaryPath | hc-info.cpp:123-138 | the argument "default" fails like any other path with no accelerator |
| HcInfo.OneStreamPerRun | hc-info.cpp:115-156 | a failing run writes only to standard error and a successful one only to standard output, and in each case that text is non-empty |
| HcInfo.NoAcceleratorsFound | hc-info.cpp:140-142 | no argument and no accelerator: standard output is the single line "no accelerators found.", and success |
| HcInfo.ListingLayout | hc-info.cpp:143-152 | no argument and N accelerators: standard output splits into 13 * N + 3 lines; the first is N in decimal with " available accelerators:", then a blank line, and the last is "default accelerator:\t" with the default path |
| HcInfo.ListingReportAt | hc-info.cpp:146-147 | in the listing, accelerator k's 12 report lines start at line 2 + 13 * k, in enumeration order, and a blank line follows them |
| HcInfo.ListingCountReadsBack | hc-info.cpp:144 | the digits before " available accelerators:" read back as the number of accelerators |
| HcInfo.ReportsTextLines | hc-info.cpp:146-147 | the text of the reports, each followed by '\n', is their lines and blank lines, each ending in '\n' |

## Left out

- The HC runtime (`hc.hpp`) is not part of this model. Enumeration, path
  lookup, the default accelerator and every getter are inputs, held in a
  `Catalog` and a `Device`.
- A getter throwing halfway through a report is not modelled. A lookup either
  gives a whole device or fails. In the program, a throw inside the `try`
  would leave part of a report on standard output before the error line.
- The UTF-8 to wide-string conversion of the path (hc-info.cpp:130-132) is not
  modelled: paths are taken as already-converted strings. For a path that is
  not valid UTF-8 the outcome depends on the C++ standard library. Where the
  converter built with an error string returns that string instead of
  throwing (libstdc++ returns an empty wide string here), the program looks
  up the empty path inside the `try` and, if that lookup fails, prints the
  error line with the original bytes. Where `from_bytes` throws
  `std::range_error` (libc++), the throw happens outside the `try` and the
  program ends with an uncaught exception. The model has neither outcome.
- Stream machinery is not modelled: buffering, wide and narrow orientation,
  and the mixing of `std::wcout` and `std::cout` on one standard output.
  Each stream is the text appended to it, with `std::cout` and `std::wcout`
  forming a single standard-output stream.
- The numeric values of `EXIT_SUCCESS` and `EXIT_FAILURE` are not modelled.
  The exit status is a two-valued `ExitStatus`.
- `__hcc_version__` is a build-time constant. Here it is the `hccVersion`
  parameter.
- The version is `unsigned int`, which the model takes to be 32 bits.
  Dedicated memory (`size_t`) is an unbounded `nat`, because rendering it
  involves no arithmetic that could wrap.
- Characters are Dafny `char`s. No encoding is modelled.
- The line-based properties state their split-into-lines conclusions only
  for text without line breaks, because the program prints such text
  unchanged:
  - `ReportText`, `LookupSuccess` and `ListingLayout` need the device paths,
    descriptions and peer paths to hold none.
  - `UsageIsSixLines` needs the version string to hold none.
  - `LookupErrorText` and `LookupFailure` give the one-line split only when
    the path argument holds none; their exact-text clauses hold for every
    path.
  The exact-text contracts of the methods and of `Main` hold without any
  such condition.

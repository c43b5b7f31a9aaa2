# VideoContactSheetMaker command line and path helpers, in Dafny

This project models the front end of VideoContactSheetMaker. That is the
console program that reads the command line, picks a layout profile, collects
the inputs (files, folders or URLs) and turns the outcome into an exit code.
It also models two of the pure helpers in `Utils.cs`.

- `wrappers.dfy`, module `Wrappers`: `Option` and `Result`.
- `utils.dfy`, module `Utils`:
  - `TrimMiliseconds` over a .NET `TimeSpan`, which is modelled as a signed
    64-bit count of 100 ns ticks. C#'s truncating `/` and `%` are written out
    as `Quot` and `Rem`.
  - `Path.Combine` in the .NET Core form, with the platform's rules given by
    a `PathStyle` value (`Windows` or `Unix`).
  - `String.TrimStart` and `SafePathCombine`.
- `program.dfy`, module `Program`:
  - The class `ConsoleProgram`, with the four fields that parsing writes.
  - Its methods `ParseCommandLine` and `Run`. `ParseCommandLine` keeps the
    source's single loop. That loop moves its index past the value of `-p`,
    `-o` and `-i`.
  - The method is proved equal to a specification in two parts. `Tokens`
    groups the arguments the way the loop consumes them. `Exec` applies the
    tokens to the state in order and stops at the first failure.
  - The parser's properties are proved as lemmas about `Tokens` and `Exec`.

The file system and URI queries are the fields of an `Environment` value:
`Path.GetFullPath`, `File.Exists`, `Directory.Exists`,
`Directory.CreateDirectory`, `new Uri(s).IsFile` and the XML deserializer of
profile files.

- A call that can throw returns `None` or `false`. Parsing then fails with a
  `Crash` fault rather than a `ParseException`. The profile deserializer is the
  exception: when it throws it returns `LoadFailed`, and `-p` then fails with
  the TheProfilePathIsInvalid parse error, as the source's catch does.
- Both kinds of failure stop the parse with the fields as they were written so
  far. In `Run`, every failure gives exit code 1.
- The contact-sheet work (`DoWork`) is a parameter `work: State -> bool`. It
  reports whether the work finished without an exception.

## Model

| member | source | states |
|---|---|---|
| Utils.TrimMiliseconds | VideoContactSheetMaker/Utils.cs:79 | the trimmed span is the span's whole seconds, truncated toward zero, in ticks; the TimeSpan(d, h, m, s) constructor never throws for it |
| Utils.FromComponents | VideoContactSheetMaker/Utils.cs:79 | definition of .NET's TimeSpan(days, hours, minutes, seconds): it succeeds exactly when the total in milliseconds is within ±922337203685477, and then holds that many whole seconds |
| Utils.Days | VideoContactSheetMaker/Utils.cs:79 | TimeSpan.Days is never positive for a negative span and never negative for a positive one, and fits in 32 bits |
| Utils.Hours | VideoContactSheetMaker/Utils.cs:79 | TimeSpan.Hours lies strictly between -24 and 24 and carries the sign of the span |
| Utils.Minutes | VideoContactSheetMaker/Utils.cs:79 | TimeSpan.Minutes lies strictly between -60 and 60 and carries the sign of the span |
| Utils.Seconds | VideoContactSheetMaker/Utils.cs:79 | TimeSpan.Seconds lies strictly between -60 and 60 and carries the sign of the span |
| Utils.Milliseconds | VideoContactSheetMaker/Utils.cs:74-79 | TimeSpan.Milliseconds lies strictly between -1000 and 1000 and carries the sign of the span |
| Utils.ComponentsRecompose | VideoContactSheetMaker/Utils.cs:79 | Days·86400 + Hours·3600 + Minutes·60 + Seconds equals the span's whole seconds, for spans of either sign |
| Utils.TrimKeepsComponents | VideoContactSheetMaker/Utils.cs:74-79 | trimming keeps Days, Hours, Minutes and Seconds, and leaves zero milliseconds and no sub-second ticks |
| Utils.TrimTowardZero | VideoContactSheetMaker/Utils.cs:74-79 | the trimmed span lies between zero and the original, less than one second away from it |
| Utils.TrimWholeSecondsUnchanged | VideoContactSheetMaker/Utils.cs:79 | a span of whole seconds is returned unchanged |
| Utils.TrimIdempotent | VideoContactSheetMaker/Utils.cs:74-79 | trimming twice equals trimming once |
| Utils.Combine | VideoContactSheetMaker/Utils.cs:110 | definition of .NET Core's Path.Combine: the second part when the first is empty or the second is rooted, else the first part, one directory separator unless one is already at the joint, then the second part |
| Utils.IsPathRooted | VideoContactSheetMaker/Utils.cs:104 | a rooted path is non-empty; a leading directory or alternate separator roots it; without drive roots (Unix) nothing else does |
| Utils.SafeTail | VideoContactSheetMaker/Utils.cs:107-108 | the two trims never lengthen path2 and leave no alternate separator at the front |
| Utils.SafeTailSuffix | VideoContactSheetMaker/Utils.cs:107-108 | what the two trims leave is a suffix of path2 |
| Utils.SafePathCombine | VideoContactSheetMaker/Utils.cs:102-111 | with an empty path1 the result is the trimmed path2; a trimmed path2 that is still rooted replaces path1; otherwise the result begins with path1 |
| Utils.TrimStart | VideoContactSheetMaker/Utils.cs:107-108 | TrimStart returns a suffix of its input whose first character is not a trimmed one; every character it dropped is a trimmed one |
| Utils.SafeTailUnix | VideoContactSheetMaker/Utils.cs:107-108 | on Unix the two trims remove exactly the leading run of '/' and leave a part that does not start with '/' |
| Utils.SafePathCombineUnix | VideoContactSheetMaker/Utils.cs:102-111 | on Unix the result is path1, then a '/' unless path1 is empty, ends with one or the tail is empty, then path2 without its leading slashes; it never discards path1 |
| Utils.SafePathCombineNoLeadingSeparator | VideoContactSheetMaker/Utils.cs:102-111 | a path2 that does not begin with a separator gives the same result as Path.Combine |
| Utils.SafePathCombineMixedSeparatorsEscape | VideoContactSheetMaker/Utils.cs:107-110 | on Windows, path2 "/\\clip.png" keeps its backslash after both trims, stays rooted, and the result discards path1 (see Findings) |
| Utils.SafePathCombineCorrectedStaysUnder | VideoContactSheetMaker/Utils.cs:96-111 | with both separators trimmed together, the tail never starts with a separator; it can be rooted only by a drive letter; otherwise the result begins with path1 |
| Utils.CombineKeepsPrefix | VideoContactSheetMaker/Utils.cs:110 | Path.Combine with an unrooted second part keeps the first part as a prefix |
| Utils.SafePathCombineCorrectedAgrees | VideoContactSheetMaker/Utils.cs:107-110 | where both separators are the same character, the corrected trim gives the same result as the code as written |
| Program.FirstToken | VideoContactSheetMaker/Program.cs:104-179 | the unit the loop consumes at index i takes one argument, or two for an option with its value; it is incomplete only at the last argument |
| Program.Tokens | VideoContactSheetMaker/Program.cs:104-181 | the loop's units, front to back: never more than there are arguments, and an option without its value can only be the last one |
| Program.TokensUntokenize | VideoContactSheetMaker/Program.cs:104-181 | the tokens spell out the arguments again, in order; no argument is skipped or read twice |
| Program.TokensAppend | VideoContactSheetMaker/Program.cs:104-181 | after any prefix that leaves no option waiting for its value, the rest of the command line is grouped on its own |
| Program.TokensConsumeValue | VideoContactSheetMaker/Program.cs:117-175 | the argument after `-p`, `-o` or `-i` is always taken as its value, even one that looks like an option, and grouping resumes after it |
| Program.ExecAt | VideoContactSheetMaker/Program.cs:104-181 | parsing from index i is the token at i, then, unless it fails, parsing from just after its value |
| Program.EqualsIgnoreCase | VideoContactSheetMaker/Program.cs:135-139 | definition of `String.Equals(a, b, StringComparison.OrdinalIgnoreCase)` with ASCII case folding: equal lengths and equal characters after upper-casing; equal strings always match, and matching strings have the same length |
| Program.PresetNamed | VideoContactSheetMaker/Program.cs:135-143 | a preset name selects one of the three built-in profiles, never a custom one |
| Program.PresetNamedIff | VideoContactSheetMaker/Program.cs:134-143 | each preset is chosen exactly by its own name in any letter case, and no other name chooses one |
| Program.SelectProfile | VideoContactSheetMaker/Program.cs:117-146 | `-p` fails only with TheProfilePathIsInvalid or an invalid-path fault, and with the fault exactly when GetFullPath throws; for an existing file, an empty value or a null result gives DefaultProfile1, a loaded profile is taken, and a load failure gives TheProfilePathIsInvalid; a custom profile comes only from such a file; with no file at that path, it succeeds exactly on a preset name, yields that preset, and otherwise fails with TheProfilePathIsInvalid |
| Program.Classify | VideoContactSheetMaker/Program.cs:157-175 | `-i` gives a URL item exactly when the Uri is not a file, keeping the text; otherwise it gives an item with the full path, Directory when a folder is there and File when only a file is; it raises ThePathDoesNotExist exactly when neither exists, and crashes exactly when the Uri constructor or GetFullPath throws |
| Program.MissingValue | VideoContactSheetMaker/Program.cs:118-119 | definition of the message a value option raises when no argument follows it: TheProfilePathIsInvalid for `-p` (Program.cs:118-119), MissingOutputFolderArgument for `-o` (Program.cs:149-150) and MissingIncludeArgument for `-i` (Program.cs:158-159); each message belongs to exactly one option |
| Program.Step | VideoContactSheetMaker/Program.cs:107-179 | one token's effect: it never raises MissingArgs or MissingFile, and it leaves the input list alone except that a `-i` may append exactly one item |
| Program.Exec | VideoContactSheetMaker/Program.cs:104-181 | the tokens applied in order, stopping at the first failure: it never raises MissingArgs or MissingFile, and a set recursive flag stays set |
| Program.ParseArgs | VideoContactSheetMaker/Program.cs:100-182 | the whole parse: MissingArgs is raised exactly for an empty command line, and a parse never raises MissingFile |
| Program.ExecSuccessNoDangling | VideoContactSheetMaker/Program.cs:117-159 | a parse that does not fail left no value option at the end without its value |
| Program.ExecInputs | VideoContactSheetMaker/Program.cs:157-175 | each `-i` appends exactly one InputFile, in command-line order, and it is the classification of its value; earlier items are kept and nothing else is added |
| Program.ExecProfile | VideoContactSheetMaker/Program.cs:117-146 | the last `-p` decides the profile; without any `-p` the profile stays as it was |
| Program.ExecOutput | VideoContactSheetMaker/Program.cs:148-155 | the last `-o` decides the output folder, as a full path; without any `-o` it stays as it was |
| Program.ExecRecursive | VideoContactSheetMaker/Program.cs:113-115 | the recursive flag ends up set exactly when it was set before or `-r` appears as an option |
| Program.ParseSkipsBlank | VideoContactSheetMaker/Program.cs:107-108 | an empty argument where an option is expected changes nothing |
| Program.ParseIgnoresUnrecognised | VideoContactSheetMaker/Program.cs:110-176 | an argument starting with '-' that the switch does not know is skipped without effect |
| Program.ParseSkipsToken | VideoContactSheetMaker/Program.cs:104-181 | removing an argument that forms a no-op token does not change the parse |
| Program.ParseRejectsStray | VideoContactSheetMaker/Program.cs:178-179 | a non-empty argument not starting with '-' where an option is expected stops the parse with UnknownArgument, keeping the state reached before it |
| Program.ParseMissingValue | VideoContactSheetMaker/Program.cs:117-159 | `-p`, `-o` or `-i` as the last argument fails with that option's own message |
| Program.ParseDefaultProfile | VideoContactSheetMaker/Program.cs:27 | starting fresh, a successful parse with no `-p` keeps DefaultProfile3 |
| Program.MissingTool | VideoContactSheetMaker/Program.cs:74-81 | no tool is missing exactly when both are found; ffprobe is reported exactly when it is missing, and ffmpeg exactly when ffprobe is found and ffmpeg is not |
| Program.ToolFound | VideoContactSheetMaker/Program.cs:75-78 | a tool is found when its path, or its path with ".exe" appended, names an existing file; a null path only finds ".exe" |
| Program.RunReport | VideoContactSheetMaker/Program.cs:32-55 | Run completes exactly when the parse succeeds, there is an input, both tools are found and the work completes; it reports missing inputs exactly when a successful parse gave none; a missing tool is reported only after a successful parse |
| Program.ExitCode | VideoContactSheetMaker/Program.cs:37-54 | definition of Run's returned value: 0 exactly for a completed run (Program.cs:54), 1 for every failure (Program.cs:37, 47, 52) |
| Program.RunExitCode | VideoContactSheetMaker/Program.cs:32-55 | Run returns 0 exactly when the parse succeeds, some `-i` was given, both tools are found and the work completes; every other path returns 1; no arguments gives the MissingArgs parse error |
| Program.ConsoleProgram.constructor | VideoContactSheetMaker/Program.cs:24-27 | a new ConsoleProgram has no inputs, is not recursive, has no output folder and uses DefaultProfile3 |
| Program.ConsoleProgram.ParseCommandLine | VideoContactSheetMaker/Program.cs:100-182 | the loop leaves the fields, and returns the failure, that the token specification gives for the arguments, including the MissingArgs error for an empty command line |
| Program.ConsoleProgram.ParseArgument | VideoContactSheetMaker/Program.cs:105-179 | one pass of the loop body consumes one or two arguments, exactly as the token at that index does, and has that token's effect on the fields |
| Program.ConsoleProgram.Apply | VideoContactSheetMaker/Program.cs:117-175 | the `-p`, `-o` and `-i` cases update the fields and fail exactly as the specification step for that option and value does |
| Program.ConsoleProgram.Run | VideoContactSheetMaker/Program.cs:32-81 | Run reports the parse failure, no inputs, a missing ffprobe (checked first) or ffmpeg, a failed work step, or completion; it returns exit code 0 only on completion |

## Left out

- `Program.Main` and its `Utils.FfFilesExist` pre-check, which returns -1. They are not part of this model. `Run`'s own tool check is modelled, with the tool paths it reads as a parameter.
- Console output is not modelled: `PrintHelp`, the help table, the messages written on each failure and the exception printed when deserialization fails. Message texts come from resources and are identified here by the name of the message.
- The static discovery of the ffmpeg and ffprobe executables in `Utils.cs`: it searches the file system. Its two results are the `ToolPaths` parameter of `Run`.
- `Utils.BytesToString`, because it relies on floating-point logarithms and rounding.
- The profile file format and the XML deserializer. The deserializer is an oracle that returns an opaque profile handle `Loaded(id)`, null or an exception, and a profile read from a file becomes `Custom(id)`.
- `DoWork` and `ContactSheetMaker` (the `cs` field). They are represented by the `work` predicate, which gets the parsed state.
- What the operating system does in `Path.GetFullPath`, `File.Exists`, `Directory.Exists`, `Directory.CreateDirectory` and `new Uri(s)`. Each is given by the `Environment`. A relative `-i` path makes `new Uri` throw, which is modelled as an `InvalidUri` fault with exit code 1.
- The first `Path.Combine` call in `SafePathCombine` (Utils.cs:104-105). Its result is discarded, and for non-null arguments it has no other effect.
- Utils.Combine: follows .NET Core's `Path.Combine`. It does not model the .NET Framework's invalid-character checks. Dafny strings cannot be null, so the `ArgumentNullException` that a null `path1` or `path2` raises in `SafePathCombine` is not modelled.
- Program.EqualsIgnoreCase: models `StringComparison.OrdinalIgnoreCase` as ASCII case folding. That is exact for the preset names `default1`, `default2` and `default3`, but not for other non-ASCII letters.
- Utils.TrimMiliseconds: the `int` casts of the TimeSpan components are not written out as truncations, because the components always fit in 32 bits. The `Int32` result types of `Days`, `Hours`, `Minutes` and `Seconds` prove this.
- Which failures inside `ContactSheetMaker` escape `DoWork` is not part of this model. Any exception escaping `DoWork` makes `Run` return 1 (Program.cs:49-53); `work` returning false stands for that.

## Findings

| source | as written | input that shows it | evidently intended | confidence | as-written member | corrected member |
|---|---|---|---|---|---|---|
| VideoContactSheetMaker/Utils.cs:107-110 | path2 is trimmed of leading backslashes and then of leading slashes, so on Windows a path2 starting with a slash followed by a backslash keeps that backslash, stays rooted, and Path.Combine returns it alone | Windows, path1 "C:\\sheets", path2 "/\\clip.png" gives "\\clip.png" | remove every leading separator of either kind, so that the result stays under path1 ("ignoring slashes", Utils.cs:96-97) | low, not executed | Utils.SafePathCombineMixedSeparatorsEscape | Utils.SafePathCombineCorrectedStaysUnder |

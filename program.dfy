/**
 * The command-line front end of Program.cs: ConsoleProgram.ParseCommandLine,
 * which walks the arguments once and fills in the recursion flag, the
 * profile, the output folder and the ordered list of inputs, and
 * ConsoleProgram.Run, which turns the parse and the work step into an exit
 * code.
 *
 * The loop in the source bumps its index past the value of `-p`, `-o` and
 * `-i`. The specification below splits that into two parts: `Tokens` groups
 * the arguments the way the loop consumes them, and `Exec` applies the
 * grouped tokens to the parser state one by one. The method
 * `ConsoleProgram.ParseCommandLine` keeps the source's single loop and is
 * proved equal to the two parts composed.
 */
module Program {
  import opened Wrappers

  // ---------------------------------------------------------------------
  // Data
  // ---------------------------------------------------------------------

  datatype InputFileType = File | Directory | Url

  /** One `-i` input: its path (or URL text) and what kind of thing it names. */
  datatype InputFile = InputFile(path: string, kind: InputFileType)

  /** The three built-in layouts and a layout read from a profile file (an opaque handle here). */
  datatype Profile = DefaultProfile1 | DefaultProfile2 | DefaultProfile3 | Custom(id: nat)

  /** What the XML deserializer does with a profile file: a profile (an opaque handle), a null, or an exception. */
  datatype Deserialized = Loaded(id: nat) | LoadedNull | LoadFailed

  /**
   * The file system and URI queries the parser makes, as given functions.
   * `fullPath` is Path.GetFullPath (None when it throws), `createDirectory`
   * is Directory.CreateDirectory (false when it throws), `uriIsFile` is
   * `new Uri(s).IsFile` (None when the constructor throws), and
   * `deserializeProfile` reads the profile file at the given path.
   */
  datatype Environment = Environment(
    fullPath: string -> Option<string>,
    fileExists: string -> bool,
    directoryExists: string -> bool,
    createDirectory: string -> bool,
    uriIsFile: string -> Option<bool>,
    deserializeProfile: string -> Deserialized)

  /** The messages a ParseException carries. */
  datatype ParseError =
    | MissingArgs
    | TheProfilePathIsInvalid
    | MissingOutputFolderArgument
    | MissingIncludeArgument
    | ThePathDoesNotExist(path: string)
    | UnknownArgument(arg: string)
    | MissingFile(tool: string)

  /** Exceptions other than ParseException that can escape the parser or the work step. */
  datatype Fault = InvalidPath(path: string) | InvalidUri(text: string) | CannotCreateDirectory(path: string) | WorkFailed

  datatype Failure = Parse(error: ParseError) | Crash(fault: Fault)

  /** The fields of ConsoleProgram that parsing writes. */
  datatype State = State(includeFolders: seq<InputFile>, recursive: bool, outputFolder: Option<string>, profile: Profile)

  /** A fresh ConsoleProgram: no inputs, not recursive, no output folder, DefaultProfile3. */
  const Initial := State([], false, None, DefaultProfile3)

  /** The state the parser has reached and, if it stopped early, why. */
  datatype Outcome = Outcome(state: State, failure: Option<Failure>)

  // ---------------------------------------------------------------------
  // Grouping the arguments as the loop consumes them
  // ---------------------------------------------------------------------

  /** The options that take the next argument as their value. */
  datatype ValueOption = ProfileOption | OutputOption | IncludeOption

  function OptionName(o: ValueOption): string {
    match o
    case ProfileOption => "-p"
    case OutputOption => "-o"
    case IncludeOption => "-i"
  }

  function ValueOptionOf(arg: string): (r: Option<ValueOption>)
    ensures r.Some? ==> OptionName(r.value) == arg
    ensures r.None? ==> arg != "-p" && arg != "-o" && arg != "-i"
  {
    if arg == "-p" then Some(ProfileOption)
    else if arg == "-o" then Some(OutputOption)
    else if arg == "-i" then Some(IncludeOption)
    else None
  }

  /**
   * One unit of work for the loop: an empty argument, an argument that is
   * not an option, `-r`, a `-`-prefixed argument the switch does not know,
   * a value option with its value, or a value option with nothing after it.
   */
  datatype Token =
    | Blank
    | Stray(arg: string)
    | Recurse
    | Unrecognised(arg: string)
    | Valued(option: ValueOption, value: string)
    | Dangling(option: ValueOption)

  /** The token the loop forms at the front of the remaining arguments. */
  function FirstToken(args: seq<string>): (t: Token)
    requires args != []
    ensures Width(t) <= |args|
    ensures t.Dangling? ==> |args| == 1
  {
    var arg := args[0];
    if arg == "" then Blank
    else if arg[0] != '-' then Stray(arg)
    else if arg == "-r" then Recurse
    else match ValueOptionOf(arg)
      case None => Unrecognised(arg)
      case Some(o) => if |args| == 1 then Dangling(o) else Valued(o, args[1])
  }

  /** How many arguments a token consumes: two for an option with its value, else one. */
  function Width(t: Token): nat {
    if t.Valued? then 2 else 1
  }

  function TokenText(t: Token): (r: seq<string>)
    ensures |r| == Width(t)
  {
    match t
    case Blank => [""]
    case Stray(a) => [a]
    case Recurse => ["-r"]
    case Unrecognised(a) => [a]
    case Valued(o, v) => [OptionName(o), v]
    case Dangling(o) => [OptionName(o)]
  }

  /** The arguments grouped into tokens, front to back, each token consuming its own text. */
  function Tokens(args: seq<string>): (r: seq<Token>)
    ensures |r| <= |args|
    ensures forall k :: 0 <= k < |r| - 1 ==> !r[k].Dangling?
    decreases |args|
  {
    if args == [] then []
    else
      var t := FirstToken(args);
      [t] + Tokens(args[Width(t)..])
  }

  /** The token at the front spells out exactly the arguments it consumes. */
  lemma FirstTokenSpells(args: seq<string>)
    requires args != []
    ensures args[..Width(FirstToken(args))] == TokenText(FirstToken(args))
  {
    var t := FirstToken(args);
    if t.Valued? {
      assert args[..2] == [args[0], args[1]];
    } else {
      assert args[..1] == [args[0]];
    }
  }

  function Untokenize(ts: seq<Token>): seq<string> {
    if ts == [] then [] else TokenText(ts[0]) + Untokenize(ts[1..])
  }

  predicate NoDangling(ts: seq<Token>) {
    forall i :: 0 <= i < |ts| ==> !ts[i].Dangling?
  }

  /** Grouping loses nothing: the tokens spell out the arguments again, in order. */
  lemma {:induction false} TokensUntokenize(args: seq<string>)
    ensures Untokenize(Tokens(args)) == args
    decreases |args|
  {
    if args != [] {
      var w := Width(FirstToken(args));
      TokensUntokenize(args[w..]);
      UntokenizeFirst(args);
      SplitJoin(args, w);
    }
  }

  lemma SplitJoin(s: seq<string>, w: nat)
    requires w <= |s|
    ensures s[..w] + s[w..] == s
  {
  }

  lemma UntokenizeFirst(args: seq<string>)
    requires args != []
    ensures var w := Width(FirstToken(args));
      Untokenize(Tokens(args)) == args[..w] + Untokenize(Tokens(args[w..]))
  {
    var t := FirstToken(args);
    UntokenizeCons(t, Tokens(args[Width(t)..]));
    FirstTokenSpells(args);
  }

  lemma UntokenizeCons(t: Token, ts: seq<Token>)
    ensures Untokenize([t] + ts) == TokenText(t) + Untokenize(ts)
  {
    assert ([t] + ts)[0] == t;
    assert ([t] + ts)[1..] == ts;
  }

  /**
   * Grouping is compositional at every point where the loop expects an
   * option: once a prefix has been grouped without a value option left
   * hanging at its end, what follows is grouped on its own.
   */
  lemma {:induction false} TokensAppend(pre: seq<string>, post: seq<string>)
    requires NoDangling(Tokens(pre))
    ensures Tokens(pre + post) == Tokens(pre) + Tokens(post)
    decreases |pre|
  {
    if pre == [] {
      assert pre + post == post;
    } else {
      var t := FirstToken(pre);
      var w := Width(t);
      var rest := Tokens(pre[w..]);
      assert Tokens(pre) == [t] + rest;
      assert !t.Dangling? by {
        assert Tokens(pre)[0] == t;
      }
      FirstTokenExtends(pre, post);
      DropAppend(pre, post, w);
      assert Tokens(pre + post) == [t] + Tokens(pre[w..] + post);
      assert NoDangling(rest) by {
        forall i | 0 <= i < |rest| ensures !rest[i].Dangling? {
          assert rest[i] == Tokens(pre)[i + 1];
        }
      }
      TokensAppend(pre[w..], post);
      AppendAssoc([t], rest, Tokens(post));
    }
  }

  /** A token that does not dangle is formed the same way whatever follows its arguments. */
  lemma FirstTokenExtends(pre: seq<string>, post: seq<string>)
    requires pre != [] && !FirstToken(pre).Dangling?
    ensures FirstToken(pre + post) == FirstToken(pre)
  {
    assert (pre + post)[0] == pre[0];
    if |pre| >= 2 {
      assert (pre + post)[1] == pre[1];
    }
  }

  /**
   * The argument after `-p`, `-o` or `-i` is always taken as that option's
   * value, whatever it looks like, and grouping resumes after it.
   */
  lemma TokensConsumeValue(pre: seq<string>, o: ValueOption, value: string, post: seq<string>)
    requires NoDangling(Tokens(pre))
    ensures Tokens(pre + ([OptionName(o), value] + post)) == Tokens(pre) + ([Valued(o, value)] + Tokens(post))
  {
    var q := [OptionName(o), value] + post;
    TokensAppend(pre, q);
    ValueOptionRoundTrip(o);
    assert FirstToken(q) == Valued(o, value);
    assert q[2..] == post;
  }

  lemma ValueOptionRoundTrip(o: ValueOption)
    ensures ValueOptionOf(OptionName(o)) == Some(o)
  {
    match o
    case ProfileOption =>
    case OutputOption =>
    case IncludeOption =>
  }

  /** Parsing from argument `i` on: the token formed there, then parsing after it. */
  lemma ExecAt(env: Environment, args: seq<string>, i: nat, st: State)
    requires i < |args|
    ensures var t := FirstToken(args[i..]); var o := Step(env, t, st);
      Exec(env, Tokens(args[i..]), st) ==
        if o.failure.Some? then o else Exec(env, Tokens(args[i + Width(t)..]), o.state)
  {
    var t := FirstToken(args[i..]);
    var w := Width(t);
    assert args[i..][w..] == args[i + w..];
    ExecCons(env, t, Tokens(args[i + w..]), st);
  }

  // ---------------------------------------------------------------------
  // What each token does to the state
  // ---------------------------------------------------------------------

  /** ASCII upper-casing, which is what an ordinal case-insensitive comparison does to the letters of the preset names. */
  function AsciiUpper(c: char): char {
    if 'a' <= c <= 'z' then (c as int - 32) as char else c
  }

  /** String.Equals(a, b, StringComparison.OrdinalIgnoreCase). */
  predicate EqualsIgnoreCase(a: string, b: string)
    ensures EqualsIgnoreCase(a, b) ==> |a| == |b|
    ensures a == b ==> EqualsIgnoreCase(a, b)
  {
    |a| == |b| && forall i :: 0 <= i < |a| ==> AsciiUpper(a[i]) == AsciiUpper(b[i])
  }

  /** The built-in profile a `-p` value names, if any. */
  function PresetNamed(name: string): (r: Option<Profile>)
    ensures r.Some? ==> !r.value.Custom?
  {
    if EqualsIgnoreCase(name, "default1") then Some(DefaultProfile1)
    else if EqualsIgnoreCase(name, "default2") then Some(DefaultProfile2)
    else if EqualsIgnoreCase(name, "default3") then Some(DefaultProfile3)
    else None
  }

  /** Each preset is selected by its own name in any letter case and by nothing else. */
  lemma PresetNamedIff(name: string)
    ensures PresetNamed(name) == Some(DefaultProfile1) <==> EqualsIgnoreCase(name, "default1")
    ensures PresetNamed(name) == Some(DefaultProfile2) <==> EqualsIgnoreCase(name, "default2")
    ensures PresetNamed(name) == Some(DefaultProfile3) <==> EqualsIgnoreCase(name, "default3")
    ensures PresetNamed(name).None? <==>
      !EqualsIgnoreCase(name, "default1") && !EqualsIgnoreCase(name, "default2") && !EqualsIgnoreCase(name, "default3")
  {
    if EqualsIgnoreCase(name, "default2") || EqualsIgnoreCase(name, "default3") {
      assert AsciiUpper(name[7]) != AsciiUpper('1');
    }
    if EqualsIgnoreCase(name, "default3") {
      assert AsciiUpper(name[7]) != AsciiUpper('2');
    }
  }

  /** The profile a `-p` value selects: a profile file if one exists at that path, else a preset name. */
  function SelectProfile(env: Environment, value: string): (r: Result<Profile, Failure>)
    ensures r.Failure? ==> r.error == Parse(TheProfilePathIsInvalid) || r.error == Crash(InvalidPath(value))
    ensures r == Failure(Crash(InvalidPath(value))) <==> env.fullPath(value).None?
    ensures r.Success? && r.value.Custom? ==>
      env.fullPath(value).Some? && env.fileExists(env.fullPath(value).value) && env.deserializeProfile(value) == Loaded(r.value.id)
    ensures env.fullPath(value).Some? && env.fileExists(env.fullPath(value).value) ==>
      (value == "" || env.deserializeProfile(value) == LoadedNull ==> r == Success(DefaultProfile1)) &&
      (value != "" && env.deserializeProfile(value).Loaded? ==> r == Success(Custom(env.deserializeProfile(value).id))) &&
      (value != "" && env.deserializeProfile(value) == LoadFailed ==> r == Failure(Parse(TheProfilePathIsInvalid)))
    ensures env.fullPath(value).Some? && !env.fileExists(env.fullPath(value).value) ==>
      (r.Success? <==> PresetNamed(value).Some?) && (r.Success? ==> r.value == PresetNamed(value).value)
  {
    match env.fullPath(value)
    case None => Failure(Crash(InvalidPath(value)))
    case Some(full) =>
      if env.fileExists(full) then
        var loaded := if value != "" then env.deserializeProfile(value) else LoadedNull;
        (match loaded
         case LoadFailed => Failure(Parse(TheProfilePathIsInvalid))
         case LoadedNull => Success(DefaultProfile1)
         case Loaded(id) => Success(Custom(id)))
      else
        match PresetNamed(value)
        case Some(p) => Success(p)
        case None => Failure(Parse(TheProfilePathIsInvalid))
  }

  /** The InputFile an `-i` value becomes. */
  function Classify(env: Environment, value: string): (r: Result<InputFile, Failure>)
    ensures r.Success? && r.value.kind == Url <==> env.uriIsFile(value) == Some(false)
    ensures r.Success? && r.value.kind == Url ==> r.value.path == value
    ensures r.Success? && r.value.kind != Url ==> env.fullPath(value) == Some(r.value.path)
    ensures r.Success? && r.value.kind == Directory ==> env.directoryExists(r.value.path)
    ensures r.Success? && r.value.kind == File ==> env.fileExists(r.value.path) && !env.directoryExists(r.value.path)
    ensures r.Failure? && r.error.Crash? <==>
      env.uriIsFile(value).None? || (env.uriIsFile(value) == Some(true) && env.fullPath(value).None?)
    ensures r.Failure? && r.error.Parse? ==>
      env.uriIsFile(value) == Some(true) && env.fullPath(value).Some? &&
      r.error.error == ThePathDoesNotExist(env.fullPath(value).value) &&
      !env.directoryExists(env.fullPath(value).value) && !env.fileExists(env.fullPath(value).value)
  {
    match env.uriIsFile(value)
    case None => Failure(Crash(InvalidUri(value)))
    case Some(isFile) =>
      if !isFile then Success(InputFile(value, Url))
      else
        match env.fullPath(value)
        case None => Failure(Crash(InvalidPath(value)))
        case Some(path) =>
          if env.directoryExists(path) then Success(InputFile(path, Directory))
          else if env.fileExists(path) then Success(InputFile(path, File))
          else Failure(Parse(ThePathDoesNotExist(path)))
  }

  /** The ParseException a value option raises when it is the last argument. */
  function MissingValue(o: ValueOption): (r: ParseError)
    ensures r == TheProfilePathIsInvalid <==> o == ProfileOption
    ensures r == MissingOutputFolderArgument <==> o == OutputOption
    ensures r == MissingIncludeArgument <==> o == IncludeOption
  {
    match o
    case ProfileOption => TheProfilePathIsInvalid
    case OutputOption => MissingOutputFolderArgument
    case IncludeOption => MissingIncludeArgument
  }

  function Step(env: Environment, t: Token, st: State): (r: Outcome)
    ensures r.failure.Some? && r.failure.value.Parse? ==>
      r.failure.value.error != MissingArgs && !r.failure.value.error.MissingFile?
    ensures r.state.includeFolders == st.includeFolders ||
      (t.Valued? && t.option == IncludeOption && |r.state.includeFolders| == |st.includeFolders| + 1 &&
       r.state.includeFolders[..|st.includeFolders|] == st.includeFolders)
  {
    match t
    case Blank => Outcome(st, None)
    case Stray(a) => Outcome(st, Some(Parse(UnknownArgument(a))))
    case Recurse => Outcome(st.(recursive := true), None)
    case Unrecognised(_) => Outcome(st, None)
    case Dangling(o) => Outcome(st, Some(Parse(MissingValue(o))))
    case Valued(ProfileOption, v) =>
      (match SelectProfile(env, v)
       case Success(p) => Outcome(st.(profile := p), None)
       case Failure(f) => Outcome(st, Some(f)))
    case Valued(OutputOption, v) =>
      (match env.fullPath(v)
       case None => Outcome(st, Some(Crash(InvalidPath(v))))
       case Some(full) =>
         var st' := st.(outputFolder := Some(full));
         if !env.directoryExists(full) && !env.createDirectory(full) then
           Outcome(st', Some(Crash(CannotCreateDirectory(full))))
         else Outcome(st', None))
    case Valued(IncludeOption, v) =>
      (match Classify(env, v)
       case Success(input) => Outcome(st.(includeFolders := st.includeFolders + [input]), None)
       case Failure(f) => Outcome(st, Some(f)))
  }

  /** Apply the tokens in order, stopping at the first that fails. */
  function Exec(env: Environment, ts: seq<Token>, st: State): (r: Outcome)
    ensures r.failure.Some? && r.failure.value.Parse? ==>
      r.failure.value.error != MissingArgs && !r.failure.value.error.MissingFile?
    ensures st.recursive ==> r.state.recursive
    decreases |ts|
  {
    if ts == [] then Outcome(st, None)
    else
      var o := Step(env, ts[0], st);
      if o.failure.Some? then o else Exec(env, ts[1..], o.state)
  }

  /** The whole of ParseCommandLine, as a function of the arguments and the starting state. */
  function ParseArgs(env: Environment, args: seq<string>, st: State): (r: Outcome)
    ensures r.failure == Some(Parse(MissingArgs)) <==> args == []
    ensures r.failure.Some? && r.failure.value.Parse? ==> !r.failure.value.error.MissingFile?
  {
    if |args| == 0 then Outcome(st, Some(Parse(MissingArgs)))
    else Exec(env, Tokens(args), st)
  }

  // ---------------------------------------------------------------------
  // Properties of the specification
  // ---------------------------------------------------------------------

  /** Exec, unfolded once. */
  lemma ExecCons(env: Environment, t: Token, rest: seq<Token>, st: State)
    ensures Exec(env, [t] + rest, st) ==
      var o := Step(env, t, st);
      if o.failure.Some? then o else Exec(env, rest, o.state)
  {
    assert ([t] + rest)[1..] == rest;
  }

  /** Executing two token runs one after the other. */
  lemma {:induction false} ExecAppend(env: Environment, t1: seq<Token>, t2: seq<Token>, st: State)
    ensures Exec(env, t1 + t2, st) ==
      var o := Exec(env, t1, st);
      if o.failure.Some? then o else Exec(env, t2, o.state)
    decreases |t1|
  {
    if t1 == [] {
      assert t1 + t2 == t2;
    } else {
      DropAppend(t1, t2, 1);
      var o := Step(env, t1[0], st);
      if o.failure.None? {
        ExecAppend(env, t1[1..], t2, o.state);
      }
    }
  }

  /** A token run that goes through without failing leaves no value option hanging. */
  lemma {:induction false} ExecSuccessNoDangling(env: Environment, ts: seq<Token>, st: State)
    requires Exec(env, ts, st).failure.None?
    ensures NoDangling(ts)
    decreases |ts|
  {
    if ts != [] {
      ExecSuccessNoDangling(env, ts[1..], Step(env, ts[0], st).state);
      assert forall i :: 1 <= i < |ts| ==> ts[i] == ts[1..][i - 1];
    }
  }

  function IncludeValues(ts: seq<Token>): seq<string> {
    if ts == [] then []
    else (if ts[0].Valued? && ts[0].option == IncludeOption then [ts[0].value] else []) + IncludeValues(ts[1..])
  }

  function ProfileValues(ts: seq<Token>): seq<string> {
    if ts == [] then []
    else (if ts[0].Valued? && ts[0].option == ProfileOption then [ts[0].value] else []) + ProfileValues(ts[1..])
  }

  function OutputValues(ts: seq<Token>): seq<string> {
    if ts == [] then []
    else (if ts[0].Valued? && ts[0].option == OutputOption then [ts[0].value] else []) + OutputValues(ts[1..])
  }

  function Last(s: seq<string>): string
    requires s != []
  {
    s[|s| - 1]
  }

  /**
   * Each `-i` appends exactly one InputFile, in command-line order, and that
   * InputFile is the classification of its value; nothing else is added.
   */
  lemma {:induction false} ExecInputs(env: Environment, ts: seq<Token>, st: State)
    requires Exec(env, ts, st).failure.None?
    ensures var r := Exec(env, ts, st).state; var vs := IncludeValues(ts);
      |r.includeFolders| == |st.includeFolders| + |vs| &&
      r.includeFolders[..|st.includeFolders|] == st.includeFolders &&
      forall k :: 0 <= k < |vs| ==> Classify(env, vs[k]) == Success(r.includeFolders[|st.includeFolders| + k])
    decreases |ts|
  {
    if ts != [] {
      var st1 := Step(env, ts[0], st).state;
      ExecInputs(env, ts[1..], st1);
      var r := Exec(env, ts, st).state;
      var n := |st.includeFolders|;
      var n1 := |st1.includeFolders|;
      assert r.includeFolders[..n1] == st1.includeFolders;
      if ts[0].Valued? && ts[0].option == IncludeOption {
        assert n1 == n + 1;
        assert st1.includeFolders[..n] == st.includeFolders;
        PrefixOfPrefix(r.includeFolders, n, n1);
        assert Classify(env, ts[0].value) == Success(r.includeFolders[n]);
      } else {
        assert st1.includeFolders == st.includeFolders;
      }
    }
  }

  /** The last `-p` decides the profile; without one the profile is what it was. */
  lemma {:induction false} ExecProfile(env: Environment, ts: seq<Token>, st: State)
    requires Exec(env, ts, st).failure.None?
    ensures var r := Exec(env, ts, st).state; var ps := ProfileValues(ts);
      (ps == [] ==> r.profile == st.profile) &&
      (ps != [] ==> SelectProfile(env, Last(ps)).Success? && r.profile == SelectProfile(env, Last(ps)).value)
    decreases |ts|
  {
    if ts != [] {
      var st1 := Step(env, ts[0], st).state;
      ExecProfile(env, ts[1..], st1);
      var head := if ts[0].Valued? && ts[0].option == ProfileOption then [ts[0].value] else [];
      var rest := ProfileValues(ts[1..]);
      if rest != [] {
        LastAppend(head, rest);
      }
    }
  }

  /** The last `-o` decides the output folder (its full path); without one it stays unset. */
  lemma {:induction false} ExecOutput(env: Environment, ts: seq<Token>, st: State)
    requires Exec(env, ts, st).failure.None?
    ensures var r := Exec(env, ts, st).state; var os := OutputValues(ts);
      (os == [] ==> r.outputFolder == st.outputFolder) &&
      (os != [] ==> env.fullPath(Last(os)).Some? && r.outputFolder == env.fullPath(Last(os)))
    decreases |ts|
  {
    if ts != [] {
      var st1 := Step(env, ts[0], st).state;
      ExecOutput(env, ts[1..], st1);
      var head := if ts[0].Valued? && ts[0].option == OutputOption then [ts[0].value] else [];
      var rest := OutputValues(ts[1..]);
      if rest != [] {
        LastAppend(head, rest);
      }
    }
  }

  /** `-r` anywhere, as an option rather than as a value, turns recursion on; nothing turns it off. */
  lemma {:induction false} ExecRecursive(env: Environment, ts: seq<Token>, st: State)
    requires Exec(env, ts, st).failure.None?
    ensures Exec(env, ts, st).state.recursive == (st.recursive || Recurse in ts)
    decreases |ts|
  {
    if ts != [] {
      var st1 := Step(env, ts[0], st).state;
      ExecRecursive(env, ts[1..], st1);
      assert Recurse in ts <==> ts[0] == Recurse || Recurse in ts[1..] by {
        assert ts == [ts[0]] + ts[1..];
      }
    }
  }

  /** An empty argument, wherever the loop expects an option, changes nothing. */
  lemma ParseSkipsBlank(env: Environment, pre: seq<string>, post: seq<string>, st: State)
    requires NoDangling(Tokens(pre))
    requires pre + post != []
    ensures ParseArgs(env, pre + [""] + post, st) == ParseArgs(env, pre + post, st)
  {
    assert ([""] + post)[1..] == post;
    assert Tokens([""] + post) == [Blank] + Tokens(post);
    ParseSkipsToken(env, pre, "", Blank, post, st);
  }

  /** A `-`-prefixed argument the switch does not know is skipped without effect. */
  lemma ParseIgnoresUnrecognised(env: Environment, pre: seq<string>, a: string, post: seq<string>, st: State)
    requires a != "" && a[0] == '-' && a != "-r" && a != "-p" && a != "-o" && a != "-i"
    requires NoDangling(Tokens(pre))
    requires pre + post != []
    ensures ParseArgs(env, pre + [a] + post, st) == ParseArgs(env, pre + post, st)
  {
    assert ([a] + post)[1..] == post;
    assert Tokens([a] + post) == [Unrecognised(a)] + Tokens(post);
    ParseSkipsToken(env, pre, a, Unrecognised(a), post, st);
  }

  /** An argument that forms a token without effect can be dropped from the command line. */
  lemma ParseSkipsToken(env: Environment, pre: seq<string>, a: string, t: Token, post: seq<string>, st: State)
    requires t == Blank || t.Unrecognised?
    requires Tokens([a] + post) == [t] + Tokens(post)
    requires NoDangling(Tokens(pre))
    requires pre + post != []
    ensures ParseArgs(env, pre + [a] + post, st) == ParseArgs(env, pre + post, st)
  {
    AppendAssoc(pre, [a], post);
    TokensAppend(pre, [a] + post);
    TokensAppend(pre, post);
    ExecSkipsToken(env, Tokens(pre), t, Tokens(post), st);
  }

  lemma ExecSkipsToken(env: Environment, ts1: seq<Token>, t: Token, ts2: seq<Token>, st: State)
    requires t == Blank || t.Unrecognised?
    ensures Exec(env, ts1 + ([t] + ts2), st) == Exec(env, ts1 + ts2, st)
  {
    ExecAppend(env, ts1, [t] + ts2, st);
    ExecAppend(env, ts1, ts2, st);
    var o := Exec(env, ts1, st);
    if o.failure.None? {
      ExecCons(env, t, ts2, o.state);
    }
  }

  lemma LastAppend(a: seq<string>, b: seq<string>)
    requires b != []
    ensures Last(a + b) == Last(b)
  {
  }

  lemma PrefixOfPrefix<T>(s: seq<T>, n: nat, m: nat)
    requires n <= m <= |s|
    ensures s[..m][..n] == s[..n]
  {
  }

  lemma DropAppend<T>(a: seq<T>, b: seq<T>, w: nat)
    requires w <= |a|
    ensures (a + b)[w..] == a[w..] + b
  {
  }

  lemma AppendAssoc<T>(a: seq<T>, b: seq<T>, c: seq<T>)
    ensures a + b + c == a + (b + c)
  {
  }

  /** A non-option argument where an option is expected stops the parse with UnknownArgument. */
  lemma ParseRejectsStray(env: Environment, pre: seq<string>, a: string, post: seq<string>, st: State)
    requires a != "" && a[0] != '-'
    requires Exec(env, Tokens(pre), st).failure.None?
    ensures ParseArgs(env, pre + [a] + post, st) ==
      Outcome(Exec(env, Tokens(pre), st).state, Some(Parse(UnknownArgument(a))))
  {
    ExecSuccessNoDangling(env, Tokens(pre), st);
    AppendAssoc(pre, [a], post);
    TokensAppend(pre, [a] + post);
    assert ([a] + post)[1..] == post;
    assert Tokens([a] + post) == [Stray(a)] + Tokens(post);
    ExecAppend(env, Tokens(pre), [Stray(a)] + Tokens(post), st);
  }

  /** `-p`, `-o` or `-i` as the very last argument fails with that option's own error. */
  lemma ParseMissingValue(env: Environment, pre: seq<string>, o: ValueOption, st: State)
    requires Exec(env, Tokens(pre), st).failure.None?
    ensures ParseArgs(env, pre + [OptionName(o)], st) ==
      Outcome(Exec(env, Tokens(pre), st).state, Some(Parse(MissingValue(o))))
  {
    ExecSuccessNoDangling(env, Tokens(pre), st);
    TokensAppend(pre, [OptionName(o)]);
    ValueOptionRoundTrip(o);
    assert Tokens([OptionName(o)]) == [Dangling(o)];
    ExecAppend(env, Tokens(pre), [Dangling(o)], st);
    var reached := Exec(env, Tokens(pre), st).state;
    assert Exec(env, [Dangling(o)], reached) == Outcome(reached, Some(Parse(MissingValue(o))));
  }

  /** Starting fresh, a successful parse with no `-p` keeps DefaultProfile3. */
  lemma ParseDefaultProfile(env: Environment, args: seq<string>)
    requires ParseArgs(env, args, Initial).failure.None?
    requires ProfileValues(Tokens(args)) == []
    ensures ParseArgs(env, args, Initial).state.profile == DefaultProfile3
  {
    ExecProfile(env, Tokens(args), Initial);
  }

  // ---------------------------------------------------------------------
  // Run
  // ---------------------------------------------------------------------

  /** Utils.FfprobePath and Utils.FfmpegPath; either may be null. */
  datatype ToolPaths = ToolPaths(ffprobe: Option<string>, ffmpeg: Option<string>)

  /** `File.Exists(p) || File.Exists(p + ".exe")`; a null path only finds a file called ".exe". */
  predicate ToolFound(env: Environment, path: Option<string>) {
    match path
    case None => env.fileExists(".exe")
    case Some(p) => env.fileExists(p) || env.fileExists(p + ".exe")
  }

  /** ConsoleProgram.EnsureFFFilesExist: ffprobe is checked before ffmpeg. */
  function MissingTool(env: Environment, tools: ToolPaths): (r: Option<ParseError>)
    ensures r.None? <==> ToolFound(env, tools.ffprobe) && ToolFound(env, tools.ffmpeg)
    ensures r == Some(MissingFile("ffprobe")) <==> !ToolFound(env, tools.ffprobe)
    ensures r == Some(MissingFile("ffmpeg")) <==> ToolFound(env, tools.ffprobe) && !ToolFound(env, tools.ffmpeg)
  {
    if !ToolFound(env, tools.ffprobe) then Some(MissingFile("ffprobe"))
    else if !ToolFound(env, tools.ffmpeg) then Some(MissingFile("ffmpeg"))
    else None
  }

  /** Which way Run ended: the help text and a parse message, no inputs, an exception, or done. */
  datatype Report = InvalidArgument(error: ParseError) | MissingInputFileFolder | Crashed(fault: Fault) | Completed

  function RunReport(env: Environment, tools: ToolPaths, work: State -> bool, args: seq<string>, st: State): (r: Report)
    ensures r == Completed <==>
      ParseArgs(env, args, st).failure.None? && |ParseArgs(env, args, st).state.includeFolders| > 0 &&
      MissingTool(env, tools).None? && work(ParseArgs(env, args, st).state)
    ensures r == MissingInputFileFolder <==>
      ParseArgs(env, args, st).failure.None? && |ParseArgs(env, args, st).state.includeFolders| == 0
    ensures r.InvalidArgument? && r.error.MissingFile? ==>
      ParseArgs(env, args, st).failure.None? && MissingTool(env, tools) == Some(r.error)
  {
    var o := ParseArgs(env, args, st);
    match o.failure
    case Some(Parse(e)) => InvalidArgument(e)
    case Some(Crash(f)) => Crashed(f)
    case None =>
      if |o.state.includeFolders| == 0 then MissingInputFileFolder
      else match MissingTool(env, tools)
        case Some(e) => InvalidArgument(e)
        case None => if work(o.state) then Completed else Crashed(WorkFailed)
  }

  function ExitCode(report: Report): (r: int)
    ensures r == 0 <==> report == Completed
    ensures r == 0 || r == 1
  {
    if report == Completed then 0 else 1
  }

  /**
   * Run returns 0 exactly when the parse succeeds, at least one `-i` was
   * given, both tools are found and the work step completes; every other
   * path returns 1, and no arguments at all is the MissingArgs parse error.
   */
  lemma RunExitCode(env: Environment, tools: ToolPaths, work: State -> bool, args: seq<string>)
    ensures var o := ParseArgs(env, args, Initial);
      ExitCode(RunReport(env, tools, work, args, Initial)) == 0 <==>
        o.failure.None? && IncludeValues(Tokens(args)) != [] &&
        ToolFound(env, tools.ffprobe) && ToolFound(env, tools.ffmpeg) && work(o.state)
    ensures ExitCode(RunReport(env, tools, work, args, Initial)) in {0, 1}
    ensures args == [] ==> RunReport(env, tools, work, args, Initial) == InvalidArgument(MissingArgs)
  {
    var o := ParseArgs(env, args, Initial);
    if o.failure.None? && args != [] {
      ExecInputs(env, Tokens(args), Initial);
    }
  }

  // ---------------------------------------------------------------------
  // The program object
  // ---------------------------------------------------------------------

  class ConsoleProgram {
    var includeFolders: seq<InputFile>
    var recursive: bool
    var outputFolder: Option<string>
    var profile: Profile

    function Snapshot(): State
      reads this
    {
      State(includeFolders, recursive, outputFolder, profile)
    }

    constructor ()
      ensures Snapshot() == Initial
    {
      includeFolders := [];
      recursive := false;
      outputFolder := None;
      profile := DefaultProfile3;
    }

    /**
     * ConsoleProgram.ParseCommandLine. The fields are updated in place as the
     * loop goes; on a failure they keep whatever was written before it.
     */
    method ParseCommandLine(env: Environment, args: seq<string>) returns (failure: Option<Failure>)
      modifies this
      ensures Outcome(Snapshot(), failure) == ParseArgs(env, args, old(Snapshot()))
    {
      if |args| == 0 {
        return Some(Parse(MissingArgs));
      }
      ghost var goal := Exec(env, Tokens(args), Snapshot());
      assert args[0..] == args;
      var i := 0;
      while i < |args|
        invariant 0 <= i <= |args|
        invariant Exec(env, Tokens(args[i..]), Snapshot()) == goal
      {
        ExecAt(env, args, i, Snapshot());
        var consumed;
        failure, consumed := ParseArgument(env, args, i);
        if failure.Some? {
          return;
        }
        i := i + consumed;
      }
      assert args[i..] == [];
      return None;
    }

    /**
     * One pass of the loop body at index `i`: skip an empty argument, reject
     * one that is not an option, and otherwise run the switch. `consumed` is
     * 2 where the source bumps `i` past an option's value, else 1.
     */
    method ParseArgument(env: Environment, args: seq<string>, i: nat) returns (failure: Option<Failure>, consumed: nat)
      requires i < |args|
      modifies this
      ensures consumed == Width(FirstToken(args[i..]))
      ensures Outcome(Snapshot(), failure) == Step(env, FirstToken(args[i..]), old(Snapshot()))
    {
      var arg := args[i];
      var next: Option<string> := if i + 1 < |args| then Some(args[i + 1]) else None;
      if |arg| == 0 {
        return None, 1;
      }
      if arg[0] == '-' {
        if arg == "-r" {
          recursive := true;
        } else if arg == "-p" || arg == "-o" || arg == "-i" {
          var option := ValueOptionOf(arg).value;
          if next.None? {
            return Some(Parse(MissingValue(option))), 1;
          }
          failure := Apply(env, option, next.value);
          return failure, 2;
        }
      } else {
        return Some(Parse(UnknownArgument(arg))), 1;
      }
      return None, 1;
    }

    /** One case of the switch: `-p`, `-o` or `-i` with the argument that follows it. */
    method Apply(env: Environment, option: ValueOption, next: string) returns (failure: Option<Failure>)
      modifies this
      ensures Outcome(Snapshot(), failure) == Step(env, Valued(option, next), old(Snapshot()))
    {
      match option
      case ProfileOption =>
        var full := env.fullPath(next);
        if full.None? {
          return Some(Crash(InvalidPath(next)));
        }
        var selected: Profile;
        if env.fileExists(full.value) {
          var loaded := LoadedNull;
          if next != "" {
            loaded := env.deserializeProfile(next);
            if loaded.LoadFailed? {
              return Some(Parse(TheProfilePathIsInvalid));
            }
          }
          selected := if loaded.Loaded? then Custom(loaded.id) else DefaultProfile1;
        } else {
          var preset := PresetNamed(next);
          if preset.None? {
            return Some(Parse(TheProfilePathIsInvalid));
          }
          selected := preset.value;
        }
        profile := selected;
        return None;
      case OutputOption =>
        var full := env.fullPath(next);
        if full.None? {
          return Some(Crash(InvalidPath(next)));
        }
        outputFolder := full;
        if !env.directoryExists(full.value) {
          if !env.createDirectory(full.value) {
            return Some(Crash(CannotCreateDirectory(full.value)));
          }
        }
        return None;
      case IncludeOption =>
        var isFile := env.uriIsFile(next);
        if isFile.None? {
          return Some(Crash(InvalidUri(next)));
        }
        if !isFile.value {
          includeFolders := includeFolders + [InputFile(next, Url)];
        } else {
          var path := env.fullPath(next);
          if path.None? {
            return Some(Crash(InvalidPath(next)));
          }
          var isDir := env.directoryExists(path.value);
          if !isDir && !env.fileExists(path.value) {
            return Some(Parse(ThePathDoesNotExist(path.value)));
          }
          includeFolders := includeFolders + [InputFile(path.value, if isDir then Directory else File)];
        }
        return None;
    }

    /**
     * ConsoleProgram.Run: parse, insist on at least one input, check for the
     * two tools, then do the work. `work` stands for DoWork and says whether
     * it completed without an exception.
     */
    method Run(env: Environment, tools: ToolPaths, work: State -> bool, args: seq<string>) returns (code: int, report: Report)
      modifies this
      ensures report == RunReport(env, tools, work, args, old(Snapshot()))
      ensures code == ExitCode(report)
      ensures Snapshot() == ParseArgs(env, args, old(Snapshot())).state
    {
      var failure := ParseCommandLine(env, args);
      if failure.Some? {
        report := if failure.value.Parse? then InvalidArgument(failure.value.error) else Crashed(failure.value.fault);
        return 1, report;
      }
      if |includeFolders| == 0 {
        return 1, MissingInputFileFolder;
      }
      var missing := MissingTool(env, tools);
      if missing.Some? {
        return 1, InvalidArgument(missing.value);
      }
      if !work(Snapshot()) {
        return 1, Crashed(WorkFailed);
      }
      return 0, Completed;
    }
  }
}

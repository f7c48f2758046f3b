/**
 * Option parsing (src/main.c, `starts_with` and `parse_args`).
 *
 * `parse_args` folds over the arguments after the program name, left to
 * right, writing the two options through out-parameters: the `--print-ast`
 * flag and the output directory. Unrecognised arguments are ignored.
 */
module CommandLine {

  /** `starts_with`: `strncmp` over the prefix's length, which fails at the end of a shorter string. */
  function StartsWith(str: string, prefix: string): (r: bool)
    ensures r <==> |prefix| <= |str| && str[..|prefix|] == prefix
  {
    if prefix == "" then true
    else if str == "" then false
    else str[0] == prefix[0] && StartsWith(str[1..], prefix[1..])
  }

  /** The position of the first `c` in `s` (`strchr`). */
  function FirstIndex(s: string, c: char): (k: nat)
    requires c in s
    ensures k < |s| && s[k] == c && forall j :: 0 <= j < k ==> s[j] != c
  {
    if s[0] == c then 0 else 1 + FirstIndex(s[1..], c)
  }

  datatype Options = Options(printAst: bool, outDir: string)

  /** Before any argument is read: no AST printing, output to ".". */
  const Defaults := Options(false, ".")

  const PrintAstFlag := "--print-ast"

  /** The two spellings of the directory option that take the next argument as value. */
  predicate IsDirOption(arg: string) {
    arg == "--out-dir" || arg == "--output-dir"
  }

  /** The two spellings that carry the value after '='. */
  predicate IsDirAssignment(arg: string) {
    StartsWith(arg, "--out-dir=") || StartsWith(arg, "--output-dir=")
  }

  /** An argument that looks like an option: its first character is '-'. An empty argument does not. */
  predicate LooksLikeOption(arg: string) {
    |arg| > 0 && arg[0] == '-'
  }

  /** The text after the first '=' of an assignment argument. */
  function AssignedValue(arg: string): string
    requires IsDirAssignment(arg)
  {
    assert arg[9] == '=' || arg[12] == '=';
    arg[FirstIndex(arg, '=') + 1..]
  }

  /** Whether `parse_args` reacts to the argument when it reaches it. */
  predicate IsRecognised(arg: string) {
    arg == PrintAstFlag || IsDirOption(arg) || IsDirAssignment(arg)
  }

  /** The options after reading `args` in order, starting from `o`. */
  function Fold(args: seq<string>, o: Options): Options
    decreases |args|
  {
    if |args| == 0 then o
    else if args[0] == PrintAstFlag then Fold(args[1..], o.(printAst := true))
    else if IsDirOption(args[0]) then
      if |args| > 1 && !LooksLikeOption(args[1]) then Fold(args[2..], o.(outDir := args[1]))
      else Fold(args[1..], o)
    else if IsDirAssignment(args[0]) then
      var v := AssignedValue(args[0]);
      Fold(args[1..], if v != "" then o.(outDir := v) else o)
    else Fold(args[1..], o)
  }

  /** The arguments `parse_args` reads: all but the program name. */
  function Arguments(argv: seq<string>): seq<string> {
    if |argv| == 0 then [] else argv[1..]
  }

  function Parse(argv: seq<string>): Options {
    Fold(Arguments(argv), Defaults)
  }

  /** One step of the fold, read at position `i` of the arguments. */
  lemma FoldAt(args: seq<string>, i: nat, o: Options)
    requires i < |args|
    ensures Fold(args[i..], o)
      == if args[i] == PrintAstFlag then Fold(args[i + 1..], o.(printAst := true))
         else if IsDirOption(args[i]) then
           if i + 1 < |args| && !LooksLikeOption(args[i + 1]) then Fold(args[i + 2..], o.(outDir := args[i + 1]))
           else Fold(args[i + 1..], o)
         else if IsDirAssignment(args[i]) then
           var v := AssignedValue(args[i]);
           Fold(args[i + 1..], if v != "" then o.(outDir := v) else o)
         else Fold(args[i + 1..], o)
  {
    assert args[i..][0] == args[i] && args[i..][1..] == args[i + 1..];
    if i + 1 < |args| {
      assert args[i..][1] == args[i + 1] && args[i..][2..] == args[i + 2..];
    }
  }

  /**
   * The body of the `parse_args` loop at `argv[i]`: the options after
   * reading that argument (and the value it takes, if any), and the index
   * of the next argument to read.
   */
  method ParseArg(argv: seq<string>, i: nat, printAst: bool, outDir: string) returns (printAst': bool, outDir': string, next: nat)
    requires 1 <= i < |argv|
    ensures i < next <= |argv|
    ensures Fold(argv[next..], Options(printAst', outDir')) == Fold(argv[i..], Options(printAst, outDir))
  {
    FoldAt(argv, i, Options(printAst, outDir));
    printAst', outDir', next := printAst, outDir, i + 1;
    var arg := argv[i];
    if arg == PrintAstFlag {
      printAst' := true;
    } else if arg == "--out-dir" || arg == "--output-dir" {
      if i + 1 < |argv| && !(|argv[i + 1]| > 0 && argv[i + 1][0] == '-') {
        outDir' := argv[i + 1];
        next := i + 2;
      }
    } else if StartsWith(arg, "--out-dir=") || StartsWith(arg, "--output-dir=") {
      var value := arg[FirstIndex(arg, '=') + 1..];
      assert value == AssignedValue(arg);
      if value != "" {
        outDir' := value;
      }
    } else {
      assert !IsRecognised(arg);
    }
  }

  /** `parse_args`: read the arguments after the program name, one step at a time. */
  method ParseArgs(argv: seq<string>) returns (printAst: bool, outDir: string)
    ensures Options(printAst, outDir) == Parse(argv)
    ensures printAst <==> exists j :: 1 <= j < |argv| && argv[j] == PrintAstFlag
  {
    printAst := false;
    outDir := ".";
    var i := 1;
    while i < |argv|
      invariant 1 <= i && (|argv| == 0 || i <= |argv|)
      invariant Fold(if i <= |argv| then argv[i..] else [], Options(printAst, outDir)) == Parse(argv)
    {
      printAst, outDir, i := ParseArg(argv, i, printAst, outDir);
    }
    PrintAstAnywhere(Arguments(argv), Defaults);
    assert forall j :: 1 <= j < |argv| ==> argv[j] == Arguments(argv)[j - 1];
  }

  /** With no recognised argument, both options keep their defaults: flag off, directory ".". */
  lemma {:induction false} UnrecognisedIgnored(args: seq<string>, o: Options)
    requires forall k :: 0 <= k < |args| ==> !IsRecognised(args[k])
    ensures Fold(args, o) == o
    decreases |args|
  {
    if |args| > 0 {
      UnrecognisedIgnored(args[1..], o);
    }
  }

  lemma ParseDefaults(argv: seq<string>)
    requires forall k :: 1 <= k < |argv| ==> !IsRecognised(argv[k])
    ensures Parse(argv) == Options(false, ".")
  {
    UnrecognisedIgnored(Arguments(argv), Defaults);
  }

  /**
   * "--print-ast" anywhere turns the flag on and nothing turns it off: it
   * starts with '-', so it is never taken as a directory value.
   */
  lemma {:induction false} PrintAstAnywhere(args: seq<string>, o: Options)
    ensures Fold(args, o).printAst <==> o.printAst || PrintAstFlag in args
    decreases |args|
  {
    if |args| > 0 {
      assert args == [args[0]] + args[1..];
      if IsDirOption(args[0]) && |args| > 1 && !LooksLikeOption(args[1]) {
        assert args[1..] == [args[1]] + args[2..];
        PrintAstAnywhere(args[2..], o.(outDir := args[1]));
      } else if args[0] == PrintAstFlag {
        PrintAstAnywhere(args[1..], o.(printAst := true));
      } else if IsDirAssignment(args[0]) {
        var v := AssignedValue(args[0]);
        PrintAstAnywhere(args[1..], if v != "" then o.(outDir := v) else o);
      } else {
        PrintAstAnywhere(args[1..], o);
      }
    }
  }

  /**
   * Reading is a left fold: what follows a block of arguments is read from
   * the options the block left, as long as the block's last argument cannot
   * swallow the first following one as a value.
   */
  lemma {:induction false} FoldAppend(a: seq<string>, b: seq<string>, o: Options)
    requires |b| == 0 || LooksLikeOption(b[0])
    ensures Fold(a + b, o) == Fold(b, Fold(a, o))
    decreases |a|
  {
    if |a| == 0 {
      assert a + b == b;
    } else {
      assert (a + b)[0] == a[0];
      assert (a + b)[1..] == a[1..] + b;
      if IsDirOption(a[0]) && |a| > 1 && !LooksLikeOption(a[1]) {
        assert (a + b)[1] == a[1];
        assert (a + b)[2..] == a[2..] + b;
        FoldAppend(a[2..], b, o.(outDir := a[1]));
      } else if IsDirOption(a[0]) {
        if |a| == 1 {
          assert |b| > 0 ==> (a + b)[1] == b[0];
        } else {
          assert (a + b)[1] == a[1];
        }
        FoldAppend(a[1..], b, o);
      } else if a[0] == PrintAstFlag {
        FoldAppend(a[1..], b, o.(printAst := true));
      } else if IsDirAssignment(a[0]) {
        var v := AssignedValue(a[0]);
        FoldAppend(a[1..], b, if v != "" then o.(outDir := v) else o);
      } else {
        FoldAppend(a[1..], b, o);
      }
    }
  }

  lemma AssignedValueAfterPrefix(prefix: string, v: string)
    requires prefix == "--out-dir=" || prefix == "--output-dir="
    ensures IsDirAssignment(prefix + v) && AssignedValue(prefix + v) == v
  {
    var arg := prefix + v;
    assert arg[..|prefix|] == prefix;
    assert forall j :: 0 <= j < |prefix| - 1 ==> prefix[j] != '=';
    assert arg[|prefix| - 1] == '=';
    assert forall j :: 0 <= j < |prefix| - 1 ==> arg[j] != '=';
    assert FirstIndex(arg, '=') == |prefix| - 1;
    assert arg[|prefix|..] == v;
  }

  /**
   * A trailing "--out-dir=V" (or "--output-dir=V") decides the directory
   * when V is non-empty; an empty V leaves whatever the earlier arguments
   * chose, which need not be ".".
   */
  lemma LastAssignmentWins(argv: seq<string>, prefix: string, v: string)
    requires |argv| >= 1
    requires prefix == "--out-dir=" || prefix == "--output-dir="
    ensures v != "" ==> Parse(argv + [prefix + v]).outDir == v
    ensures v == "" ==> Parse(argv + [prefix + v]).outDir == Parse(argv).outDir
  {
    var arg := prefix + v;
    AssignedValueAfterPrefix(prefix, v);
    assert Arguments(argv + [arg]) == Arguments(argv) + [arg];
    FoldAppend(Arguments(argv), [arg], Defaults);
    assert arg != PrintAstFlag && !IsDirOption(arg);
    assert [arg][1..] == [];
  }

  /**
   * A trailing "--out-dir X" (or "--output-dir X") decides the directory
   * when X does not start with '-'; otherwise the option is dropped and X
   * is read as an argument of its own.
   */
  lemma LastDirOptionWins(argv: seq<string>, option: string, x: string)
    requires |argv| >= 1 && IsDirOption(option)
    ensures !LooksLikeOption(x) ==> Parse(argv + [option, x]).outDir == x
    ensures LooksLikeOption(x) ==> Parse(argv + [option, x]) == Parse(argv + [x])
  {
    assert Arguments(argv + [option, x]) == Arguments(argv) + [option, x];
    assert Arguments(argv + [x]) == Arguments(argv) + [x];
    FoldAppend(Arguments(argv), [option, x], Defaults);
    var o := Parse(argv);
    assert [option, x][1..] == [x];
    if LooksLikeOption(x) {
      FoldAppend(Arguments(argv), [x], Defaults);
    } else {
      assert [option, x][2..] == [];
    }
  }

  /** A directory option with nothing after it changes nothing. */
  lemma DanglingDirOptionIgnored(argv: seq<string>, option: string)
    requires |argv| >= 1 && IsDirOption(option)
    ensures Parse(argv + [option]) == Parse(argv)
  {
    assert Arguments(argv + [option]) == Arguments(argv) + [option];
    FoldAppend(Arguments(argv), [option], Defaults);
    assert [option][1..] == [];
  }
}

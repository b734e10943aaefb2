/**
 Three scanners over the arguments forwarded to a detached runner: one demands absolute paths, one
 replaces the output path, one erases path values from the command. They must read options alike.
 */
module ArgvScanners {
  import opened Base

  const OUT := "--out"

  const FORWARDED := {"--catalog", "--candidate-source-root", "--install-report", "--codex-global-home",
                      "--claude-global-home", "--fixture-cleanup-ledger", "--out"}

  /** What the argument below needs of the option names. */
  ghost predicate Proper(options: set<string>) {
    OUT in options && forall o :: o in options ==> |o| >= 2 && o[0] == '-' && o[1] == '-' && '=' !in o
  }

  lemma ForwardedIsProper()
    ensures Proper(FORWARDED)
  {}

  const BOUND := "--candidate-root-bound"

  lemma BoundIsNotForwarded()
    ensures BOUND !in FORWARDED
  {
    var bound := BOUND;
    assert |bound| == 22 && forall o :: o in FORWARDED ==> |o| != 22 && |o| > 2;
  }

  predicate Absolute(path: string) { path != "" && path[0] == '/' }

  /** The part before the first '=', and the part after it if there is one. */
  function Partition(arg: string): (string, Option<string>) {
    if arg == "" then ("", None)
    else if arg[0] == '=' then ("", Some(arg[1..]))
    else var (o, v) := Partition(arg[1..]); ([arg[0]] + o, v)
  }

  function OptionOf(arg: string): string { Partition(arg).0 }
  function InlineOf(arg: string): Option<string> { Partition(arg).1 }

  lemma {:induction false} PartitionFacts(arg: string)
    ensures '=' !in OptionOf(arg)
    ensures InlineOf(arg).Some? ==> arg == OptionOf(arg) + "=" + InlineOf(arg).value
    ensures InlineOf(arg).None? ==> arg == OptionOf(arg)
    ensures '=' !in arg ==> InlineOf(arg).None? && OptionOf(arg) == arg
  {
    if arg != "" && arg[0] != '=' {
      PartitionFacts(arg[1..]);
      assert arg == [arg[0]] + arg[1..];
    } else if arg != "" {
      assert arg == "" + "=" + arg[1..];
    }
  }

  lemma {:induction false} PartitionInline(o: string, v: string)
    requires '=' !in o
    ensures Partition(o + "=" + v) == (o, Some(v))
  {
    var arg := o + "=" + v;
    if o == "" {
      assert arg[1..] == v;
    } else {
      assert arg[0] == o[0] && arg[1..] == o[1..] + "=" + v;
      PartitionInline(o[1..], v);
      assert [o[0]] + o[1..] == o;
    }
  }

  // ---- the reading all three share ----

  datatype Token = Word(arg: string) | Pair(option: string, path: string) | Joined(option: string, path: string)

  /** How the path scanner reads its arguments; None when a path value is missing or not absolute. */
  function Tokens(options: set<string>, argv: seq<string>): Option<seq<Token>> {
    if argv == [] then Some([])
    else if OptionOf(argv[0]) !in options then
      var rest := Tokens(options, argv[1..]);
      if rest.None? then None else Some([Word(argv[0])] + rest.value)
    else if InlineOf(argv[0]).Some? then
      var rest := Tokens(options, argv[1..]);
      if !Absolute(InlineOf(argv[0]).value) || rest.None? then None
      else Some([Joined(OptionOf(argv[0]), InlineOf(argv[0]).value)] + rest.value)
    else if |argv| == 1 || !Absolute(argv[1]) then None
    else
      var rest := Tokens(options, argv[2..]);
      if rest.None? then None else Some([Pair(argv[0], argv[1])] + rest.value)
  }

  function Spelled(t: Token): seq<string> {
    match t
    case Word(arg) => [arg]
    case Pair(o, path) => [o, path]
    case Joined(o, path) => [o + "=" + path]
  }

  function Spell(ts: seq<Token>): seq<string> {
    if ts == [] then [] else Spelled(ts[0]) + Spell(ts[1..])
  }

  /** A token that the path scanner reads back as itself. */
  predicate Readable(options: set<string>, t: Token) {
    match t
    case Word(arg) => OptionOf(arg) !in options
    case Pair(o, path) => o in options && '=' !in o && Absolute(path)
    case Joined(o, path) => o in options && '=' !in o && Absolute(path)
  }

  predicate AllReadable(options: set<string>, ts: seq<Token>) { forall t :: t in ts ==> Readable(options, t) }

  /** The first token of a reading, and the reading of what follows it. */
  lemma FirstRead(options: set<string>, argv: seq<string>)
    requires argv != [] && Tokens(options, argv).Some?
    ensures var ts := Tokens(options, argv).value;
      && ts != [] && Readable(options, ts[0]) && |Spelled(ts[0])| <= |argv|
      && argv[..|Spelled(ts[0])|] == Spelled(ts[0])
      && Tokens(options, argv[|Spelled(ts[0])|..]) == Some(ts[1..])
  {
    PartitionFacts(argv[0]);
  }

  /** Reading and spelling are inverse to each other. */
  lemma {:induction false} ReadThenSpell(options: set<string>, argv: seq<string>)
    requires Tokens(options, argv).Some?
    ensures Spell(Tokens(options, argv).value) == argv && AllReadable(options, Tokens(options, argv).value)
    decreases |argv|
  {
    if argv != [] {
      FirstRead(options, argv);
      var ts := Tokens(options, argv).value;
      var n := |Spelled(ts[0])|;
      ReadThenSpell(options, argv[n..]);
      assert argv == argv[..n] + argv[n..];
      assert forall t :: t in ts ==> t == ts[0] || t in ts[1..];
    }
  }

  lemma WordRead(options: set<string>, arg: string, rest: seq<string>)
    requires Readable(options, Word(arg)) && Tokens(options, rest).Some?
    ensures Tokens(options, [arg] + rest) == Some([Word(arg)] + Tokens(options, rest).value)
  {
    assert ([arg] + rest)[1..] == rest;
  }

  lemma PairRead(options: set<string>, o: string, path: string, rest: seq<string>)
    requires Readable(options, Pair(o, path)) && Tokens(options, rest).Some?
    ensures Tokens(options, [o, path] + rest) == Some([Pair(o, path)] + Tokens(options, rest).value)
  {
    PartitionFacts(o);
    assert ([o, path] + rest)[2..] == rest;
  }

  lemma JoinedRead(options: set<string>, o: string, path: string, rest: seq<string>)
    requires Readable(options, Joined(o, path)) && Tokens(options, rest).Some?
    ensures Tokens(options, [o + "=" + path] + rest) == Some([Joined(o, path)] + Tokens(options, rest).value)
  {
    PartitionInline(o, path);
    assert ([o + "=" + path] + rest)[1..] == rest;
  }

  lemma {:induction false} SpellThenRead(options: set<string>, ts: seq<Token>)
    requires AllReadable(options, ts)
    ensures Tokens(options, Spell(ts)) == Some(ts)
  {
    if ts != [] {
      ReadableParts(options, ts);
      SpellThenRead(options, ts[1..]);
      assert Spell(ts) == Spelled(ts[0]) + Spell(ts[1..]) && [ts[0]] + ts[1..] == ts;
      match ts[0]
      case Word(arg) => WordRead(options, arg, Spell(ts[1..]));
      case Pair(o, path) => PairRead(options, o, path, Spell(ts[1..]));
      case Joined(o, path) => JoinedRead(options, o, path, Spell(ts[1..]));
    }
  }

  // ---- the path scanner ----

  method RequireAbsolutePaths(options: set<string>, argv: seq<string>, out: string) returns (ok: bool)
    ensures ok <==> Absolute(out) && Tokens(options, argv).Some?
  {
    if !Absolute(out) { return false; }
    var index := 0;
    while index < |argv|
      invariant 0 <= index <= |argv|
      invariant Tokens(options, argv).Some? <==> Tokens(options, argv[index..]).Some?
    {
      var argument := argv[index];
      var rest := argv[index..];
      assert rest[0] == argument && rest[1..] == argv[index + 1..];
      var option, inlined := OptionOf(argument), InlineOf(argument);
      if option !in options {
        index := index + 1;
        continue;
      }
      var value := "";
      if inlined.Some? {
        value := inlined.value;
      } else if index + 1 < |argv| {
        assert rest[1] == argv[index + 1] && rest[2..] == argv[index + 2..];
        index := index + 1;
        value := argv[index];
      }
      if !Absolute(value) { return false; }
      index := index + 1;
    }
    ok := true;
  }

  // ---- the output scanner ----

  predicate JoinsOut(arg: string) { OUT + "=" <= arg }

  /** The arguments with every output value replaced, and how many there were. */
  function Replaced(argv: seq<string>, result: string): (seq<string>, nat) {
    if argv == [] then ([], 0)
    else if argv[0] == OUT then
      if |argv| == 1 then (argv, 0)
      else var (rest, n) := Replaced(argv[2..], result); ([OUT, result] + rest, n + 1)
    else
      var (rest, n) := Replaced(argv[1..], result);
      if JoinsOut(argv[0]) then ([OUT + "=" + result] + rest, n + 1) else ([argv[0]] + rest, n)
  }

  /** The arguments before `index` are done, the others are as they were. */
  ghost predicate Replacing(argv: seq<string>, result: string, replaced: seq<string>, index: nat, matches: nat) {
    && index <= |argv| == |replaced| && replaced[index..] == argv[index..]
    && Replaced(argv, result).0 == replaced[..index] + Replaced(argv[index..], result).0
    && Replaced(argv, result).1 == matches + Replaced(argv[index..], result).1
  }

  lemma ReplacingPair(argv: seq<string>, result: string, replaced: seq<string>, index: nat, matches: nat)
    requires Replacing(argv, result, replaced, index, matches) && index + 1 < |argv| && replaced[index] == OUT
    ensures Replacing(argv, result, replaced[index + 1 := result], index + 2, matches + 1)
  {
    var rest, next := argv[index..], replaced[index + 1 := result];
    assert rest[0] == replaced[index..][0] == OUT && rest[2..] == argv[index + 2..];
    assert next[index + 2..] == replaced[index..][2..];
    assert next[..index + 2] == replaced[..index] + [OUT, result];
    Regroup(replaced[..index], [OUT, result], Replaced(rest[2..], result).0);
  }

  lemma ReplacingOne(argv: seq<string>, result: string, replaced: seq<string>, index: nat, matches: nat)
    requires Replacing(argv, result, replaced, index, matches) && index < |argv| && replaced[index] != OUT
    ensures var joins := JoinsOut(replaced[index]);
      Replacing(argv, result, if joins then replaced[index := OUT + "=" + result] else replaced, index + 1,
                if joins then matches + 1 else matches)
  {
    var rest, joins := argv[index..], JoinsOut(replaced[index]);
    var next := if joins then replaced[index := OUT + "=" + result] else replaced;
    assert rest[0] == replaced[index..][0] && rest[1..] == argv[index + 1..];
    assert next[index + 1..] == replaced[index..][1..];
    assert next[..index + 1] == replaced[..index] + [next[index]];
    Regroup(replaced[..index], [next[index]], Replaced(rest[1..], result).0);
  }

  lemma ReplacingDone(argv: seq<string>, result: string, replaced: seq<string>, index: nat, matches: nat)
    requires Replacing(argv, result, replaced, index, matches)
    requires index == |argv| || (index + 1 == |argv| && replaced[index] == OUT)
    ensures Replaced(argv, result) == (replaced, matches)
  {
    assert replaced[..index] + replaced[index..] == replaced;
    if index < |argv| { assert argv[index..] == [OUT] by { assert argv[index..][0] == replaced[index..][0]; } }
  }

  /** None stands for the error: no output value, or more than one. */
  method ReplaceOutput(argv: seq<string>, result: string) returns (r: Option<seq<string>>)
    ensures r == if Replaced(argv, result).1 == 1 then Some(Replaced(argv, result).0) else None
  {
    var replaced, matches, index := argv, 0, 0;
    assert argv[0..] == argv && [] + Replaced(argv, result).0 == Replaced(argv, result).0;
    while index < |replaced|
      invariant index <= |argv| == |replaced|
      invariant Replacing(argv, result, replaced, index, matches)
    {
      var argument := replaced[index];
      if argument == OUT {
        if index + 1 >= |replaced| { break; }
        ReplacingPair(argv, result, replaced, index, matches);
        replaced := replaced[index + 1 := result];
        matches := matches + 1;
        index := index + 2;
        continue;
      }
      ReplacingOne(argv, result, replaced, index, matches);
      if JoinsOut(argument) {
        replaced := replaced[index := OUT + "=" + result];
        matches := matches + 1;
      }
      index := index + 1;
    }
    ReplacingDone(argv, result, replaced, index, matches);
    r := if matches == 1 then Some(replaced) else None;
  }

  function WithOut(t: Token, result: string): Token {
    match t
    case Word(_) => t
    case Pair(o, _) => if o == OUT then Pair(o, result) else t
    case Joined(o, _) => if o == OUT then Joined(o, result) else t
  }

  function WithOuts(ts: seq<Token>, result: string): seq<Token> {
    if ts == [] then [] else [WithOut(ts[0], result)] + WithOuts(ts[1..], result)
  }

  predicate IsOut(t: Token) { !t.Word? && t.option == OUT }

  function Outs(ts: seq<Token>): nat {
    if ts == [] then 0 else (if IsOut(ts[0]) then 1 else 0) + Outs(ts[1..])
  }

  lemma JoinsOutIff(arg: string)
    ensures JoinsOut(arg) <==> OptionOf(arg) == OUT && InlineOf(arg).Some?
  {
    PartitionFacts(arg);
    if JoinsOut(arg) {
      assert arg == OUT + "=" + arg[6..];
      PartitionInline(OUT, arg[6..]);
    }
  }

  lemma OutsStep(ts: seq<Token>, result: string)
    requires ts != []
    ensures Spell(ts) == Spelled(ts[0]) + Spell(ts[1..])
    ensures Spell(WithOuts(ts, result)) == Spelled(WithOut(ts[0], result)) + Spell(WithOuts(ts[1..], result))
    ensures Outs(ts) == (if IsOut(ts[0]) then 1 else 0) + Outs(ts[1..])
  {
    var us := WithOuts(ts, result);
    assert us[0] == WithOut(ts[0], result) && us[1..] == WithOuts(ts[1..], result);
  }

  /** On accepted arguments both scanners see the same output values. */
  lemma {:induction false} ReplacedTokens(options: set<string>, ts: seq<Token>, result: string)
    requires Proper(options) && AllReadable(options, ts)
    ensures Replaced(Spell(ts), result) == (Spell(WithOuts(ts, result)), Outs(ts))
  {
    if ts != [] {
      assert ts[0] in ts && forall x :: x in ts[1..] ==> x in ts;
      ReplacedTokens(options, ts[1..], result);
      OutsStep(ts, result);
      OneReplaced(options, ts[0], Spell(ts[1..]), result);
    }
  }

  predicate OneStep(t: Token, rest: seq<string>, result: string) {
    Replaced(Spelled(t) + rest, result)
      == (Spelled(WithOut(t, result)) + Replaced(rest, result).0,
          (if IsOut(t) then 1 else 0) + Replaced(rest, result).1)
  }

  /** An argument that is no output option stays. */
  lemma OtherStays(arg: string, rest: seq<string>, result: string)
    requires arg != OUT && !JoinsOut(arg)
    ensures Replaced([arg] + rest, result) == ([arg] + Replaced(rest, result).0, Replaced(rest, result).1)
  {
    assert ([arg] + rest)[1..] == rest;
  }

  lemma OneReplaced(options: set<string>, t: Token, rest: seq<string>, result: string)
    requires Proper(options) && Readable(options, t)
    ensures OneStep(t, rest, result)
  {
    match t
    case Word(arg) =>
      PartitionFacts(OUT);
      JoinsOutIff(arg);
      OtherStays(arg, rest, result);
    case Pair(o, path) => PairReplaced(options, o, path, rest, result);
    case Joined(o, path) => JoinedReplaced(options, o, path, rest, result);
  }

  lemma PairReplaced(options: set<string>, o: string, path: string, rest: seq<string>, result: string)
    requires Proper(options) && Readable(options, Pair(o, path))
    ensures OneStep(Pair(o, path), rest, result)
  {
    assert [o, path] + rest == [o] + ([path] + rest);
    if o == OUT {
      assert ([OUT, path] + rest)[2..] == rest;
    } else {
      PartitionFacts(o);
      JoinsOutIff(o);
      assert path[0] == '/' && OUT[0] == '-' && (OUT + "=")[0] == '-';
      OtherStays(path, rest, result);
      OtherStays(o, [path] + rest, result);
      assert [o] + ([path] + Replaced(rest, result).0) == [o, path] + Replaced(rest, result).0;
    }
  }

  lemma JoinedReplaced(options: set<string>, o: string, path: string, rest: seq<string>, result: string)
    requires Proper(options) && Readable(options, Joined(o, path))
    ensures OneStep(Joined(o, path), rest, result)
  {
    var arg := o + "=" + path;
    PartitionInline(o, path);
    JoinsOutIff(arg);
    assert arg[|o|] == '=' && '=' in arg && '=' !in OUT;
    if o == OUT {
      assert ([arg] + rest)[1..] == rest;
    } else {
      OtherStays(arg, rest, result);
    }
  }

  lemma {:induction false} WithOutsReadable(options: set<string>, ts: seq<Token>, result: string)
    requires AllReadable(options, ts) && Absolute(result)
    ensures AllReadable(options, WithOuts(ts, result)) && |WithOuts(ts, result)| == |ts|
    ensures |Spell(WithOuts(ts, result))| == |Spell(ts)|
  {
    if ts != [] {
      assert ts[0] in ts && forall x :: x in ts[1..] ==> x in ts;
      WithOutsReadable(options, ts[1..], result);
      OutsStep(ts, result);
    }
  }

  /** For arguments accepted as absolute, the replacement succeeds exactly when there is one output
      option; it changes that value and no other token, keeps the length, and the result is accepted
      again when the new path is absolute. */
  lemma ReplacementKeepsAcceptance(options: set<string>, argv: seq<string>, result: string)
    requires Proper(options) && Tokens(options, argv).Some? && Absolute(result)
    ensures var ts := Tokens(options, argv).value;
      && Replaced(argv, result) == (Spell(WithOuts(ts, result)), Outs(ts))
      && |Replaced(argv, result).0| == |argv|
      && Tokens(options, Replaced(argv, result).0) == Some(WithOuts(ts, result))
  {
    ReadThenSpell(options, argv);
    var ts := Tokens(options, argv).value;
    ReplacedTokens(options, ts, result);
    WithOutsReadable(options, ts, result);
    SpellThenRead(options, WithOuts(ts, result));
  }

  // ---- the command schema ----

  const INTERPRETER := "<venv-interpreter>"
  const RUNNER := "<candidate-runner>"
  const PATH := "<absolute-path>"
  const VALUE := "<value>"
  predicate Dashed(arg: string) { "--" <= arg }

  /** What one argument becomes, given whether a path value is due, and whether one is due next. */
  function Erased(options: set<string>, arg: string, due: bool): (string, bool) {
    if due then (PATH, false)
    else if OptionOf(arg) in options then
      if InlineOf(arg).Some? then (OptionOf(arg) + "=" + PATH, false) else (OptionOf(arg), true)
    else if Dashed(arg) then (OptionOf(arg), false)
    else (VALUE, false)
  }

  /** The schema of a command from position `index` on; positions 0 and 2 are the interpreter and the script. */
  function Schema(options: set<string>, command: seq<string>, index: nat, due: bool): seq<string>
    requires index <= |command|
    decreases |command| - index
  {
    if index == |command| then []
    else if index == 0 then [INTERPRETER] + Schema(options, command, 1, due)
    else if index == 2 then [RUNNER] + Schema(options, command, 3, due)
    else
      var (shown, next) := Erased(options, command[index], due);
      [shown] + Schema(options, command, index + 1, next)
  }

  method CommandSchema(options: set<string>, command: seq<string>) returns (schema: seq<string>)
    ensures schema == Schema(options, command, 0, false)
  {
    schema := [];
    var pathValueExpected := false;
    for index := 0 to |command|
      invariant Schema(options, command, 0, false) == schema + Schema(options, command, index, pathValueExpected)
    {
      var argument := command[index];
      ghost var before, due := schema, pathValueExpected;
      if index == 0 {
        schema := schema + [INTERPRETER];
      } else if index == 2 {
        schema := schema + [RUNNER];
      } else if pathValueExpected {
        schema := schema + [PATH];
        pathValueExpected := false;
      } else if OptionOf(argument) in options {
        schema := schema + [if InlineOf(argument).Some? then OptionOf(argument) + "=" + PATH else OptionOf(argument)];
        pathValueExpected := InlineOf(argument).None?;
      } else if Dashed(argument) {
        schema := schema + [OptionOf(argument)];
      } else {
        schema := schema + [VALUE];
      }
      SchemaStep(options, command, index, due);
      Regroup(before, [schema[|before|]], Schema(options, command, index + 1, pathValueExpected));
    }
  }

  function Command(interpreter: string, script: string, argv: seq<string>): seq<string> {
    [interpreter, "-B", script] + argv + [BOUND]
  }

  function Shown(t: Token): seq<string> {
    match t
    case Word(arg) => [if Dashed(arg) then OptionOf(arg) else VALUE]
    case Pair(o, _) => [o, PATH]
    case Joined(o, _) => [o + "=" + PATH]
  }

  function ShownAll(ts: seq<Token>): seq<string> {
    if ts == [] then [] else Shown(ts[0]) + ShownAll(ts[1..])
  }

  lemma Regroup(a: seq<string>, b: seq<string>, c: seq<string>)
    ensures a + (b + c) == (a + b) + c
  {}

  /** The arguments after the script, erased one by one. */
  function ErasedAll(options: set<string>, args: seq<string>, due: bool): seq<string> {
    if args == [] then []
    else var (shown, next) := Erased(options, args[0], due); [shown] + ErasedAll(options, args[1..], next)
  }

  lemma ErasedStep(options: set<string>, arg: string, rest: seq<string>, due: bool)
    ensures ErasedAll(options, [arg] + rest, due)
         == [Erased(options, arg, due).0] + ErasedAll(options, rest, Erased(options, arg, due).1)
  {
    assert ([arg] + rest)[1..] == rest;
  }

  lemma {:induction false} SchemaIsErased(options: set<string>, command: seq<string>, index: nat, due: bool)
    requires 3 <= index <= |command|
    ensures Schema(options, command, index, due) == ErasedAll(options, command[index..], due)
    decreases |command| - index
  {
    if index < |command| {
      SchemaStep(options, command, index, due);
      SchemaIsErased(options, command, index + 1, Erased(options, command[index], due).1);
      assert command[index..] == [command[index]] + command[index + 1..];
      ErasedStep(options, command[index], command[index + 1..], due);
    }
  }

  lemma ErasedToken(options: set<string>, t: Token, rest: seq<string>)
    requires Readable(options, t)
    ensures ErasedAll(options, Spelled(t) + rest, false) == Shown(t) + ErasedAll(options, rest, false)
  {
    match t
    case Word(arg) => ErasedStep(options, arg, rest, false);
    case Pair(o, path) =>
      PartitionFacts(o);
      assert [o, path] + rest == [o] + ([path] + rest);
      ErasedStep(options, o, [path] + rest, false);
      ErasedStep(options, path, rest, true);
      Regroup([o], [PATH], ErasedAll(options, rest, false));
    case Joined(o, path) =>
      PartitionInline(o, path);
      ErasedStep(options, o + "=" + path, rest, false);
  }

  lemma ReadableParts(options: set<string>, ts: seq<Token>)
    requires ts != [] && AllReadable(options, ts)
    ensures Readable(options, ts[0]) && AllReadable(options, ts[1..])
  {
    assert ts[0] in ts && forall x :: x in ts[1..] ==> x in ts;
  }

  lemma {:induction false} ErasedTokens(options: set<string>, ts: seq<Token>, last: string)
    requires AllReadable(options, ts) && Erased(options, last, false) == (last, false)
    ensures ErasedAll(options, Spell(ts) + [last], false) == ShownAll(ts) + [last]
  {
    if ts == [] {
      ErasedStep(options, last, [], false);
      assert [] + [last] == [last] && [last] + [] == [last];
    } else {
      ReadableParts(options, ts);
      ErasedTokens(options, ts[1..], last);
      Regroup(Spelled(ts[0]), Spell(ts[1..]), [last]);
      ErasedToken(options, ts[0], Spell(ts[1..]) + [last]);
      Regroup(Shown(ts[0]), ShownAll(ts[1..]), [last]);
    }
  }

  /** Two argument lists that differ in path values at most. */
  predicate SameButPaths(a: seq<Token>, b: seq<Token>) {
    |a| == |b| && forall i :: 0 <= i < |a| ==> SameButPath(a[i], b[i])
  }

  predicate SameButPath(a: Token, b: Token) {
    match a
    case Word(arg) => a == b
    case Pair(o, _) => b.Pair? && b.option == o
    case Joined(o, _) => b.Joined? && b.option == o
  }

  lemma {:induction false} ShownSame(a: seq<Token>, b: seq<Token>)
    requires SameButPaths(a, b)
    ensures ShownAll(a) == ShownAll(b)
  {
    if a != [] {
      assert SameButPath(a[0], b[0]);
      assert forall i :: 0 <= i < |a[1..]| ==> SameButPath(a[1..][i], b[1..][i]) by {
        assert forall i :: 0 <= i < |a[1..]| ==> a[1..][i] == a[i + 1] && b[1..][i] == b[i + 1];
      }
      ShownSame(a[1..], b[1..]);
    }
  }

  lemma SchemaStep(options: set<string>, command: seq<string>, index: nat, due: bool)
    requires index < |command|
    ensures Schema(options, command, index, due) ==
      if index == 0 then [INTERPRETER] + Schema(options, command, 1, due)
      else if index == 2 then [RUNNER] + Schema(options, command, 3, due)
      else
        var e := Erased(options, command[index], due);
        [e.0] + Schema(options, command, index + 1, e.1)
  {}

  lemma SchemaPrefix(options: set<string>, command: seq<string>)
    requires |command| >= 3 && Erased(options, command[1], false) == (VALUE, false)
    ensures Schema(options, command, 0, false) == [INTERPRETER, VALUE, RUNNER] + Schema(options, command, 3, false)
  {
    SchemaStep(options, command, 0, false);
    SchemaStep(options, command, 1, false);
    SchemaStep(options, command, 2, false);
    Three(INTERPRETER, VALUE, RUNNER, Schema(options, command, 3, false));
  }

  lemma Three(a: string, b: string, c: string, rest: seq<string>)
    ensures [a] + ([b] + ([c] + rest)) == [a, b, c] + rest
  {}

  lemma WrappedSchema(options: set<string>, i: string, flag: string, s: string, argv: seq<string>, last: string)
    requires Tokens(options, argv).Some?
    requires Erased(options, flag, false) == (VALUE, false) && Erased(options, last, false) == (last, false)
    ensures Schema(options, [i, flag, s] + argv + [last], 0, false)
         == [INTERPRETER, VALUE, RUNNER] + (ShownAll(Tokens(options, argv).value) + [last])
  {
    var command := [i, flag, s] + argv + [last];
    assert command[3..] == argv + [last];
    ReadThenSpell(options, argv);
    SchemaIsErased(options, command, 3, false);
    ErasedTokens(options, Tokens(options, argv).value, last);
    SchemaPrefix(options, command);
  }

  lemma CommandSchemaOf(options: set<string>, i: string, s: string, argv: seq<string>)
    requires Proper(options) && BOUND !in options && Tokens(options, argv).Some?
    ensures Schema(options, Command(i, s, argv), 0, false)
         == [INTERPRETER, VALUE, RUNNER] + (ShownAll(Tokens(options, argv).value) + [BOUND])
  {
    BoundIsShown(options, BOUND);
    FlagIsValue(options);
    WrappedSchema(options, i, "-B", s, argv, BOUND);
  }

  lemma BoundIsShown(options: set<string>, bound: string)
    requires bound == BOUND && bound !in options
    ensures Erased(options, bound, false) == (bound, false)
  {
    assert forall i :: 0 <= i < |bound| ==> bound[i] != '=';
    PartitionFacts(bound);
  }

  lemma FlagIsValue(options: set<string>)
    requires Proper(options)
    ensures Erased(options, "-B", false) == (VALUE, false)
  {
    PartitionFacts("-B");
    assert OptionOf("-B") == "-B" && "-B"[1] == 'B';
  }

  /** The schema of an accepted command does not depend on any path: not on the forwarded ones, the
      interpreter or the script. */
  lemma SchemaHidesPaths(options: set<string>, a: seq<string>, b: seq<string>, i: string, j: string, s: string,
                         t: string)
    requires Proper(options) && BOUND !in options
    requires Tokens(options, a).Some? && Tokens(options, b).Some?
    requires SameButPaths(Tokens(options, a).value, Tokens(options, b).value)
    ensures Schema(options, Command(i, s, a), 0, false) == Schema(options, Command(j, t, b), 0, false)
  {
    CommandSchemaOf(options, i, s, a);
    CommandSchemaOf(options, j, t, b);
    ShownSame(Tokens(options, a).value, Tokens(options, b).value);
  }

  lemma {:induction false} WithOutsSame(ts: seq<Token>, result: string)
    ensures SameButPaths(ts, WithOuts(ts, result))
  {
    if ts != [] {
      WithOutsSame(ts[1..], result);
      var us := WithOuts(ts, result);
      forall i | 0 <= i < |ts| ensures SameButPath(ts[i], us[i]) {
        if i > 0 { assert ts[i] == ts[1..][i - 1] && us[i] == WithOuts(ts[1..], result)[i - 1]; }
      }
    }
  }

  /** The three scanners agree: replacing the output path never shows in the command schema. */
  lemma ReplacementIsInvisible(options: set<string>, argv: seq<string>, result: string, i: string, s: string)
    requires Proper(options) && BOUND !in options && Tokens(options, argv).Some? && Absolute(result)
    ensures Schema(options, Command(i, s, Replaced(argv, result).0), 0, false)
      == Schema(options, Command(i, s, argv), 0, false)
  {
    ReplacementKeepsAcceptance(options, argv, result);
    WithOutsSame(Tokens(options, argv).value, result);
    SchemaHidesPaths(options, argv, Replaced(argv, result).0, i, i, s, s);
  }

  /** The runner's own options: replacing the output path of accepted arguments keeps them accepted and
      never shows in the command schema. */
  lemma RunnerReplacementIsInvisible(argv: seq<string>, result: string, i: string, s: string)
    requires Tokens(FORWARDED, argv).Some? && Absolute(result)
    ensures Tokens(FORWARDED, Replaced(argv, result).0).Some? && |Replaced(argv, result).0| == |argv|
    ensures Schema(FORWARDED, Command(i, s, Replaced(argv, result).0), 0, false)
      == Schema(FORWARDED, Command(i, s, argv), 0, false)
  {
    ForwardedIsProper();
    BoundIsNotForwarded();
    ReplacementKeepsAcceptance(FORWARDED, argv, result);
    ReplacementIsInvisible(FORWARDED, argv, result, i, s);
  }
}

/** The command-line scanner `get_argument`. */
module Arguments {
  import opened Options

  const DEFAULT_CONF_PATH := "../conf/config.conf"
  const SIGNAL_STOP: nat := 1
  const SIGNAL_RELOAD: nat := 2

  /** The fields of `argument` the scanner sets. */
  datatype Settings = Settings(
    testConf: Option<string>,
    setConf: Option<string>,
    signal: nat,
    showHelp: bool,
    showVersion: bool,
    testConfig: bool,
    setConfig: bool,
    sendSignal: bool,
    debugMode: bool)

  /** Reading a C string: past its end there is the terminator. */
  function CharAt(s: string, i: nat): char {
    if i < |s| then s[i] else '\0'
  }

  predicate Dashed(token: string) {
    CharAt(token, 0) == '-'
  }

  // ---------------------------------------------------------------------------------------------
  // One option

  /** What one turn of the loop does: how many tokens it takes, or that it gives up. */
  datatype Turn = Taken(settings: Settings, tokens: nat) | Rejected(settings: Settings)

  function TakeFile(tokens: seq<string>): Option<string>
    requires tokens != []
  {
    if |tokens| > 1 && !Dashed(tokens[1]) then Some(tokens[1]) else None
  }

  function FileOr(file: Option<string>): string {
    if file.Some? then file.value else DEFAULT_CONF_PATH
  }

  function TakeSignal(tokens: seq<string>, s: Settings): Turn
    requires tokens != []
  {
    var s' := s.(sendSignal := true);
    if |tokens| == 1 || Dashed(tokens[1]) then Rejected(s')
    else if CharAt(tokens[1], 0) == 's' then Taken(s'.(signal := SIGNAL_STOP), 2)
    else if CharAt(tokens[1], 0) == 'r' then Taken(s'.(signal := SIGNAL_RELOAD), 2)
    else Rejected(s')
  }

  function TakeOption(tokens: seq<string>, s: Settings): (t: Turn)
    requires tokens != []
    ensures t.Taken? ==> 1 <= t.tokens <= 2 && t.tokens <= |tokens|
  {
    var p := tokens[0];
    if !Dashed(p) then Rejected(s)
    else
      var c := CharAt(p, 1);
      var file := TakeFile(tokens);
      var used := if file.Some? then 2 else 1;
      if c == '?' || c == 'h' then Taken(s.(showHelp := true), 1)
      else if c == 'd' then Taken(s.(debugMode := true), 1)
      else if c == 'v' then Taken(s.(showVersion := true), 1)
      else if c == 't' then Taken(s.(testConfig := true, testConf := Some(FileOr(file))), used)
      else if c == 'c' then Taken(s.(setConfig := true, setConf := Some(FileOr(file))), used)
      else if c == 's' then TakeSignal(tokens, s)
      else Rejected(s)
  }

  // ---------------------------------------------------------------------------------------------
  // The whole scan

  /** The verdict, and the settings as the scan leaves them. */
  datatype Outcome = Outcome(ok: bool, settings: Settings)

  function Scan(tokens: seq<string>, s: Settings): Outcome
    decreases |tokens|
  {
    if tokens == [] then Outcome(true, s)
    else
      match TakeOption(tokens, s)
      case Rejected(s') => Outcome(false, s')
      case Taken(s', n) => Scan(tokens[n..], s')
  }

  /** One turn of the loop at `argv[i]`, field by field; `next` is where the loop goes on. */
  method ScanOne(argv: seq<string>, i: nat, start: Settings) returns (ok: bool, s: Settings, next: nat)
    requires i < |argv|
    ensures ok ==> i < next <= |argv| && TakeOption(argv[i..], start) == Taken(s, next - i)
    ensures !ok ==> TakeOption(argv[i..], start) == Rejected(s)
  {
    ok, s, next := true, start, i + 1;
    var p := argv[i];
    ghost var rest := argv[i..];
    assert rest[0] == p && (i + 1 < |argv| ==> rest[1] == argv[i + 1]);
    if CharAt(p, 0) != '-' {
      return false, s, next;
    }
    var c := CharAt(p, 1);
    if c == '?' || c == 'h' {
      s := s.(showHelp := true);
    } else if c == 'd' {
      s := s.(debugMode := true);
    } else if c == 'v' {
      s := s.(showVersion := true);
    } else if c == 't' {
      s := s.(testConfig := true, testConf := Some(DEFAULT_CONF_PATH));
      if i + 1 < |argv| && CharAt(argv[i + 1], 0) != '-' {
        s, next := s.(testConf := Some(argv[i + 1])), i + 2;
      }
    } else if c == 'c' {
      s := s.(setConfig := true, setConf := Some(DEFAULT_CONF_PATH));
      if i + 1 < |argv| && CharAt(argv[i + 1], 0) != '-' {
        s, next := s.(setConf := Some(argv[i + 1])), i + 2;
      }
    } else if c == 's' {
      s := s.(sendSignal := true);
      if i + 1 >= |argv| || CharAt(argv[i + 1], 0) == '-' {
        return false, s, next;
      }
      if CharAt(argv[i + 1], 0) == 's' {
        s := s.(signal := SIGNAL_STOP);
      } else if CharAt(argv[i + 1], 0) == 'r' {
        s := s.(signal := SIGNAL_RELOAD);
      } else {
        return false, s, next;
      }
      next := i + 2;
    } else {
      return false, s, next;
    }
  }

  /** `get_argument`: everything after the program name is scanned, if there is anything. */
  method GetArgument(argv: seq<string>, start: Settings) returns (ok: bool, s: Settings)
    ensures Outcome(ok, s) == Scan(if argv == [] then [] else argv[1..], start)
  {
    ok, s := true, start;
    var i := 1;
    while i < |argv|
      invariant 1 <= i && (argv != [] ==> i <= |argv| && Scan(argv[i..], s) == Scan(argv[1..], start))
      invariant ok && (argv == [] ==> s == start)
      decreases |argv| - i
    {
      ghost var rest := argv[i..];
      var next;
      ok, s, next := ScanOne(argv, i, s);
      if !ok {
        return;
      }
      assert rest[next - i..] == argv[next..];
      i := next;
    }
  }

  /** What each option does on its own, as the usage text has it. */
  lemma OptionAlone(p: string, s: Settings)
    requires Dashed(p)
    ensures CharAt(p, 1) in {'?', 'h'} ==> Scan([p], s) == Outcome(true, s.(showHelp := true))
    ensures CharAt(p, 1) == 'd' ==> Scan([p], s) == Outcome(true, s.(debugMode := true))
    ensures CharAt(p, 1) == 'v' ==> Scan([p], s) == Outcome(true, s.(showVersion := true))
    ensures CharAt(p, 1) == 't' ==>
              Scan([p], s) == Outcome(true, s.(testConfig := true, testConf := Some("../conf/config.conf")))
    ensures CharAt(p, 1) == 'c' ==>
              Scan([p], s) == Outcome(true, s.(setConfig := true, setConf := Some("../conf/config.conf")))
    ensures CharAt(p, 1) == 's' ==> Scan([p], s) == Outcome(false, s.(sendSignal := true))
    ensures CharAt(p, 1) !in {'?', 'h', 'd', 'v', 't', 'c', 's'} ==> Scan([p], s) == Outcome(false, s)
  {
    assert [p][1..] == [];
  }

  /** And with an argument after it: a file name, or the signal to send by its first letter. */
  lemma OptionWithArgument(p: string, a: string, s: Settings)
    requires Dashed(p) && !Dashed(a)
    ensures CharAt(p, 1) == 't' ==> Scan([p, a], s) == Outcome(true, s.(testConfig := true, testConf := Some(a)))
    ensures CharAt(p, 1) == 'c' ==> Scan([p, a], s) == Outcome(true, s.(setConfig := true, setConf := Some(a)))
    ensures CharAt(p, 1) == 's' && CharAt(a, 0) == 's' ==> Scan([p, a], s) == Outcome(true, s.(sendSignal := true, signal := 1))
    ensures CharAt(p, 1) == 's' && CharAt(a, 0) == 'r' ==> Scan([p, a], s) == Outcome(true, s.(sendSignal := true, signal := 2))
    ensures CharAt(p, 1) == 's' && CharAt(a, 0) !in {'s', 'r'} ==> Scan([p, a], s) == Outcome(false, s.(sendSignal := true))
    ensures CharAt(p, 1) !in {'t', 'c', 's'} ==> !Scan([p, a], s).ok
  {
    assert [p, a][2..] == [] && [p, a][1..] == [a];
  }

  // ---------------------------------------------------------------------------------------------
  // Scanning in pieces

  /** `a` ends in an option that would take the next token as a file name. */
  predicate Hanging(a: seq<string>) {
    a != [] && Dashed(a[|a| - 1]) && CharAt(a[|a| - 1], 1) in {'t', 'c'}
  }

  predicate Fits(a: seq<string>, b: seq<string>) {
    !Hanging(a) || b == [] || Dashed(b[0])
  }

  /** The file name a hanging `-t` or `-c` gets after all. */
  function SupplyFile(option: string, file: string, s: Settings): Settings {
    if CharAt(option, 1) == 't' then s.(testConf := Some(file)) else s.(setConf := Some(file))
  }

  /** An option that is not the last token, or fits what follows, is taken as if nothing followed. */
  lemma TakeOptionConcat(a: seq<string>, b: seq<string>, s: Settings)
    requires a != [] && TakeOption(a, s).Taken? && (|a| > 1 || Fits(a, b))
    ensures TakeOption(a + b, s) == TakeOption(a, s)
  {
  }

  lemma ArgumentNotDashed(a: seq<string>, s: Settings)
    requires a != [] && TakeOption(a, s).Taken? && TakeOption(a, s).tokens == 2
    ensures !Dashed(a[1])
  {
  }

  lemma TailEnds(a: seq<string>, n: nat)
    requires n < |a|
    ensures a[n..][|a| - n - 1] == a[|a| - 1]
  {
  }

  /** If `a` is accepted and does not reach into `b`, scanning `a` then `b` is scanning them in turn. */
  lemma {:induction false} ScanConcat(a: seq<string>, b: seq<string>, s: Settings)
    requires Scan(a, s).ok && Fits(a, b)
    ensures Scan(a + b, s) == Scan(b, Scan(a, s).settings)
    decreases |a|
  {
    if a == [] {
      assert a + b == b;
    } else {
      var t := TakeOption(a, s);
      TakeOptionConcat(a, b, s);
      assert (a + b)[t.tokens..] == a[t.tokens..] + b;
      if t.tokens < |a| {
        TailEnds(a, t.tokens);
      }
      ScanConcat(a[t.tokens..], b, t.settings);
    }
  }

  lemma ScanHangingOption(p: string, b: seq<string>, s: Settings)
    requires Scan([p], s).ok && !Fits([p], b)
    ensures Scan([p] + b, s) == Scan(b[1..], SupplyFile(p, b[0], Scan([p], s).settings))
    ensures Scan(b, Scan([p], s).settings) == Outcome(false, Scan([p], s).settings)
  {
    assert ([p] + b)[2..] == b[1..];
    assert [p][1..] == [];
  }

  /** If it does reach into `b`, the first token of `b` becomes its file name, and the scan goes on after
      it; alone, `b` would have been rejected at that token. */
  lemma {:induction false} ScanHanging(a: seq<string>, b: seq<string>, s: Settings)
    requires Scan(a, s).ok && !Fits(a, b)
    ensures Scan(a + b, s) == Scan(b[1..], SupplyFile(a[|a| - 1], b[0], Scan(a, s).settings))
    ensures Scan(b, Scan(a, s).settings) == Outcome(false, Scan(a, s).settings)
    decreases |a|
  {
    var t := TakeOption(a, s);
    if |a| == 1 {
      ScanHangingOption(a[0], b, s);
      assert a == [a[0]];
    } else {
      hide TakeOption;
      TakeOptionConcat(a, b, s);
      assert (a + b)[t.tokens..] == a[t.tokens..] + b;
      if t.tokens == 2 {
        ArgumentNotDashed(a, s);
      }
      TailEnds(a, t.tokens);
      ScanHanging(a[t.tokens..], b, t.settings);
    }
  }

  /** An accepted list can be followed by anything, and scanned in pieces, exactly when it is not hanging. */
  lemma ComposesExactly(a: seq<string>, s: Settings)
    requires Scan(a, s).ok
    ensures (forall b :: Scan(a + b, s) == Scan(b, Scan(a, s).settings)) <==> !Hanging(a)
  {
    if Hanging(a) {
      var b := ["x"];
      ScanHanging(a, b, s);
      assert b[1..] == [];
      assert Scan(a + b, s).ok && !Scan(b, Scan(a, s).settings).ok;
    } else {
      forall b ensures Scan(a + b, s) == Scan(b, Scan(a, s).settings) {
        ScanConcat(a, b, s);
      }
    }
  }

  // ---------------------------------------------------------------------------------------------
  // Writing options out and reading them back

  datatype Choice =
    | Help
    | Debug
    | Version
    | Test(file: Option<string>)
    | Conf(file: Option<string>)
    | SendStop
    | SendReload

  /** A file name that starts with a dash cannot be passed. */
  predicate Expressible(c: Choice) {
    (c.Test? || c.Conf?) && c.file.Some? ==> !Dashed(c.file.value)
  }

  function Tokens(c: Choice): seq<string> {
    match c
    case Help => ["-h"]
    case Debug => ["-d"]
    case Version => ["-v"]
    case Test(file) => ["-t"] + if file.Some? then [file.value] else []
    case Conf(file) => ["-c"] + if file.Some? then [file.value] else []
    case SendStop => ["-s", "stop"]
    case SendReload => ["-s", "reload"]
  }

  function Apply(c: Choice, s: Settings): Settings {
    match c
    case Help => s.(showHelp := true)
    case Debug => s.(debugMode := true)
    case Version => s.(showVersion := true)
    case Test(file) => s.(testConfig := true, testConf := Some(FileOr(file)))
    case Conf(file) => s.(setConfig := true, setConf := Some(FileOr(file)))
    case SendStop => s.(sendSignal := true, signal := SIGNAL_STOP)
    case SendReload => s.(sendSignal := true, signal := SIGNAL_RELOAD)
  }

  function AllTokens(cs: seq<Choice>): seq<string> {
    if cs == [] then [] else Tokens(cs[0]) + AllTokens(cs[1..])
  }

  function ApplyAll(cs: seq<Choice>, s: Settings): Settings
    decreases |cs|
  {
    if cs == [] then s else ApplyAll(cs[1..], Apply(cs[0], s))
  }

  lemma ScanChoice(c: Choice, s: Settings)
    requires Expressible(c)
    ensures Scan(Tokens(c), s) == Outcome(true, Apply(c, s))
  {
  }

  lemma AllTokensDashed(cs: seq<Choice>)
    ensures AllTokens(cs) == [] || Dashed(AllTokens(cs)[0])
  {
  }

  /** Any sequence of options, written out and scanned, is accepted and takes effect in order. */
  lemma {:induction false} ScanAllTokens(cs: seq<Choice>, s: Settings)
    requires forall c :: c in cs ==> Expressible(c)
    ensures Scan(AllTokens(cs), s) == Outcome(true, ApplyAll(cs, s))
    decreases |cs|
  {
    if cs != [] {
      ScanChoice(cs[0], s);
      AllTokensDashed(cs[1..]);
      ScanConcat(Tokens(cs[0]), AllTokens(cs[1..]), s);
      ScanAllTokens(cs[1..], Apply(cs[0], s));
    }
  }

  // ---------------------------------------------------------------------------------------------
  // The grammar

  /** One option with its argument, if any. Only the second character of an option counts. */
  predicate OptionForm(ts: seq<string>) {
    && ts != [] && Dashed(ts[0])
    && var c := CharAt(ts[0], 1);
       || (|ts| == 1 && c in {'?', 'h', 'd', 'v', 't', 'c'})
       || (|ts| == 2 && !Dashed(ts[1]) && (c in {'t', 'c'} || (c == 's' && CharAt(ts[1], 0) in {'s', 'r'})))
  }

  function Meaning(ts: seq<string>): Choice
    requires OptionForm(ts)
  {
    var c, file := CharAt(ts[0], 1), if |ts| == 2 then Some(ts[1]) else None;
    if c == '?' || c == 'h' then Help
    else if c == 'd' then Debug
    else if c == 'v' then Version
    else if c == 't' then Test(file)
    else if c == 'c' then Conf(file)
    else if CharAt(ts[1], 0) == 's' then SendStop
    else SendReload
  }

  predicate OptionForms(fs: seq<seq<string>>) {
    forall ts :: ts in fs ==> OptionForm(ts)
  }

  function Flatten(fs: seq<seq<string>>): seq<string> {
    if fs == [] then [] else fs[0] + Flatten(fs[1..])
  }

  function Meanings(fs: seq<seq<string>>): seq<Choice>
    requires OptionForms(fs)
  {
    if fs == [] then []
    else
      assert fs[0] in fs;
      [Meaning(fs[0])] + Meanings(fs[1..])
  }

  lemma FormTaken(ts: seq<string>, s: Settings)
    requires OptionForm(ts)
    ensures TakeOption(ts, s) == Taken(Apply(Meaning(ts), s), |ts|)
  {
  }

  lemma ScanForm(ts: seq<string>, s: Settings)
    requires OptionForm(ts)
    ensures Scan(ts, s) == Outcome(true, Apply(Meaning(ts), s))
  {
    FormTaken(ts, s);
    assert ts[|ts|..] == [];
  }

  lemma FlattenDashed(fs: seq<seq<string>>)
    requires OptionForms(fs)
    ensures Flatten(fs) == [] || Dashed(Flatten(fs)[0])
  {
    if fs != [] {
      assert fs[0] in fs;
      assert Flatten(fs)[0] == fs[0][0];
    }
  }

  /** Whatever splits into option forms is accepted, and the forms take effect in order. */
  lemma {:induction false} ScanForms(fs: seq<seq<string>>, s: Settings)
    requires OptionForms(fs)
    ensures Scan(Flatten(fs), s) == Outcome(true, ApplyAll(Meanings(fs), s))
    decreases |fs|
  {
    if fs != [] {
      assert fs[0] in fs;
      ScanForm(fs[0], s);
      FlattenDashed(fs[1..]);
      ScanConcat(fs[0], Flatten(fs[1..]), s);
      ScanForms(fs[1..], Apply(Meaning(fs[0]), s));
      assert Meanings(fs)[1..] == Meanings(fs[1..]);
    }
  }

  lemma TakenIsForm(tokens: seq<string>, s: Settings)
    requires tokens != [] && TakeOption(tokens, s).Taken?
    ensures OptionForm(tokens[..TakeOption(tokens, s).tokens])
  {
  }

  lemma TakenFits(tokens: seq<string>, s: Settings)
    requires tokens != [] && TakeOption(tokens, s).Taken?
    ensures var n := TakeOption(tokens, s).tokens; n > 1 || Fits(tokens[..n], tokens[n..])
  {
  }

  /** The tokens an option takes mean what it does. */
  lemma TakenMeans(tokens: seq<string>, s: Settings)
    requires tokens != [] && TakeOption(tokens, s).Taken?
    ensures var first := tokens[..TakeOption(tokens, s).tokens];
            OptionForm(first) && TakeOption(tokens, s).settings == Apply(Meaning(first), s)
  {
    var n := TakeOption(tokens, s).tokens;
    TakenIsForm(tokens, s);
    TakenFits(tokens, s);
    hide TakeOption, Apply, Meaning, OptionForm, Fits;
    FormTaken(tokens[..n], s);
    TakeOptionConcat(tokens[..n], tokens[n..], s);
    assert tokens == tokens[..n] + tokens[n..];
  }

  lemma {:induction false} AcceptedSplits(tokens: seq<string>, s: Settings) returns (fs: seq<seq<string>>)
    requires Scan(tokens, s).ok
    ensures OptionForms(fs) && Flatten(fs) == tokens
    decreases |tokens|
  {
    if tokens == [] {
      fs := [];
    } else {
      var t := TakeOption(tokens, s);
      var rest := AcceptedSplits(tokens[t.tokens..], t.settings);
      TakenIsForm(tokens, s);
      fs := [tokens[..t.tokens]] + rest;
      assert fs[1..] == rest;
      assert tokens == tokens[..t.tokens] + tokens[t.tokens..];
    }
  }

  /** A token list is accepted exactly when it splits into option forms, whatever the settings. */
  lemma AcceptedExactly(tokens: seq<string>, s: Settings)
    ensures Scan(tokens, s).ok <==> exists fs :: OptionForms(fs) && Flatten(fs) == tokens
  {
    if Scan(tokens, s).ok {
      var fs := AcceptedSplits(tokens, s);
    }
    if fs :| OptionForms(fs) && Flatten(fs) == tokens {
      ScanForms(fs, s);
    }
  }

  lemma RejectedOption(tokens: seq<string>, s: Settings)
    requires tokens != [] && TakeOption(tokens, s).Rejected?
    ensures forall n :: 0 < n <= |tokens| ==> !OptionForm(tokens[..n])
    ensures TakeOption(tokens, s).settings == if Dashed(tokens[0]) && CharAt(tokens[0], 1) == 's'
                                              then s.(sendSignal := true) else s
  {
  }

  /** A rejected list has had all the options before the offending one take effect, and the flag of an
      offending `-s`. */
  lemma {:induction false} RejectedAfter(tokens: seq<string>, s: Settings)
    returns (fs: seq<seq<string>>, rest: seq<string>)
    requires !Scan(tokens, s).ok
    ensures OptionForms(fs) && tokens == Flatten(fs) + rest && rest != []
    ensures forall n :: 0 < n <= |rest| ==> !OptionForm(rest[..n])
    ensures var s' := ApplyAll(Meanings(fs), s);
            Scan(tokens, s).settings == if Dashed(rest[0]) && CharAt(rest[0], 1) == 's'
                                        then s'.(sendSignal := true) else s'
    decreases |tokens|
  {
    hide TakeOption, Apply, Meaning, OptionForm;
    var t := TakeOption(tokens, s);
    if t.Rejected? {
      RejectedOption(tokens, s);
      fs, rest := [], tokens;
    } else {
      var first := tokens[..t.tokens];
      TakenMeans(tokens, s);
      fs, rest := RejectedAfter(tokens[t.tokens..], t.settings);
      var more := fs;
      fs := [first] + more;
      assert fs[1..] == more && Meanings(fs)[1..] == Meanings(more);
      assert tokens == first + tokens[t.tokens..];
    }
  }
}

/**
 The rules for parameters, said outright: which configurations are valid, which argument values pass,
 what the client makes of what was typed, and which problem is reported. The checks of Parameters, which
 go through their input in order and stop at the first problem, decide exactly by these rules.
 */
module ParameterRules {
  import opened Basics
  import opened Templates
  import opened Parameters

  // ---------------------------------------------------------------------------
  // Characters and numbers
  // ---------------------------------------------------------------------------

  lemma WhitespaceIs(c: char)
    ensures IsWhitespace(c) <==>
            c as int in {9, 10, 11, 12, 13, 32, 133, 160, 5760, 8192, 8193, 8194, 8195, 8196, 8197, 8198, 8199, 8200, 8201, 8202,
                         8232, 8233, 8239, 8287, 12288}
  {
  }

  ghost predicate Blank(s: string) {
    forall c :: c in s ==> IsWhitespace(c)
  }

  /** The text is m with blanks around it. */
  ghost predicate Around(s: string, a: string, m: string, b: string) {
    s == a + m + b && Blank(a) && Blank(b)
  }

  lemma BlankBefore(s: string, a: string, m: string, b: string)
    requires s != "" && IsWhitespace(s[0]) && Around(s[1..], a, m, b)
    ensures Around(s, [s[0]] + a, m, b)
  {
    assert s == [s[0]] + s[1..];
  }

  lemma BlankBehind(s: string, a: string, m: string, b: string)
    requires s != "" && IsWhitespace(s[|s| - 1]) && Around(s[..|s| - 1], a, m, b)
    ensures Around(s, a, m, b + [s[|s| - 1]])
  {
    assert s == s[..|s| - 1] + [s[|s| - 1]];
  }

  /** Trimming takes away blanks at both ends and nothing else, and leaves none there. */
  lemma {:induction false} TrimIs(s: string) returns (a: string, b: string)
    ensures Around(s, a, Trim(s), b)
    ensures Trim(s) != "" ==> !IsWhitespace(Trim(s)[0]) && !IsWhitespace(Trim(s)[|Trim(s)| - 1])
    decreases |s|
  {
    a, b := "", "";
    if s != "" {
      if IsWhitespace(s[0]) {
        a, b := TrimIs(s[1..]);
        BlankBefore(s, a, Trim(s), b);
        a := [s[0]] + a;
      } else if IsWhitespace(s[|s| - 1]) {
        a, b := TrimIs(s[..|s| - 1]);
        BlankBehind(s, a, Trim(s), b);
        b := b + [s[|s| - 1]];
      }
    }
  }

  lemma BlankIff(s: string)
    ensures Trim(s) == "" <==> Blank(s)
  {
    var a, b := TrimIs(s);
    if Trim(s) != "" {
      assert Trim(s)[0] in s;
    }
  }

  /** Two characters are the same up to case exactly if they are equal or the two cases of one ASCII letter. */
  lemma SameLetter(c: char, d: char)
    ensures LowerChar(c) == LowerChar(d) <==>
            || c == d
            || ('A' <= c <= 'Z' && d as int == c as int + 32)
            || ('A' <= d <= 'Z' && c as int == d as int + 32)
  {
  }

  function Zeros(k: nat): string {
    seq(k, _ => '0')
  }

  lemma {:induction false} ValueOfZeros(k: nat, s: string)
    requires AllDigits(s)
    ensures AllDigits(Zeros(k) + s) && DigitsValue(Zeros(k) + s) == DigitsValue(s)
    decreases |s|, k
  {
    var z := Zeros(k) + s;
    if s == "" {
      assert z == Zeros(k);
      if k > 0 {
        ValueOfZeros(k - 1, s);
        assert z[..k - 1] == Zeros(k - 1) == Zeros(k - 1) + s;
      }
    } else {
      ValueOfZeros(k, s[..|s| - 1]);
      assert z[..|z| - 1] == Zeros(k) + s[..|s| - 1];
    }
  }

  /** A text of digits is its value, printed, behind zeros. */
  lemma {:induction false} DigitsArePrinted(s: string) returns (k: nat)
    requires s != "" && AllDigits(s)
    ensures s == Zeros(k) + Digits(DigitsValue(s))
    decreases |s|
  {
    k := 0;
    if |s| > 1 {
      var r, d := s[..|s| - 1], s[|s| - 1];
      k := DigitsArePrinted(r);
      assert s == r + [d];
      if DigitsValue(r) == 0 {
        k := k + 1;
        assert Zeros(k) == Zeros(k - 1) + "0" && Digits(0) == "0";
      } else {
        PrintedOneMore(DigitsValue(r), d);
        assert s == Zeros(k) + (Digits(DigitsValue(r)) + [d]);
      }
    } else {
      assert s[..0] == "" && Zeros(0) + s == s;
    }
  }

  lemma PrintedOneMore(n: nat, d: char)
    requires n > 0 && IsDigit(d)
    ensures Digits(10 * n + (d as int - '0' as int)) == Digits(n) + [d]
  {
  }

  /** The text is a number: its digits behind zeros, behind a sign that fits. */
  ghost predicate Writes(s: string, n: int, k: nat) {
    || (n >= 0 && (s == Zeros(k) + Digits(n) || s == "+" + (Zeros(k) + Digits(n))))
    || (n <= 0 && s == "-" + (Zeros(k) + Digits(-n)))
  }

  /** Exactly which texts are read as numbers: those that write one, if it fits 32 bits. */
  lemma ParseIff(s: string, n: int)
    ensures ParseI32(s) == Some(n) <==> -0x8000_0000 <= n <= 0x7FFF_FFFF && exists k: nat :: Writes(s, n, k)
  {
    if ParseI32(s) == Some(n) {
      ReadIsWritten(s, n);
    }
    if -0x8000_0000 <= n <= 0x7FFF_FFFF {
      if k: nat :| Writes(s, n, k) {
        WrittenIsRead(s, n, k);
      }
    }
  }

  lemma ReadIsWritten(s: string, n: int)
    requires ParseI32(s) == Some(n)
    ensures exists k: nat :: Writes(s, n, k)
  {
    var digits := if s[0] == '-' || s[0] == '+' then s[1..] else s;
    var k := DigitsArePrinted(digits);
    assert s[0] == '-' || s[0] == '+' ==> s == [s[0]] + digits;
    assert Writes(s, n, k);
  }

  lemma WrittenIsRead(s: string, n: int, k: nat)
    requires -0x8000_0000 <= n <= 0x7FFF_FFFF && Writes(s, n, k)
    ensures ParseI32(s) == Some(n)
  {
    var m := if n < 0 then -n else n;
    DigitsRoundTrip(m);
    ValueOfZeros(k, Digits(m));
    ReadDigits(s, Zeros(k) + Digits(m), n);
  }

  lemma ReadDigits(s: string, digits: string, n: int)
    requires digits != "" && AllDigits(digits) && -0x8000_0000 <= n <= 0x7FFF_FFFF
    requires (n == DigitsValue(digits) && (s == digits || s == "+" + digits)) || (n + DigitsValue(digits) == 0 && s == "-" + digits)
    ensures ParseI32(s) == Some(n)
  {
    assert IsDigit(digits[0]);
    assert s == digits || s[1..] == digits;
  }

  // ---------------------------------------------------------------------------
  // Configuration
  // ---------------------------------------------------------------------------

  /** A slider has bounds with room between them, a dropdown has options, and a text pattern compiles. */
  ghost predicate WellDeclared(e: Regexes, p: Param) {
    && p.name != ""
    && (|| (p.paramType == "slider" && p.min.Some? && p.max.Some? && p.min.value < p.max.value)
        || (p.paramType == "text" && (p.validation.Some? ==> e.valid(p.validation.value)))
        || p.paramType == "toggle"
        || (p.paramType == "dropdown" && p.options != []))
  }

  ghost predicate Wordy(isWord: char -> bool, n: string) {
    n != "" && forall c :: c in n ==> isWord(c)
  }

  /** Every placeholder of word characters in the command is the name of a parameter. */
  ghost predicate PlaceholdersDeclared(isWord: char -> bool, cap: Capability, command: string) {
    forall n :: Wordy(isWord, n) && Occurs(command, Placeholder(n)) ==> n in DeclaredNames(cap.parameters)
  }

  ghost predicate WellDefined(isWord: char -> bool, cap: Capability) {
    match cap.definition
    case ShellScript(command, timeout) => !Blank(command) && timeout > 0 && PlaceholdersDeclared(isWord, cap, command)
    case ShellInteractive(path, idle, max, realtime) => !Blank(path) && idle != Some(0) && max != Some(0) && realtime
  }

  lemma {:induction false} ParamsOkIff(e: Regexes, params: seq<Param>)
    ensures CheckParams(e, params).Ok? <==> UniqueNames(params) && forall i :: 0 <= i < |params| ==> WellDeclared(e, params[i])
    decreases |params|
  {
    if params != [] {
      var n := |params| - 1;
      ParamsOkIff(e, params[..n]);
      if params[n].name in DeclaredNames(params[..n]) {
        var i := DeclaredAt(params[..n], params[n].name);
      } else {
        forall i | 0 <= i < n ensures params[i].name != params[n].name {
          DeclaredByIndex(params[..n], i);
        }
      }
      assert forall i :: 0 <= i < n ==> params[..n][i] == params[i];
    }
  }

  lemma PlaceholdersIff(isWord: char -> bool, cap: Capability, command: string)
    requires !isWord('{') && !isWord('}')
    ensures (forall n :: n in Names(Scan(command, isWord)) ==> n in DeclaredNames(cap.parameters))
            <==> PlaceholdersDeclared(isWord, cap, command)
  {
    ScanIsExact(command, isWord);
    forall n ensures Wordy(isWord, n) ==> (n in Names(Scan(command, isWord)) <==> Occurs(command, Placeholder(n))) {
      if Wordy(isWord, n) {
        ScanFindsIff(command, isWord, n);
      }
    }
    assert forall n :: n in Names(Scan(command, isWord)) ==> Wordy(isWord, n);
    if PlaceholdersDeclared(isWord, cap, command) {
      forall n | n in Names(Scan(command, isWord)) ensures n in DeclaredNames(cap.parameters) {
        assert Wordy(isWord, n) && Occurs(command, Placeholder(n));
      }
    } else {
      var n :| Wordy(isWord, n) && Occurs(command, Placeholder(n)) && n !in DeclaredNames(cap.parameters);
      assert n in Names(Scan(command, isWord));
    }
  }

  /** The configuration check accepts a capability exactly if it is named, and its parameters and its definition are in order. */
  lemma ConfigurationOkIff(e: Regexes, isWord: char -> bool, cap: Capability)
    requires !isWord('{') && !isWord('}')
    ensures CheckCapability(e, isWord, cap).Ok? <==>
            && cap.id != "" && cap.name != "" && UniqueNames(cap.parameters)
            && (forall i :: 0 <= i < |cap.parameters| ==> WellDeclared(e, cap.parameters[i]))
            && WellDefined(isWord, cap)
  {
    ParamsOkIff(e, cap.parameters);
    if cap.definition.ShellScript? {
      BlankIff(cap.definition.command);
      PlaceholdersIff(isWord, cap, cap.definition.command);
    } else {
      BlankIff(cap.definition.path);
    }
  }

  /** The problem is really there. */
  ghost predicate ParamHas(e: Regexes, p: Param, x: Problem) {
    match x
    case EmptyParameterName => p.name == ""
    case MissingBounds => p.paramType == "slider" && (p.min.None? || p.max.None?)
    case EmptyRange => p.paramType == "slider" && p.min.Some? && p.max.Some? && p.min.value >= p.max.value
    case BadRegex => p.paramType == "text" && p.validation.Some? && !e.valid(p.validation.value)
    case NoOptions => p.paramType == "dropdown" && p.options == []
    case UnsupportedType => p.paramType !in ["slider", "text", "toggle", "dropdown"]
    case _ => false
  }

  ghost predicate SomeParamHas(e: Regexes, params: seq<Param>, x: Problem) {
    (x.DuplicateParameter? && !UniqueNames(params)) || exists i :: 0 <= i < |params| && ParamHas(e, params[i], x)
  }

  lemma {:induction false} ParamsProblem(e: Regexes, params: seq<Param>)
    requires CheckParams(e, params).Err?
    ensures SomeParamHas(e, params, CheckParams(e, params).error)
    decreases |params|
  {
    var n := |params| - 1;
    if CheckParams(e, params[..n]).Err? {
      ParamsProblem(e, params[..n]);
      assert forall i :: 0 <= i < n ==> params[..n][i] == params[i];
    } else if params[n].name in DeclaredNames(params[..n]) {
      var i := DeclaredAt(params[..n], params[n].name);
    } else {
      assert ParamHas(e, params[n], CheckParams(e, params).error);
    }
  }

  ghost predicate ConfigurationHas(e: Regexes, isWord: char -> bool, cap: Capability, x: Problem) {
    match x
    case EmptyId => cap.id == ""
    case EmptyName => cap.name == ""
    case EmptyCommand => Blank(if cap.definition.ShellScript? then cap.definition.command else cap.definition.path)
    case ZeroTimeout =>
      (match cap.definition
       case ShellScript(_, timeout) => timeout == 0
       case ShellInteractive(_, idle, max, _) => idle == Some(0) || max == Some(0))
    case UndefinedPlaceholder => cap.definition.ShellScript? && !PlaceholdersDeclared(isWord, cap, cap.definition.command)
    case WrongSessionMode => cap.definition.ShellInteractive? && !cap.definition.realtime
    case _ => SomeParamHas(e, cap.parameters, x)
  }

  /** What it reports is the case. */
  lemma ConfigurationProblem(e: Regexes, isWord: char -> bool, cap: Capability)
    requires !isWord('{') && !isWord('}') && CheckCapability(e, isWord, cap).Err?
    ensures ConfigurationHas(e, isWord, cap, CheckCapability(e, isWord, cap).error)
  {
    if cap.id != "" && cap.name != "" {
      if CheckParams(e, cap.parameters).Err? {
        ParamsProblem(e, cap.parameters);
      } else if cap.definition.ShellScript? {
        BlankIff(cap.definition.command);
        PlaceholdersIff(isWord, cap, cap.definition.command);
      } else {
        BlankIff(cap.definition.path);
      }
    }
  }

  // ---------------------------------------------------------------------------
  // Server
  // ---------------------------------------------------------------------------

  ghost predicate InBounds(n: int, min: Option<int>, max: Option<int>) {
    (min.Some? ==> min.value <= n) && (max.Some? ==> n <= max.value)
  }

  ghost predicate FitsPattern(e: Regexes, pattern: Option<string>, v: string) {
    pattern.Some? ==> e.valid(pattern.value) && e.matches(pattern.value, v)
  }

  /** The value is one that the parameter asks for. */
  ghost predicate Meets(e: Regexes, p: Param, v: string) {
    || (p.paramType == "slider" && ParseI32(v).Some? && InBounds(ParseI32(v).value, p.min, p.max))
    || (p.paramType == "toggle" && (v == "true" || v == "false" || v == "1" || v == "0"))
    || (p.paramType == "dropdown" && v in p.options)
    || (p.paramType == "text" && FitsPattern(e, p.validation, v))
  }

  /** The parameter gets a value that it asks for: the argument if there is one, else the default. */
  ghost predicate Supplied(e: Regexes, p: Param, provided: Arguments) {
    if p.name in provided then Meets(e, p, provided[p.name]) else p.default.Some? && Meets(e, p, p.default.value)
  }

  /** The server accepts exactly if every argument belongs to a parameter and every parameter is supplied. */
  lemma ServerAcceptsIff(e: Regexes, cap: Capability, provided: Arguments)
    ensures ServerValidate(e, cap, provided).Ok? <==>
            && (forall k :: k in provided ==> k in DeclaredNames(cap.parameters))
            && forall i :: 0 <= i < |cap.parameters| ==> Supplied(e, cap.parameters[i], provided)
  {
    CollectAccepts(e, cap.parameters, provided);
    forall i | 0 <= i < |cap.parameters|
      ensures CheckChosen(e, cap.parameters[i], provided).Ok? <==> Supplied(e, cap.parameters[i], provided)
    {
      SuppliedIff(e, cap.parameters[i], provided);
    }
  }

  lemma SuppliedIff(e: Regexes, p: Param, provided: Arguments)
    ensures CheckChosen(e, p, provided).Ok? <==> Supplied(e, p, provided)
  {
  }

  ghost predicate ValueHas(e: Regexes, p: Param, v: string, x: Problem) {
    match x
    case NotAnInteger => p.paramType == "slider" && ParseI32(v).None?
    case BelowMinimum => p.paramType == "slider" && ParseI32(v).Some? && p.min.Some? && ParseI32(v).value < p.min.value
    case AboveMaximum => p.paramType == "slider" && ParseI32(v).Some? && p.max.Some? && ParseI32(v).value > p.max.value
    case NotABoolean => p.paramType == "toggle" && v != "true" && v != "false" && v != "1" && v != "0"
    case NotAnOption => p.paramType == "dropdown" && v !in p.options
    case BadRegex => p.paramType == "text" && p.validation.Some? && !e.valid(p.validation.value)
    case NoMatch => p.paramType == "text" && p.validation.Some? && !e.matches(p.validation.value, v)
    case UnsupportedType => p.paramType !in ["slider", "text", "toggle", "dropdown"]
    case _ => false
  }

  ghost predicate ArgumentHas(e: Regexes, p: Param, provided: Arguments, x: Problem) {
    if p.name in provided then ValueHas(e, p, provided[p.name], x)
    else if p.default.Some? then ValueHas(e, p, p.default.value, x)
    else x == Missing(p.name)
  }

  ghost predicate FirstProblem(e: Regexes, params: seq<Param>, provided: Arguments, i: nat, x: Problem) {
    i < |params| && ArgumentHas(e, params[i], provided, x) && forall j :: 0 <= j < i ==> Supplied(e, params[j], provided)
  }

  lemma ArgumentProblem(e: Regexes, p: Param, provided: Arguments)
    requires CheckChosen(e, p, provided).Err?
    ensures ArgumentHas(e, p, provided, CheckChosen(e, p, provided).error)
  {
  }

  lemma {:induction false} CollectProblem(e: Regexes, params: seq<Param>, provided: Arguments) returns (i: nat)
    requires Collect(e, params, provided).Err?
    ensures FirstProblem(e, params, provided, i, Collect(e, params, provided).error)
    decreases |params|
  {
    var n := |params| - 1;
    if Collect(e, params[..n], provided).Err? {
      i := CollectProblem(e, params[..n], provided);
      assert forall j :: 0 <= j < n ==> params[..n][j] == params[j];
    } else {
      i := n;
      CollectAccepts(e, params[..n], provided);
      forall j | 0 <= j < n ensures Supplied(e, params[j], provided) {
        assert params[..n][j] == params[j];
        SuppliedIff(e, params[j], provided);
      }
      ArgumentProblem(e, params[n], provided);
    }
  }

  /** It reports the first parameter with a problem, and that problem; an unknown argument only when there is none. */
  lemma ServerProblem(e: Regexes, cap: Capability, provided: Arguments)
    requires ServerValidate(e, cap, provided).Err?
    ensures var x := ServerValidate(e, cap, provided).error;
            if forall i :: 0 <= i < |cap.parameters| ==> Supplied(e, cap.parameters[i], provided)
            then x == Unknown && exists k :: k in provided && k !in DeclaredNames(cap.parameters)
            else exists i: nat :: FirstProblem(e, cap.parameters, provided, i, x)
  {
    ServerAcceptsIff(e, cap, provided);
    if Collect(e, cap.parameters, provided).Err? {
      var i := CollectProblem(e, cap.parameters, provided);
      CollectAccepts(e, cap.parameters, provided);
      forall j | 0 <= j < |cap.parameters|
        ensures CheckChosen(e, cap.parameters[j], provided).Ok? <==> Supplied(e, cap.parameters[j], provided)
      {
        SuppliedIff(e, cap.parameters[j], provided);
      }
    } else {
      CollectAccepts(e, cap.parameters, provided);
      forall j | 0 <= j < |cap.parameters| ensures Supplied(e, cap.parameters[j], provided) {
        SuppliedIff(e, cap.parameters[j], provided);
      }
    }
  }

  // ---------------------------------------------------------------------------
  // Client
  // ---------------------------------------------------------------------------

  /** Option i is the first that equals the value up to ASCII case. */
  ghost predicate FirstOption(options: seq<string>, value: string, i: nat) {
    i < |options| && Lower(options[i]) == Lower(value) && forall j :: 0 <= j < i ==> Lower(options[j]) != Lower(value)
  }

  lemma {:induction false} FindOptionIs(options: seq<string>, value: string) returns (i: nat)
    ensures FindOption(options, value).Some? ==> FirstOption(options, value, i) && FindOption(options, value).value == options[i]
    ensures FindOption(options, value).None? ==> forall j :: 0 <= j < |options| ==> Lower(options[j]) != Lower(value)
    decreases |options|
  {
    i := 0;
    if options != [] && Lower(options[0]) != Lower(value) {
      i := FindOptionIs(options[1..], value);
      i := i + 1;
      assert forall j :: 1 <= j < |options| ==> options[j] == options[1..][j - 1];
    }
  }

  ghost predicate Affirms(s: string) {
    Lower(s) == "true" || Lower(s) == "1" || Lower(s) == "yes" || Lower(s) == "on"
  }

  ghost predicate Denies(s: string) {
    Lower(s) == "false" || Lower(s) == "0" || Lower(s) == "no" || Lower(s) == "off"
  }

  /** What is sent for a value that was typed: the number printed, true or false, the option as declared, or the text, trimmed. */
  ghost predicate SentAs(e: Regexes, p: ClientParam, raw: string, v: string) {
    var value := Trim(raw);
    match p.kind
    case Slider => ParseI32(value).Some? && InBounds(ParseI32(value).value, p.min, p.max) && v == PrintInt(ParseI32(value).value)
    case Toggle => (Affirms(value) && v == "true") || (Denies(value) && v == "false")
    case Dropdown => exists i: nat :: FirstOption(p.options, value, i) && v == p.options[i]
    case FreeText => v == value && FitsPattern(e, p.validation, v)
  }

  lemma NormaliseIff(e: Regexes, p: ClientParam, raw: string, v: string)
    ensures Normalise(e, p, raw) == Ok(v) <==> SentAs(e, p, raw, v)
  {
    if p.kind.Dropdown? {
      var i := FindOptionIs(p.options, Trim(raw));
      if j: nat :| FirstOption(p.options, Trim(raw), j) && v == p.options[j] {
        assert FindOption(p.options, Trim(raw)).Some? && i == j;
      }
    }
  }

  /** The client lets a parameter be: it can send what was typed, or it was told of a default. */
  ghost predicate Sendable(e: Regexes, p: Param, c: ClientParam, provided: Arguments) {
    if p.name in provided then exists v :: SentAs(e, c, provided[p.name], v)
    else p.default.Some? && p.default != Some("")
  }

  predicate LetBe(e: Regexes, c: ClientParam, provided: Arguments) {
    if c.name in provided then Normalise(e, c, provided[c.name]).Ok? else c.default.Some?
  }

  lemma {:induction false} SaniAcceptsIff(e: Regexes, views: seq<ClientParam>, provided: Arguments)
    ensures SaniCollect(e, views, provided).Ok? <==> forall i :: 0 <= i < |views| ==> LetBe(e, views[i], provided)
    decreases |views|
  {
    if views != [] {
      var n := |views| - 1;
      SaniAcceptsIff(e, views[..n], provided);
      assert forall i :: 0 <= i < n ==> views[..n][i] == views[i];
    }
  }

  lemma SendableIff(e: Regexes, p: Param, c: ClientParam, provided: Arguments)
    requires ClientView(p) == Ok(c)
    ensures LetBe(e, c, provided) <==> Sendable(e, p, c, provided)
  {
    if p.name in provided {
      var raw := provided[p.name];
      if Normalise(e, c, raw).Ok? {
        NormaliseIff(e, c, raw, Normalise(e, c, raw).value);
      }
      if v :| SentAs(e, c, raw, v) {
        NormaliseIff(e, c, raw, v);
      }
    }
  }

  lemma NamesOfViews(views: seq<ClientParam>, params: seq<Param>)
    requires ViewsOf(views, params)
    ensures (set c | c in views :: c.name) == DeclaredNames(params)
  {
    forall k | k in DeclaredNames(params) ensures k in set c | c in views :: c.name {
      var i := DeclaredAt(params, k);
      assert views[i] in views && views[i].name == k;
    }
    forall c | c in views ensures c.name in DeclaredNames(params) {
      var i :| 0 <= i < |views| && views[i] == c;
      DeclaredByIndex(params, i);
    }
  }

  /**
   The client lets arguments through exactly if each belongs to a parameter and can be sent, and every
   parameter left out has a default that is not empty: an empty one does not survive the protocol.
   */
  lemma {:induction false} ClientAcceptsIff(e: Regexes, views: seq<ClientParam>, params: seq<Param>, provided: Arguments)
    requires ViewsOf(views, params)
    ensures Sanitise(e, views, provided).Ok? <==>
            && (forall k :: k in provided ==> k in DeclaredNames(params))
            && forall i :: 0 <= i < |params| ==> Sendable(e, params[i], views[i], provided)
  {
    NamesOfViews(views, params);
    SaniAcceptsIff(e, views, provided);
    assert forall i :: 0 <= i < |params| ==> views[i].name == params[i].name;
    forall i | 0 <= i < |params| ensures LetBe(e, views[i], provided) <==> Sendable(e, params[i], views[i], provided) {
      SendableIff(e, params[i], views[i], provided);
    }
  }
}

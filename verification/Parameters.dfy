/**
 The way of a capability's arguments: the configuration is validated when it is loaded, the
 client sanitises what the user typed against the parameter list it was sent, the server
 validates what the client sent, and the values are substituted into the command.
 */
module Parameters {
  import opened Basics
  import opened Templates

  /** The regular expression library: which patterns compile, and what they match. */
  datatype Regexes = Regexes(valid: string -> bool, matches: (string, string) -> bool) {
    /** The empty pattern compiles and matches everything. */
    ghost predicate Lawful() {
      valid("") && forall v :: matches("", v)
    }
  }

  datatype Param = Param(
    name: string, paramType: string, min: Option<int>, max: Option<int>,
    default: Option<string>, options: seq<string>, validation: Option<string>)

  datatype Definition =
    | ShellScript(command: string, timeoutSeconds: nat)
    | ShellInteractive(path: string, idleSeconds: Option<nat>, maxSeconds: Option<nat>, realtime: bool)

  datatype Capability = Capability(id: string, name: string, parameters: seq<Param>, definition: Definition)

  datatype Problem =
    | EmptyId | EmptyName | DuplicateParameter | EmptyParameterName | MissingBounds | EmptyRange | NoOptions
    | EmptyCommand | ZeroTimeout | UndefinedPlaceholder | WrongSessionMode
    | UnsupportedType | BadRegex | NotAnInteger | BelowMinimum | AboveMaximum | NotABoolean | NotAnOption | NoMatch
    | Missing(name: string) | Unknown | NotAScript

  type Arguments = map<string, string>

  function DeclaredNames(params: seq<Param>): set<string> {
    if params == [] then {} else DeclaredNames(params[..|params| - 1]) + {params[|params| - 1].name}
  }

  lemma {:induction false} DeclaredAt(params: seq<Param>, n: string) returns (i: nat)
    requires n in DeclaredNames(params)
    ensures i < |params| && params[i].name == n
  {
    var last := |params| - 1;
    if params[last].name == n {
      i := last;
    } else {
      i := DeclaredAt(params[..last], n);
    }
  }

  lemma {:induction false} DeclaredByIndex(params: seq<Param>, i: nat)
    requires i < |params|
    ensures params[i].name in DeclaredNames(params)
    decreases |params|
  {
    if i < |params| - 1 {
      DeclaredByIndex(params[..|params| - 1], i);
    }
  }

  // ---------------------------------------------------------------------------
  // Strings and integers
  // ---------------------------------------------------------------------------

  predicate IsDigit(c: char) {
    '0' <= c <= '9'
  }

  predicate AllDigits(s: string) {
    forall i :: 0 <= i < |s| ==> IsDigit(s[i])
  }

  function DigitsValue(s: string): nat
    requires AllDigits(s)
  {
    if s == "" then 0 else 10 * DigitsValue(s[..|s| - 1]) + (s[|s| - 1] as int - '0' as int)
  }

  /** str::parse::<i32>: an optional sign, then at least one digit, within range. */
  function ParseI32(s: string): Option<int> {
    var digits := if s != "" && (s[0] == '-' || s[0] == '+') then s[1..] else s;
    if digits == "" || !AllDigits(digits) then None
    else
      var m: int := DigitsValue(digits);
      var n := if s[0] == '-' then -m else m;
      if -0x8000_0000 <= n < 0x8000_0000 then Some(n) else None
  }

  function Digits(n: nat): string {
    if n < 10 then [('0' as int + n) as char] else Digits(n / 10) + [('0' as int + n % 10) as char]
  }

  function PrintInt(n: int): string {
    if n < 0 then "-" + Digits(-n) else Digits(n)
  }

  lemma {:induction false} DigitsRoundTrip(n: nat)
    ensures Digits(n) != "" && AllDigits(Digits(n)) && DigitsValue(Digits(n)) == n
  {
    if n >= 10 {
      DigitsRoundTrip(n / 10);
      assert Digits(n)[..|Digits(n)| - 1] == Digits(n / 10);
    }
  }

  /** Printing and parsing back, over the whole range of i32. */
  lemma ParsePrint(n: int)
    requires -0x8000_0000 <= n < 0x8000_0000
    ensures ParseI32(PrintInt(n)) == Some(n)
  {
    if n < 0 {
      ParseNegative(-n);
    } else {
      ParsePositive(n);
    }
  }

  lemma ParsePositive(m: nat)
    requires m < 0x8000_0000
    ensures ParseI32(Digits(m)) == Some(m)
  {
    DigitsRoundTrip(m);
    assert IsDigit(Digits(m)[0]);
  }

  lemma ParseNegative(m: nat)
    requires m <= 0x8000_0000
    ensures ParseI32("-" + Digits(m)) == Some(0 - m)
  {
    DigitsRoundTrip(m);
    var s := "-" + Digits(m);
    assert s[0] == '-' && s[1..] == Digits(m);
  }

  function ParseBool(s: string): Option<bool> {
    var l := Lower(s);
    if l in ["true", "1", "yes", "on"] then Some(true)
    else if l in ["false", "0", "no", "off"] then Some(false)
    else None
  }

  // ---------------------------------------------------------------------------
  // Configuration
  // ---------------------------------------------------------------------------

  function CheckParam(e: Regexes, p: Param): Result<(), Problem> {
    if p.name == "" then Err(EmptyParameterName)
    else if p.paramType == "slider" then
      if p.min.None? || p.max.None? then Err(MissingBounds)
      else if p.min.value >= p.max.value then Err(EmptyRange)
      else Ok(())
    else if p.paramType == "text" then
      if p.validation.Some? && !e.valid(p.validation.value) then Err(BadRegex) else Ok(())
    else if p.paramType == "toggle" then Ok(())
    else if p.paramType == "dropdown" then
      if p.options == [] then Err(NoOptions) else Ok(())
    else Err(UnsupportedType)
  }

  /** Parameters in order: a repeated name is reported before the parameter itself is checked. */
  function CheckParams(e: Regexes, params: seq<Param>): Result<(), Problem> {
    if params == [] then Ok(())
    else
      var n := |params| - 1;
      match CheckParams(e, params[..n])
      case Err(x) => Err(x)
      case Ok(_) => if params[n].name in DeclaredNames(params[..n]) then Err(DuplicateParameter) else CheckParam(e, params[n])
  }

  /** `isWord` is the class \w of the regular expression library. */
  function CheckCapability(e: Regexes, isWord: char -> bool, cap: Capability): Result<(), Problem> {
    if cap.id == "" then Err(EmptyId)
    else if cap.name == "" then Err(EmptyName)
    else
      match CheckParams(e, cap.parameters)
      case Err(x) => Err(x)
      case Ok(_) =>
        match cap.definition
        case ShellScript(command, timeout) =>
          if Trim(command) == "" then Err(EmptyCommand)
          else if timeout == 0 then Err(ZeroTimeout)
          else if forall n :: n in Names(Scan(command, isWord)) ==> n in DeclaredNames(cap.parameters) then Ok(())
          else Err(UndefinedPlaceholder)
        case ShellInteractive(path, idle, max, realtime) =>
          if Trim(path) == "" then Err(EmptyCommand)
          else if idle == Some(0) || max == Some(0) then Err(ZeroTimeout)
          else if !realtime then Err(WrongSessionMode)
          else Ok(())
  }

  predicate UniqueNames(params: seq<Param>) {
    forall i, j :: 0 <= i < j < |params| ==> params[i].name != params[j].name
  }

  lemma {:induction false} CheckedParams(e: Regexes, params: seq<Param>)
    requires CheckParams(e, params).Ok?
    ensures forall i :: 0 <= i < |params| ==> CheckParam(e, params[i]).Ok?
    ensures UniqueNames(params)
    decreases |params|
  {
    if params != [] {
      var n := |params| - 1;
      CheckedParams(e, params[..n]);
      forall i | 0 <= i < n ensures params[i].name != params[n].name {
        DeclaredByIndex(params[..n], i);
      }
    }
  }

  // ---------------------------------------------------------------------------
  // Server
  // ---------------------------------------------------------------------------

  function CheckValue(e: Regexes, p: Param, v: string): Result<(), Problem> {
    if p.paramType == "slider" then
      match ParseI32(v)
      case None => Err(NotAnInteger)
      case Some(n) =>
        if p.min.Some? && n < p.min.value then Err(BelowMinimum)
        else if p.max.Some? && n > p.max.value then Err(AboveMaximum)
        else Ok(())
    else if p.paramType == "toggle" then
      if v in ["true", "false", "1", "0"] then Ok(()) else Err(NotABoolean)
    else if p.paramType == "dropdown" then
      if v in p.options then Ok(()) else Err(NotAnOption)
    else if p.paramType == "text" then
      if p.validation.None? then Ok(())
      else if !e.valid(p.validation.value) then Err(BadRegex)
      else if !e.matches(p.validation.value, v) then Err(NoMatch)
      else Ok(())
    else Err(UnsupportedType)
  }

  /** The argument a parameter gets: the one provided, else its default. */
  function Chosen(p: Param, provided: Arguments): Option<string> {
    if p.name in provided then Some(provided[p.name]) else p.default
  }

  function CheckChosen(e: Regexes, p: Param, provided: Arguments): Result<string, Problem> {
    match Chosen(p, provided)
    case None => Err(Missing(p.name))
    case Some(v) =>
      match CheckValue(e, p, v)
      case Err(x) => Err(x)
      case Ok(_) => Ok(v)
  }

  /** The parameters in order, stopping at the first problem. */
  function Collect(e: Regexes, params: seq<Param>, provided: Arguments): Result<Arguments, Problem> {
    if params == [] then Ok(map[])
    else
      var n := |params| - 1;
      match Collect(e, params[..n], provided)
      case Err(x) => Err(x)
      case Ok(m) =>
        match CheckChosen(e, params[n], provided)
        case Err(x) => Err(x)
        case Ok(v) => Ok(m[params[n].name := v])
  }

  function ServerValidate(e: Regexes, cap: Capability, provided: Arguments): Result<Arguments, Problem> {
    match Collect(e, cap.parameters, provided)
    case Err(x) => Err(x)
    case Ok(m) => if provided.Keys <= DeclaredNames(cap.parameters) then Ok(m) else Err(Unknown)
  }

  method ValidateParameters(e: Regexes, cap: Capability, provided: Arguments) returns (r: Result<Arguments, Problem>)
    ensures r == ServerValidate(e, cap, provided)
  {
    var validated: Arguments := map[];
    var params := cap.parameters;
    var i := 0;
    while i < |params|
      invariant 0 <= i <= |params|
      invariant Collect(e, params[..i], provided) == Ok(validated)
    {
      assert params[..i + 1][..i] == params[..i];
      var c := CheckChosen(e, params[i], provided);
      if c.Err? {
        CollectStops(e, params, i + 1, provided);
        assert params[..|params|] == params;
        return Err(c.error);
      }
      validated := validated[params[i].name := c.value];
      i := i + 1;
    }
    assert params[..|params|] == params;
    if !(provided.Keys <= DeclaredNames(params)) {
      return Err(Unknown);
    }
    return Ok(validated);
  }

  lemma {:induction false} CollectStops(e: Regexes, params: seq<Param>, i: nat, provided: Arguments)
    requires i <= |params| && Collect(e, params[..i], provided).Err?
    ensures Collect(e, params, provided) == Collect(e, params[..i], provided)
    decreases |params|
  {
    if i < |params| {
      var n := |params| - 1;
      assert params[..n][..i] == params[..i];
      CollectStops(e, params[..n], i, provided);
    } else {
      assert params[..i] == params;
    }
  }

  /** Acceptance is decided parameter by parameter. */
  lemma {:induction false} CollectAccepts(e: Regexes, params: seq<Param>, provided: Arguments)
    ensures Collect(e, params, provided).Ok? <==>
            forall i :: 0 <= i < |params| ==> CheckChosen(e, params[i], provided).Ok?
    decreases |params|
  {
    if params != [] {
      var n := |params| - 1;
      CollectAccepts(e, params[..n], provided);
      assert forall i :: 0 <= i < n ==> params[..n][i] == params[i];
    }
  }

  /** Every declared name gets a value, and no other. */
  lemma {:induction false} CollectKeys(e: Regexes, params: seq<Param>, provided: Arguments)
    requires Collect(e, params, provided).Ok?
    ensures Collect(e, params, provided).value.Keys == DeclaredNames(params)
    decreases |params|
  {
    if params != [] {
      var n := |params| - 1;
      CollectKeys(e, params[..n], provided);
    }
  }

  /** With unique names, that value is the argument given or the default. */
  lemma {:induction false} CollectValue(e: Regexes, params: seq<Param>, provided: Arguments, i: nat)
    requires UniqueNames(params) && i < |params| && Collect(e, params, provided).Ok?
    ensures params[i].name in Collect(e, params, provided).value
    ensures Some(Collect(e, params, provided).value[params[i].name]) == Chosen(params[i], provided)
    decreases |params|
  {
    var n := |params| - 1;
    if i < n {
      CollectValue(e, params[..n], provided, i);
    }
  }

  // ---------------------------------------------------------------------------
  // Client
  // ---------------------------------------------------------------------------

  datatype Kind = Slider | FreeText | Toggle | Dropdown

  /** A parameter as the client knows it, after the trip through the protocol. */
  datatype ClientParam = ClientParam(
    name: string, kind: Kind, min: Option<int>, max: Option<int>,
    default: Option<string>, options: seq<string>, validation: Option<string>)

  function NonEmpty(s: Option<string>): Option<string> {
    if s == Some("") then None else s
  }

  /** proto_from_parameter, then CommandParameter::from_proto: empty strings are dropped, odd types rejected. */
  function ClientView(p: Param): Result<ClientParam, Problem> {
    if p.paramType == "slider" then Ok(ViewAs(p, Slider))
    else if p.paramType == "text" then Ok(ViewAs(p, FreeText))
    else if p.paramType == "toggle" then Ok(ViewAs(p, Toggle))
    else if p.paramType == "dropdown" then Ok(ViewAs(p, Dropdown))
    else Err(UnsupportedType)
  }

  function ViewAs(p: Param, kind: Kind): ClientParam {
    ClientParam(p.name, kind, p.min, p.max, NonEmpty(p.default), p.options, NonEmpty(p.validation))
  }

  /** The first option that equals the value up to ASCII case. */
  function FindOption(options: seq<string>, value: string): Option<string> {
    if options == [] then None
    else if Lower(options[0]) == Lower(value) then Some(options[0])
    else FindOption(options[1..], value)
  }

  function Normalise(e: Regexes, p: ClientParam, raw: string): Result<string, Problem> {
    var value := Trim(raw);
    match p.kind
    case Slider =>
      (match ParseI32(value)
       case None => Err(NotAnInteger)
       case Some(n) =>
         if p.min.Some? && n < p.min.value then Err(BelowMinimum)
         else if p.max.Some? && n > p.max.value then Err(AboveMaximum)
         else Ok(PrintInt(n)))
    case Toggle =>
      (match ParseBool(value)
       case Some(b) => Ok(if b then "true" else "false")
       case None => Err(NotABoolean))
    case Dropdown =>
      if p.options == [] then Err(NoOptions)
      else (match FindOption(p.options, value)
            case None => Err(NotAnOption)
            case Some(o) => Ok(o))
    case FreeText =>
      if p.validation.None? then Ok(value)
      else if !e.valid(p.validation.value) then Err(BadRegex)
      else if !e.matches(p.validation.value, value) then Err(NoMatch)
      else Ok(value)
  }

  /** The parameters in order; one that is not given must have a default, which the server will fill in. */
  function SaniCollect(e: Regexes, params: seq<ClientParam>, provided: Arguments): Result<Arguments, Problem> {
    if params == [] then Ok(map[])
    else
      var p := params[|params| - 1];
      match SaniCollect(e, params[..|params| - 1], provided)
      case Err(x) => Err(x)
      case Ok(m) =>
        if p.name in provided then
          match Normalise(e, p, provided[p.name])
          case Err(x) => Err(x)
          case Ok(v) => Ok(m[p.name := v])
        else if p.default.None? then Err(Missing(p.name))
        else Ok(m)
  }

  function Sanitise(e: Regexes, params: seq<ClientParam>, provided: Arguments): Result<Arguments, Problem> {
    if !(provided.Keys <= set p | p in params :: p.name) then Err(Unknown)
    else SaniCollect(e, params, provided)
  }

  method SanitiseParameters(e: Regexes, params: seq<ClientParam>, provided: Arguments) returns (r: Result<Arguments, Problem>)
    ensures r == Sanitise(e, params, provided)
  {
    if !(provided.Keys <= set p | p in params :: p.name) {
      return Err(Unknown);
    }
    var sanitized: Arguments := map[];
    var i := 0;
    while i < |params|
      invariant 0 <= i <= |params|
      invariant SaniCollect(e, params[..i], provided) == Ok(sanitized)
    {
      assert params[..i + 1][..i] == params[..i];
      var p := params[i];
      if p.name in provided {
        var v := Normalise(e, p, provided[p.name]);
        if v.Err? {
          SaniStops(e, params, i + 1, provided);
          return Err(v.error);
        }
        sanitized := sanitized[p.name := v.value];
      } else if p.default.None? {
        SaniStops(e, params, i + 1, provided);
        return Err(Missing(p.name));
      }
      i := i + 1;
    }
    assert params[..|params|] == params;
    return Ok(sanitized);
  }

  lemma {:induction false} SaniStops(e: Regexes, params: seq<ClientParam>, i: nat, provided: Arguments)
    requires i <= |params| && SaniCollect(e, params[..i], provided).Err?
    ensures SaniCollect(e, params, provided) == SaniCollect(e, params[..i], provided)
    decreases |params|
  {
    if i < |params| {
      var n := |params| - 1;
      assert params[..n][..i] == params[..i];
      SaniStops(e, params[..n], i, provided);
    } else {
      assert params[..i] == params;
    }
  }

  /** What the client found out about parameter p: it sends the normalised argument, or relies on a default. */
  ghost predicate SentFor(e: Regexes, p: ClientParam, provided: Arguments, sent: Arguments) {
    if p.name in provided then
      p.name in sent && Normalise(e, p, provided[p.name]) == Ok(sent[p.name])
    else
      p.name !in sent && p.default.Some?
  }

  lemma {:induction false} SaniIsPointwise(e: Regexes, params: seq<ClientParam>, provided: Arguments)
    requires forall i, j :: 0 <= i < j < |params| ==> params[i].name != params[j].name
    requires SaniCollect(e, params, provided).Ok?
    ensures forall k :: k in SaniCollect(e, params, provided).value ==> exists i :: 0 <= i < |params| && params[i].name == k
    ensures forall i :: 0 <= i < |params| ==> SentFor(e, params[i], provided, SaniCollect(e, params, provided).value)
    decreases |params|
  {
    if params != [] {
      var n := |params| - 1;
      SaniIsPointwise(e, params[..n], provided);
      var m, m' := SaniCollect(e, params[..n], provided).value, SaniCollect(e, params, provided).value;
      assert forall i :: 0 <= i < n ==> params[..n][i] == params[i];
      forall i | 0 <= i < |params| ensures SentFor(e, params[i], provided, m') {
        if i < n { assert SentFor(e, params[..n][i], provided, m); }
      }
      forall k | k in m' ensures exists i :: 0 <= i < |params| && params[i].name == k {
        if k in m {
          var i :| 0 <= i < n && params[..n][i].name == k;
          assert params[i].name == k;
        } else {
          assert params[n].name == k;
        }
      }
    }
  }

  // ---------------------------------------------------------------------------
  // Substitution
  // ---------------------------------------------------------------------------

  /** The class [a-zA-Z0-9_-] of the substitution's placeholder pattern. */
  predicate IsNameChar(c: char) {
    'a' <= c <= 'z' || 'A' <= c <= 'Z' || '0' <= c <= '9' || c == '_' || c == '-'
  }

  /** The names of the placeholders that substitution looks for, in order, repetitions included. */
  function PlaceholderNames(command: string): seq<string> {
    Names(Scan(command, IsNameChar))
  }

  function Escaped(args: Arguments, escape: string -> string): Values {
    map n | n in args :: escape(args[n])
  }

  /**
   Substitution fails exactly when some placeholder has no argument, naming the first such;
   otherwise it yields the repeated replacement of Templates.
   */
  method SubstituteParameters(cap: Capability, args: Arguments, escape: string -> string) returns (r: Result<string, Problem>)
    ensures cap.definition.ShellInteractive? ==> r == Err(NotAScript)
    ensures cap.definition.ShellScript? ==>
              var names := PlaceholderNames(cap.definition.command);
              && (r.Ok? <==> forall n :: n in names ==> n in args)
              && (r.Ok? ==> r == Ok(Iterate(cap.definition.command, names, Escaped(args, escape))))
              && (r.Err? ==> exists k :: 0 <= k < |names| && names[k] !in args && r == Err(Missing(names[k]))
                                         && forall j :: 0 <= j < k ==> names[j] in args)
  {
    if cap.definition.ShellInteractive? {
      return Err(NotAScript);
    }
    var command := cap.definition.command;
    var result := command;
    var names := PlaceholderNames(command);
    ghost var values := Escaped(args, escape);
    var k := 0;
    while k < |names|
      invariant 0 <= k <= |names|
      invariant forall j :: 0 <= j < k ==> names[j] in args
      invariant (forall n :: n in names ==> n in values) ==>
                  Iterate(command, names, values) == Iterate(result, names[k..], values)
    {
      if names[k] !in args {
        return Err(Missing(names[k]));
      }
      result := Replace(result, Placeholder(names[k]), escape(args[names[k]]));
      assert names[k..][1..] == names[k + 1..];
      k := k + 1;
    }
    return Ok(result);
  }

  // ---------------------------------------------------------------------------
  // Sanitising twice
  // ---------------------------------------------------------------------------

  predicate Bare(s: string) {
    s != "" ==> !IsWhitespace(s[0]) && !IsWhitespace(s[|s| - 1])
  }

  lemma {:induction false} TrimIsBare(s: string)
    ensures Bare(Trim(s))
    decreases |s|
  {
    if s != "" {
      if IsWhitespace(s[0]) {
        TrimIsBare(s[1..]);
      } else if IsWhitespace(s[|s| - 1]) {
        TrimIsBare(s[..|s| - 1]);
      }
    }
  }

  lemma PrintIsBare(n: int)
    ensures Trim(PrintInt(n)) == PrintInt(n)
  {
    DigitsRoundTrip(if n < 0 then -n else n);
    assert Bare(PrintInt(n));
  }

  /** The option found reads like the value: same text up to case, so no blanks at its ends, and found again. */
  lemma {:induction false} OptionFoundAgain(options: seq<string>, value: string)
    requires Bare(value) && FindOption(options, value).Some?
    ensures var o := FindOption(options, value).value; Trim(o) == o && FindOption(options, o) == Some(o)
    decreases |options|
  {
    if Lower(options[0]) != Lower(value) {
      OptionFoundAgain(options[1..], value);
      FoundReads(options[1..], value);
    } else {
      SameLowerBare(options[0], value);
    }
  }

  lemma {:induction false} FoundReads(options: seq<string>, value: string)
    requires FindOption(options, value).Some?
    ensures Lower(FindOption(options, value).value) == Lower(value)
    decreases |options|
  {
    if Lower(options[0]) != Lower(value) {
      FoundReads(options[1..], value);
    }
  }

  lemma SameLowerBare(a: string, b: string)
    requires Lower(a) == Lower(b) && Bare(b)
    ensures Trim(a) == a
  {
    assert |a| == |Lower(a)| == |b|;
    if a != "" {
      assert LowerChar(a[0]) == Lower(a)[0] == Lower(b)[0] == LowerChar(b[0]);
      var k := |a| - 1;
      assert LowerChar(a[k]) == Lower(a)[k] == Lower(b)[k] == LowerChar(b[k]);
    }
  }

  /** The client's normal form of a value is its own normal form. */
  lemma NormaliseIdempotent(e: Regexes, p: ClientParam, raw: string)
    requires Normalise(e, p, raw).Ok?
    ensures Normalise(e, p, Normalise(e, p, raw).value) == Normalise(e, p, raw)
  {
    TrimIsBare(raw);
    match p.kind
    case Slider =>
      PrintIsBare(ParseI32(Trim(raw)).value);
      ParsePrint(ParseI32(Trim(raw)).value);
    case Toggle =>
      BooleansSettle();
    case Dropdown => OptionFoundAgain(p.options, Trim(raw));
    case FreeText =>
  }

  lemma BooleansSettle()
    ensures Trim("true") == "true" && Trim("false") == "false"
    ensures ParseBool("true") == Some(true) && ParseBool("false") == Some(false)
  {
    assert Lower("true") == "true" && Lower("false") == "false";
  }

  lemma {:induction false} SaniAgrees(e: Regexes, params: seq<ClientParam>, a: Arguments, b: Arguments)
    requires forall i :: 0 <= i < |params| ==>
               && (params[i].name in a <==> params[i].name in b)
               && (params[i].name in a ==> Normalise(e, params[i], a[params[i].name]) == Normalise(e, params[i], b[params[i].name]))
    ensures SaniCollect(e, params, a) == SaniCollect(e, params, b)
    decreases |params|
  {
    if params != [] {
      var n := |params| - 1;
      assert forall i :: 0 <= i < n ==> params[..n][i] == params[i];
      SaniAgrees(e, params[..n], a, b);
    }
  }

  /** What the client sends is settled: sanitising it again changes nothing. */
  lemma SanitiseIdempotent(e: Regexes, params: seq<ClientParam>, provided: Arguments, sent: Arguments)
    requires forall i, j :: 0 <= i < j < |params| ==> params[i].name != params[j].name
    requires Sanitise(e, params, provided) == Ok(sent)
    ensures Sanitise(e, params, sent) == Ok(sent)
  {
    SaniIsPointwise(e, params, provided);
    forall i | 0 <= i < |params|
      ensures params[i].name in provided <==> params[i].name in sent
      ensures params[i].name in provided ==>
                Normalise(e, params[i], provided[params[i].name]) == Normalise(e, params[i], sent[params[i].name])
    {
      assert SentFor(e, params[i], provided, sent);
      if params[i].name in provided {
        NormaliseIdempotent(e, params[i], provided[params[i].name]);
      }
    }
    SaniAgrees(e, params, provided, sent);
    forall k | k in sent ensures k in set p | p in params :: p.name {
      var i :| 0 <= i < |params| && params[i].name == k;
      assert params[i] in params;
    }
  }

  // ---------------------------------------------------------------------------
  // The pipeline
  // ---------------------------------------------------------------------------

  lemma {:induction false} FoundOption(options: seq<string>, value: string)
    requires FindOption(options, value).Some?
    ensures FindOption(options, value).value in options
    decreases |options|
  {
    if Lower(options[0]) != Lower(value) {
      FoundOption(options[1..], value);
    }
  }

  /** What the client sends for a parameter passes the server's check of that parameter. */
  lemma NormalisedPasses(e: Regexes, p: Param, c: ClientParam, raw: string)
    requires e.Lawful() && CheckParam(e, p).Ok? && ClientView(p) == Ok(c) && Normalise(e, c, raw).Ok?
    ensures CheckValue(e, p, Normalise(e, c, raw).value).Ok?
  {
    match c.kind
    case Slider => ParsePrint(ParseI32(Trim(raw)).value);
    case Dropdown => FoundOption(p.options, Trim(raw));
    case _ =>
  }

  /** The client's view of a parameter list. */
  ghost predicate ViewsOf(views: seq<ClientParam>, params: seq<Param>) {
    |views| == |params| && forall i :: 0 <= i < |views| ==> ClientView(params[i]) == Ok(views[i])
  }

  /** The default of every parameter that is not sent passes the server's check. */
  ghost predicate OmittedDefaultsPass(e: Regexes, params: seq<Param>, sent: Arguments) {
    forall i :: 0 <= i < |params| && params[i].name !in sent ==>
      params[i].default.Some? && CheckValue(e, params[i], params[i].default.value).Ok?
  }

  /** Whatever the client sends is declared, and passes the server's check of its parameter. */
  lemma SentPasses(e: Regexes, params: seq<Param>, views: seq<ClientParam>, provided: Arguments, sent: Arguments)
    requires e.Lawful() && CheckParams(e, params).Ok? && ViewsOf(views, params)
    requires Sanitise(e, views, provided) == Ok(sent)
    ensures sent.Keys <= DeclaredNames(params)
    ensures forall i :: 0 <= i < |params| && params[i].name in sent ==> CheckValue(e, params[i], sent[params[i].name]).Ok?
  {
    CheckedParams(e, params);
    assert forall i :: 0 <= i < |views| ==> views[i].name == params[i].name;
    SaniIsPointwise(e, views, provided);
    forall i | 0 <= i < |params| && params[i].name in sent
      ensures CheckValue(e, params[i], sent[params[i].name]).Ok?
    {
      assert SentFor(e, views[i], provided, sent);
      NormalisedPasses(e, params[i], views[i], provided[params[i].name]);
    }
    forall k | k in sent ensures k in DeclaredNames(params) {
      var i :| 0 <= i < |views| && views[i].name == k;
      DeclaredByIndex(params, i);
    }
  }

  /**
   For a validated capability and any arguments the client lets through, the server accepts
   what the client sends exactly when the default of every argument left out passes its own
   check: the configuration is not checked for that.
   */
  lemma ServerAcceptsSanitised(e: Regexes, isWord: char -> bool, cap: Capability, views: seq<ClientParam>,
                               provided: Arguments, sent: Arguments)
    requires e.Lawful() && CheckCapability(e, isWord, cap).Ok? && ViewsOf(views, cap.parameters)
    requires Sanitise(e, views, provided) == Ok(sent)
    ensures ServerValidate(e, cap, sent).Ok? <==> OmittedDefaultsPass(e, cap.parameters, sent)
  {
    SentPasses(e, cap.parameters, views, provided, sent);
    CollectAccepts(e, cap.parameters, sent);
  }

  /** What the server accepts gives every declared parameter the value sent, or else its default. */
  lemma AcceptedValues(e: Regexes, isWord: char -> bool, cap: Capability, sent: Arguments)
    requires CheckCapability(e, isWord, cap).Ok? && ServerValidate(e, cap, sent).Ok?
    ensures var m := ServerValidate(e, cap, sent).value;
            && m.Keys == DeclaredNames(cap.parameters)
            && forall i :: 0 <= i < |cap.parameters| ==>
                 && cap.parameters[i].name in m
                 && Some(m[cap.parameters[i].name]) ==
                    (if cap.parameters[i].name in sent then Some(sent[cap.parameters[i].name]) else cap.parameters[i].default)
  {
    var params := cap.parameters;
    CheckedParams(e, params);
    CollectKeys(e, params, sent);
    forall i | 0 <= i < |params|
      ensures params[i].name in ServerValidate(e, cap, sent).value
      ensures Some(ServerValidate(e, cap, sent).value[params[i].name]) == Chosen(params[i], sent)
    {
      CollectValue(e, params, sent, i);
    }
  }

  ghost predicate AsciiWord(c: char) {
    'a' <= c <= 'z' || 'A' <= c <= 'Z' || '0' <= c <= '9' || c == '_'
  }

  /** \w contains the ASCII letters, digits and underscore, and neither braces nor the hyphen. */
  ghost predicate WordClass(isWord: char -> bool) {
    && (forall c :: AsciiWord(c) ==> isWord(c))
    && !isWord('-') && !isWord('{') && !isWord('}')
  }

  /**
   What reaches a command is what its configuration asks for: an integer between two bounds
   that are there, one of the four booleans, one of the options, or a match of the pattern.
   */
  lemma AcceptedMeans(e: Regexes, isWord: char -> bool, cap: Capability, sent: Arguments, i: nat)
    requires CheckCapability(e, isWord, cap).Ok? && ServerValidate(e, cap, sent).Ok? && i < |cap.parameters|
    ensures cap.parameters[i].name in ServerValidate(e, cap, sent).value
    ensures var p, v := cap.parameters[i], ServerValidate(e, cap, sent).value[cap.parameters[i].name];
            || (p.paramType == "slider" && p.min.Some? && p.max.Some?
                && ParseI32(v).Some? && p.min.value <= ParseI32(v).value <= p.max.value)
            || (p.paramType == "toggle" && v in ["true", "false", "1", "0"])
            || (p.paramType == "dropdown" && v in p.options)
            || (p.paramType == "text" && (p.validation.Some? ==> e.matches(p.validation.value, v)))
  {
    CheckedParams(e, cap.parameters);
    CollectAccepts(e, cap.parameters, sent);
    CollectValue(e, cap.parameters, sent, i);
  }

  /**
   For a validated script and the arguments the server accepted, substitution finds a value
   for every placeholder exactly when each placeholder with a hyphen in its name is declared:
   those are the ones that the validation of the configuration does not look at.
   */
  lemma SubstitutionSucceedsIff(e: Regexes, isWord: char -> bool, cap: Capability, sent: Arguments)
    requires WordClass(isWord) && CheckCapability(e, isWord, cap).Ok? && cap.definition.ShellScript?
    requires ServerValidate(e, cap, sent).Ok?
    ensures (forall n :: n in PlaceholderNames(cap.definition.command) ==> n in ServerValidate(e, cap, sent).value)
            <==> forall n :: n in PlaceholderNames(cap.definition.command) && '-' in n ==> n in DeclaredNames(cap.parameters)
  {
    var command := cap.definition.command;
    CollectKeys(e, cap.parameters, sent);
    forall n | n in PlaceholderNames(command) && '-' !in n ensures n in DeclaredNames(cap.parameters) {
      PlaceholderIff(command, n);
      WordPlaceholdersAreDeclared(e, isWord, cap, n);
    }
  }

  /** A name of ASCII word characters and hyphens. */
  ghost predicate NameText(n: string) {
    n != "" && forall c :: c in n ==> AsciiWord(c) || c == '-'
  }

  /** Substitution looks for exactly the placeholders whose names are made of ASCII word characters and hyphens. */
  lemma PlaceholderIff(command: string, n: string)
    ensures n in PlaceholderNames(command) <==> NameText(n) && Occurs(command, "{" + n + "}")
  {
    ScanIsExact(command, IsNameChar);
    if NameText(n) {
      ScanFindsIff(command, IsNameChar, n);
    }
  }

  /** On names of ASCII word characters, the scan of the configuration check and that of substitution find the same. */
  lemma ScansAgree(isWord: char -> bool, command: string, n: string)
    requires WordClass(isWord) && n != "" && forall c :: c in n ==> AsciiWord(c)
    ensures n in Names(Scan(command, isWord)) <==> n in PlaceholderNames(command)
  {
    PlaceholderIff(command, n);
    ScanFindsIff(command, isWord, n);
  }

  /** So every such placeholder of a validated script is declared. */
  lemma WordPlaceholdersAreDeclared(e: Regexes, isWord: char -> bool, cap: Capability, n: string)
    requires WordClass(isWord) && CheckCapability(e, isWord, cap).Ok? && cap.definition.ShellScript?
    requires n != "" && (forall c :: c in n ==> AsciiWord(c)) && Occurs(cap.definition.command, "{" + n + "}")
    ensures n in PlaceholderNames(cap.definition.command) && n in DeclaredNames(cap.parameters)
  {
    PlaceholderIff(cap.definition.command, n);
    ScansAgree(isWord, cap.definition.command, n);
  }

  /** Every opening brace of the command starts a placeholder that substitution looks for. */
  ghost predicate CleanCommand(command: string) {
    CleanBraces(command, c => AsciiWord(c) || c == '-')
  }

  lemma CleanCommandIff(command: string)
    ensures CleanCommand(command) <==> Strays(Scan(command, IsNameChar)) == 0
  {
    CleanScan("", command, IsNameChar);
    forall i: nat ensures PlaceholderAt(command, i, IsNameChar) <==> PlaceholderAt(command, i, c => AsciiWord(c) || c == '-') {
      assert forall n: string :: (forall c :: c in n ==> IsNameChar(c)) <==> NameText(n) || n == "";
      assert forall n: string :: (forall c :: c in n ==> (c => AsciiWord(c) || c == '-')(c)) <==> NameText(n) || n == "";
    }
  }

  ghost predicate BraceFreeValue(command: string, p: Param, sent: Arguments, escape: string -> string) {
    p.name in PlaceholderNames(command) && Chosen(p, sent).Some? ==> '{' !in escape(Chosen(p, sent).value)
  }

  /** Escaping leaves no opening brace in the values that the command uses. */
  ghost predicate BraceFree(cap: Capability, sent: Arguments, escape: string -> string)
    requires cap.definition.ShellScript?
  {
    forall i :: 0 <= i < |cap.parameters| ==> BraceFreeValue(cap.definition.command, cap.parameters[i], sent, escape)
  }

  lemma UsedValuesAreBraceFree(e: Regexes, isWord: char -> bool, cap: Capability, sent: Arguments, escape: string -> string, n: string)
    requires CheckCapability(e, isWord, cap).Ok? && cap.definition.ShellScript? && BraceFree(cap, sent, escape)
    requires ServerValidate(e, cap, sent).Ok? && n in PlaceholderNames(cap.definition.command)
    ensures n in ServerValidate(e, cap, sent).value ==> '{' !in escape(ServerValidate(e, cap, sent).value[n])
  {
    AcceptedValues(e, isWord, cap, sent);
    if n in DeclaredNames(cap.parameters) {
      var i := DeclaredAt(cap.parameters, n);
      assert BraceFreeValue(cap.definition.command, cap.parameters[i], sent, escape);
    }
  }

  /**
   The whole way, when nothing goes wrong: the defaults relied on are good, hyphenated names
   are declared, every opening brace of the command is a placeholder's, and none is in the
   escaped value of a placeholder. Then the server accepts, every placeholder has its value,
   and the command that runs is the simultaneous substitution of the escaped values, with no
   placeholder left.
   */
  lemma PipelineYieldsCommand(e: Regexes, isWord: char -> bool, cap: Capability, views: seq<ClientParam>,
                              provided: Arguments, sent: Arguments, escape: string -> string)
    requires e.Lawful() && WordClass(isWord) && CheckCapability(e, isWord, cap).Ok? && cap.definition.ShellScript?
    requires ViewsOf(views, cap.parameters) && Sanitise(e, views, provided) == Ok(sent)
    requires OmittedDefaultsPass(e, cap.parameters, sent)
    requires forall n :: n in PlaceholderNames(cap.definition.command) && '-' in n ==> n in DeclaredNames(cap.parameters)
    requires CleanCommand(cap.definition.command) && BraceFree(cap, sent, escape)
    ensures ServerValidate(e, cap, sent).Ok?
    ensures var values := Escaped(ServerValidate(e, cap, sent).value, escape);
            && (forall n :: n in PlaceholderNames(cap.definition.command) ==> n in values)
            && Iterate(cap.definition.command, PlaceholderNames(cap.definition.command), values)
               == OnePass(Scan(cap.definition.command, IsNameChar), values)
            && '{' !in Iterate(cap.definition.command, PlaceholderNames(cap.definition.command), values)
  {
    CleanCommandIff(cap.definition.command);
    ServerAcceptsSanitised(e, isWord, cap, views, provided, sent);
    SubstitutionSucceedsIff(e, isWord, cap, sent);
    forall n | n in PlaceholderNames(cap.definition.command) ensures '{' !in escape(ServerValidate(e, cap, sent).value[n]) {
      UsedValuesAreBraceFree(e, isWord, cap, sent, escape, n);
    }
    CleanCommandSubstitutes(cap.definition.command, IsNameChar, Escaped(ServerValidate(e, cap, sent).value, escape));
    NoBraceLeft(Scan(cap.definition.command, IsNameChar), Escaped(ServerValidate(e, cap, sent).value, escape));
  }

  /** Both conditions do fail: a validated toggle with a default the server itself rejects. */
  lemma BadDefaultIsRejected(e: Regexes, isWord: char -> bool, cap: Capability)
    requires WordClass(isWord)
    requires cap == Capability("id", "name", [Param("t", "toggle", None, None, Some("maybe"), [], None)], ShellScript("x", 1))
    ensures CheckCapability(e, isWord, cap).Ok?
    ensures Sanitise(e, [ViewAs(cap.parameters[0], Toggle)], map[]) == Ok(map[])
    ensures ServerValidate(e, cap, map[]) == Err(NotABoolean)
  {
    var p := cap.parameters[0];
    assert cap.parameters[..0] == [] && CheckParams(e, cap.parameters[..0]).Ok?;
    assert Trim("x") == "x";
    ScanFindsNone("", "x", isWord);
    assert [ViewAs(p, Toggle)][..0] == [];
    assert SaniCollect(e, [], map[]) == Ok(map[]);
    assert Collect(e, [], map[]) == Ok(map[]);
    assert "maybe" !in ["true", "false", "1", "0"];
  }

  /** And a validated script whose only placeholder has a hyphen and is not declared. */
  lemma HyphenEscapesValidation(e: Regexes, isWord: char -> bool, cap: Capability)
    requires WordClass(isWord) && cap == Capability("id", "name", [], ShellScript("{a-b}", 1))
    ensures CheckCapability(e, isWord, cap).Ok? && ServerValidate(e, cap, map[]) == Ok(map[])
    ensures "a-b" in PlaceholderNames("{a-b}")
  {
    var s := "{a-b}";
    assert s[0..5] == Placeholder("a-b");
    assert OccursAt(s, Placeholder("a-b"), 0);
    ScanFindsIff(s, IsNameChar, "a-b");
    RunIs(s[1..], isWord, 1);
    assert MatchAtStart(s, isWord) == None;
    ScanFindsNone("" + [s[0]], s[1..], isWord);
    assert Trim(s) == s;
  }
}

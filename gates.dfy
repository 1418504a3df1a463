/** The gate vocabulary of the token format and the parser for one token
    (`qusetta/_gates.py`), plus the writer that the translators use to print
    a token back. */
module Gates {
  import opened Wrappers
  import opened Text

  /** The gates a token may name. The translators look a gate's native
      constructor up by this name; here the lookup is a total function of
      the kind, decided once when the token is parsed. */
  datatype Kind = I | H | X | Y | Z | S | T | CX | CZ | SWAP | CCX | RX | RY | RZ

  /** The upper-case name a token writes for a gate. */
  function Name(k: Kind): (r: string)
    ensures |r| >= 1
  {
    match k
    case I => "I"
    case H => "H"
    case X => "X"
    case Y => "Y"
    case Z => "Z"
    case S => "S"
    case T => "T"
    case CX => "CX"
    case CZ => "CZ"
    case SWAP => "SWAP"
    case CCX => "CCX"
    case RX => "RX"
    case RY => "RY"
    case RZ => "RZ"
  }

  const ParameterFreeGates: set<string> := {"I", "H", "X", "Y", "Z", "S", "T", "CX", "CZ", "SWAP", "CCX"}
  const ParameterGates: set<string> := {"RX", "RY", "RZ"}

  /** The rotations, the gates that take an angle. */
  predicate IsRotation(k: Kind)
  {
    k == RX || k == RY || k == RZ
  }

  /** The gate a vocabulary name stands for; `None` for any other name. */
  function KindNamed(name: string): (r: Option<Kind>)
    ensures r.Some? <==> name in ParameterFreeGates || name in ParameterGates
    ensures r.Some? ==> Name(r.value) == name
  {
    if name == "I" then Some(I)
    else if name == "H" then Some(H)
    else if name == "X" then Some(X)
    else if name == "Y" then Some(Y)
    else if name == "Z" then Some(Z)
    else if name == "S" then Some(S)
    else if name == "T" then Some(T)
    else if name == "CX" then Some(CX)
    else if name == "CZ" then Some(CZ)
    else if name == "SWAP" then Some(SWAP)
    else if name == "CCX" then Some(CCX)
    else if name == "RX" then Some(RX)
    else if name == "RY" then Some(RY)
    else if name == "RZ" then Some(RZ)
    else None
  }

  /** The two name sets are disjoint, eleven parameter-free names and three
      rotations. */
  lemma VocabularySizes()
    ensures |ParameterFreeGates| == 11 && |ParameterGates| == 3
    ensures ParameterFreeGates * ParameterGates == {}
  {
  }

  /** Every gate's name lies in exactly one of the two sets, the rotations'
      in the parameter set, and names that gate. */
  lemma Vocabulary(k: Kind)
    ensures Name(k) in ParameterGates <==> IsRotation(k)
    ensures Name(k) in ParameterFreeGates <==> !IsRotation(k)
    ensures KindNamed(Name(k)) == Some(k)
  {
    match k
    case I => case H => case X => case Y => case Z => case S => case T =>
    case CX => case CZ => case SWAP => case CCX => case RX => case RY => case RZ =>
  }

  /** The parse failures of `gate_info`. */
  datatype Error =
    | NotFound(c: char)             // `str.index` found no such character
    | BadParameter(text: string)    // `float(eval(text))` raised
    | BadInteger(text: string)      // `int(text)` raised
    | Unrecognized(name: string)    // the name is in neither set
    | BadInstruction(name: string)  // a native instruction lacks a parameter or qubit it needs

  /** How the host language turns numbers into text and back. Python's
      `float(eval(text))` (`None` where it raises), `str(x)` and `"%g" % x`
      are general-purpose routines outside this model, so they are given
      as values. */
  datatype Numerals = Numerals(
    eval: string -> Option<real>,
    str: real -> string,
    fmtG: real -> string)

  /** What `gate_info` returns: the gate, its parameters and its qubits. */
  datatype Parsed = Parsed(kind: Kind, params: seq<real>, qubits: seq<int>)

  /** What every successful parse satisfies: at least one qubit, and
      parameters exactly for the rotations. */
  predicate WellFormed(p: Parsed)
  {
    |p.qubits| >= 1 && (p.params == [] <==> !IsRotation(p.kind))
  }

  /** Every gate of a circuit is well formed. */
  predicate AllWellFormed(gates: seq<Parsed>)
  {
    forall i :: 0 <= i < |gates| ==> WellFormed(gates[i])
  }

  /** `float(eval(text))`: the value the host reads, or an error naming the
      text when it reads none. */
  function EvalParam(eval: string -> Option<real>, text: string): (r: Result<real, Error>)
    ensures r.Success? <==> eval(text).Some?
    ensures r.Success? ==> r.value == eval(text).value
    ensures r.Failure? ==> r.error == BadParameter(text)
  {
    match eval(text)
    case Some(x) => Success(x)
    case None => Failure(BadParameter(text))
  }

  /** `tuple(float(eval(x)) for x in texts)`: every text's value, in order,
      or the error naming the first text the host cannot read. */
  function EvalAll(eval: string -> Option<real>, texts: seq<string>): (r: Result<seq<real>, Error>)
    ensures r.Success? <==> forall i :: 0 <= i < |texts| ==> eval(texts[i]).Some?
    ensures r.Success? ==> |r.value| == |texts| && forall i :: 0 <= i < |texts| ==> eval(texts[i]) == Some(r.value[i])
    ensures r.Failure? ==>
      exists i :: 0 <= i < |texts| && r.error == BadParameter(texts[i]) &&
        eval(texts[i]).None? && forall j :: 0 <= j < i ==> eval(texts[j]).Some?
  {
    Traverse(t => EvalParam(eval, t), texts)
  }

  function ParseQubit(text: string): (r: Result<int, Error>)
    ensures r.Success? <==> ParseInt(text).Some?
    ensures r.Success? ==> r.value == ParseInt(text).value
    ensures r.Failure? ==> r.error == BadInteger(text)
  {
    match ParseInt(text)
    case Some(q) => Success(q)
    case None => Failure(BadInteger(text))
  }

  /** `tuple(int(x) for x in texts)`: every field's integer, in order, or
      the error naming the first field `int()` rejects. */
  function ParseQubits(texts: seq<string>): (r: Result<seq<int>, Error>)
    ensures r.Success? <==> forall i :: 0 <= i < |texts| ==> ParseInt(texts[i]).Some?
    ensures r.Success? ==> |r.value| == |texts| && forall i :: 0 <= i < |texts| ==> ParseInt(texts[i]) == Some(r.value[i])
    ensures r.Failure? ==>
      exists i :: 0 <= i < |texts| && r.error == BadInteger(texts[i]) &&
        ParseInt(texts[i]).None? && forall j :: 0 <= j < i ==> ParseInt(texts[j]).Some?
  {
    Traverse(ParseQubit, texts)
  }

  /** The comma-separated fields before the first `)`. */
  function Fields(s: string): seq<string>
    requires ')' in s
  {
    Split(s[..IndexOf(s, ')').value], ',')
  }

  /** The text after the first `(`. */
  function Opened(s: string): string
    requires '(' in s
  {
    s[IndexOf(s, '(').value + 1..]
  }

  /** The argument group of a parameter-free gate: the integers before the
      first `)`. */
  function PlainArgs(k: Kind, rest: string): (r: Result<Parsed, Error>)
    ensures r.Success? ==> r.value.kind == k && r.value.params == [] && |r.value.qubits| >= 1
    ensures ')' !in rest ==> r == Failure(NotFound(')'))
    ensures ')' in rest ==> r.Success? == ParseQubits(Fields(rest)).Success?
    ensures ')' in rest && r.Success? ==> r.value.qubits == ParseQubits(Fields(rest)).value
    ensures ')' in rest && r.Failure? ==> r.error == ParseQubits(Fields(rest)).error
  {
    match IndexOf(rest, ')')
    case None => Failure(NotFound(')'))
    case Some(j) =>
      match ParseQubits(Split(rest[..j], ','))
      case Failure(e) => Failure(e)
      case Success(qubits) => Success(Parsed(k, [], qubits))
  }

  /** The two groups of a rotation: the parameters before the first `)`,
      then the integers after the first `(` up to the next `)`. */
  function RotationArgs(eval: string -> Option<real>, k: Kind, rest: string): (r: Result<Parsed, Error>)
    ensures r.Success? ==> r.value.kind == k && |r.value.params| >= 1 && |r.value.qubits| >= 1
    ensures ')' !in rest ==> r == Failure(NotFound(')'))
    ensures ')' in rest && EvalAll(eval, Fields(rest)).Failure? ==> r == Failure(EvalAll(eval, Fields(rest)).error)
    ensures ')' in rest && EvalAll(eval, Fields(rest)).Success? && '(' !in rest ==> r == Failure(NotFound('('))
    ensures ')' in rest && EvalAll(eval, Fields(rest)).Success? && '(' in rest ==>
      if ')' !in Opened(rest) then r == Failure(NotFound(')'))
      else if ParseQubits(Fields(Opened(rest))).Failure? then r == Failure(ParseQubits(Fields(Opened(rest))).error)
      else r == Success(Parsed(k, EvalAll(eval, Fields(rest)).value, ParseQubits(Fields(Opened(rest))).value))
  {
    match IndexOf(rest, ')')
    case None => Failure(NotFound(')'))
    case Some(j) =>
      match EvalAll(eval, Split(rest[..j], ','))
      case Failure(e) => Failure(e)
      case Success(params) =>
        match IndexOf(rest, '(')
        case None => Failure(NotFound('('))
        case Some(i) =>
          var tail := rest[i + 1..];
          match IndexOf(tail, ')')
          case None => Failure(NotFound(')'))
          case Some(j') =>
            match ParseQubits(Split(tail[..j'], ','))
            case Failure(e) => Failure(e)
            case Success(qubits) => Success(Parsed(k, params, qubits))
  }

  /** `gate_info(token)`: the name is the text before the first `(`,
      stripped and upper-cased; a rotation reads a parameter group and a
      qubit group, a parameter-free gate a qubit group. A token without `(`
      fails, and a successful parse is well formed. */
  function GateInfo(eval: string -> Option<real>, token: string): (r: Result<Parsed, Error>)
    ensures '(' !in token ==> r == Failure(NotFound('('))
    ensures '(' in token ==> r == Arguments(eval, token[..IndexOf(token, '(').value], Opened(token))
    ensures r.Success? ==> WellFormed(r.value)
  {
    match IndexOf(token, '(')
    case None => Failure(NotFound('('))
    case Some(i) => Arguments(eval, token[..i], token[i + 1..])
  }

  /** The rest of `gate_info` once the first `(` is found: the text before
      it names the gate, the text after it holds the argument groups. */
  function Arguments(eval: string -> Option<real>, name: string, rest: string): (r: Result<Parsed, Error>)
    ensures r.Success? ==> WellFormed(r.value)
    ensures var g := Upper(Strip(name));
      && (g in ParameterGates ==> r == RotationArgs(eval, KindNamed(g).value, rest))
      && (g in ParameterFreeGates ==> r == PlainArgs(KindNamed(g).value, rest))
  {
    var g := Upper(Strip(name));
    if g in ParameterGates then
      var k := KindNamed(g).value;
      Vocabulary(k);
      RotationArgs(eval, k, rest)
    else if g in ParameterFreeGates then
      var k := KindNamed(g).value;
      Vocabulary(k);
      PlainArgs(k, rest)
    else Failure(Unrecognized(g))
  }

  /** `gate_info` over a whole circuit, stopping at the first bad token. */
  function ParseAll(eval: string -> Option<real>, tokens: seq<string>): Result<seq<Parsed>, Error>
  {
    Traverse(t => GateInfo(eval, t), tokens)
  }

  /** Every gate of a parsed circuit is well formed, and a circuit parses
      exactly when each of its tokens does. */
  lemma ParseAllWellFormed(eval: string -> Option<real>, tokens: seq<string>)
    ensures ParseAll(eval, tokens).Success? <==> forall i :: 0 <= i < |tokens| ==> GateInfo(eval, tokens[i]).Success?
    ensures ParseAll(eval, tokens).Success? ==>
      |ParseAll(eval, tokens).value| == |tokens| &&
      forall i :: 0 <= i < |tokens| ==>
        GateInfo(eval, tokens[i]) == Success(ParseAll(eval, tokens).value[i]) &&
        WellFormed(ParseAll(eval, tokens).value[i])
  {
  }

  /** A circuit whose first bad token is at `i` fails with that token's
      error. */
  lemma ParseAllFailsAt(eval: string -> Option<real>, tokens: seq<string>, i: int)
    requires 0 <= i < |tokens| && GateInfo(eval, tokens[i]).Failure?
    requires forall j :: 0 <= j < i ==> GateInfo(eval, tokens[j]).Success?
    ensures ParseAll(eval, tokens) == Failure(GateInfo(eval, tokens[i]).error)
  {
    TraverseFailsAtFirst(t => GateInfo(eval, t), tokens, i);
  }

  /** Once a prefix of the circuit fails, the whole circuit fails with the
      same error. */
  lemma ParseAllPrefixFails(eval: string -> Option<real>, tokens: seq<string>, i: nat)
    requires i <= |tokens| && ParseAll(eval, tokens[..i]).Failure?
    ensures ParseAll(eval, tokens) == ParseAll(eval, tokens[..i])
  {
    TraversePrefixFails(t => GateInfo(eval, t), tokens, i);
  }

  /** One step of parsing a circuit token by token: the next token either
      fails, and the whole circuit with it, or extends the parsed prefix by
      one well-formed gate. */
  lemma ParseStep(eval: string -> Option<real>, tokens: seq<string>, i: nat, parsed: seq<Parsed>)
    requires i < |tokens| && ParseAll(eval, tokens[..i]) == Success(parsed)
    ensures GateInfo(eval, tokens[i]).Failure? ==>
      ParseAll(eval, tokens) == Failure(GateInfo(eval, tokens[i]).error)
    ensures GateInfo(eval, tokens[i]).Success? ==>
      && ParseAll(eval, tokens[..i + 1]) == Success(parsed + [GateInfo(eval, tokens[i]).value])
      && WellFormed(GateInfo(eval, tokens[i]).value)
  {
    assert tokens[..i + 1][..i] == tokens[..i];
    if GateInfo(eval, tokens[i]).Failure? {
      ParseAllPrefixFails(eval, tokens, i + 1);
    }
  }

  /** A circuit whose tokens parse one by one to `gates` parses to `gates`. */
  lemma ParseAllSucceeds(eval: string -> Option<real>, tokens: seq<string>, gates: seq<Parsed>)
    requires |tokens| == |gates|
    requires forall i :: 0 <= i < |tokens| ==> GateInfo(eval, tokens[i]) == Success(gates[i])
    ensures ParseAll(eval, tokens) == Success(gates)
  {
    TraverseAll(t => GateInfo(eval, t), tokens, gates);
  }

  // ---------------------------------------------------------------- the name

  /** The name decides the outcome: a name in neither set gives the
      unrecognised-gate error, carrying that name, and no other failure
      does; on success the gate is the one the name stands for. */
  lemma GateInfoName(eval: string -> Option<real>, token: string, i: nat)
    requires i < |token| && token[i] == '(' && '(' !in token[..i]
    ensures var g := Upper(Strip(token[..i]));
      && (GateInfo(eval, token).Success? ==> Name(GateInfo(eval, token).value.kind) == g)
      && (GateInfo(eval, token) == Failure(Unrecognized(g)) <==> g !in ParameterFreeGates && g !in ParameterGates)
      && (GateInfo(eval, token).Failure? && GateInfo(eval, token).error.Unrecognized? ==> GateInfo(eval, token).error.name == g)
  {
    IndexOfFirst(token, '(', i);
    ArgumentsName(eval, token[..i], token[i + 1..]);
  }

  lemma ArgumentsName(eval: string -> Option<real>, name: string, rest: string)
    ensures var g := Upper(Strip(name));
      var r := Arguments(eval, name, rest);
      && (r.Success? ==> Name(r.value.kind) == g)
      && (r == Failure(Unrecognized(g)) <==> g !in ParameterFreeGates && g !in ParameterGates)
      && (r.Failure? && r.error.Unrecognized? ==> r.error.name == g)
  {
  }

  /** Names are case-insensitive and may carry white space: two tokens that
      differ only in how the name is written parse alike. */
  lemma CaseInsensitive(eval: string -> Option<real>, name1: string, name2: string, args: string)
    requires '(' !in name1 && '(' !in name2
    requires Upper(Strip(name1)) == Upper(Strip(name2))
    ensures GateInfo(eval, name1 + "(" + args) == GateInfo(eval, name2 + "(" + args)
  {
    var t1, t2 := name1 + "(" + args, name2 + "(" + args;
    assert t1[..|name1|] == name1 && t1[|name1| + 1..] == args;
    assert t2[..|name2|] == name2 && t2[|name2| + 1..] == args;
    IndexOfFirst(t1, '(', |name1|);
    IndexOfFirst(t2, '(', |name2|);
  }

  /** Text made of ASCII capital letters only. */
  predicate Capitals(s: string)
  {
    forall i :: 0 <= i < |s| ==> 'A' <= s[i] <= 'Z'
  }

  /** Every gate name is written in capital letters. */
  lemma NameCapitals(k: Kind)
    ensures Capitals(Name(k))
  {
  }

  /** A gate's name holds no parenthesis, and is stripped and upper-cased
      to itself. */
  lemma NameIsCanonical(k: Kind)
    ensures '(' !in Name(k) && ')' !in Name(k)
    ensures Upper(Strip(Name(k))) == Name(k)
  {
    var n := Name(k);
    assert Strip(n) == n by { NameCapitals(k); CapitalsStrip(n); }
    assert Upper(n) == n by { NameCapitals(k); CapitalsUpper(n); }
    assert '(' !in n && ')' !in n by { NameCapitals(k); CapitalsNoParens(n); }
  }

  lemma CapitalsStrip(n: string)
    requires |n| >= 1 && Capitals(n)
    ensures Strip(n) == n
  {
    StripUnpadded(n);
  }

  lemma CapitalsUpper(n: string)
    requires Capitals(n)
    ensures Upper(n) == n
  {
  }

  /** Lower-casing capital letters and upper-casing again gives them back. */
  lemma CapitalsUpperLower(s: string)
    requires Capitals(s)
    ensures Upper(Lower(s)) == s
  {
    forall i | 0 <= i < |s| ensures Upper(Lower(s))[i] == s[i] {
    }
  }

  lemma CapitalsNoParens(n: string)
    requires Capitals(n)
    ensures '(' !in n && ')' !in n
  {
  }

  // ---------------------------------------------------------------- writing a token

  function IntStrs(qubits: seq<int>): seq<string>
  {
    seq(|qubits|, i requires 0 <= i < |qubits| => IntStr(qubits[i]))
  }

  /** A token as the translators print one: the name, a parameter group
      `(p0, p1)` only when there are parameters, then the qubit group
      `(q0, q1)`. */
  function Render(name: string, paramTexts: seq<string>, qubits: seq<int>): string
  {
    name + (if paramTexts == [] then "" else "(" + Join(", ", paramTexts) + ")")
    + "(" + Join(", ", IntStrs(qubits)) + ")"
  }

  /** Text that holds none of the token format's delimiters. */
  predicate NoDelimiters(s: string)
  {
    ',' !in s && '(' !in s && ')' !in s
  }

  /** `texts`, joined with `", "`, evaluate one by one to `params`: the
      first as written, each later one after the blank of the separator. */
  ghost predicate ReadsAs(eval: string -> Option<real>, texts: seq<string>, params: seq<real>)
  {
    && |texts| == |params|
    && (forall i :: 0 <= i < |texts| ==> NoDelimiters(texts[i]))
    && (|texts| >= 1 ==> eval(texts[0]) == Some(params[0]))
    && (forall i :: 1 <= i < |texts| ==> eval(" " + texts[i]) == Some(params[i]))
  }

  lemma {:induction false} JoinAvoids(c: char, sep: string, parts: seq<string>)
    requires c !in sep && forall i :: 0 <= i < |parts| ==> c !in parts[i]
    ensures c !in Join(sep, parts)
    decreases |parts|
  {
    if |parts| >= 2 {
      JoinAvoids(c, sep, parts[1..]);
    }
  }

  /** Printed integers hold no delimiter, and a printed qubit group no
      parenthesis. */
  lemma IntStrsAvoid(qubits: seq<int>)
    ensures forall i :: 0 <= i < |qubits| ==> NoDelimiters(IntStrs(qubits)[i])
    ensures '(' !in Join(", ", IntStrs(qubits)) && ')' !in Join(", ", IntStrs(qubits))
  {
    var texts := IntStrs(qubits);
    forall i | 0 <= i < |qubits| ensures NoDelimiters(texts[i]) {
      var q := qubits[i];
      var n := if q < 0 then -q else q;
      assert forall c :: c in NatStr(n) ==> IsDigit(c);
    }
    JoinAvoids('(', ", ", texts);
    JoinAvoids(')', ", ", texts);
  }

  /** A group joined with `", "` splits on `,` back into its texts, each
      after the first with a blank in front. */
  lemma SplitGroup(texts: seq<string>)
    requires |texts| >= 1 && forall i :: 0 <= i < |texts| ==> ',' !in texts[i]
    ensures var pieces := Split(Join(", ", texts), ',');
      && |pieces| == |texts| && pieces[0] == texts[0]
      && forall i :: 1 <= i < |texts| ==> pieces[i] == " " + texts[i]
  {
    SplitCommaGroup(texts);
    PaddedPieces(texts);
  }

  lemma SplitCommaGroup(texts: seq<string>)
    requires |texts| >= 1 && forall i :: 0 <= i < |texts| ==> ',' !in texts[i]
    ensures Split(Join(", ", texts), ',') == [texts[0]] + Padded(" ", texts[1..])
  {
    SplitJoin("", ',', " ", texts);
    assert [','] + " " == ", ";
    assert "" + Join(", ", texts) == Join(", ", texts);
    assert "" + texts[0] == texts[0];
  }

  lemma PaddedPieces(texts: seq<string>)
    requires |texts| >= 1
    ensures var pieces := [texts[0]] + Padded(" ", texts[1..]);
      && |pieces| == |texts| && pieces[0] == texts[0]
      && forall i :: 1 <= i < |texts| ==> pieces[i] == " " + texts[i]
  {
    var pieces := [texts[0]] + Padded(" ", texts[1..]);
    forall i | 1 <= i < |texts| ensures pieces[i] == " " + texts[i] {
      assert pieces[i] == Padded(" ", texts[1..])[i - 1];
    }
  }

  /** A printed qubit group reads back as the same integers. */
  lemma QubitGroupParses(qubits: seq<int>)
    requires |qubits| >= 1
    ensures ParseQubits(Split(Join(", ", IntStrs(qubits)), ',')) == Success(qubits)
  {
    var texts := IntStrs(qubits);
    IntStrsAvoid(qubits);
    SplitGroup(texts);
    var pieces := Split(Join(", ", texts), ',');
    forall i | 0 <= i < |pieces| ensures ParseQubit(pieces[i]) == Success(qubits[i]) {
      IntStrParses(qubits[i]);
    }
    TraverseAll(ParseQubit, pieces, qubits);
  }

  /** A printed parameter group reads back as the parameters. */
  lemma ParamGroupParses(eval: string -> Option<real>, texts: seq<string>, params: seq<real>)
    requires |texts| >= 1 && ReadsAs(eval, texts, params)
    ensures EvalAll(eval, Split(Join(", ", texts), ',')) == Success(params)
  {
    SplitGroup(texts);
    var pieces := Split(Join(", ", texts), ',');
    forall i | 0 <= i < |pieces| ensures EvalParam(eval, pieces[i]) == Success(params[i]) {
    }
    TraverseAll(t => EvalParam(eval, t), pieces, params);
  }

  /** The joined parameter texts hold no parenthesis. */
  lemma ParamGroupAvoids(texts: seq<string>)
    requires forall i :: 0 <= i < |texts| ==> NoDelimiters(texts[i])
    ensures '(' !in Join(", ", texts) && ')' !in Join(", ", texts)
  {
    JoinAvoids('(', ", ", texts);
    JoinAvoids(')', ", ", texts);
  }

  /** A token whose name part reads as a gate's name continues with that
      gate's argument groups. */
  lemma GateInfoDispatch(eval: string -> Option<real>, name: string, k: Kind, rest: string)
    requires '(' !in name && Upper(Strip(name)) == Name(k)
    ensures GateInfo(eval, name + "(" + rest)
      == if IsRotation(k) then RotationArgs(eval, k, rest) else PlainArgs(k, rest)
  {
    var token := name + "(" + rest;
    assert token[..|name|] == name && token[|name| + 1..] == rest;
    IndexOfFirst(token, '(', |name|);
    Vocabulary(k);
  }

  /** The qubit group of a printed parameter-free gate. */
  lemma PlainArgsParse(k: Kind, qubits: seq<int>)
    requires |qubits| >= 1
    ensures PlainArgs(k, Join(", ", IntStrs(qubits)) + ")") == Success(Parsed(k, [], qubits))
  {
    var q := Join(", ", IntStrs(qubits));
    IntStrsAvoid(qubits);
    GroupLayout(q);
    QubitGroupParses(qubits);
  }

  /** Where the delimiters of two printed groups `p)(q)` lie. */
  lemma GroupsLayout(p: string, q: string)
    requires '(' !in p && ')' !in p && ')' !in q
    ensures var rest := p + ")" + "(" + q + ")";
      && IndexOf(rest, ')') == Some(|p|) && rest[..|p|] == p
      && IndexOf(rest, '(') == Some(|p| + 1) && rest[|p| + 2..] == q + ")"
  {
    var rest := p + ")" + "(" + q + ")";
    assert rest[..|p|] == p;
    IndexOfFirst(rest, ')', |p|);
    assert rest[..|p| + 1] == p + ")";
    IndexOfFirst(rest, '(', |p| + 1);
    assert rest[|p| + 2..] == q + ")";
  }

  /** Where the closing parenthesis of a printed group `q)` lies. */
  lemma GroupLayout(q: string)
    requires ')' !in q
    ensures IndexOf(q + ")", ')') == Some(|q|) && (q + ")")[..|q|] == q
  {
    assert (q + ")")[..|q|] == q;
    IndexOfFirst(q + ")", ')', |q|);
  }

  /** The two groups of a printed rotation. */
  lemma RotationArgsParse(eval: string -> Option<real>, k: Kind, texts: seq<string>, params: seq<real>, qubits: seq<int>)
    requires |qubits| >= 1 && |texts| >= 1 && ReadsAs(eval, texts, params)
    ensures RotationArgs(eval, k, Join(", ", texts) + ")" + "(" + Join(", ", IntStrs(qubits)) + ")")
      == Success(Parsed(k, params, qubits))
  {
    var p := Join(", ", texts);
    var q := Join(", ", IntStrs(qubits));
    ParamGroupAvoids(texts);
    ParamGroupParses(eval, texts, params);
    IntStrsAvoid(qubits);
    QubitGroupParses(qubits);
    GroupsLayout(p, q);
    GroupLayout(q);
  }

  /** Printing a gate and parsing it gives the gate back: for a
      parameter-free gate `NAME(q0, q1, ...)`, for a rotation
      `NAME(p0, ...)(q0, ...)` with parameter texts that evaluate to the
      parameters. */
  lemma RenderParses(eval: string -> Option<real>, k: Kind, texts: seq<string>, params: seq<real>, qubits: seq<int>)
    requires |qubits| >= 1
    requires IsRotation(k) ==> |texts| >= 1 && ReadsAs(eval, texts, params)
    requires !IsRotation(k) ==> texts == [] && params == []
    ensures GateInfo(eval, Render(Name(k), texts, qubits)) == Success(Parsed(k, params, qubits))
  {
    if IsRotation(k) {
      RotationRenderParses(eval, k, texts, params, qubits);
    } else {
      PlainRenderParses(eval, k, qubits);
    }
  }

  lemma RotationRenderParses(eval: string -> Option<real>, k: Kind, texts: seq<string>, params: seq<real>, qubits: seq<int>)
    requires |qubits| >= 1 && IsRotation(k) && |texts| >= 1 && ReadsAs(eval, texts, params)
    ensures GateInfo(eval, Render(Name(k), texts, qubits)) == Success(Parsed(k, params, qubits))
  {
    var rest := Join(", ", texts) + ")" + "(" + Join(", ", IntStrs(qubits)) + ")";
    assert Render(Name(k), texts, qubits) == Name(k) + "(" + rest;
    assert '(' !in Name(k) && Upper(Strip(Name(k))) == Name(k) by { NameIsCanonical(k); }
    GateInfoDispatch(eval, Name(k), k, rest);
    RotationArgsParse(eval, k, texts, params, qubits);
  }

  lemma PlainRenderParses(eval: string -> Option<real>, k: Kind, qubits: seq<int>)
    requires |qubits| >= 1 && !IsRotation(k)
    ensures GateInfo(eval, Render(Name(k), [], qubits)) == Success(Parsed(k, [], qubits))
  {
    var rest := Join(", ", IntStrs(qubits)) + ")";
    assert Render(Name(k), [], qubits) == Name(k) + "(" + rest;
    assert '(' !in Name(k) && Upper(Strip(Name(k))) == Name(k) by { NameIsCanonical(k); }
    GateInfoDispatch(eval, Name(k), k, rest);
    PlainArgsParse(k, qubits);
  }

  /** `str(x)` for each parameter. */
  function ParamTexts(str: real -> string, params: seq<real>): (r: seq<string>)
    ensures |r| == |params|
    ensures forall i :: 0 <= i < |params| ==> r[i] == str(params[i])
  {
    seq(|params|, i requires 0 <= i < |params| => str(params[i]))
  }

  /** The host reads the text it prints for `x` back as `x`, also after the
      blank of a `", "` separator, and that text holds no delimiter of the
      token format. */
  predicate ReadsBack(nums: Numerals, x: real)
  {
    && nums.eval(nums.str(x)) == Some(x)
    && nums.eval(" " + nums.str(x)) == Some(x)
    && NoDelimiters(nums.str(x))
  }

  /** The host reads back every parameter of the given gates. */
  predicate FaithfulOn(nums: Numerals, gates: seq<Parsed>)
  {
    forall i, j :: 0 <= i < |gates| && 0 <= j < |gates[i].params| ==> ReadsBack(nums, gates[i].params[j])
  }

  /** Printed parameters that the host reads back evaluate, in their group,
      to the parameters. */
  lemma FaithfulReads(nums: Numerals, params: seq<real>)
    requires forall j :: 0 <= j < |params| ==> ReadsBack(nums, params[j])
    ensures ReadsAs(nums.eval, ParamTexts(nums.str, params), params)
  {
    var texts := ParamTexts(nums.str, params);
    forall i | 0 <= i < |texts| ensures NoDelimiters(texts[i]) && nums.eval(" " + texts[i]) == Some(params[i]) {
      assert ReadsBack(nums, params[i]);
    }
    if |texts| >= 1 {
      assert ReadsBack(nums, params[0]);
    }
  }

  /** A host that knows whole numbers only: it prints the integer part of a
      number with `str(int)` and reads text with `int()`. */
  function WholeNumbers(): Numerals
  {
    var read := (t: string) => match ParseInt(t) case Some(n) => Some(n as real) case None => None;
    var show := (x: real) => IntStr(x.Floor);
    Numerals(read, show, show)
  }

  /** That host reads back every whole number it prints. */
  lemma WholeNumbersReadBack(x: real)
    requires x.Floor as real == x
    ensures ReadsBack(WholeNumbers(), x)
  {
    var nums := WholeNumbers();
    IntStrParses(x.Floor);
    IntStrsAvoid([x.Floor]);
    assert IntStrs([x.Floor])[0] == nums.str(x);
  }

  /** So it reads back the parameters of gates whose angles are whole
      numbers. */
  lemma WholeNumbersFaithful(gates: seq<Parsed>)
    requires forall i, j :: 0 <= i < |gates| && 0 <= j < |gates[i].params| ==> gates[i].params[j].Floor as real == gates[i].params[j]
    ensures FaithfulOn(WholeNumbers(), gates)
  {
    forall i, j | 0 <= i < |gates| && 0 <= j < |gates[i].params| ensures ReadsBack(WholeNumbers(), gates[i].params[j]) {
      WholeNumbersReadBack(gates[i].params[j]);
    }
  }

  /** The token a parsed gate is printed as, its parameters written with
      `str`. */
  function Token(str: real -> string, p: Parsed): string
  {
    Render(Name(p.kind), ParamTexts(str, p.params), p.qubits)
  }

  /** The tokens of a run of gates, one each, in order. */
  function Tokens(str: real -> string, gates: seq<Parsed>): (r: seq<string>)
    ensures |r| == |gates|
    ensures forall i :: 0 <= i < |gates| ==> r[i] == Token(str, gates[i])
  {
    seq(|gates|, i requires 0 <= i < |gates| => Token(str, gates[i]))
  }

  /** A well-formed gate whose parameters the host reads back prints as a
      token that parses to it. */
  lemma TokenParses(nums: Numerals, p: Parsed)
    requires WellFormed(p) && forall j :: 0 <= j < |p.params| ==> ReadsBack(nums, p.params[j])
    ensures GateInfo(nums.eval, Token(nums.str, p)) == Success(p)
  {
    FaithfulReads(nums, p.params);
    RenderParses(nums.eval, p.kind, ParamTexts(nums.str, p.params), p.params, p.qubits);
  }

  /** Printing well-formed gates whose parameters the host reads back,
      and parsing the tokens, gives the gates back. */
  lemma TokensParse(nums: Numerals, gates: seq<Parsed>)
    requires FaithfulOn(nums, gates)
    requires forall i :: 0 <= i < |gates| ==> WellFormed(gates[i])
    ensures ParseAll(nums.eval, Tokens(nums.str, gates)) == Success(gates)
  {
    var tokens := Tokens(nums.str, gates);
    forall i | 0 <= i < |gates| ensures GateInfo(nums.eval, tokens[i]) == Success(gates[i]) {
      assert forall j :: 0 <= j < |gates[i].params| ==> ReadsBack(nums, gates[i].params[j]);
      TokenParses(nums, gates[i]);
    }
    ParseAllSucceeds(nums.eval, tokens, gates);
  }
}

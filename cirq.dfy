/** Translating circuits to and from cirq (`qusetta/_cirq.py`). cirq numbers
    qubits as the token format does; printing a circuit relies on cirq's
    own text for each operation, which a fixed rewriting turns into a
    token. */
module Cirq {
  import opened Wrappers
  import opened Text
  import opened Gates

  /** One operation of a cirq circuit: a gate, with its parameters if it
      was given any, applied to line qubits; or a measurement. */
  datatype Operation =
    | Apply(gate: string, params: seq<real>, qubits: seq<int>)
    | Measure(qubits: seq<int>)

  /** A cirq circuit: its operations in the order `all_operations` yields
      them. */
  datatype Circuit = Circuit(ops: seq<Operation>)

  /** What cirq decides when it shows an operation and this model leaves
      to it: the text it prints for an angle (a number of half turns
      followed by `π`), and whether the operation's gate has an `exponent`
      equal to 1. */
  datatype Rendering = Rendering(angle: real -> string, exponentIsOne: Operation -> bool)

  /** `MAPPING`: cirq's rotation gates are lower-case functions. */
  const Mapping: map<string, string> := map["RX" := "rx", "RY" := "ry", "RZ" := "rz"]

  /** `MAPPING.get(g, g)` */
  function Alias(g: string): string
  {
    if g in Mapping then Mapping[g] else g
  }

  /** The rotations are looked up by their lower-case names, every other
      gate by its own name. */
  lemma AliasName(k: Kind)
    ensures IsRotation(k) ==> Alias(Name(k)) == Lower(Name(k))
    ensures !IsRotation(k) ==> Alias(Name(k)) == Name(k)
  {
    if IsRotation(k) {
      assert Name(k) in Mapping;
      assert Lower(Name(k)) == Mapping[Name(k)] by {
        assert Lower(Name(k))[0] == Mapping[Name(k)][0];
        assert Lower(Name(k))[1] == Mapping[Name(k)][1];
      }
    } else {
      assert Name(k) !in Mapping by { Vocabulary(k); }
    }
  }

  // ---------------------------------------------------------------- from the token format

  /** The operation one parsed gate becomes: the aliased gate, called with
      the parameters only when there are any, on the same qubits. */
  function Emit(p: Parsed): Operation
  {
    Apply(Alias(Name(p.kind)), p.params, p.qubits)
  }

  /** The circuit built from parsed gates: one operation per gate, in
      order. */
  function EncodeParsed(gates: seq<Parsed>): (c: Circuit)
    ensures |c.ops| == |gates|
    ensures forall i :: 0 <= i < |gates| ==> c.ops[i] == Emit(gates[i])
  {
    Circuit(seq(|gates|, i requires 0 <= i < |gates| => Emit(gates[i])))
  }

  /** `Cirq.from_qusetta`: the first bad token's error, or the circuit of
      all the parsed gates. */
  function Encode(eval: string -> Option<real>, tokens: seq<string>): (r: Result<Circuit, Error>)
    ensures r.Failure? <==> ParseAll(eval, tokens).Failure?
    ensures r.Failure? ==> r.error == ParseAll(eval, tokens).error
  {
    match ParseAll(eval, tokens)
    case Failure(e) => Failure(e)
    case Success(gates) => Success(EncodeParsed(gates))
  }

  /** `Cirq.from_qusetta` as the source writes it: one loop that parses
      each token and appends the operation. */
  method FromQusetta(eval: string -> Option<real>, circuit: seq<string>) returns (r: Result<Circuit, Error>)
    ensures r == Encode(eval, circuit)
  {
    var ops: seq<Operation> := [];
    ghost var parsed: seq<Parsed> := [];
    var i := 0;
    while i < |circuit|
      invariant 0 <= i <= |circuit|
      invariant ParseAll(eval, circuit[..i]) == Success(parsed)
      invariant |ops| == |parsed| && forall j :: 0 <= j < |parsed| ==> ops[j] == Emit(parsed[j])
    {
      ParseStep(eval, circuit, i, parsed);
      var info := GateInfo(eval, circuit[i]);
      if info.Failure? {
        return Failure(info.error);
      }
      var p := info.value;
      var gate := Alias(Name(p.kind));
      var op := Apply(gate, p.params, p.qubits);
      Added(parsed, ops, p, op);
      ops := ops + [op];
      parsed := parsed + [p];
      i := i + 1;
    }
    assert circuit[..i] == circuit;
    Built(eval, circuit, parsed, ops);
    return Success(Circuit(ops));
  }

  /** Appending the operation of the next parsed gate keeps the operations
      in step with the parsed prefix. */
  lemma Added(parsed: seq<Parsed>, ops: seq<Operation>, p: Parsed, op: Operation)
    requires |ops| == |parsed| && forall j :: 0 <= j < |parsed| ==> ops[j] == Emit(parsed[j])
    requires op == Apply(Alias(Name(p.kind)), p.params, p.qubits)
    ensures |ops + [op]| == |parsed + [p]|
    ensures forall j :: 0 <= j < |parsed + [p]| ==> (ops + [op])[j] == Emit((parsed + [p])[j])
  {
  }

  /** The operations appended for every token make up the specified
      circuit. */
  lemma Built(eval: string -> Option<real>, tokens: seq<string>, parsed: seq<Parsed>, ops: seq<Operation>)
    requires ParseAll(eval, tokens) == Success(parsed)
    requires |ops| == |parsed| && forall j :: 0 <= j < |parsed| ==> ops[j] == Emit(parsed[j])
    ensures Encode(eval, tokens) == Success(Circuit(ops))
  {
    assert Circuit(ops) == EncodeParsed(parsed);
  }

  // ---------------------------------------------------------------- to the token format

  /** How `str(op)` spells the gates the translator creates: `CNOT` for
      `CX`, `TOFFOLI` for `CCX`, `Rx`, `Ry`, `Rz` for the rotations, every
      other gate by its own name. */
  function Spelling(gate: string): string
  {
    if gate == "CX" then "CNOT"
    else if gate == "CCX" then "TOFFOLI"
    else if gate == "rx" then "Rx"
    else if gate == "ry" then "Ry"
    else if gate == "rz" then "Rz"
    else gate
  }

  /** The text cirq prints for each angle. */
  function AngleTexts(rendering: Rendering, params: seq<real>): (r: seq<string>)
    ensures |r| == |params| && forall j :: 0 <= j < |params| ==> r[j] == rendering.angle(params[j])
  {
    seq(|params|, j requires 0 <= j < |params| => rendering.angle(params[j]))
  }

  /** `str(op)` for an operation that is not a measurement: the gate as
      cirq spells it, its angles in parentheses when it has any, then its
      line qubits, `Rx(0.5π)(0)` or `CNOT(0, 1)`. */
  function Shown(rendering: Rendering, op: Operation): string
    requires op.Apply?
  {
    Render(Spelling(op.gate), AngleTexts(rendering, op.params), op.qubits)
  }

  /** What `Π` becomes: `PI` when the gate's exponent is 1 (cirq then
      prints the angle as a bare `π`), a factor `*PI` otherwise. */
  function PiText(exponentIsOne: bool): string
  {
    if exponentIsOne then "PI" else "*PI"
  }

  /** The two renamings: `CNOT` read as `CX`, then `TOFFOLI` as `CCX`. */
  function Renamed(t: string): string
  {
    ReplaceAll(ReplaceAll(t, "CNOT", "CX"), "TOFFOLI", "CCX")
  }

  /** The rewriting of cirq's text for one operation: stripped and
      upper-cased, renamed, and `Π` replaced. */
  function Clean(text: string, exponentIsOne: bool): string
  {
    ReplaceAll(Renamed(Upper(Strip(text))), [CapitalPi], PiText(exponentIsOne))
  }

  /** The token of one operation that is not a measurement. */
  function CleanOp(rendering: Rendering, op: Operation): string
    requires op.Apply?
  {
    Clean(Shown(rendering, op), rendering.exponentIsOne(op))
  }

  /** What the rewriting makes of one angle's text. */
  function CleanAngle(text: string, exponentIsOne: bool): string
  {
    ReplaceAll(Upper(text), [CapitalPi], PiText(exponentIsOne))
  }

  /** The rewritten angle texts of an operation. */
  function CleanAngles(rendering: Rendering, op: Operation): (r: seq<string>)
    requires op.Apply?
    ensures |r| == |op.params|
  {
    seq(|op.params|, j requires 0 <= j < |op.params| =>
      CleanAngle(rendering.angle(op.params[j]), rendering.exponentIsOne(op)))
  }

  /** The operations that are not measurements, in order. */
  function Kept(ops: seq<Operation>): (r: seq<Operation>)
    ensures |r| <= |ops|
    ensures forall i :: 0 <= i < |r| ==> r[i].Apply?
    ensures forall op :: op in r ==> op in ops
    decreases |ops|
  {
    if ops == [] then []
    else
      var front := Kept(ops[..|ops| - 1]);
      if ops[|ops| - 1].Measure? then front else front + [ops[|ops| - 1]]
  }

  /** `Cirq.to_qusetta`: the rewritten text of every operation that is not
      a measurement, in order. */
  function Decode(rendering: Rendering, c: Circuit): (r: seq<string>)
    ensures |r| == |Kept(c.ops)|
    ensures forall i :: 0 <= i < |r| ==> r[i] == CleanOp(rendering, Kept(c.ops)[i])
  {
    var kept := Kept(c.ops);
    seq(|kept|, i requires 0 <= i < |kept| => CleanOp(rendering, kept[i]))
  }

  // ---------------------------------------------------------------- properties

  /** Dropping measurements commutes with joining runs of operations. */
  lemma {:induction false} KeptAppend(a: seq<Operation>, b: seq<Operation>)
    ensures Kept(a + b) == Kept(a) + Kept(b)
    decreases |b|
  {
    if b == [] {
      assert a + b == a;
    } else {
      var m := |b| - 1;
      assert (a + b)[..|a + b| - 1] == a + b[..m];
      KeptAppend(a, b[..m]);
      assert b[..m] + [b[m]] == b;
    }
  }

  /** A measurement gives no token, any other operation exactly one. */
  lemma KeptSingle(op: Operation)
    ensures Kept([op]) == if op.Measure? then [] else [op]
  {
    assert [op][..0] == [];
  }

  /** A run without measurements keeps every operation. */
  lemma {:induction false} KeptAll(ops: seq<Operation>)
    requires forall i :: 0 <= i < |ops| ==> ops[i].Apply?
    ensures Kept(ops) == ops
    decreases |ops|
  {
    if ops != [] {
      var m := |ops| - 1;
      KeptAll(ops[..m]);
      assert ops[..m] + [ops[m]] == ops;
    }
  }

  /** Every character of the rewritten text is its own upper case, so
      upper-casing the token again changes nothing. */
  lemma CleanIsUpper(text: string, exponentIsOne: bool)
    ensures Upper(Clean(text, exponentIsOne)) == Clean(text, exponentIsOne)
  {
    var t := Upper(Strip(text));
    UpperIsUpper(Strip(text));
    var t1 := ReplaceAll(t, "CNOT", "CX");
    assert IsUpper(t1) by { UpperIsUpper("CX"); }
    var t2 := ReplaceAll(t1, "TOFFOLI", "CCX");
    assert IsUpper(t2) by { UpperIsUpper("CCX"); }
    UpperIsUpper(PiText(exponentIsOne));
    UpperIsUpper(Clean(text, exponentIsOne));
  }

  /** The rewritten text holds no `π` and no `Π`. */
  lemma CleanHasNoPi(text: string, exponentIsOne: bool)
    ensures SmallPi !in Clean(text, exponentIsOne) && CapitalPi !in Clean(text, exponentIsOne)
  {
    var t := Upper(Strip(text));
    assert SmallPi !in t;
    var t1 := ReplaceAll(t, "CNOT", "CX");
    var t2 := ReplaceAll(t1, "TOFFOLI", "CCX");
    assert SmallPi !in t2;
  }

  /** Cirq's name for each gate the translator creates is renamed back to
      the gate's name. */
  lemma SpellingRenamed(k: Kind)
    ensures var sp := Spelling(Alias(Name(k)));
      sp != [] && !IsSpace(sp[0]) && Renamed(Upper(sp)) == Name(k)
  {
    AliasName(k);
    if k == CX {
      RenamedCNOT();
    } else if k == CCX {
      RenamedTOFFOLI();
    } else if IsRotation(k) {
      RenamedRotation(k);
    } else {
      RenamedOther(k);
    }
  }

  lemma RenamedCNOT()
    ensures Renamed(Upper("CNOT")) == "CX"
  {
    assert Upper("CNOT") == "CNOT" by { CapitalsUpper("CNOT"); }
    ReplaceLeading("CNOT", "", "CX");
  }

  lemma RenamedTOFFOLI()
    ensures Renamed(Upper("TOFFOLI")) == "CCX"
  {
    assert Upper("TOFFOLI") == "TOFFOLI" by { CapitalsUpper("TOFFOLI"); }
    ReplaceAbsent("TOFFOLI", "CNOT", "CX");
    ReplaceLeading("TOFFOLI", "", "CCX");
  }

  lemma RenamedRotation(k: Kind)
    requires IsRotation(k)
    ensures var sp := Spelling(Lower(Name(k)));
      sp != [] && !IsSpace(sp[0]) && Renamed(Upper(sp)) == Name(k)
  {
    var sp := Spelling(Lower(Name(k)));
    var n := Name(k);
    assert Lower(n)[0] == 'r' && |Lower(n)| == 2;
    assert sp == ['R', Lower(n)[1]];
    assert Upper(sp) == n by {
      assert Upper(sp)[1] == n[1];
    }
  }

  /** The other gates keep their names, which hold neither `CNOT` nor
      `TOFFOLI`. */
  lemma RenamedOther(k: Kind)
    requires !IsRotation(k) && k != CX && k != CCX
    ensures Spelling(Name(k)) == Name(k) && Name(k) != [] && !IsSpace(Name(k)[0])
    ensures Renamed(Upper(Name(k))) == Name(k)
  {
    var n := Name(k);
    assert Upper(n) == n by { NameCapitals(k); CapitalsUpper(n); }
    if k == SWAP {
      ReplaceAbsent(n, "CNOT", "CX");
    } else {
      assert |n| < 4;
    }
  }

  /** Characters cirq may print in an angle: the digits, sign, point and
      exponent of a number, and `π`, each in either case. */
  predicate AngleChar(c: char)
  {
    IsDigit(c) || c == '.' || c == '-' || c == '+' || c == 'e' || c == 'E' || c == SmallPi || c == CapitalPi
  }

  predicate AngleText(s: string)
  {
    forall c :: c in s ==> AngleChar(c)
  }

  /** Upper-casing an angle's text keeps it an angle's text. */
  lemma UpperAngle(s: string)
    requires AngleText(s)
    ensures AngleText(Upper(s))
  {
    forall c | c in Upper(s) ensures AngleChar(c) {
      var i :| 0 <= i < |Upper(s)| && Upper(s)[i] == c;
      assert s[i] in s;
    }
  }

  /** A rewritten angle holds no delimiter of the token format. */
  lemma CleanAngleAvoids(s: string, exponentIsOne: bool)
    requires AngleText(s)
    ensures NoDelimiters(CleanAngle(s, exponentIsOne))
  {
    UpperAngle(s);
  }

  /** The qubit group `(q0, q1, ...)` is left alone by every step of the
      rewriting. */
  lemma QubitGroupInert(qubits: seq<int>)
    ensures var q := QubitGroup(qubits);
      && q[0] == '(' && Upper(q) == q && 'C' !in q && 'T' !in q && CapitalPi !in q
  {
    var texts := IntStrs(qubits);
    var q := "(" + Join(", ", texts) + ")";
    JoinChars(", ", texts);
    forall c | c in q ensures c == '(' || c == ')' || c == ',' || c == ' ' || c == '-' || IsDigit(c) {
      if c in Join(", ", texts) && c !in ", " {
        var i :| 0 <= i < |texts| && c in texts[i];
        var n := qubits[i];
        assert texts[i] == IntStr(n);
        assert forall d :: d in NatStr(if n < 0 then -n else n) ==> IsDigit(d);
      }
    }
    assert IsUpper(q);
    UpperIsUpper(q);
  }

  /** Upper-casing an angle group `(a0, a1, ...)` gives the group of the
      upper-cased angles. */
  lemma AngleGroupUpper(texts: seq<string>)
    ensures Upper("(" + Join(", ", texts) + ")") == "(" + Join(", ", UpperEach(texts)) + ")"
  {
    UpperJoin(", ", texts);
    UpperAppend("(" + Join(", ", texts), ")");
    UpperAppend("(", Join(", ", texts));
  }

  /** The upper-cased angles, and the separators between them, hold no `C`
      and no `T`. */
  lemma UpperAnglesAvoid(texts: seq<string>)
    requires forall j :: 0 <= j < |texts| ==> AngleText(texts[j])
    ensures 'C' !in Join(", ", UpperEach(texts)) && 'T' !in Join(", ", UpperEach(texts))
  {
    var ups := UpperEach(texts);
    JoinChars(", ", ups);
    forall c | c in Join(", ", ups) ensures c != 'C' && c != 'T' {
      if c !in ", " {
        var j :| 0 <= j < |ups| && c in ups[j];
        UpperAngle(texts[j]);
      }
    }
  }

  /** Replacing `Π` in a group replaces it in each of its texts. */
  lemma GroupReplace(parts: seq<string>, rep: string)
    ensures ReplaceAll("(" + Join(", ", parts) + ")", [CapitalPi], rep)
      == "(" + Join(", ", ReplaceEach(parts, CapitalPi, rep)) + ")"
  {
    ReplaceConcat("(" + Join(", ", parts), ")", [CapitalPi], rep);
    ReplaceConcat("(", Join(", ", parts), [CapitalPi], rep);
    ReplaceAbsent("(", [CapitalPi], rep);
    ReplaceAbsent(")", [CapitalPi], rep);
    ReplaceJoin(", ", parts, CapitalPi, rep);
  }

  /** An angle group, upper-cased, holds no `C` and no `T`, and replacing
      `Π` in it gives the group of the rewritten angles. */
  lemma AngleGroupClean(texts: seq<string>, exponentIsOne: bool)
    requires forall j :: 0 <= j < |texts| ==> AngleText(texts[j])
    ensures var a := Upper("(" + Join(", ", texts) + ")");
      && a[0] == '(' && 'C' !in a && 'T' !in a
      && ReplaceAll(a, [CapitalPi], PiText(exponentIsOne))
        == "(" + Join(", ", ReplaceEach(UpperEach(texts), CapitalPi, PiText(exponentIsOne))) + ")"
  {
    var a := Upper("(" + Join(", ", texts) + ")");
    assert a == "(" + Join(", ", UpperEach(texts)) + ")" by { AngleGroupUpper(texts); }
    UpperAnglesAvoid(texts);
    Enclosed(a, Join(", ", UpperEach(texts)));
    GroupReplace(UpperEach(texts), PiText(exponentIsOne));
  }

  /** A group in parentheses starts with `(`, and holds `C` or `T` only
      where its contents do. */
  lemma Enclosed(g: string, inside: string)
    requires g == "(" + inside + ")" && 'C' !in inside && 'T' !in inside
    ensures g[0] == '(' && 'C' !in g && 'T' !in g
  {
  }

  /** An optional group followed by a group that starts with `(` starts
      with `(`, and holds `C` or `T` only where they do. */
  lemma Groups(a: string, q: string)
    requires a == [] || (a[0] == '(' && 'C' !in a && 'T' !in a)
    requires q != [] && q[0] == '(' && 'C' !in q && 'T' !in q
    ensures a + q != [] && (a + q)[0] == '(' && 'C' !in a + q && 'T' !in a + q
  {
  }

  /** The renamings leave alone a tail that starts with `(` and holds no
      `C` and no `T`. */
  lemma RenamedConcat(n: string, b: string)
    requires b != [] && b[0] == '(' && 'C' !in b && 'T' !in b
    ensures Renamed(n + b) == Renamed(n) + b
  {
    ReplaceConcat(n, b, "CNOT", "CX");
    ReplaceAbsent(b, "CNOT", "CX");
    var n1 := ReplaceAll(n, "CNOT", "CX");
    ReplaceConcat(n1, b, "TOFFOLI", "CCX");
    ReplaceAbsent(b, "TOFFOLI", "CCX");
  }

  /** The parameter group of a token: `(a0, a1, ...)`, or nothing when
      there are no parameters. */
  function OptGroup(texts: seq<string>): string
  {
    if texts == [] then "" else "(" + Join(", ", texts) + ")"
  }

  /** The qubit group of a token, `(q0, q1, ...)`. */
  function QubitGroup(qubits: seq<int>): string
  {
    "(" + Join(", ", IntStrs(qubits)) + ")"
  }

  /** A rendered token is its name followed by its groups. */
  lemma RenderShape(name: string, texts: seq<string>, qubits: seq<int>)
    ensures Render(name, texts, qubits) == name + (OptGroup(texts) + QubitGroup(qubits))
  {
  }

  /** cirq's text for the operation of a parsed gate, stripped and
      upper-cased: the upper-cased spelling, then the upper-cased angle
      group, then the qubit group unchanged. */
  lemma ShownUpper(rendering: Rendering, p: Parsed)
    ensures var sp := Spelling(Alias(Name(p.kind)));
      Upper(Strip(Shown(rendering, Emit(p))))
        == Upper(sp) + (Upper(OptGroup(AngleTexts(rendering, p.params))) + QubitGroup(p.qubits))
  {
    var sp := Spelling(Alias(Name(p.kind)));
    var a := OptGroup(AngleTexts(rendering, p.params));
    var q := QubitGroup(p.qubits);
    var text := Shown(rendering, Emit(p));
    SpellingRenamed(p.kind);
    QubitGroupInert(p.qubits);
    assert text == sp + (a + q) by {
      RenderShape(sp, AngleTexts(rendering, p.params), p.qubits);
    }
    assert Strip(text) == text by {
      StripUnpadded(text);
    }
    UpperStep(sp, a, q);
  }

  /** The angle group, upper-cased, starts with `(` and holds no `C` and no
      `T`; replacing `Π` in it gives the group of the rewritten angles. */
  lemma OptGroupClean(texts: seq<string>, exponentIsOne: bool)
    requires forall j :: 0 <= j < |texts| ==> AngleText(texts[j])
    ensures var ua := Upper(OptGroup(texts));
      && (ua == [] || (ua[0] == '(' && 'C' !in ua && 'T' !in ua))
      && ReplaceAll(ua, [CapitalPi], PiText(exponentIsOne))
        == OptGroup(ReplaceEach(UpperEach(texts), CapitalPi, PiText(exponentIsOne)))
  {
    if texts != [] {
      AngleGroupClean(texts, exponentIsOne);
    }
  }

  /** The three replacements over a spelling that renames to `name`, an
      optional group and the qubit group. */
  lemma RewriteParts(sp: string, name: string, ua: string, q: string, cleaned: string, rep: string)
    requires Renamed(Upper(sp)) == name && CapitalPi !in name
    requires ua == [] || (ua[0] == '(' && 'C' !in ua && 'T' !in ua)
    requires q != [] && q[0] == '(' && 'C' !in q && 'T' !in q && CapitalPi !in q
    requires ReplaceAll(ua, [CapitalPi], rep) == cleaned
    ensures ReplaceAll(Renamed(Upper(sp) + (ua + q)), [CapitalPi], rep) == name + (cleaned + q)
  {
    Groups(ua, q);
    RenamedConcat(Upper(sp), ua + q);
    PiStep(name, ua, q, cleaned, rep);
  }

  /** The rewriting turns cirq's text for the operation of a parsed gate
      into that gate's token, its angles written as cirq prints them with
      `Π` replaced. */
  lemma EmitPrints(rendering: Rendering, p: Parsed)
    requires forall j :: 0 <= j < |p.params| ==> AngleText(rendering.angle(p.params[j]))
    ensures CleanOp(rendering, Emit(p)) == Render(Name(p.kind), CleanAngles(rendering, Emit(p)), p.qubits)
  {
    var op := Emit(p);
    var e := rendering.exponentIsOne(op);
    var sp := Spelling(Alias(Name(p.kind)));
    var texts := AngleTexts(rendering, p.params);
    var ua := Upper(OptGroup(texts));
    var q := QubitGroup(p.qubits);
    var angles := CleanAngles(rendering, op);
    assert Upper(Strip(Shown(rendering, op))) == Upper(sp) + (ua + q) by {
      ShownUpper(rendering, p);
    }
    assert ReplaceAll(ua, [CapitalPi], PiText(e)) == OptGroup(angles) && (ua == [] || (ua[0] == '(' && 'C' !in ua && 'T' !in ua)) by {
      OptGroupClean(texts, e);
      assert ReplaceEach(UpperEach(texts), CapitalPi, PiText(e)) == angles;
    }
    assert q != [] && q[0] == '(' && 'C' !in q && 'T' !in q && CapitalPi !in q by {
      QubitGroupInert(p.qubits);
    }
    assert Renamed(Upper(sp)) == Name(p.kind) && CapitalPi !in Name(p.kind) by {
      SpellingRenamed(p.kind);
      NameCapitals(p.kind);
    }
    RewriteParts(sp, Name(p.kind), ua, q, OptGroup(angles), PiText(e));
    RenderShape(Name(p.kind), angles, p.qubits);
  }

  /** Upper-casing a name, a group and an upper-case tail. */
  lemma UpperStep(sp: string, a: string, q: string)
    requires Upper(q) == q
    ensures Upper(sp + (a + q)) == Upper(sp) + (Upper(a) + q)
  {
    UpperAppend(sp, a + q);
    UpperAppend(a, q);
  }

  /** Replacing `Π` in a name and a tail that hold none touches only the
      group between them. */
  lemma PiStep(name: string, ua: string, q: string, cleaned: string, rep: string)
    requires CapitalPi !in name && CapitalPi !in q
    requires ReplaceAll(ua, [CapitalPi], rep) == cleaned
    ensures ReplaceAll(name + (ua + q), [CapitalPi], rep) == name + (cleaned + q)
  {
    ReplaceConcat(name, ua + q, [CapitalPi], rep);
    ReplaceConcat(ua, q, [CapitalPi], rep);
    ReplaceAbsent(name, [CapitalPi], rep);
    ReplaceAbsent(q, [CapitalPi], rep);
  }

  /** cirq shows `CX` on any qubits as `CNOT(q0, q1, ...)`, which the
      rewriting turns back into `CX(q0, q1, ...)`. */
  lemma CnotExample(rendering: Rendering, p: Parsed)
    requires p.kind == CX && p.params == []
    ensures Shown(rendering, Emit(p)) == Render("CNOT", [], p.qubits)
    ensures CleanOp(rendering, Emit(p)) == Render("CX", [], p.qubits)
  {
    AliasName(CX);
    EmitPrints(rendering, p);
  }

  /** A rotation whose angle cirq prints as `0.5π`, with an exponent other
      than 1, is rewritten to `RX(0.5*PI)(q0, ...)` (and likewise for `RY`
      and `RZ`). */
  lemma RotationExample(rendering: Rendering, p: Parsed)
    requires IsRotation(p.kind) && |p.params| == 1
    requires rendering.angle(p.params[0]) == "0.5" + [SmallPi]
    requires !rendering.exponentIsOne(Emit(p))
    ensures CleanOp(rendering, Emit(p)) == Render(Name(p.kind), ["0.5*PI"], p.qubits)
  {
    var t := rendering.angle(p.params[0]);
    assert AngleText(t);
    EmitPrints(rendering, p);
    HalfPi(t);
  }

  lemma HalfPi(t: string)
    requires t == "0.5" + [SmallPi]
    ensures CleanAngle(t, false) == "0.5*PI"
  {
    assert Upper(t) == "0.5" + [CapitalPi];
    ReplaceAbsent("0.5", [CapitalPi], "*PI");
    ReplaceConcat("0.5", [CapitalPi], [CapitalPi], "*PI");
    ReplaceLeading([CapitalPi], "", "*PI");
  }

  /** cirq prints the angle `x` of `op` as the text of a number, and the
      host reads the rewritten text back as `x`, also after the blank of a
      `", "` separator. */
  predicate AngleReadsBack(eval: string -> Option<real>, rendering: Rendering, op: Operation, x: real)
  {
    var t := CleanAngle(rendering.angle(x), rendering.exponentIsOne(op));
    AngleText(rendering.angle(x)) && eval(t) == Some(x) && eval(" " + t) == Some(x)
  }

  /** Every angle of the given gates reads back through cirq's text. */
  predicate FaithfulOn(eval: string -> Option<real>, rendering: Rendering, gates: seq<Parsed>)
  {
    forall i, j :: 0 <= i < |gates| && 0 <= j < |gates[i].params| ==>
      AngleReadsBack(eval, rendering, Emit(gates[i]), gates[i].params[j])
  }

  /** The token cirq's text rewrites to parses back to the gate, when its
      angles read back. */
  lemma EmitParses(eval: string -> Option<real>, rendering: Rendering, p: Parsed)
    requires WellFormed(p)
    requires forall j :: 0 <= j < |p.params| ==> AngleReadsBack(eval, rendering, Emit(p), p.params[j])
    ensures GateInfo(eval, CleanOp(rendering, Emit(p))) == Success(p)
  {
    var op := Emit(p);
    var texts := CleanAngles(rendering, op);
    assert forall j :: 0 <= j < |p.params| ==> AngleText(rendering.angle(p.params[j])) by {
      forall j | 0 <= j < |p.params| ensures AngleText(rendering.angle(p.params[j])) {
        assert AngleReadsBack(eval, rendering, op, p.params[j]);
      }
    }
    EmitPrints(rendering, p);
    forall j | 0 <= j < |texts| ensures NoDelimiters(texts[j]) && eval(" " + texts[j]) == Some(p.params[j]) {
      assert AngleReadsBack(eval, rendering, op, p.params[j]);
      CleanAngleAvoids(rendering.angle(p.params[j]), rendering.exponentIsOne(op));
    }
    if |texts| >= 1 {
      assert AngleReadsBack(eval, rendering, op, p.params[0]);
    }
    assert ReadsAs(eval, texts, p.params);
    RenderParses(eval, p.kind, texts, p.params, p.qubits);
  }

  /** Printing the circuit that gates were encoded to gives one rewritten
      text per gate, in order: no operation of it is a measurement. */
  lemma DecodeEncoded(rendering: Rendering, gates: seq<Parsed>)
    ensures var out := Decode(rendering, EncodeParsed(gates));
      |out| == |gates| && forall i :: 0 <= i < |gates| ==> out[i] == CleanOp(rendering, Emit(gates[i]))
  {
    KeptAll(EncodeParsed(gates).ops);
  }

  /** Those texts are exactly the gates' tokens, their angles written as
      cirq prints them. */
  lemma DecodeTokens(rendering: Rendering, gates: seq<Parsed>)
    requires forall i, j :: 0 <= i < |gates| && 0 <= j < |gates[i].params| ==> AngleText(rendering.angle(gates[i].params[j]))
    ensures var out := Decode(rendering, EncodeParsed(gates));
      |out| == |gates| &&
      forall i :: 0 <= i < |gates| ==> out[i] == Render(Name(gates[i].kind), CleanAngles(rendering, Emit(gates[i])), gates[i].qubits)
  {
    DecodeEncoded(rendering, gates);
    forall i | 0 <= i < |gates|
      ensures CleanOp(rendering, Emit(gates[i])) == Render(Name(gates[i].kind), CleanAngles(rendering, Emit(gates[i])), gates[i].qubits)
    {
      EmitPrints(rendering, gates[i]);
    }
  }

  /** Printing the circuit encoded from well-formed gates whose angles
      read back gives tokens that parse to those gates. */
  lemma DecodeParses(eval: string -> Option<real>, rendering: Rendering, gates: seq<Parsed>)
    requires FaithfulOn(eval, rendering, gates)
    requires forall i :: 0 <= i < |gates| ==> WellFormed(gates[i])
    ensures ParseAll(eval, Decode(rendering, EncodeParsed(gates))) == Success(gates)
  {
    var out := Decode(rendering, EncodeParsed(gates));
    DecodeEncoded(rendering, gates);
    forall i | 0 <= i < |gates| ensures GateInfo(eval, out[i]) == Success(gates[i]) {
      assert forall j :: 0 <= j < |gates[i].params| ==> AngleReadsBack(eval, rendering, Emit(gates[i]), gates[i].params[j]);
      EmitParses(eval, rendering, gates[i]);
    }
    ParseAllSucceeds(eval, out, gates);
  }

  /** Translating a circuit to cirq and back gives tokens that parse to the
      same gates, when the gates' angles read back through cirq's text. */
  lemma RoundTrip(eval: string -> Option<real>, rendering: Rendering, tokens: seq<string>)
    requires ParseAll(eval, tokens).Success?
    requires FaithfulOn(eval, rendering, ParseAll(eval, tokens).value)
    ensures Encode(eval, tokens).Success?
    ensures ParseAll(eval, Decode(rendering, Encode(eval, tokens).value)) == ParseAll(eval, tokens)
  {
    var gates := ParseAll(eval, tokens).value;
    ParseAllWellFormed(eval, tokens);
    assert Encode(eval, tokens) == Success(EncodeParsed(gates));
    DecodeParses(eval, rendering, gates);
  }

  /** A circuit of parameter-free gates comes back from cirq whatever the
      angle printing. */
  lemma PlainRoundTrip(eval: string -> Option<real>, rendering: Rendering, tokens: seq<string>)
    requires ParseAll(eval, tokens).Success?
    requires forall i :: 0 <= i < |tokens| ==> !IsRotation(ParseAll(eval, tokens).value[i].kind)
    ensures ParseAll(eval, Decode(rendering, Encode(eval, tokens).value)) == ParseAll(eval, tokens)
  {
    ParseAllWellFormed(eval, tokens);
    RoundTrip(eval, rendering, tokens);
  }

  /** A rendering that prints whole numbers with `str(int)`, read by a host
      that reads integers, reads back every whole-number angle. */
  lemma WholeAnglesReadBack(op: Operation, x: real)
    requires x.Floor as real == x
    ensures AngleReadsBack(WholeNumbers().eval, Rendering(WholeNumbers().str, o => false), op, x)
  {
    var t := IntStr(x.Floor);
    WholeNumbersReadBack(x);
    var n := x.Floor;
    assert forall d :: d in NatStr(if n < 0 then -n else n) ==> IsDigit(d);
    assert AngleText(t);
    assert IsUpper(t);
    UpperIsUpper(t);
    ReplaceAbsent(t, [CapitalPi], "*PI");
  }
}

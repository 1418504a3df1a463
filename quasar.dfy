/** Translating circuits to and from quasar (`qusetta/_quasar.py`).
    quasar numbers qubits as the token format does and measures angles in
    half the token format's units, so translating halves or doubles every
    parameter and leaves the qubits alone. */
module Quasar {
  import opened Wrappers
  import opened Text
  import opened Gates

  /** One gate of a quasar circuit: the name of the method that added it,
      its parameters in order, and its qubits. */
  datatype Gate = Gate(name: string, params: seq<real>, qubits: seq<int>)

  /** A quasar circuit: its gates in time order. */
  datatype Circuit = Circuit(gates: seq<Gate>)

  /** `MAPPING`: quasar spells the rotations with a lower-case second
      letter. */
  const Mapping: map<string, string> := map["RX" := "Rx", "RY" := "Ry", "RZ" := "Rz"]

  /** `MAPPING.get(g, g)` */
  function Alias(g: string): string
  {
    if g in Mapping then Mapping[g] else g
  }

  /** Each gate name's quasar method upper-cases back to that name; only
      the rotations are renamed. */
  lemma AliasUpper(k: Kind)
    ensures Upper(Alias(Name(k))) == Name(k)
    ensures Alias(Name(k)) == Name(k) <==> !IsRotation(k)
  {
    match k
    case RX =>
      assert Alias("RX") == "Rx";
      assert Upper("Rx") == "RX" by { assert Upper("Rx")[1] == 'X'; }
    case RY =>
      assert Alias("RY") == "Ry";
      assert Upper("Ry") == "RY" by { assert Upper("Ry")[1] == 'Y'; }
    case RZ =>
      assert Alias("RZ") == "Rz";
      assert Upper("Rz") == "RZ" by { assert Upper("Rz")[1] == 'Z'; }
    case I => AliasOther(k);
    case H => AliasOther(k);
    case X => AliasOther(k);
    case Y => AliasOther(k);
    case Z => AliasOther(k);
    case S => AliasOther(k);
    case T => AliasOther(k);
    case CX => AliasOther(k);
    case CZ => AliasOther(k);
    case SWAP => AliasOther(k);
    case CCX => AliasOther(k);
  }

  lemma AliasOther(k: Kind)
    requires !IsRotation(k)
    ensures Alias(Name(k)) == Name(k) && Upper(Name(k)) == Name(k)
  {
    assert Name(k) !in Mapping by { Vocabulary(k); }
    NameCapitals(k);
    CapitalsUpper(Name(k));
  }

  // ---------------------------------------------------------------- angles

  /** `tuple(x / 2 for x in params)`: each angle is half the given one. */
  function Halve(params: seq<real>): (r: seq<real>)
    ensures |r| == |params|
    ensures forall i :: 0 <= i < |r| ==> 2.0 * r[i] == params[i]
  {
    seq(|params|, i requires 0 <= i < |params| => params[i] / 2.0)
  }

  /** `x * 2` for each stored parameter. */
  function Double(params: seq<real>): (r: seq<real>)
    ensures |r| == |params|
    ensures forall i :: 0 <= i < |r| ==> r[i] / 2.0 == params[i]
  {
    seq(|params|, i requires 0 <= i < |params| => params[i] * 2.0)
  }

  /** Halving then doubling gives every angle back exactly, and so does
      doubling then halving. */
  lemma HalveDouble(params: seq<real>)
    ensures Double(Halve(params)) == params
    ensures Halve(Double(params)) == params
  {
    var h, d := Halve(params), Double(params);
    forall i | 0 <= i < |params| ensures Double(h)[i] == params[i] {
      assert 2.0 * h[i] == params[i];
    }
    forall i | 0 <= i < |params| ensures Halve(d)[i] == params[i] {
      assert d[i] / 2.0 == params[i];
    }
  }

  // ---------------------------------------------------------------- from the token format

  /** The quasar gate one parsed gate becomes: the aliased method name,
      the halved angles, the same qubits. */
  function Emit(p: Parsed): Gate
  {
    Gate(Alias(Name(p.kind)), Halve(p.params), p.qubits)
  }

  /** The circuit built from parsed gates: one quasar gate per gate, in
      order. */
  function EncodeParsed(gates: seq<Parsed>): (c: Circuit)
    ensures |c.gates| == |gates|
    ensures forall i :: 0 <= i < |gates| ==> c.gates[i] == Emit(gates[i])
  {
    Circuit(seq(|gates|, i requires 0 <= i < |gates| => Emit(gates[i])))
  }

  /** `Quasar.from_qusetta`: the first bad token's error, or the circuit of
      all the parsed gates. */
  function Encode(eval: string -> Option<real>, tokens: seq<string>): (r: Result<Circuit, Error>)
    ensures r.Failure? <==> ParseAll(eval, tokens).Failure?
    ensures r.Failure? ==> r.error == ParseAll(eval, tokens).error
  {
    match ParseAll(eval, tokens)
    case Failure(e) => Failure(e)
    case Success(gates) => Success(EncodeParsed(gates))
  }

  /** `Quasar.from_qusetta` as the source writes it: one loop that parses
      each token and adds the aliased gate with its qubits and halved
      angles. */
  method FromQusetta(eval: string -> Option<real>, circuit: seq<string>) returns (r: Result<Circuit, Error>)
    ensures r == Encode(eval, circuit)
  {
    var gates: seq<Gate> := [];
    ghost var parsed: seq<Parsed> := [];
    var i := 0;
    while i < |circuit|
      invariant 0 <= i <= |circuit|
      invariant ParseAll(eval, circuit[..i]) == Success(parsed)
      invariant |gates| == |parsed| && forall j :: 0 <= j < |parsed| ==> gates[j] == Emit(parsed[j])
    {
      ParseStep(eval, circuit, i, parsed);
      var info := GateInfo(eval, circuit[i]);
      if info.Failure? {
        return Failure(info.error);
      }
      var p := info.value;
      var gate := Gate(Alias(Name(p.kind)), Halve(p.params), p.qubits);
      Added(parsed, gates, p, gate);
      gates := gates + [gate];
      parsed := parsed + [p];
      i := i + 1;
    }
    assert circuit[..i] == circuit;
    Built(eval, circuit, parsed, gates);
    return Success(Circuit(gates));
  }

  /** Adding the gate of the next parsed gate keeps the gates in step
      with the parsed prefix. */
  lemma Added(parsed: seq<Parsed>, gates: seq<Gate>, p: Parsed, gate: Gate)
    requires |gates| == |parsed| && forall j :: 0 <= j < |parsed| ==> gates[j] == Emit(parsed[j])
    requires gate == Gate(Alias(Name(p.kind)), Halve(p.params), p.qubits)
    ensures |gates + [gate]| == |parsed + [p]|
    ensures forall j :: 0 <= j < |parsed + [p]| ==> (gates + [gate])[j] == Emit((parsed + [p])[j])
  {
  }

  /** The gates added for every token make up the specified circuit. */
  lemma Built(eval: string -> Option<real>, tokens: seq<string>, parsed: seq<Parsed>, gates: seq<Gate>)
    requires ParseAll(eval, tokens) == Success(parsed)
    requires |gates| == |parsed| && forall j :: 0 <= j < |parsed| ==> gates[j] == Emit(parsed[j])
    ensures Encode(eval, tokens) == Success(Circuit(gates))
  {
    assert Circuit(gates) == EncodeParsed(parsed);
  }

  // ---------------------------------------------------------------- to the token format

  /** The token of one stored gate: the upper-cased name, a group of the
      doubled angles printed with `str` when there are any, then the qubits
      as stored. */
  function DecodeGate(str: real -> string, g: Gate): (t: string)
    ensures t == Render(Upper(g.name), ParamTexts(str, Double(g.params)), g.qubits)
  {
    var name := Upper(g.name);
    var withParams := if g.params == [] then name else name + "(" + Join(", ", ParamTexts(str, Double(g.params))) + ")";
    withParams + "(" + Join(", ", IntStrs(g.qubits)) + ")"
  }

  /** `Quasar.to_qusetta`: one token per stored gate, in order. */
  function Decode(str: real -> string, c: Circuit): (r: seq<string>)
    ensures |r| == |c.gates|
    ensures forall i :: 0 <= i < |r| ==> r[i] == DecodeGate(str, c.gates[i])
  {
    seq(|c.gates|, i requires 0 <= i < |c.gates| => DecodeGate(str, c.gates[i]))
  }

  /** `Quasar.to_qusetta` as the source writes it: one loop that prints
      each gate and appends its token. */
  method ToQusetta(str: real -> string, c: Circuit) returns (tokens: seq<string>)
    ensures tokens == Decode(str, c)
  {
    tokens := [];
    var i := 0;
    while i < |c.gates|
      invariant 0 <= i <= |c.gates| && |tokens| == i
      invariant forall j :: 0 <= j < i ==> tokens[j] == DecodeGate(str, c.gates[j])
    {
      tokens := tokens + [DecodeGate(str, c.gates[i])];
      i := i + 1;
    }
  }

  // ---------------------------------------------------------------- properties

  /** A gate that was encoded prints as its own token: the alias
      upper-cases back to the name and the doubled angles are the parsed
      ones. */
  lemma DecodeEmitted(str: real -> string, p: Parsed)
    ensures DecodeGate(str, Emit(p)) == Token(str, p)
  {
    AliasUpper(p.kind);
    HalveDouble(p.params);
  }

  /** Printing the circuit that gates were encoded to gives the gates'
      tokens, one each and in order, with the qubits as they were. */
  lemma DecodeEncoded(str: real -> string, gates: seq<Parsed>)
    ensures Decode(str, EncodeParsed(gates)) == Tokens(str, gates)
  {
    var c := EncodeParsed(gates);
    forall i | 0 <= i < |gates| ensures Decode(str, c)[i] == Tokens(str, gates)[i] {
      DecodeEmitted(str, gates[i]);
    }
  }

  /** Translating a circuit to quasar and back gives tokens that parse to
      the same gates, when the host prints numbers so that they read back
      as themselves. */
  lemma RoundTrip(nums: Numerals, tokens: seq<string>)
    requires ParseAll(nums.eval, tokens).Success?
    requires FaithfulOn(nums, ParseAll(nums.eval, tokens).value)
    ensures Encode(nums.eval, tokens).Success?
    ensures ParseAll(nums.eval, Decode(nums.str, Encode(nums.eval, tokens).value)) == ParseAll(nums.eval, tokens)
  {
    var gates := ParseAll(nums.eval, tokens).value;
    ParseAllWellFormed(nums.eval, tokens);
    assert Encode(nums.eval, tokens) == Success(EncodeParsed(gates));
    DecodeEncoded(nums.str, gates);
    TokensParse(nums, gates);
  }

  /** A quasar circuit made of vocabulary gates survives the trip through
      the token format unchanged. */
  lemma NativeRoundTrip(nums: Numerals, gates: seq<Parsed>)
    requires FaithfulOn(nums, gates)
    requires forall i :: 0 <= i < |gates| ==> WellFormed(gates[i])
    ensures Encode(nums.eval, Decode(nums.str, EncodeParsed(gates))) == Success(EncodeParsed(gates))
  {
    DecodeEncoded(nums.str, gates);
    TokensParse(nums, gates);
  }

  /** `Rx(0, theta=1/4)` prints as `RX(0.5)(0)` when `str(0.5)` is
      `0.5`. */
  lemma DecodeExample(str: real -> string)
    requires str(0.5) == "0.5"
    ensures DecodeGate(str, Gate("Rx", [0.25], [0])) == "RX(0.5)(0)"
  {
    assert Upper("Rx") == "RX" by { assert Upper("Rx")[1] == 'X'; }
    assert ParamTexts(str, Double([0.25])) == ["0.5"] by { assert Double([0.25])[0] == 0.5; }
    assert IntStrs([0]) == ["0"] by { assert IntStr(0) == "0"; }
  }
}

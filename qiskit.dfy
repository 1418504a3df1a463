/** Translating circuits to and from qiskit (`qusetta/_qiskit.py`).
    qiskit numbers qubits in the opposite order to the token format, so
    both directions mirror every qubit index. */
module Qiskit {
  import opened Wrappers
  import opened Text
  import opened Gates

  /** One entry of a qiskit circuit's data: the instruction's name, its
      parameters and the indices of the qubits it acts on. */
  datatype Instruction = Instruction(name: string, params: seq<real>, qubits: seq<int>)

  /** A qiskit circuit: its register size and its instructions in order. */
  datatype Circuit = Circuit(numQubits: int, data: seq<Instruction>)

  // ---------------------------------------------------------------- qubit order

  /** `tuple(n - q for q in qubits)`: each index paired with its mirror
      image, the two summing to `n`. */
  function Mirror(n: int, qubits: seq<int>): (r: seq<int>)
    ensures |r| == |qubits|
    ensures forall i :: 0 <= i < |r| ==> qubits[i] + r[i] == n
  {
    seq(|qubits|, i requires 0 <= i < |qubits| => n - qubits[i])
  }

  /** Mirroring twice about the same point gives the qubits back. */
  lemma MirrorInvolution(n: int, qubits: seq<int>)
    ensures Mirror(n, Mirror(n, qubits)) == qubits
  {
  }

  /** Indices in `0..n` stay in `0..n`. */
  lemma MirrorInRange(n: int, qubits: seq<int>)
    requires forall i :: 0 <= i < |qubits| ==> 0 <= qubits[i] <= n
    ensures forall i :: 0 <= i < |qubits| ==> 0 <= Mirror(n, qubits)[i] <= n
  {
  }

  /** `max(qubits)` */
  function MaxOf(qubits: seq<int>): (r: int)
    requires |qubits| >= 1
    ensures exists i :: 0 <= i < |qubits| && qubits[i] == r
    ensures forall i :: 0 <= i < |qubits| ==> qubits[i] <= r
  {
    if |qubits| == 1 then qubits[0]
    else
      var m := MaxOf(qubits[..|qubits| - 1]);
      assert forall i :: 0 <= i < |qubits| - 1 ==> qubits[..|qubits| - 1][i] == qubits[i];
      if qubits[|qubits| - 1] > m then qubits[|qubits| - 1] else m
  }

  function Max(a: int, b: int): int
  {
    if a >= b then a else b
  }

  /** The running `n = max(max(qubits), n)` of `from_qusetta`, from -1:
      at least every qubit of every gate, and either -1 or one of them. */
  function MaxQubit(gates: seq<Parsed>): (n: int)
    requires forall i :: 0 <= i < |gates| ==> |gates[i].qubits| >= 1
    ensures n >= -1
    ensures forall i, j :: 0 <= i < |gates| && 0 <= j < |gates[i].qubits| ==> gates[i].qubits[j] <= n
    ensures n == -1 || exists i, j :: 0 <= i < |gates| && 0 <= j < |gates[i].qubits| && gates[i].qubits[j] == n
  {
    if gates == [] then -1
    else
      var front := gates[..|gates| - 1];
      assert forall i :: 0 <= i < |front| ==> front[i] == gates[i];
      Max(MaxOf(gates[|gates| - 1].qubits), MaxQubit(front))
  }

  // ---------------------------------------------------------------- from the token format

  /** The name qiskit records for the instruction that the lower-cased
      method appends: `circuit.i` records `id`, every other method its own
      name. */
  function InstructionName(k: Kind): string
  {
    if k == I then "id" else Lower(Name(k))
  }

  /** The instruction one parsed gate becomes in a circuit whose largest
      qubit is `n`: parameters first, then the mirrored qubits. */
  function Emit(n: int, p: Parsed): Instruction
  {
    Instruction(InstructionName(p.kind), p.params, Mirror(n, p.qubits))
  }

  /** The circuit `from_qusetta` builds from parsed gates: one more qubit
      than the largest index, and one instruction per gate, in order. */
  function EncodeParsed(gates: seq<Parsed>): (c: Circuit)
    requires forall i :: 0 <= i < |gates| ==> |gates[i].qubits| >= 1
    ensures c.numQubits == MaxQubit(gates) + 1
    ensures |c.data| == |gates|
    ensures forall i :: 0 <= i < |gates| ==> c.data[i] == Emit(MaxQubit(gates), gates[i])
  {
    var n := MaxQubit(gates);
    Circuit(n + 1, seq(|gates|, i requires 0 <= i < |gates| => Emit(n, gates[i])))
  }

  /** `Qiskit.from_qusetta`: the first bad token's error, or the circuit
      built from all the parsed gates. */
  function Encode(eval: string -> Option<real>, tokens: seq<string>): (r: Result<Circuit, Error>)
    ensures r.Failure? <==> ParseAll(eval, tokens).Failure?
    ensures r.Failure? ==> r.error == ParseAll(eval, tokens).error
  {
    match ParseAll(eval, tokens)
    case Failure(e) => Failure(e)
    case Success(gates) =>
      ParseAllWellFormed(eval, tokens);
      Success(EncodeParsed(gates))
  }

  /** `Qiskit.from_qusetta` as the source writes it: a first loop parses
      each token and keeps the running maximum qubit, a second appends one
      instruction per gate with its qubits mirrored. */
  method FromQusetta(eval: string -> Option<real>, circuit: seq<string>) returns (r: Result<Circuit, Error>)
    ensures r == Encode(eval, circuit)
  {
    var n := -1;
    var parsed: seq<Parsed> := [];
    var i := 0;
    while i < |circuit|
      invariant 0 <= i <= |circuit|
      invariant ParseAll(eval, circuit[..i]) == Success(parsed)
      invariant forall j :: 0 <= j < |parsed| ==> |parsed[j].qubits| >= 1
      invariant n == MaxQubit(parsed)
    {
      ParseStep(eval, circuit, i, parsed);
      var info := GateInfo(eval, circuit[i]);
      if info.Failure? {
        return Failure(info.error);
      }
      var p := info.value;
      Widened(parsed, p, n);
      n := Max(MaxOf(p.qubits), n);
      parsed := parsed + [p];
      i := i + 1;
    }
    assert circuit[..i] == circuit;
    var data := Place(n, parsed);
    Placed(eval, circuit, n, parsed, data);
    return Success(Circuit(n + 1, data));
  }

  /** One more gate's qubits update the running maximum of the first
      loop. */
  lemma Widened(parsed: seq<Parsed>, p: Parsed, n: int)
    requires forall j :: 0 <= j < |parsed| ==> |parsed[j].qubits| >= 1
    requires |p.qubits| >= 1 && n == MaxQubit(parsed)
    ensures forall j :: 0 <= j < |parsed + [p]| ==> |(parsed + [p])[j].qubits| >= 1
    ensures Max(MaxOf(p.qubits), n) == MaxQubit(parsed + [p])
  {
    assert (parsed + [p])[..|parsed|] == parsed;
  }

  /** The second loop of `from_qusetta`: one instruction per parsed gate,
      in order, with its qubits mirrored about `n`. */
  method Place(n: int, parsed: seq<Parsed>) returns (data: seq<Instruction>)
    ensures |data| == |parsed|
    ensures forall j :: 0 <= j < |parsed| ==> data[j] == Emit(n, parsed[j])
  {
    data := [];
    var k := 0;
    while k < |parsed|
      invariant 0 <= k <= |parsed| && |data| == k
      invariant forall j :: 0 <= j < k ==> data[j] == Emit(n, parsed[j])
    {
      data := data + [Emit(n, parsed[k])];
      k := k + 1;
    }
  }

  /** The instructions the second loop places, under the running maximum
      the first loop kept, make up the circuit the parsed gates describe. */
  lemma Placed(eval: string -> Option<real>, tokens: seq<string>, n: int, parsed: seq<Parsed>, data: seq<Instruction>)
    requires ParseAll(eval, tokens) == Success(parsed)
    requires forall j :: 0 <= j < |parsed| ==> |parsed[j].qubits| >= 1
    requires n == MaxQubit(parsed)
    requires |data| == |parsed| && forall j :: 0 <= j < |parsed| ==> data[j] == Emit(n, parsed[j])
    ensures Encode(eval, tokens) == Success(Circuit(n + 1, data))
  {
    Assembled(n, parsed, data);
  }

  lemma Assembled(n: int, parsed: seq<Parsed>, data: seq<Instruction>)
    requires forall j :: 0 <= j < |parsed| ==> |parsed[j].qubits| >= 1
    requires n == MaxQubit(parsed)
    requires |data| == |parsed| && forall j :: 0 <= j < |parsed| ==> data[j] == Emit(n, parsed[j])
    ensures Circuit(n + 1, data) == EncodeParsed(parsed)
  {
  }

  /** An empty token list gives an empty circuit with no qubits. */
  lemma EncodeEmpty(eval: string -> Option<real>)
    ensures Encode(eval, []) == Success(Circuit(0, []))
  {
    assert ParseAll(eval, []) == Success([]);
  }

  /** When no qubit index is negative, every mirrored index lies inside
      the circuit's register. */
  lemma EncodeInRange(gates: seq<Parsed>)
    requires forall i :: 0 <= i < |gates| ==> |gates[i].qubits| >= 1
    requires forall i, j :: 0 <= i < |gates| && 0 <= j < |gates[i].qubits| ==> gates[i].qubits[j] >= 0
    ensures var c := EncodeParsed(gates);
      forall i, j :: 0 <= i < |c.data| && 0 <= j < |c.data[i].qubits| ==> 0 <= c.data[i].qubits[j] < c.numQubits
  {
    var n := MaxQubit(gates);
    forall i | 0 <= i < |gates| ensures forall j :: 0 <= j < |gates[i].qubits| ==> 0 <= Mirror(n, gates[i].qubits)[j] <= n {
      MirrorInRange(n, gates[i].qubits);
    }
  }

  /** `["H(0)", "CX(0, 1)"]` becomes `h` on qubit 1 and `cx` on qubits 1, 0
      of a two-qubit circuit. */
  lemma EncodeExample(gates: seq<Parsed>)
    requires gates == [Parsed(H, [], [0]), Parsed(CX, [], [0, 1])]
    ensures EncodeParsed(gates) == Circuit(2, [Instruction("h", [], [1]), Instruction("cx", [], [1, 0])])
  {
    ExampleMax(gates);
    TwoGates(gates[0], gates[1]);
    ExampleEmits();
  }

  /** A circuit of two gates holds their two instructions. */
  lemma TwoGates(g0: Parsed, g1: Parsed)
    requires |g0.qubits| >= 1 && |g1.qubits| >= 1
    ensures EncodeParsed([g0, g1]).data == [Emit(MaxQubit([g0, g1]), g0), Emit(MaxQubit([g0, g1]), g1)]
  {
  }

  lemma ExampleMax(gates: seq<Parsed>)
    requires gates == [Parsed(H, [], [0]), Parsed(CX, [], [0, 1])]
    ensures MaxQubit(gates) == 1
  {
    assert gates[1].qubits[1] == 1;
    assert forall i, j :: 0 <= i < |gates| && 0 <= j < |gates[i].qubits| ==> gates[i].qubits[j] <= 1;
  }

  lemma ExampleEmits()
    ensures Emit(1, Parsed(H, [], [0])) == Instruction("h", [], [1])
    ensures Emit(1, Parsed(CX, [], [0, 1])) == Instruction("cx", [], [1, 0])
  {
    assert Lower("H")[0] == 'h';
    assert Mirror(1, [0]) == [1];
    assert Lower("CX")[0] == 'c' && Lower("CX")[1] == 'x';
    assert Mirror(1, [0, 1]) == [1, 0];
  }



  // ---------------------------------------------------------------- to the token format

  /** `"RZ(%s)(%d)" % (angle, r)` and its `RX` twin: a rotation token with
      its angle text written as is. */
  function RotationToken(k: Kind, angle: string, r: int): string
  {
    Name(k) + "(" + angle + ")(" + IntStr(r) + ")"
  }

  /** The three rotations a single-qubit `U2` or `U3` becomes, all on
      qubit `r`. */
  function Euler(first: string, middle: string, last: string, r: int): seq<string>
  {
    [RotationToken(RZ, first, r), RotationToken(RX, middle, r), RotationToken(RZ, last, r)]
  }

  /** The tokens one instruction becomes in a circuit of `numQubits`
      qubits: none for a measurement; three rotations for `U2` and `U3`;
      otherwise one token with `ID` read as `I`, `U1` as `RZ`, parameters
      printed with `str` and qubits mirrored. A `U2` or `U3` without the
      qubit or the parameters it reads fails. */
  function DecodeInstruction(nums: Numerals, numQubits: int, ins: Instruction): (r: Result<seq<string>, Error>)
    ensures Upper(ins.name) == "MEASURE" ==> r == Success([])
    ensures r.Failure? <==>
      || (Upper(ins.name) == "U2" && (|ins.qubits| < 1 || |ins.params| < 2))
      || (Upper(ins.name) == "U3" && (|ins.qubits| < 1 || |ins.params| < 3))
    ensures r.Failure? ==> r.error == BadInstruction(ins.name)
    ensures r.Success? && (Upper(ins.name) == "U2" || Upper(ins.name) == "U3") ==> |r.value| == 3
    ensures Upper(ins.name) !in {"MEASURE", "U2", "U3"} ==>
      r == Success([Render(TokenName(Upper(ins.name)), ParamTexts(nums.str, ins.params), Mirror(numQubits - 1, ins.qubits))])
  {
    var g := Upper(ins.name);
    if g == "MEASURE" then Success([])
    else if g == "U2" then
      if |ins.qubits| < 1 || |ins.params| < 2 then Failure(BadInstruction(ins.name))
      else
        var r := numQubits - ins.qubits[0] - 1;
        Success(Euler(nums.fmtG(ins.params[1]) + " - PI/2", "PI/2", nums.fmtG(ins.params[0]) + " + PI/2", r))
    else if g == "U3" then
      if |ins.qubits| < 1 || |ins.params| < 3 then Failure(BadInstruction(ins.name))
      else
        var r := numQubits - ins.qubits[0] - 1;
        Success(Euler(nums.fmtG(ins.params[2]) + " - PI/2", nums.fmtG(ins.params[0]), nums.fmtG(ins.params[1]) + " + PI/2", r))
    else
      Success([Render(TokenName(g), ParamTexts(nums.str, ins.params), Mirror(numQubits - 1, ins.qubits))])
  }

  /** The token name of an upper-cased instruction name: `ID` is `I`, `U1`
      is `RZ`, every other name stays. */
  function TokenName(g: string): string
  {
    if g == "ID" then "I" else if g == "U1" then "RZ" else g
  }

  /** The tokens of a run of instructions, in order, or the first
      instruction's error. */
  function DecodeAll(nums: Numerals, numQubits: int, data: seq<Instruction>): Result<seq<string>, Error>
  {
    if data == [] then Success([])
    else
      match DecodeAll(nums, numQubits, data[..|data| - 1])
      case Failure(e) => Failure(e)
      case Success(front) =>
        match DecodeInstruction(nums, numQubits, data[|data| - 1])
        case Failure(e) => Failure(e)
        case Success(last) => Success(front + last)
  }

  /** `Qiskit.to_qusetta` */
  function Decode(nums: Numerals, c: Circuit): Result<seq<string>, Error>
  {
    DecodeAll(nums, c.numQubits, c.data)
  }

  /** Once a prefix fails, the whole run fails with the same error. */
  lemma {:induction false} DecodePrefixFails(nums: Numerals, numQubits: int, data: seq<Instruction>, i: nat)
    requires i <= |data| && DecodeAll(nums, numQubits, data[..i]).Failure?
    ensures DecodeAll(nums, numQubits, data) == DecodeAll(nums, numQubits, data[..i])
    decreases |data| - i
  {
    if i < |data| {
      assert data[..i + 1][..i] == data[..i];
      DecodePrefixFails(nums, numQubits, data, i + 1);
    } else {
      assert data[..i] == data;
    }
  }

  /** `Qiskit.to_qusetta` as the source writes it: one loop that skips,
      renames, expands or prints each instruction and appends the
      resulting tokens. */
  method ToQusetta(nums: Numerals, c: Circuit) returns (r: Result<seq<string>, Error>)
    ensures r == Decode(nums, c)
  {
    var tokens: seq<string> := [];
    var i := 0;
    while i < |c.data|
      invariant 0 <= i <= |c.data|
      invariant DecodeAll(nums, c.numQubits, c.data[..i]) == Success(tokens)
    {
      assert c.data[..i + 1][..i] == c.data[..i];
      var out := DecodeInstruction(nums, c.numQubits, c.data[i]);
      if out.Failure? {
        DecodePrefixFails(nums, c.numQubits, c.data, i + 1);
        return Failure(out.error);
      }
      tokens := tokens + out.value;
      i := i + 1;
    }
    assert c.data[..i] == c.data;
    return Success(tokens);
  }

  // ---------------------------------------------------------------- properties

  /** A `U2` or `U3` expansion reads back as exactly three rotations on the
      mirrored qubit: `RZ`, `RX`, `RZ`, with the angles its texts evaluate
      to. */
  lemma EulerParses(eval: string -> Option<real>, first: string, middle: string, last: string, r: int)
    requires NoDelimiters(first) && NoDelimiters(middle) && NoDelimiters(last)
    requires eval(first).Some? && eval(middle).Some? && eval(last).Some?
    ensures ParseAll(eval, Euler(first, middle, last, r)) == Success([
      Parsed(RZ, [eval(first).value], [r]),
      Parsed(RX, [eval(middle).value], [r]),
      Parsed(RZ, [eval(last).value], [r])])
  {
    RotationParses(eval, RZ, first, r);
    RotationParses(eval, RX, middle, r);
    RotationParses(eval, RZ, last, r);
    ParseThree(eval, RotationToken(RZ, first, r), RotationToken(RX, middle, r), RotationToken(RZ, last, r),
      Parsed(RZ, [eval(first).value], [r]), Parsed(RX, [eval(middle).value], [r]), Parsed(RZ, [eval(last).value], [r]));
  }

  /** Three tokens that each parse make a circuit of their three gates. */
  lemma ParseThree(eval: string -> Option<real>, t0: string, t1: string, t2: string, g0: Parsed, g1: Parsed, g2: Parsed)
    requires GateInfo(eval, t0) == Success(g0) && GateInfo(eval, t1) == Success(g1) && GateInfo(eval, t2) == Success(g2)
    ensures ParseAll(eval, [t0, t1, t2]) == Success([g0, g1, g2])
  {
    var tokens, gates := [t0, t1, t2], [g0, g1, g2];
    forall i | 0 <= i < 3 ensures GateInfo(eval, tokens[i]) == Success(gates[i]) {
      if i == 0 {
        assert tokens[i] == t0 && gates[i] == g0;
      } else if i == 1 {
        assert tokens[i] == t1 && gates[i] == g1;
      } else {
        assert tokens[i] == t2 && gates[i] == g2;
      }
    }
    ParseAllSucceeds(eval, tokens, gates);
  }

  lemma RotationParses(eval: string -> Option<real>, k: Kind, text: string, r: int)
    requires IsRotation(k) && NoDelimiters(text) && eval(text).Some?
    ensures GateInfo(eval, RotationToken(k, text, r)) == Success(Parsed(k, [eval(text).value], [r]))
  {
    assert Join(", ", [text]) == text;
    assert Join(", ", IntStrs([r])) == IntStr(r) by {
      assert IntStrs([r]) == [IntStr(r)];
    }
    assert Render(Name(k), [text], [r]) == Name(k) + "(" + text + ")(" + IntStr(r) + ")";
    RenderParses(eval, k, [text], [eval(text).value], [r]);
  }

  /** A `U2` on qubit `q` reads back as `RZ(p1 - PI/2)`, `RX(PI/2)`,
      `RZ(p0 + PI/2)` on qubit `numQubits - 1 - q`. */
  lemma U2Expansion(nums: Numerals, numQubits: int, ins: Instruction)
    requires Upper(ins.name) == "U2" && |ins.qubits| >= 1 && |ins.params| >= 2
    requires forall x :: NoDelimiters(nums.fmtG(x))
    requires nums.eval(nums.fmtG(ins.params[1]) + " - PI/2").Some?
    requires nums.eval("PI/2").Some?
    requires nums.eval(nums.fmtG(ins.params[0]) + " + PI/2").Some?
    ensures var r := numQubits - 1 - ins.qubits[0];
      && DecodeInstruction(nums, numQubits, ins).Success?
      && ParseAll(nums.eval, DecodeInstruction(nums, numQubits, ins).value) == Success([
        Parsed(RZ, [nums.eval(nums.fmtG(ins.params[1]) + " - PI/2").value], [r]),
        Parsed(RX, [nums.eval("PI/2").value], [r]),
        Parsed(RZ, [nums.eval(nums.fmtG(ins.params[0]) + " + PI/2").value], [r])])
  {
    var first, last := nums.fmtG(ins.params[1]) + " - PI/2", nums.fmtG(ins.params[0]) + " + PI/2";
    var r := numQubits - ins.qubits[0] - 1;
    U2Tokens(nums, numQubits, ins);
    assert NoDelimiters(first) && NoDelimiters(last) && NoDelimiters("PI/2") by {
      Shifted(nums.fmtG, ins.params[1]);
      Shifted(nums.fmtG, ins.params[0]);
    }
    EulerParses(nums.eval, first, "PI/2", last, r);
  }

  /** A `U3` on qubit `q` reads back as `RZ(p2 - PI/2)`, `RX(p0)`,
      `RZ(p1 + PI/2)` on qubit `numQubits - 1 - q`. */
  lemma U3Expansion(nums: Numerals, numQubits: int, ins: Instruction)
    requires Upper(ins.name) == "U3" && |ins.qubits| >= 1 && |ins.params| >= 3
    requires forall x :: NoDelimiters(nums.fmtG(x))
    requires nums.eval(nums.fmtG(ins.params[2]) + " - PI/2").Some?
    requires nums.eval(nums.fmtG(ins.params[0])).Some?
    requires nums.eval(nums.fmtG(ins.params[1]) + " + PI/2").Some?
    ensures var r := numQubits - 1 - ins.qubits[0];
      && DecodeInstruction(nums, numQubits, ins).Success?
      && ParseAll(nums.eval, DecodeInstruction(nums, numQubits, ins).value) == Success([
        Parsed(RZ, [nums.eval(nums.fmtG(ins.params[2]) + " - PI/2").value], [r]),
        Parsed(RX, [nums.eval(nums.fmtG(ins.params[0])).value], [r]),
        Parsed(RZ, [nums.eval(nums.fmtG(ins.params[1]) + " + PI/2").value], [r])])
  {
    var first, middle, last := nums.fmtG(ins.params[2]) + " - PI/2", nums.fmtG(ins.params[0]), nums.fmtG(ins.params[1]) + " + PI/2";
    var r := numQubits - ins.qubits[0] - 1;
    U3Tokens(nums, numQubits, ins);
    assert NoDelimiters(first) && NoDelimiters(middle) && NoDelimiters(last) by {
      Shifted(nums.fmtG, ins.params[2]);
      Shifted(nums.fmtG, ins.params[0]);
      Shifted(nums.fmtG, ins.params[1]);
    }
    EulerParses(nums.eval, first, middle, last, r);
  }

  /** The three tokens a `U2` is printed as. */
  lemma U2Tokens(nums: Numerals, numQubits: int, ins: Instruction)
    requires Upper(ins.name) == "U2" && |ins.qubits| >= 1 && |ins.params| >= 2
    ensures DecodeInstruction(nums, numQubits, ins) == Success(Euler(
      nums.fmtG(ins.params[1]) + " - PI/2", "PI/2", nums.fmtG(ins.params[0]) + " + PI/2", numQubits - ins.qubits[0] - 1))
  {
  }

  /** The three tokens a `U3` is printed as. */
  lemma U3Tokens(nums: Numerals, numQubits: int, ins: Instruction)
    requires Upper(ins.name) == "U3" && |ins.qubits| >= 1 && |ins.params| >= 3
    ensures DecodeInstruction(nums, numQubits, ins) == Success(Euler(
      nums.fmtG(ins.params[2]) + " - PI/2", nums.fmtG(ins.params[0]), nums.fmtG(ins.params[1]) + " + PI/2", numQubits - ins.qubits[0] - 1))
  {
  }

  /** `%g` text free of delimiters stays free of them with `PI/2` added or
      taken away. */
  lemma Shifted(fmt: real -> string, x: real)
    requires forall y :: NoDelimiters(fmt(y))
    ensures NoDelimiters(fmt(x)) && NoDelimiters(fmt(x) + " - PI/2") && NoDelimiters(fmt(x) + " + PI/2")
  {
    assert NoDelimiters(fmt(x));
  }

  /** The renames of `to_qusetta`: `ID` is printed as `I`, `U1` as `RZ`. */
  lemma Renames(nums: Numerals, numQubits: int, ins: Instruction)
    ensures Upper(ins.name) == "ID" ==>
      DecodeInstruction(nums, numQubits, ins)
        == Success([Render("I", ParamTexts(nums.str, ins.params), Mirror(numQubits - 1, ins.qubits))])
    ensures Upper(ins.name) == "U1" ==>
      DecodeInstruction(nums, numQubits, ins)
        == Success([Render("RZ", ParamTexts(nums.str, ins.params), Mirror(numQubits - 1, ins.qubits))])
  {
  }

  /** The instruction a gate was encoded to is printed back as that gate's
      own token, with the qubits mirrored back. */
  lemma DecodeEmitted(nums: Numerals, n: int, p: Parsed)
    ensures DecodeInstruction(nums, n + 1, Emit(n, p)) == Success([Token(nums.str, p)])
  {
    var k := p.kind;
    var ins := Emit(n, p);
    var g := Upper(ins.name);
    assert g == (if k == I then "ID" else Name(k)) by {
      if k == I {
        assert Upper("id") == "ID";
      } else {
        assert Upper(Lower(Name(k))) == Name(k) by {
          NameCapitals(k);
          CapitalsUpperLower(Name(k));
        }
      }
    }
    assert g != "MEASURE" && g != "U2" && g != "U3" && g != "U1" by { Unrenamed(k); }
    assert (if g == "ID" then "I" else g) == Name(k);
    assert Mirror(n + 1 - 1, ins.qubits) == p.qubits by { MirrorInvolution(n, p.qubits); }
  }

  /** No gate of the vocabulary is written like one of the qiskit names
      that printing treats specially. */
  lemma Unrenamed(k: Kind)
    ensures Name(k) !in {"MEASURE", "ID", "U1", "U2", "U3"}
  {
    match k
    case I => case H => case X => case Y => case Z => case S => case T =>
    case CX => case CZ => case SWAP => case CCX => case RX => case RY => case RZ =>
  }

  /** Runs of instructions that each print as one token print as those
      tokens, in order. */
  lemma {:induction false} DecodeSingles(nums: Numerals, numQubits: int, data: seq<Instruction>, tokens: seq<string>)
    requires |data| == |tokens|
    requires forall i :: 0 <= i < |data| ==> DecodeInstruction(nums, numQubits, data[i]) == Success([tokens[i]])
    ensures DecodeAll(nums, numQubits, data) == Success(tokens)
    decreases |data|
  {
    if data != [] {
      var m := |data| - 1;
      DecodeSingles(nums, numQubits, data[..m], tokens[..m]);
      assert tokens == tokens[..m] + [tokens[m]];
    }
  }

  /** Printing the circuit that gates were encoded to gives each gate's
      own token, in order. */
  lemma DecodeEncoded(nums: Numerals, gates: seq<Parsed>)
    requires forall i :: 0 <= i < |gates| ==> |gates[i].qubits| >= 1
    ensures Decode(nums, EncodeParsed(gates)) == Success(Tokens(nums.str, gates))
  {
    var c := EncodeParsed(gates);
    var n := MaxQubit(gates);
    assert c.numQubits == n + 1;
    DecodeEmittedAll(nums, n, gates, c.data);
  }

  /** Instructions emitted for a run of gates print as those gates'
      tokens, in order. */
  lemma DecodeEmittedAll(nums: Numerals, n: int, gates: seq<Parsed>, data: seq<Instruction>)
    requires |data| == |gates| && forall i :: 0 <= i < |gates| ==> data[i] == Emit(n, gates[i])
    ensures DecodeAll(nums, n + 1, data) == Success(Tokens(nums.str, gates))
  {
    var tokens := Tokens(nums.str, gates);
    forall i | 0 <= i < |data| ensures DecodeInstruction(nums, n + 1, data[i]) == Success([tokens[i]]) {
      DecodeEmitted(nums, n, gates[i]);
    }
    DecodeSingles(nums, n + 1, data, tokens);
  }

  /** Translating a circuit to qiskit and back gives tokens that parse to
      the same gates, when the host prints numbers so that they read back
      as themselves. */
  lemma RoundTrip(nums: Numerals, tokens: seq<string>)
    requires ParseAll(nums.eval, tokens).Success?
    requires FaithfulOn(nums, ParseAll(nums.eval, tokens).value)
    ensures Encode(nums.eval, tokens).Success?
    ensures Decode(nums, Encode(nums.eval, tokens).value).Success?
    ensures ParseAll(nums.eval, Decode(nums, Encode(nums.eval, tokens).value).value) == ParseAll(nums.eval, tokens)
  {
    var gates := ParseAll(nums.eval, tokens).value;
    ParseAllWellFormed(nums.eval, tokens);
    assert Encode(nums.eval, tokens) == Success(EncodeParsed(gates));
    DecodeEncoded(nums, gates);
    TokensParse(nums, gates);
  }
}

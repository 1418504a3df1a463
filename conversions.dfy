/** The conversions every translator inherits (`qusetta/_conversions.py`):
    a circuit goes from one toolkit to another by way of the token format,
    through the source's `to_qusetta` and the target's `from_qusetta`. */
module Conversions {
  import opened Wrappers
  import opened Gates
  import Cirq
  import Qiskit
  import Quasar

  /** What a translator must define: its two primitives. A failure is the
      error the Python code raises. */
  datatype Adapter<!C> = Adapter(toQusetta: C -> Result<seq<string>, Error>, fromQusetta: seq<string> -> Result<C, Error>)

  /** The host's behaviour the translators rely on: how numbers are read
      and printed, and how cirq shows an operation. */
  datatype Host = Host(nums: Numerals, rendering: Cirq.Rendering)

  function CirqAdapter(host: Host): Adapter<Cirq.Circuit>
  {
    Adapter(c => Success(Cirq.Decode(host.rendering, c)), ts => Cirq.Encode(host.nums.eval, ts))
  }

  function QiskitAdapter(host: Host): Adapter<Qiskit.Circuit>
  {
    Adapter(c => Qiskit.Decode(host.nums, c), ts => Qiskit.Encode(host.nums.eval, ts))
  }

  function QuasarAdapter(host: Host): Adapter<Quasar.Circuit>
  {
    Adapter(c => Success(Quasar.Decode(host.nums.str, c)), ts => Quasar.Encode(host.nums.eval, ts))
  }

  /** `target.from_qusetta(source.to_qusetta(c))` */
  function Convert<S, T>(source: Adapter<S>, target: Adapter<T>, c: S): Result<T, Error>
  {
    Bind(source.toQusetta(c), target.fromQusetta)
  }

  /** `cls.from_cirq(c)` */
  function FromCirq<C>(host: Host, cls: Adapter<C>, c: Cirq.Circuit): Result<C, Error>
  {
    cls.fromQusetta(Cirq.Decode(host.rendering, c))
  }

  /** `cls.to_cirq(c)` */
  function ToCirq<C>(host: Host, cls: Adapter<C>, c: C): Result<Cirq.Circuit, Error>
  {
    match cls.toQusetta(c)
    case Failure(e) => Failure(e)
    case Success(tokens) => Cirq.Encode(host.nums.eval, tokens)
  }

  /** `cls.from_qiskit(c)` */
  function FromQiskit<C>(host: Host, cls: Adapter<C>, c: Qiskit.Circuit): Result<C, Error>
  {
    match Qiskit.Decode(host.nums, c)
    case Failure(e) => Failure(e)
    case Success(tokens) => cls.fromQusetta(tokens)
  }

  /** `cls.to_qiskit(c)` */
  function ToQiskit<C>(host: Host, cls: Adapter<C>, c: C): Result<Qiskit.Circuit, Error>
  {
    match cls.toQusetta(c)
    case Failure(e) => Failure(e)
    case Success(tokens) => Qiskit.Encode(host.nums.eval, tokens)
  }

  /** `cls.from_quasar(c)` */
  function FromQuasar<C>(host: Host, cls: Adapter<C>, c: Quasar.Circuit): Result<C, Error>
  {
    cls.fromQusetta(Quasar.Decode(host.nums.str, c))
  }

  /** `cls.to_quasar(c)` */
  function ToQuasar<C>(host: Host, cls: Adapter<C>, c: C): Result<Quasar.Circuit, Error>
  {
    match cls.toQusetta(c)
    case Failure(e) => Failure(e)
    case Success(tokens) => Quasar.Encode(host.nums.eval, tokens)
  }

  // ---------------------------------------------------------------- properties

  /** Each derived method is the composition of the source's `to_qusetta`
      with the target's `from_qusetta`, whatever translator `cls` is. */
  lemma Derived<C>(host: Host, cls: Adapter<C>, cc: Cirq.Circuit, qc: Qiskit.Circuit, uc: Quasar.Circuit, c: C)
    ensures FromCirq(host, cls, cc) == Convert(CirqAdapter(host), cls, cc)
    ensures ToCirq(host, cls, c) == Convert(cls, CirqAdapter(host), c)
    ensures FromQiskit(host, cls, qc) == Convert(QiskitAdapter(host), cls, qc)
    ensures ToQiskit(host, cls, c) == Convert(cls, QiskitAdapter(host), c)
    ensures FromQuasar(host, cls, uc) == Convert(QuasarAdapter(host), cls, uc)
    ensures ToQuasar(host, cls, c) == Convert(cls, QuasarAdapter(host), c)
  {
  }

  /** `X.from_Y(c)` and `Y.to_X(c)` are the same conversion, for every
      pair of different translators. */
  lemma FromIsTo(host: Host, cc: Cirq.Circuit, qc: Qiskit.Circuit, uc: Quasar.Circuit)
    ensures FromCirq(host, QiskitAdapter(host), cc) == ToQiskit(host, CirqAdapter(host), cc)
    ensures FromCirq(host, QuasarAdapter(host), cc) == ToQuasar(host, CirqAdapter(host), cc)
    ensures FromQiskit(host, CirqAdapter(host), qc) == ToCirq(host, QiskitAdapter(host), qc)
    ensures FromQiskit(host, QuasarAdapter(host), qc) == ToQuasar(host, QiskitAdapter(host), qc)
    ensures FromQuasar(host, CirqAdapter(host), uc) == ToCirq(host, QuasarAdapter(host), uc)
    ensures FromQuasar(host, QiskitAdapter(host), uc) == ToQiskit(host, QuasarAdapter(host), uc)
  {
    Derived(host, QiskitAdapter(host), cc, qc, uc, qc);
    Derived(host, QuasarAdapter(host), cc, qc, uc, uc);
    Derived(host, CirqAdapter(host), cc, qc, uc, cc);
  }

  /** Converting the qiskit circuit of some gates gives the quasar and the
      cirq circuits of the same gates. */
  lemma FromQiskitGates(host: Host, gates: seq<Parsed>)
    requires AllWellFormed(gates)
    requires Gates.FaithfulOn(host.nums, gates)
    ensures ToQuasar(host, QiskitAdapter(host), Qiskit.EncodeParsed(gates)) == Success(Quasar.EncodeParsed(gates))
    ensures ToCirq(host, QiskitAdapter(host), Qiskit.EncodeParsed(gates)) == Success(Cirq.EncodeParsed(gates))
  {
    Qiskit.DecodeEncoded(host.nums, gates);
    TokensParse(host.nums, gates);
  }

  /** Converting the quasar circuit of some gates gives the qiskit and the
      cirq circuits of the same gates. */
  lemma FromQuasarGates(host: Host, gates: seq<Parsed>)
    requires AllWellFormed(gates)
    requires Gates.FaithfulOn(host.nums, gates)
    ensures ToQiskit(host, QuasarAdapter(host), Quasar.EncodeParsed(gates)) == Success(Qiskit.EncodeParsed(gates))
    ensures ToCirq(host, QuasarAdapter(host), Quasar.EncodeParsed(gates)) == Success(Cirq.EncodeParsed(gates))
  {
    Quasar.DecodeEncoded(host.nums.str, gates);
    TokensParse(host.nums, gates);
  }

  /** Converting the cirq circuit of some gates gives the qiskit and the
      quasar circuits of the same gates. */
  lemma FromCirqGates(host: Host, gates: seq<Parsed>)
    requires AllWellFormed(gates)
    requires Cirq.FaithfulOn(host.nums.eval, host.rendering, gates)
    ensures ToQiskit(host, CirqAdapter(host), Cirq.EncodeParsed(gates)) == Success(Qiskit.EncodeParsed(gates))
    ensures ToQuasar(host, CirqAdapter(host), Cirq.EncodeParsed(gates)) == Success(Quasar.EncodeParsed(gates))
  {
    Cirq.DecodeParses(host.nums.eval, host.rendering, gates);
  }

  /** A host that prints whole numbers with `str(int)` and reads integers,
      cirq's exponents never being one. */
  function WholeHost(): Host
  {
    Host(WholeNumbers(), Cirq.Rendering(WholeNumbers().str, o => false))
  }

  /** On such a host every conversion of gates with whole-number angles
      keeps the gates, whichever translator it starts from. */
  lemma WholeConversions(gates: seq<Parsed>)
    requires AllWellFormed(gates)
    requires forall i, j :: 0 <= i < |gates| && 0 <= j < |gates[i].params| ==> gates[i].params[j].Floor as real == gates[i].params[j]
    ensures ToQuasar(WholeHost(), QiskitAdapter(WholeHost()), Qiskit.EncodeParsed(gates)) == Success(Quasar.EncodeParsed(gates))
    ensures ToCirq(WholeHost(), QiskitAdapter(WholeHost()), Qiskit.EncodeParsed(gates)) == Success(Cirq.EncodeParsed(gates))
    ensures ToQiskit(WholeHost(), QuasarAdapter(WholeHost()), Quasar.EncodeParsed(gates)) == Success(Qiskit.EncodeParsed(gates))
    ensures ToCirq(WholeHost(), QuasarAdapter(WholeHost()), Quasar.EncodeParsed(gates)) == Success(Cirq.EncodeParsed(gates))
    ensures ToQiskit(WholeHost(), CirqAdapter(WholeHost()), Cirq.EncodeParsed(gates)) == Success(Qiskit.EncodeParsed(gates))
    ensures ToQuasar(WholeHost(), CirqAdapter(WholeHost()), Cirq.EncodeParsed(gates)) == Success(Quasar.EncodeParsed(gates))
  {
    var host := WholeHost();
    WholeNumbersFaithful(gates);
    forall i, j | 0 <= i < |gates| && 0 <= j < |gates[i].params|
      ensures Cirq.AngleReadsBack(host.nums.eval, host.rendering, Cirq.Emit(gates[i]), gates[i].params[j])
    {
      Cirq.WholeAnglesReadBack(Cirq.Emit(gates[i]), gates[i].params[j]);
    }
    FromQiskitGates(host, gates);
    FromQuasarGates(host, gates);
    FromCirqGates(host, gates);
  }
}

/** The two-wire bus seen from the driver: single-register reads and writes
    against the sensor's register file, each returning a transport status.

    The transport itself is outside the model. Its behaviour is an oracle `Env`:
    the status of the n-th transfer, and the byte the sensor presents on the
    n-th transfer at the registers it refreshes by itself. Every other register
    reads back what the register file holds. */
module Transport {
  import opened Bits
  import opened Status

  /** One transfer the driver issued: a read with the byte it returned, or a
      write with the byte it sent. */
  datatype Transfer = Read(addr: byte, value: byte) | Write(addr: byte, value: byte)

  /** The sensor's register file and every transfer issued so far, in order.
      The index of the next transfer is the length of the trace. */
  datatype Bus = Bus(regs: map<int, byte>, trace: seq<Transfer>)

  /** The transport oracle. */
  datatype Env = Env(codes: TwiCodes, status: nat -> byte, sample: (nat, byte) -> byte)

  /** The n-th transfer reports OK. */
  predicate OkAt(e: Env, n: nat) {
    e.status(n) == e.codes.ok
  }

  /** Every transfer reports OK. */
  ghost predicate AllOk(e: Env) {
    forall n: nat :: OkAt(e, n)
  }

  /** The register file is keyed by the address's numeric value; a register
      the file does not mention holds 0. */
  function Get(regs: map<int, byte>, a: byte): byte {
    if a as int in regs then regs[a as int] else 0
  }

  /** The registers the sensor refreshes by itself: INT_STATUS and the output
      pairs 0x3B-0x48. */
  predicate Live(a: byte) {
    0x3A <= a <= 0x48
  }

  /** The byte the n-th transfer reads from register `a`. */
  function Fetch(e: Env, regs: map<int, byte>, n: nat, a: byte): byte {
    if Live(a) then e.sample(n, a) else Get(regs, a)
  }

  /** The byte the next transfer would read from register `a`. */
  function Peek(e: Env, b: Bus, a: byte): byte {
    Fetch(e, b.regs, |b.trace|, a)
  }

  /** A write lands in the register file only when the transport reports OK. */
  function Commit(e: Env, regs: map<int, byte>, status: byte, a: byte, v: byte): (r: map<int, byte>)
    ensures Get(r, a) == if status == e.codes.ok then v else Get(regs, a)
    ensures SameExcept(regs, r, a)
  {
    if status == e.codes.ok then regs[a as int := v] else regs
  }

  /** Registers other than `a` read the same in both files. */
  ghost predicate SameExcept(r1: map<int, byte>, r2: map<int, byte>, a: byte) {
    forall x: byte :: x != a ==> Get(r1, x) == Get(r2, x)
  }

  /** Two edits of the same register leave every other register as it was. */
  lemma SameExceptTrans(r1: map<int, byte>, r2: map<int, byte>, r3: map<int, byte>, a: byte)
    requires SameExcept(r1, r2, a) && SameExcept(r2, r3, a)
    ensures SameExcept(r1, r3, a)
  {
  }

  datatype ReadStep = ReadStep(status: byte, value: byte, bus: Bus)

  /** `read_8bit_register_TWI`: one read transfer. */
  function ReadReg(e: Env, b: Bus, a: byte): (r: ReadStep)
    ensures r.status == e.status(|b.trace|)
    ensures r.value == Peek(e, b, a)
    ensures r.bus == Bus(b.regs, b.trace + [Read(a, r.value)])
  {
    var v := Peek(e, b, a);
    ReadStep(e.status(|b.trace|), v, Bus(b.regs, b.trace + [Read(a, v)]))
  }

  /** The result code of a driver operation and the bus after it. */
  datatype Step = Step(code: byte, bus: Bus)

  /** `write_8bit_register_TWI`: one write transfer; the code is the raw status. */
  function WriteReg(e: Env, b: Bus, a: byte, v: byte): (r: Step)
    ensures r.code == e.status(|b.trace|)
    ensures r.bus == Bus(Commit(e, b.regs, r.code, a, v), b.trace + [Write(a, v)])
  {
    var st := e.status(|b.trace|);
    Step(st, Bus(Commit(e, b.regs, st, a, v), b.trace + [Write(a, v)]))
  }

  /** How an operation reports a failed transfer: most return the translated
      code, the standby operations return the raw transport status. */
  datatype Report = Translated | Untranslated

  function Reported(c: TwiCodes, rep: Report, status: byte): byte {
    if rep == Translated then CheckErr(c, status) else status
  }

  /** The outcome `r` of reading register `a` and then writing `w` to it:
      a failed read ends the operation before any write is issued; otherwise
      exactly one write of `w` follows, and the code is 0 when that write succeeds. */
  ghost predicate ReadThenWrite(e: Env, b: Bus, r: Step, a: byte, w: byte, rep: Report) {
    var n := |b.trace|;
    var prev := Peek(e, b, a);
    if Fails(e.codes, e.status(n)) then
      r == Step(Reported(e.codes, rep, e.status(n)), Bus(b.regs, b.trace + [Read(a, prev)]))
    else
      && r.bus.trace == b.trace + [Read(a, prev), Write(a, w)]
      && r.bus.regs == Commit(e, b.regs, e.status(n + 1), a, w)
      && r.code == (if Fails(e.codes, e.status(n + 1)) then Reported(e.codes, rep, e.status(n + 1)) else 0)
  }

  /** The outcome `r` of writing `w` to register `a` without reading it first. */
  ghost predicate WriteOnce(e: Env, b: Bus, r: Step, a: byte, w: byte) {
    var st := e.status(|b.trace|);
    && r.bus == Bus(Commit(e, b.regs, st, a, w), b.trace + [Write(a, w)])
    && r.code == (if Fails(e.codes, st) then CheckErr(e.codes, st) else 0)
  }

  /** The read-then-write pattern every register edit of the driver follows;
      `edit` computes the byte written from the byte read. */
  function Modify(e: Env, b: Bus, a: byte, edit: byte -> byte, rep: Report): (r: Step)
    ensures ReadThenWrite(e, b, r, a, edit(Peek(e, b, a)), rep)
    ensures rep == Translated ==> (r.code == 0 <==> !Fails(e.codes, e.status(|b.trace|)) && !Fails(e.codes, e.status(|b.trace| + 1)))
    ensures SameExcept(b.regs, r.bus.regs, a)
  {
    var rd := ReadReg(e, b, a);
    if Fails(e.codes, rd.status) then
      Step(Reported(e.codes, rep, rd.status), rd.bus)
    else
      var wr := WriteReg(e, rd.bus, a, edit(rd.value));
      if Fails(e.codes, wr.code) then Step(Reported(e.codes, rep, wr.code), wr.bus)
      else Step(0, wr.bus)
  }

  /** A single write whose failure is reported translated. */
  function Store(e: Env, b: Bus, a: byte, w: byte): (r: Step)
    ensures WriteOnce(e, b, r, a, w)
    ensures SameExcept(b.regs, r.bus.regs, a)
  {
    var wr := WriteReg(e, b, a, w);
    if Fails(e.codes, wr.code) then Step(CheckErr(e.codes, wr.code), wr.bus) else Step(0, wr.bus)
  }
}

/** Translation of two-wire transport statuses into the driver's result codes. */
module Status {
  import opened Bits

  /** The transport library's status constants. Their numeric values live in
      the transport's own header, which is not part of this model, so they are
      a parameter of every operation. */
  datatype TwiCodes = TwiCodes(ok: byte, busInUse: byte, nack: byte, dataNotSend: byte, dataNotReceived: byte) {

    /** The four statuses that name a failure. */
    function Failures(): set<byte> {
      {busInUse, nack, dataNotSend, dataNotReceived}
    }

    /** No two of the five constants share a value. */
    predicate Distinct() {
      && ok !in Failures()
      && busInUse != nack && busInUse != dataNotSend && busInUse != dataNotReceived
      && nack != dataNotSend && nack != dataNotReceived
      && dataNotSend != dataNotReceived
    }
  }

  /** `check_err_mpu6050`: the comparisons run in the source's order, so when two
      constants coincide the earlier comparison wins, and a status that matches
      none of them is read as success. */
  function CheckErr(c: TwiCodes, err: byte): (r: byte)
    ensures r in {0, 1, 2, 20, 100}
    ensures r == 0 <==> err == c.ok || err !in c.Failures()
    ensures c.Distinct() && err == c.busInUse ==> r == 1
    ensures c.Distinct() && err == c.nack ==> r == 100
    ensures c.Distinct() && err == c.dataNotSend ==> r == 20
    ensures c.Distinct() && err == c.dataNotReceived ==> r == 2
  {
    if err == c.ok then 0
    else if err == c.busInUse then 1
    else if err == c.nack then 100
    else if err == c.dataNotSend then 20
    else if err == c.dataNotReceived then 2
    else 0
  }

  /** A transfer whose status the driver treats as a failure. */
  predicate Fails(c: TwiCodes, status: byte) {
    CheckErr(c, status) != 0
  }

  /** The doc comment of `check_err_mpu6050` promises 0, 1 or 2, but a NACK
      becomes 100 and an unsent byte becomes 20. */
  lemma CheckErrExceedsDocumentedCodes(c: TwiCodes)
    requires c.Distinct()
    ensures CheckErr(c, c.nack) !in {0, 1, 2}
    ensures CheckErr(c, c.dataNotSend) !in {0, 1, 2}
  {
  }

  /** Several callers pass an already translated code through `check_err_mpu6050`
      a second time. The translated codes are compared against the transport's
      statuses, so when 100 is not one of the failure statuses a NACK that
      the first translation reported reads as success the second time. */
  lemma RetranslationCanHideFailure(c: TwiCodes)
    requires c.Distinct() && 100 !in c.Failures()
    ensures Fails(c, c.nack)
    ensures !Fails(c, CheckErr(c, c.nack))
  {
  }
}

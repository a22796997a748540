/** The batch plans of `getFingerprintData` and `getReferenceValues`.  Each
    fetcher reads a run of input registers in a fixed sequence of requests
    and, after each request, stores floats decoded from the response into
    the caller's array.  A plan lists those requests with the array slots
    each one fills; `Fill` is the array the loops leave behind, and the
    lemmas say which request every slot comes from. */
module SpectralFetch {
  import opened Bytes
  import opened Modbus
  import opened RegisterMap

  /** One request and its loop: `count` input registers from `offset`
      registers past the fetch's first register, then floats `0 ..
      floats - 1` of the response stored at indices `dest ..`. */
  datatype Batch = Batch(offset: nat, count: nat, dest: nat, floats: nat)
  {
    predicate Writes(j: int)
    {
      dest <= j < dest + floats
    }

    function End(): nat
    {
      offset + count
    }
  }

  /** Bytes of one 32-bit float. */
  const FloatBytes: nat := 4

  /** Byte index of float `i` in a response, as the loops compute it:
      `i*2 + 3`. */
  function DecodeIndex(i: nat): nat
  {
    HeaderBytes + 2 * i
  }

  /** `getFingerprintData`: 442 registers in four requests. */
  function FingerprintPlan(): seq<Batch>
  {
    [Batch(0, 124, 0, 62), Batch(124, 124, 62, 62), Batch(248, 124, 124, 62), Batch(372, 70, 186, 35)]
  }

  /** `getReferenceValues` as written: the fifth loop repeats the fourth
      loop's indices and float count. */
  function ReferencePlan(): seq<Batch>
  {
    [Batch(0, 124, 0, 62), Batch(124, 124, 62, 62), Batch(248, 124, 124, 62),
     Batch(372, 124, 186, 35), Batch(496, 16, 186, 35)]
  }

  /** Every slot a plan writes lies in an array of length `n`. */
  predicate Fits(plan: seq<Batch>, n: nat)
  {
    forall k :: 0 <= k < |plan| ==> plan[k].dest + plan[k].floats <= n
  }

  /** The requests run back to back from the fetch's first register, each
      within the protocol's 125-register limit. */
  predicate Contiguous(plan: seq<Batch>)
  {
    |plan| >= 1 && plan[0].offset == 0 &&
    (forall k :: 0 < k < |plan| ==> plan[k].offset == plan[k - 1].End()) &&
    (forall k :: 0 <= k < |plan| ==> 1 <= plan[k].count <= MaxReadCount)
  }

  /** The read requests of a plan. */
  function Requests(startingReg: int, plan: seq<Batch>): (r: seq<Request>)
    ensures |r| == |plan|
    ensures forall k :: 0 <= k < |plan| ==>
      r[k] == Request(ReadInputRegisters, startingReg + plan[k].offset, plan[k].count)
  {
    seq(|plan|, k requires 0 <= k < |plan| => Request(ReadInputRegisters, startingReg + plan[k].offset, plan[k].count))
  }

  /** The response batch `b` receives. */
  function BatchFrame(respond: (Byte, int, int) -> seq<Byte>, startingReg: int, b: Batch): seq<Byte>
  {
    respond(ReadInputRegisters, startingReg + b.offset, b.count)
  }

  /** The array after one batch's loop. */
  function Store(a: seq<UInt32>, b: Batch, frame: seq<Byte>, float32: (seq<Byte>, int) -> UInt32): (r: seq<UInt32>)
    requires b.dest + b.floats <= |a|
    ensures |r| == |a|
  {
    seq(|a|, j requires 0 <= j < |a| => if b.Writes(j) then float32(frame, DecodeIndex(j - b.dest)) else a[j])
  }

  /** The array after all of a plan's batches, in order. */
  function Fill(a: seq<UInt32>, plan: seq<Batch>, respond: (Byte, int, int) -> seq<Byte>, startingReg: int,
                float32: (seq<Byte>, int) -> UInt32): (r: seq<UInt32>)
    requires Fits(plan, |a|)
    ensures |r| == |a|
    decreases |plan|
  {
    if plan == [] then a
    else
      var n := |plan| - 1;
      Store(Fill(a, plan[..n], respond, startingReg, float32), plan[n], BatchFrame(respond, startingReg, plan[n]), float32)
  }

  /** The last batch of the plan that writes slot `j`, or -1 if none does. */
  function LastWriter(plan: seq<Batch>, j: int): (k: int)
    ensures -1 <= k < |plan|
    ensures k >= 0 ==> plan[k].Writes(j)
    ensures forall m :: k < m < |plan| ==> !plan[m].Writes(j)
    decreases |plan|
  {
    if plan == [] then -1
    else if plan[|plan| - 1].Writes(j) then |plan| - 1
    else LastWriter(plan[..|plan| - 1], j)
  }

  /** How many batches of the plan write slot `j`. */
  function Writers(plan: seq<Batch>, j: int): (n: nat)
    ensures n <= |plan|
    ensures n == 0 <==> LastWriter(plan, j) == -1
    decreases |plan|
  {
    if plan == [] then 0
    else Writers(plan[..|plan| - 1], j) + (if plan[|plan| - 1].Writes(j) then 1 else 0)
  }

  // ---------------------------------------------------------------------
  // What the loops leave in the array
  // ---------------------------------------------------------------------

  /** Each slot holds the float its last writer decoded, and a slot no
      batch writes keeps its old value. */
  lemma {:induction false} FillAt(a: seq<UInt32>, plan: seq<Batch>, respond: (Byte, int, int) -> seq<Byte>,
                                  startingReg: int, float32: (seq<Byte>, int) -> UInt32, j: nat)
    requires Fits(plan, |a|) && j < |a|
    ensures var k := LastWriter(plan, j);
      Fill(a, plan, respond, startingReg, float32)[j]
      == if k < 0 then a[j] else float32(BatchFrame(respond, startingReg, plan[k]), DecodeIndex(j - plan[k].dest))
  {
    if plan != [] {
      var n := |plan| - 1;
      var init := plan[..n];
      FitsPrefix(plan, n, |a|);
      var prev := Fill(a, init, respond, startingReg, float32);
      assert Fill(a, plan, respond, startingReg, float32)
          == Store(prev, plan[n], BatchFrame(respond, startingReg, plan[n]), float32);
      FillAt(a, init, respond, startingReg, float32, j);
      if !plan[n].Writes(j) {
        var k := LastWriter(init, j);
        assert LastWriter(plan, j) == k;
        if k >= 0 { assert init[k] == plan[k]; }
      }
    }
  }

  /** A prefix of a plan that fits fits too. */
  lemma FitsPrefix(plan: seq<Batch>, n: nat, len: nat)
    requires Fits(plan, len) && n <= |plan|
    ensures Fits(plan[..n], len)
  {
    forall k | 0 <= k < n ensures plan[..n][k].dest + plan[..n][k].floats <= len {
      assert plan[..n][k] == plan[k];
    }
  }

  /** `Fill` of a four-batch plan, batch by batch. */
  lemma FillOfFour(a: seq<UInt32>, p: seq<Batch>, respond: (Byte, int, int) -> seq<Byte>, startingReg: int,
                   float32: (seq<Byte>, int) -> UInt32)
    requires |p| == 4 && Fits(p, |a|)
    ensures Fill(a, p, respond, startingReg, float32)
      == Store(Store(Store(Store(a, p[0], BatchFrame(respond, startingReg, p[0]), float32),
                                 p[1], BatchFrame(respond, startingReg, p[1]), float32),
                           p[2], BatchFrame(respond, startingReg, p[2]), float32),
                     p[3], BatchFrame(respond, startingReg, p[3]), float32)
  {
    FillSnoc(a, p, 0, respond, startingReg, float32);
    FillSnoc(a, p, 1, respond, startingReg, float32);
    FillSnoc(a, p, 2, respond, startingReg, float32);
    FillSnoc(a, p, 3, respond, startingReg, float32);
    assert p[..0] == [] && p[..4] == p;
  }

  /** `Fill` of the first `k + 1` batches is `Fill` of the first `k`, then
      batch `k`. */
  lemma FillSnoc(a: seq<UInt32>, p: seq<Batch>, k: nat, respond: (Byte, int, int) -> seq<Byte>, startingReg: int,
                 float32: (seq<Byte>, int) -> UInt32)
    requires Fits(p, |a|) && k < |p|
    ensures Fits(p[..k], |a|) && Fits(p[..k + 1], |a|)
    ensures Fill(a, p[..k + 1], respond, startingReg, float32)
         == Store(Fill(a, p[..k], respond, startingReg, float32), p[k], BatchFrame(respond, startingReg, p[k]), float32)
  {
    var q := p[..k + 1];
    assert q[..k] == p[..k] && q[k] == p[k];
    FitsPrefix(p, k, |a|);
    FitsPrefix(p, k + 1, |a|);
  }

  /** `Fill` of a five-batch plan: the first four batches, then the fifth. */
  lemma FillOfFive(a: seq<UInt32>, p: seq<Batch>, respond: (Byte, int, int) -> seq<Byte>, startingReg: int,
                   float32: (seq<Byte>, int) -> UInt32)
    requires |p| == 5 && Fits(p, |a|)
    ensures Fits(p[..4], |a|)
    ensures Fill(a, p, respond, startingReg, float32)
      == Store(Fill(a, p[..4], respond, startingReg, float32), p[4], BatchFrame(respond, startingReg, p[4]), float32)
  {
    FitsPrefix(p, 4, |a|);
  }

  /** Four batches fetched one after the other leave `Fill` of the plan
      and issue the plan's requests. */
  lemma FetchedFour(p: seq<Batch>, respond: (Byte, int, int) -> seq<Byte>, startingReg: int,
                    float32: (seq<Byte>, int) -> UInt32,
                    a0: seq<UInt32>, a1: seq<UInt32>, a2: seq<UInt32>, a3: seq<UInt32>, a4: seq<UInt32>,
                    f0: seq<Byte>, f1: seq<Byte>, f2: seq<Byte>, f3: seq<Byte>,
                    log0: seq<Request>, log1: seq<Request>, log2: seq<Request>, log3: seq<Request>, log4: seq<Request>)
    requires |p| == 4 && Fits(p, |a0|)
    requires f0 == BatchFrame(respond, startingReg, p[0]) && a1 == Store(a0, p[0], f0, float32)
    requires log1 == log0 + [Request(ReadInputRegisters, startingReg + p[0].offset, p[0].count)]
    requires f1 == BatchFrame(respond, startingReg, p[1]) && a2 == Store(a1, p[1], f1, float32)
    requires log2 == log1 + [Request(ReadInputRegisters, startingReg + p[1].offset, p[1].count)]
    requires f2 == BatchFrame(respond, startingReg, p[2]) && a3 == Store(a2, p[2], f2, float32)
    requires log3 == log2 + [Request(ReadInputRegisters, startingReg + p[2].offset, p[2].count)]
    requires f3 == BatchFrame(respond, startingReg, p[3]) && a4 == Store(a3, p[3], f3, float32)
    requires log4 == log3 + [Request(ReadInputRegisters, startingReg + p[3].offset, p[3].count)]
    ensures a4 == Fill(a0, p, respond, startingReg, float32)
    ensures log4 == log0 + Requests(startingReg, p)
  {
    FillOfFour(a0, p, respond, startingReg, float32);
    var x0 := Request(ReadInputRegisters, startingReg + p[0].offset, p[0].count);
    var x1 := Request(ReadInputRegisters, startingReg + p[1].offset, p[1].count);
    var x2 := Request(ReadInputRegisters, startingReg + p[2].offset, p[2].count);
    var x3 := Request(ReadInputRegisters, startingReg + p[3].offset, p[3].count);
    AppendFour(log0, x0, x1, x2, x3);
    var r := Requests(startingReg, p);
    assert r == [x0, x1, x2, x3] by {
      assert r[0] == x0 && r[1] == x1 && r[2] == x2 && r[3] == x3;
    }
  }

  /** Five batches fetched one after the other leave `Fill` of the plan
      and issue the plan's requests. */
  lemma FetchedFive(p: seq<Batch>, respond: (Byte, int, int) -> seq<Byte>, startingReg: int,
                    float32: (seq<Byte>, int) -> UInt32,
                    a0: seq<UInt32>, a1: seq<UInt32>, a2: seq<UInt32>, a3: seq<UInt32>, a4: seq<UInt32>, a5: seq<UInt32>,
                    f0: seq<Byte>, f1: seq<Byte>, f2: seq<Byte>, f3: seq<Byte>, f4: seq<Byte>,
                    log0: seq<Request>, log1: seq<Request>, log2: seq<Request>, log3: seq<Request>, log4: seq<Request>,
                    log5: seq<Request>)
    requires |p| == 5 && Fits(p, |a0|)
    requires f0 == BatchFrame(respond, startingReg, p[0]) && a1 == Store(a0, p[0], f0, float32)
    requires log1 == log0 + [Request(ReadInputRegisters, startingReg + p[0].offset, p[0].count)]
    requires f1 == BatchFrame(respond, startingReg, p[1]) && a2 == Store(a1, p[1], f1, float32)
    requires log2 == log1 + [Request(ReadInputRegisters, startingReg + p[1].offset, p[1].count)]
    requires f2 == BatchFrame(respond, startingReg, p[2]) && a3 == Store(a2, p[2], f2, float32)
    requires log3 == log2 + [Request(ReadInputRegisters, startingReg + p[2].offset, p[2].count)]
    requires f3 == BatchFrame(respond, startingReg, p[3]) && a4 == Store(a3, p[3], f3, float32)
    requires log4 == log3 + [Request(ReadInputRegisters, startingReg + p[3].offset, p[3].count)]
    requires f4 == BatchFrame(respond, startingReg, p[4]) && a5 == Store(a4, p[4], f4, float32)
    requires log5 == log4 + [Request(ReadInputRegisters, startingReg + p[4].offset, p[4].count)]
    ensures a5 == Fill(a0, p, respond, startingReg, float32)
    ensures log5 == log0 + Requests(startingReg, p)
  {
    var q := p[..4];
    FitsPrefix(p, 4, |a0|);
    assert q[0] == p[0] && q[1] == p[1] && q[2] == p[2] && q[3] == p[3];
    FetchedFour(q, respond, startingReg, float32, a0, a1, a2, a3, a4, f0, f1, f2, f3, log0, log1, log2, log3, log4);
    FillOfFive(a0, p, respond, startingReg, float32);
    RequestsSnoc(startingReg, p, 4);
    assert p[..5] == p;
  }

  /** The reads of the first `k + 1` batches: those of the first `k`, then
      batch `k`'s. */
  lemma RequestsSnoc(startingReg: int, p: seq<Batch>, k: nat)
    requires k < |p|
    ensures Requests(startingReg, p[..k + 1])
         == Requests(startingReg, p[..k]) + [Request(ReadInputRegisters, startingReg + p[k].offset, p[k].count)]
  {
    var r, r0 := Requests(startingReg, p[..k + 1]), Requests(startingReg, p[..k]);
    var last := [Request(ReadInputRegisters, startingReg + p[k].offset, p[k].count)];
    assert |r| == |r0 + last|;
    forall i | 0 <= i < |r| ensures r[i] == (r0 + last)[i] {
      assert p[..k + 1][i] == p[i];
      if i < k {
        assert p[..k][i] == p[i];
      }
    }
  }

  lemma AppendFour<T>(s: seq<T>, x0: T, x1: T, x2: T, x3: T)
    ensures s + [x0] + [x1] + [x2] + [x3] == s + [x0, x1, x2, x3]
  {
  }

  // ---------------------------------------------------------------------
  // getFingerprintData
  // ---------------------------------------------------------------------

  /** Four requests at +0, +124, +248 and +372 of 124, 124, 124 and 70
      registers: back to back, within the request limit, and together
      exactly the 442 registers of the fingerprint data; every loop stores
      one float per register pair it fetched. */
  lemma FingerprintPlanShape(s: ScanTypes.SpectralSource)
    ensures Contiguous(FingerprintPlan()) && |FingerprintPlan()| == 4
    ensures FingerprintPlan()[3].End() == 442
    ensures FingerprintRead(s, FpData).End() == FingerprintRead(s, FpData).start + FingerprintPlan()[3].End()
    ensures forall k :: 0 <= k < 4 ==> 2 * FingerprintPlan()[k].floats == FingerprintPlan()[k].count
    ensures Fits(FingerprintPlan(), 221)
  {
  }

  /** Slots 0 to 220 are each written by exactly one batch, slot `j` by
      batch `j / 62`; no other slot is written. */
  lemma FingerprintWritesOnce(j: nat)
    ensures j < 221 ==> Writers(FingerprintPlan(), j) == 1 && LastWriter(FingerprintPlan(), j) == j / 62
    ensures j >= 221 ==> Writers(FingerprintPlan(), j) == 0
  {
    var p := FingerprintPlan();
    assert p[..3] == [p[0], p[1], p[2]] && p[..3][..2] == [p[0], p[1]] && p[..3][..2][..1] == [p[0]];
    BatchOf(j);
  }

  /** The array `getFingerprintData` leaves: slot `j` below 221 holds float
      `j % 62` of batch `j / 62`'s response, and every other slot keeps its
      value. */
  lemma FingerprintFill(a: seq<UInt32>, respond: (Byte, int, int) -> seq<Byte>, startingReg: int,
                        float32: (seq<Byte>, int) -> UInt32)
    requires |a| >= 221
    ensures var r := Fill(a, FingerprintPlan(), respond, startingReg, float32);
      (forall j :: 0 <= j < 221 ==>
         r[j] == float32(BatchFrame(respond, startingReg, FingerprintPlan()[j / 62]), DecodeIndex(j % 62))) &&
      (forall j :: 221 <= j < |a| ==> r[j] == a[j])
  {
    var r := Fill(a, FingerprintPlan(), respond, startingReg, float32);
    forall j | 0 <= j < |a|
      ensures j < 221 ==> r[j] == float32(BatchFrame(respond, startingReg, FingerprintPlan()[j / 62]), DecodeIndex(j % 62))
      ensures j >= 221 ==> r[j] == a[j]
    {
      FillAt(a, FingerprintPlan(), respond, startingReg, float32, j);
      FingerprintWritesOnce(j);
    }
  }

  /** Every float the fingerprint loops decode lies inside its response. */
  lemma FingerprintDecodesInFrame(k: nat, i: nat)
    requires k < 4 && i < FingerprintPlan()[k].floats
    ensures DecodeIndex(i) + FloatBytes <= FrameLength(FingerprintPlan()[k].count)
  {
  }

  // ---------------------------------------------------------------------
  // getReferenceValues, as written
  // ---------------------------------------------------------------------

  /** Five requests at +0, +124, +248, +372 and +496 of 124, 124, 124, 124
      and 16 registers: back to back, within the request limit, and
      together exactly the 512 registers of the reference values. */
  lemma ReferencePlanShape(r: int)
    ensures Contiguous(ReferencePlan()) && |ReferencePlan()| == 5
    ensures ReferenceValuesRead(r).End() == ReferenceValuesRead(r).start + ReferencePlan()[4].End()
    ensures Fits(ReferencePlan(), 221)
  {
  }

  /** Slots below 186 are written once, slots 186 to 220 twice (the fifth
      batch's value stays), and no slot from 221 on is written, although
      the fetch covers 256 values' worth of registers. */
  lemma ReferenceWrites(j: nat)
    ensures j < 186 ==> Writers(ReferencePlan(), j) == 1 && LastWriter(ReferencePlan(), j) == j / 62
    ensures 186 <= j < 221 ==> Writers(ReferencePlan(), j) == 2 && LastWriter(ReferencePlan(), j) == 4
    ensures j >= 221 ==> Writers(ReferencePlan(), j) == 0
  {
    var p := ReferencePlan();
    WritersOfFive(p, j);
    BatchOf(j);
  }

  /** Writers and last writer of a five-batch plan, batch by batch. */
  lemma WritersOfFive(p: seq<Batch>, j: int)
    requires |p| == 5
    ensures Writers(p, j) == (if p[0].Writes(j) then 1 else 0) + (if p[1].Writes(j) then 1 else 0)
      + (if p[2].Writes(j) then 1 else 0) + (if p[3].Writes(j) then 1 else 0) + (if p[4].Writes(j) then 1 else 0)
    ensures LastWriter(p, j) == if p[4].Writes(j) then 4 else if p[3].Writes(j) then 3
      else if p[2].Writes(j) then 2 else if p[1].Writes(j) then 1 else if p[0].Writes(j) then 0 else -1
  {
    var p4, p3, p2, p1 := p[..4], p[..3], p[..2], p[..1];
    assert p4[..3] == p3 && p3[..2] == p2 && p2[..1] == p1 && p1[..0] == [];
    assert p4[3] == p[3] && p3[2] == p[2] && p2[1] == p[1] && p1[0] == p[0];
    assert Writers(p1, j) == (if p[0].Writes(j) then 1 else 0);
    assert Writers(p2, j) == Writers(p1, j) + (if p[1].Writes(j) then 1 else 0);
    assert Writers(p3, j) == Writers(p2, j) + (if p[2].Writes(j) then 1 else 0);
    assert Writers(p4, j) == Writers(p3, j) + (if p[3].Writes(j) then 1 else 0);
  }

  /** Slot `j` falls in the 62-float batch `j / 62`. */
  lemma BatchOf(j: nat)
    ensures j < 62 ==> j / 62 == 0 && j % 62 == j
    ensures 62 <= j < 124 ==> j / 62 == 1 && j % 62 == j - 62
    ensures 124 <= j < 186 ==> j / 62 == 2 && j % 62 == j - 124
    ensures 186 <= j < 248 ==> j / 62 == 3 && j % 62 == j - 186
    ensures 248 <= j < 256 ==> j / 62 == 4 && j % 62 == j - 248
  {
  }

  /** The array `getReferenceValues` leaves: below 186 as for the
      fingerprint, 186 to 220 the fifth response's floats 0 to 34, and
      everything from 221 on unchanged. */
  lemma ReferenceFill(a: seq<UInt32>, respond: (Byte, int, int) -> seq<Byte>, startingReg: int,
                      float32: (seq<Byte>, int) -> UInt32)
    requires |a| >= 221
    ensures var r := Fill(a, ReferencePlan(), respond, startingReg, float32);
      (forall j :: 0 <= j < 186 ==>
         r[j] == float32(BatchFrame(respond, startingReg, ReferencePlan()[j / 62]), DecodeIndex(j % 62))) &&
      (forall j :: 186 <= j < 221 ==>
         r[j] == float32(BatchFrame(respond, startingReg, ReferencePlan()[4]), DecodeIndex(j - 186))) &&
      (forall j :: 221 <= j < |a| ==> r[j] == a[j])
  {
    var r := Fill(a, ReferencePlan(), respond, startingReg, float32);
    forall j | 0 <= j < |a|
      ensures j < 186 ==> r[j] == float32(BatchFrame(respond, startingReg, ReferencePlan()[j / 62]), DecodeIndex(j % 62))
      ensures 186 <= j < 221 ==> r[j] == float32(BatchFrame(respond, startingReg, ReferencePlan()[4]), DecodeIndex(j - 186))
      ensures j >= 221 ==> r[j] == a[j]
    {
      FillAt(a, ReferencePlan(), respond, startingReg, float32, j);
      ReferenceWrites(j);
    }
  }

  /** The first four reference loops decode inside their responses; the
      fifth, with 16 registers (35 bytes ahead of the CRC), reads floats
      15 to 34 past the end of its response. */
  lemma ReferenceLastBatchOverruns(k: nat, i: nat)
    requires k < 5 && i < ReferencePlan()[k].floats
    ensures DecodeIndex(i) + FloatBytes <= FrameLength(ReferencePlan()[k].count) <==> k < 4 || i < 15
  {
  }

  // ---------------------------------------------------------------------
  // The decode index: as written and as intended
  // ---------------------------------------------------------------------

  /** As written, float `i + 1` starts two bytes into float `i`: each
      decoded value straddles two floats of the device, and of the 248
      data bytes of a full request the loop looks only at the first 126. */
  lemma AsWrittenDecodesOverlap(i: nat)
    ensures DecodeIndex(i + 1) < DecodeIndex(i) + FloatBytes
    ensures DecodeIndex(61) + FloatBytes == HeaderBytes + 126
    ensures FrameLength(124) == HeaderBytes + 248
  {
  }

  /** Byte index of float `i` when every float takes two registers. */
  function IntendedDecodeIndex(i: nat): (index: nat)
    ensures index == RegisterByteIndex(0, 2 * i)
  {
    HeaderBytes + FloatBytes * i
  }

  /** With two registers per float, a loop of `floats` values over a
      request of `2 * floats` registers decodes disjoint four-byte spans
      that exactly tile the response's data bytes. */
  lemma IntendedDecodesTileFrame(b: Batch, i: nat, i': nat)
    requires 2 * b.floats == b.count && i < b.floats && i' < b.floats && i < i'
    ensures IntendedDecodeIndex(i) + FloatBytes <= IntendedDecodeIndex(i')
    ensures IntendedDecodeIndex(b.floats - 1) + FloatBytes == FrameLength(b.count)
    ensures IntendedDecodeIndex(0) == HeaderBytes
  {
  }

  /** Every fingerprint batch fetches exactly the registers of its floats,
      so the intended index decodes every fetched register once. */
  lemma IntendedFingerprintDecodes(k: nat, i: nat)
    requires k < 4 && i < FingerprintPlan()[k].floats
    ensures IntendedDecodeIndex(i) + FloatBytes <= FrameLength(FingerprintPlan()[k].count)
    ensures IntendedDecodeIndex(FingerprintPlan()[k].floats - 1) + FloatBytes == FrameLength(FingerprintPlan()[k].count)
  {
  }

  // ---------------------------------------------------------------------
  // The reference plan: as intended
  // ---------------------------------------------------------------------

  /** The 256 values of a reference: the fourth request's 62 floats at 186
      and the fifth request's 8 floats at 248. */
  function IntendedReferencePlan(): (p: seq<Batch>)
    ensures |p| == 5
  {
    [Batch(0, 124, 0, 62), Batch(124, 124, 62, 62), Batch(248, 124, 124, 62),
     Batch(372, 124, 186, 62), Batch(496, 16, 248, 8)]
  }

  /** The intended plan makes the same requests as the written one, writes
      each of the 256 slots exactly once, and each batch stores one float
      per register pair it fetched. */
  lemma IntendedReferenceCoversOnce(j: nat)
    ensures Contiguous(IntendedReferencePlan()) && Fits(IntendedReferencePlan(), 256)
    ensures forall k :: 0 <= k < 5 ==> 2 * IntendedReferencePlan()[k].floats == IntendedReferencePlan()[k].count
    ensures j < 256 ==> Writers(IntendedReferencePlan(), j) == 1 && LastWriter(IntendedReferencePlan(), j) == j / 62
    ensures j >= 256 ==> Writers(IntendedReferencePlan(), j) == 0
  {
    var p := IntendedReferencePlan();
    WritersOfFive(p, j);
    BatchOf(j);
  }

  /** The intended plan issues the same requests as the written one. */
  lemma IntendedReferenceSameRequests(startingReg: int)
    ensures Requests(startingReg, IntendedReferencePlan()) == Requests(startingReg, ReferencePlan())
  {
    var q, r := Requests(startingReg, IntendedReferencePlan()), Requests(startingReg, ReferencePlan());
    assert forall k :: 0 <= k < 5 ==> q[k] == r[k];
  }
}

/** The stages composed: the map stage over a batch of extracted deals, the
    host's grouping of the emitted pairs by rep id, and the reduce stage once
    per group. The grouping is a host step, not code of the script; here it
    keeps emission order, and the digest properties hold for whatever order
    the host presents. */
module Pipeline {
  import opened Deals
  import opened Text
  import opened MapStage
  import opened ReduceStage
  import MapPolicy

  /** No transform reports a tranid holding a line break. */
  predicate TranidsLineSafe(outs: seq<StoreOutcomes>)
  {
    forall i :: 0 <= i < |outs| ==> NEWLINE !in outs[i].tranid
  }

  /** Every pair the map stage writes for a batch, deal by deal;
      `outs[i]` answers the store calls of deal `i`'s invocation. */
  function MapOutput(deals: seq<Deal>, outs: seq<StoreOutcomes>): (es: seq<Emission>)
    requires |outs| == |deals|
    ensures |es| <= |deals|
    ensures forall e :: e in es ==> e.key == e.value.salesrep && e.value.salesorder.Some?
    ensures TranidsLineSafe(outs) ==> forall e :: e in es ==> NEWLINE !in SalesOrderText(e.value)
    decreases |deals|
  {
    if |deals| == 0 then []
    else
      MapPolicy.EmitIffTransformSaved(deals[0], outs[0]);
      var head := Emissions(Classify(deals[0], outs[0]).effects);
      var rest := MapOutput(deals[1..], outs[1..]);
      assert forall e :: e in head + rest ==> e in head || e in rest;
      head + rest
  }

  /** Invocations are independent: the output of a batch is the outputs of its
      parts, so a failure on one deal never changes what another emits. */
  lemma {:induction false} MapOutputSplits(d1: seq<Deal>, o1: seq<StoreOutcomes>, d2: seq<Deal>, o2: seq<StoreOutcomes>)
    requires |o1| == |d1| && |o2| == |d2|
    ensures MapOutput(d1 + d2, o1 + o2) == MapOutput(d1, o1) + MapOutput(d2, o2)
    decreases |d1|
  {
    if |d1| == 0 {
      assert d1 + d2 == d2 && o1 + o2 == o2;
    } else {
      assert (d1 + d2)[1..] == d1[1..] + d2;
      assert (o1 + o2)[1..] == o1[1..] + o2;
      MapOutputSplits(d1[1..], o1[1..], d2, o2);
    }
  }

  /** A deal whose invocation emits contributes its emission to the batch. */
  lemma {:induction false} EmissionReachesOutput(deals: seq<Deal>, outs: seq<StoreOutcomes>, i: nat)
    requires |outs| == |deals| && i < |deals|
    requires Emits(deals[i], outs[i])
    ensures Emission(deals[i].salesrep, WithSalesOrder(deals[i], outs[i].tranid)) in MapOutput(deals, outs)
    decreases i
  {
    if i == 0 {
      MapPolicy.EmitIffTransformSaved(deals[0], outs[0]);
      var es := Emissions(Classify(deals[0], outs[0]).effects);
      assert es[0] == Emission(deals[0].salesrep, WithSalesOrder(deals[0], outs[0].tranid));
    } else {
      EmissionReachesOutput(deals[1..], outs[1..], i - 1);
    }
  }

  /** Every pair in the batch output comes from one emitting deal. */
  lemma {:induction false} EmissionOrigin(deals: seq<Deal>, outs: seq<StoreOutcomes>, e: Emission) returns (i: nat)
    requires |outs| == |deals| && e in MapOutput(deals, outs)
    ensures i < |deals| && Emits(deals[i], outs[i])
    ensures e == Emission(deals[i].salesrep, WithSalesOrder(deals[i], outs[i].tranid))
    decreases |deals|
  {
    MapPolicy.EmitIffTransformSaved(deals[0], outs[0]);
    var es := Emissions(Classify(deals[0], outs[0]).effects);
    if e in es {
      i := 0;
    } else {
      var j := EmissionOrigin(deals[1..], outs[1..], e);
      i := j + 1;
    }
  }

  /** The reps that received at least one pair. */
  function Keys(es: seq<Emission>): set<RepId>
  {
    set e | e in es :: e.key
  }

  /** The values written under rep `k`, in emission order. */
  function ValuesFor(es: seq<Emission>, k: RepId): (vs: seq<Deal>)
    ensures |vs| <= |es|
    ensures forall v :: v in vs <==> Emission(k, v) in es
    decreases |es|
  {
    if |es| == 0 then []
    else (if es[0].key == k then [es[0].value] else []) + ValuesFor(es[1..], k)
  }

  /** The host's grouping: one non-empty group per rep that received a pair. */
  function Group(es: seq<Emission>): (g: map<RepId, seq<Deal>>)
    ensures g.Keys == Keys(es)
    ensures forall k :: k in g ==> |g[k]| > 0
  {
    var g := map k | k in Keys(es) :: ValuesFor(es, k);
    assert forall k :: k in g ==> |g[k]| > 0 by {
      forall k | k in g
        ensures |g[k]| > 0
      {
        var e :| e in es && e.key == k;
        assert e == Emission(k, e.value);
        assert e.value in g[k];
      }
    }
    g
  }

  /** The reduce stage, once per group; `sendOk(k)` says whether the e-mail
      transport accepts rep `k`'s digest. */
  function RunReduce(g: map<RepId, seq<Deal>>, sendOk: RepId -> bool): (r: map<RepId, seq<ReduceEffect>>)
    ensures r.Keys == g.Keys
  {
    map k | k in g :: Digest(k, g[k], sendOk(k))
  }

  /** One whole run after extraction: a digest for exactly the reps that
      received a pair, each making exactly one send, to the e-mail of the
      first value emitted for that rep. */
  function Run(deals: seq<Deal>, outs: seq<StoreOutcomes>, sendOk: RepId -> bool): (run: map<RepId, seq<ReduceEffect>>)
    requires |outs| == |deals|
    ensures run.Keys == Keys(MapOutput(deals, outs))
    ensures forall k :: k in run ==> |Sends(run[k])| == 1
    ensures forall k :: k in run ==> Sends(run[k])[0].recipients == [ValuesFor(MapOutput(deals, outs), k)[0].email]
  {
    var g := Group(MapOutput(deals, outs));
    var run := RunReduce(g, sendOk);
    assert forall k :: k in run ==> |Sends(run[k])| == 1 && Sends(run[k])[0].recipients == [g[k][0].email] by {
      forall k | k in run
        ensures |Sends(run[k])| == 1 && Sends(run[k])[0].recipients == [g[k][0].email]
      {
        DigestSendsOnce(k, g[k], sendOk(k));
      }
    }
    run
  }

  /** With newline-free tranids, no value grouped under a rep has a line
      break in its order number. */
  lemma GroupLineSafe(deals: seq<Deal>, outs: seq<StoreOutcomes>, k: RepId)
    requires |outs| == |deals| && TranidsLineSafe(outs)
    ensures LineSafe(ValuesFor(MapOutput(deals, outs), k))
  {
    var es := MapOutput(deals, outs);
    var values := ValuesFor(es, k);
    assert forall e :: e in es ==> NEWLINE !in SalesOrderText(e.value);
    forall m | 0 <= m < |values|
      ensures NEWLINE !in SalesOrderText(values[m])
    {
      assert values[m] in values;
      assert Emission(k, values[m]) in es;
    }
  }

  /** Every sales order emitted in a run is reported: its rep gets exactly
      one digest, and that digest's listing names the order's tranid. */
  lemma EveryOrderReported(deals: seq<Deal>, outs: seq<StoreOutcomes>, sendOk: RepId -> bool, i: nat)
    requires |outs| == |deals| && i < |deals|
    requires Emits(deals[i], outs[i]) && TranidsLineSafe(outs)
    ensures var run := Run(deals, outs, sendOk);
      && deals[i].salesrep in run
      && |Sends(run[deals[i].salesrep])| == 1
      && var listed := ListedOrders(Sends(run[deals[i].salesrep])[0].body);
         listed.Some? && outs[i].tranid in listed.value
  {
    var k := deals[i].salesrep;
    var es := MapOutput(deals, outs);
    var v := WithSalesOrder(deals[i], outs[i].tranid);
    EmissionReachesOutput(deals, outs, i);
    assert k in Keys(es);
    var g := Group(es);
    var values := g[k];
    assert values == ValuesFor(es, k);
    assert v in values;
    var j :| 0 <= j < |values| && values[j] == v;
    GroupLineSafe(deals, outs, k);
    DigestListsEveryOrder(k, values, sendOk(k));
    assert SalesOrderText(values[j]) == outs[i].tranid;
    assert Run(deals, outs, sendOk)[k] == Digest(k, values, sendOk(k));
  }

  /** Conversely, a digest goes only to a rep with at least one sales order
      created in the run; `i` is such a deal whenever `k` got a digest. */
  lemma NoDigestWithoutOrder(deals: seq<Deal>, outs: seq<StoreOutcomes>, sendOk: RepId -> bool, k: RepId) returns (i: nat)
    requires |outs| == |deals|
    ensures k in Run(deals, outs, sendOk) ==> i < |deals| && deals[i].salesrep == k && Emits(deals[i], outs[i])
  {
    i := 0;
    if k in Run(deals, outs, sendOk) {
      var es := MapOutput(deals, outs);
      var e :| e in es && e.key == k;
      i := EmissionOrigin(deals, outs, e);
    }
  }

  /** A digest lists only its own rep's orders: every line of rep `k`'s
      listing is the tranid of a deal of `k` whose invocation emitted. */
  lemma ListedOnlyOwnOrders(deals: seq<Deal>, outs: seq<StoreOutcomes>, sendOk: RepId -> bool, k: RepId, line: string)
    returns (i: nat)
    requires |outs| == |deals| && TranidsLineSafe(outs)
    ensures k in Run(deals, outs, sendOk) ==>
              var listed := ListedOrders(Sends(Run(deals, outs, sendOk)[k])[0].body);
              listed.Some? && line in listed.value ==>
                i < |deals| && deals[i].salesrep == k && Emits(deals[i], outs[i]) && line == outs[i].tranid
  {
    i := 0;
    if k in Run(deals, outs, sendOk) {
      var values := ValuesFor(MapOutput(deals, outs), k);
      assert Run(deals, outs, sendOk)[k] == Digest(k, values, sendOk(k));
      GroupLineSafe(deals, outs, k);
      DigestListsEveryOrder(k, values, sendOk(k));
      if line in SalesOrders(values) {
        i := OrderOrigin(deals, outs, k, line);
      }
    }
  }

  /** The deal behind one order number in rep `k`'s group. */
  lemma OrderOrigin(deals: seq<Deal>, outs: seq<StoreOutcomes>, k: RepId, line: string) returns (i: nat)
    requires |outs| == |deals|
    ensures line in SalesOrders(ValuesFor(MapOutput(deals, outs), k)) ==>
              i < |deals| && deals[i].salesrep == k && Emits(deals[i], outs[i]) && line == outs[i].tranid
  {
    i := 0;
    var values := ValuesFor(MapOutput(deals, outs), k);
    var orders := SalesOrders(values);
    if line in orders {
      var j :| 0 <= j < |orders| && orders[j] == line;
      assert values[j] in values;
      i := EmissionOrigin(deals, outs, Emission(k, values[j]));
      assert values[j] == WithSalesOrder(deals[i], outs[i].tranid);
    }
  }

  // ---------------------------------------------------------------------
  // Across runs

  /** The status the last `SetStatus` write on record `id` in `t` stored. */
  function LastStatusWrite(t: seq<Effect>, id: RecordId): Option<string>
    decreases |t|
  {
    if |t| == 0 then None
    else
      var e := t[|t| - 1];
      if e.SubmitFields? && e.update.SetStatus? && e.id == id then Some(e.update.status)
      else LastStatusWrite(t[..|t| - 1], id)
  }

  /** The row the next run's extraction returns for `d`, given what this run's
      invocation on it did. Only the status column is written back (the flag
      is not a selected column); an aborted invocation's write failed. Nothing
      else is assumed to change the record between runs. */
  function NextPassRow(d: Deal, inv: Invocation): (next: Deal)
    ensures next.id == d.id && next.salesrep == d.salesrep && next.totalamount == d.totalamount
    ensures IsQueryRow(next)
  {
    var status :=
      if inv.completion == Aborted then d.status
      else match LastStatusWrite(inv.effects, d.id)
        case Some(s) => s
        case None => d.status;
    d.(status := status, salesorder := None)
  }

  /** An open deal below the limit whose status write succeeded comes back as
      "Approved" on the next run and is transformed again, whether or not the
      first transform succeeded: the policy does not guard against a second
      sales order. */
  lemma SecondPassTransformsAgain(d: Deal, o: StoreOutcomes, o2: StoreOutcomes)
    requires AutoApproves(d) && o.writeOk
    ensures var next := NextPassRow(d, Classify(d, o));
      && next.status == APPROVED
      && Count(Classify(d, o).effects, TransformCall) == 1
      && Count(Classify(next, o2).effects, TransformCall) == 1
  {
    var t := Classify(d, o).effects;
    var w := [SubmitFields(d.id, SetStatus(APPROVED))];
    var tail := TransformAndEmit(d, o);
    assert t == w + tail && |t| == 3;
    assert t[..2][..1] == w;
    assert !t[2].SubmitFields? && !t[1].SubmitFields?;
    assert LastStatusWrite(w, d.id) == Some(APPROVED);
    assert LastStatusWrite(t[..2], d.id) == LastStatusWrite(w, d.id);
    assert LastStatusWrite(t, d.id) == LastStatusWrite(t[..2], d.id);
    MapPolicy.SmallOpenApprovesThenTransforms(d, o);
    MapPolicy.ApprovedTransformsOnce(NextPassRow(d, Classify(d, o)), o2);
  }

  /** A large open deal stays open across runs: each run writes the flag
      again and never transforms it. */
  lemma LargeDealNeverTransformed(d: Deal, o: StoreOutcomes, o2: StoreOutcomes)
    requires NeedsManualApproval(d)
    ensures var next := NextPassRow(d, Classify(d, o));
      && next.status == OPEN
      && Classify(next, o2).effects == [SubmitFields(d.id, SetNeedsManualApproval(true))]
  {
    var t := Classify(d, o).effects;
    assert t == [SubmitFields(d.id, SetNeedsManualApproval(true))];
    assert t[..0] == [];
    assert LastStatusWrite(t, d.id) == None;
    MapPolicy.LargeOpenFlagsOnly(NextPassRow(d, Classify(d, o)), o2);
  }
}

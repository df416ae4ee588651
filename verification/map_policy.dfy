/** What the approval policy promises, stated over the effect traces of
    `MapStage.Classify`: which calls happen for each kind of deal, in what
    order, how many, and what an emission carries. */
module MapPolicy {
  import opened Deals
  import opened MapStage

  /** An open deal below the limit: the status write comes first; when it
      succeeds exactly one transform follows and the invocation completes. */
  lemma SmallOpenApprovesThenTransforms(d: Deal, o: StoreOutcomes)
    requires AutoApproves(d)
    ensures var r := Classify(d, o);
      && r.effects[0] == SubmitFields(d.id, SetStatus(APPROVED))
      && Count(r.effects, WriteCall) == 1
      && (o.writeOk ==>
            && r.effects[1] == TransformAttempt(d.id)
            && Count(r.effects, TransformCall) == 1
            && r.completion == Completed)
  {
    var t := TransformAndEmit(d, o);
    CountConcat([SubmitFields(d.id, SetStatus(APPROVED))], t, WriteCall);
    CountConcat([SubmitFields(d.id, SetStatus(APPROVED))], t, TransformCall);
  }

  /** An open deal at or above the limit: the manual-approval flag write is the
      only effect; its status is not written, nothing is transformed, nothing
      is emitted. */
  lemma LargeOpenFlagsOnly(d: Deal, o: StoreOutcomes)
    requires NeedsManualApproval(d)
    ensures var r := Classify(d, o);
      && r.effects == [SubmitFields(d.id, SetNeedsManualApproval(true))]
      && Count(r.effects, TransformCall) == 0
      && Emissions(r.effects) == []
      && (r.completion == Completed <==> o.writeOk)
  {
  }

  /** A deal already approved: exactly one transform, no field write, whatever
      the amount, and the invocation always completes. */
  lemma ApprovedTransformsOnce(d: Deal, o: StoreOutcomes)
    requires IsApproved(d)
    ensures var r := Classify(d, o);
      && r.effects[0] == TransformAttempt(d.id)
      && Count(r.effects, TransformCall) == 1
      && Count(r.effects, WriteCall) == 0
      && r.completion == Completed
  {
    assert Classify(d, o).effects == [] + TransformAndEmit(d, o) == TransformAndEmit(d, o);
  }

  /** Any other status ("Pending", a closed status, a misspelling) produces no
      effect at all. */
  lemma OtherStatusInert(d: Deal, o: StoreOutcomes)
    requires d.status != OPEN && d.status != APPROVED
    ensures Classify(d, o) == Invocation([], Completed)
  {
  }

  /** The extraction filter is redundant for the policy: a closed deal that did
      reach the map stage would be left alone. */
  lemma ClosedDealsInert(d: Deal, o: StoreOutcomes)
    requires !PassesExtractionFilter(d)
    ensures Classify(d, o) == Invocation([], Completed)
  {
    OtherStatusInert(d, o);
  }

  /** An emission happens exactly when a transform was reached and it, the
      save and the write of the pair all succeeded. It is keyed by the rep, carries the transform's
      tranid, and leaves every other field of the deal as extracted. */
  lemma EmitIffTransformSaved(d: Deal, o: StoreOutcomes)
    ensures var es := Emissions(Classify(d, o).effects);
      && (|es| == 1 <==> Emits(d, o))
      && |es| <= 1
      && (|es| == 1 ==>
            && es[0].key == d.salesrep
            && es[0].value.salesorder == Some(o.tranid)
            && es[0].value.(salesorder := d.salesorder) == d)
  {
    var r := Classify(d, o);
    var t := TransformAndEmit(d, o);
    var emitted := [Emit(Emission(d.salesrep, WithSalesOrder(d, o.tranid)))];
    var logged := [LogError(TRANSFORM_ERROR)];
    EmissionsConcat([TransformAttempt(d.id)], emitted);
    EmissionsConcat([TransformAttempt(d.id)], logged);
    if AutoApproves(d) && o.writeOk {
      EmissionsConcat([SubmitFields(d.id, SetStatus(APPROVED))], t);
    } else if IsApproved(d) {
      assert r.effects == [] + t == t;
      EmissionsConcat([], t);
    }
  }

  /** A transform, save or pair-write failure is caught: one logged error, no
      emission, normal completion. */
  lemma TransformFailureLogged(d: Deal, o: StoreOutcomes)
    requires ReachesTransform(d, o)
    requires !o.transformOk || !o.saveOk || !o.emitOk
    ensures var r := Classify(d, o);
      && Count(r.effects, Logged) == 1
      && r.effects[|r.effects| - 1] == LogError(TRANSFORM_ERROR)
      && Emissions(r.effects) == []
      && r.completion == Completed
  {
    var r := Classify(d, o);
    var t := TransformAndEmit(d, o);
    EmitIffTransformSaved(d, o);
    if AutoApproves(d) {
      CountConcat([SubmitFields(d.id, SetStatus(APPROVED))], t, Logged);
    } else {
      assert r.effects == [] + t == t;
    }
  }

  /** A failed status or flag write is not caught: the invocation aborts with
      that write as its only effect, before any transform. */
  lemma WriteFailureAborts(d: Deal, o: StoreOutcomes)
    requires d.status == OPEN && !o.writeOk
    ensures var r := Classify(d, o);
      && r.completion == Aborted
      && |r.effects| == 1
      && r.effects[0].SubmitFields? && r.effects[0].id == d.id
      && Count(r.effects, TransformCall) == 0
      && Emissions(r.effects) == []
  {
  }

  /** Per invocation: at most one transform, at most two store calls, at most
      one emission, at most one logged error. In particular no deal is
      transformed twice in one pass: the third check reads the extracted
      status, which cannot be both "Open" and "Approved". */
  lemma InvocationBounds(d: Deal, o: StoreOutcomes)
    ensures var t := Classify(d, o).effects;
      && Count(t, TransformCall) <= 1
      && StoreCalls(t) <= 2
      && |Emissions(t)| <= 1
      && Count(t, Logged) <= 1
  {
    var t := TransformAndEmit(d, o);
    if AutoApproves(d) && o.writeOk {
      var w := [SubmitFields(d.id, SetStatus(APPROVED))];
      CountConcat(w, t, WriteCall);
      CountConcat(w, t, TransformCall);
      CountConcat(w, t, Emitted);
      CountConcat(w, t, Logged);
    } else if IsApproved(d) {
      assert Classify(d, o).effects == [] + t == t;
    } else {
      var e := Classify(d, o).effects;
      assert |e| <= 1;
      if |e| == 1 {
        assert e[0].SubmitFields? && e[1..] == [];
        assert Count(e[1..], WriteCall) == 0 && Count(e[1..], TransformCall) == 0;
      }
    }
  }

  /** Rank of an effect in the order the policy issues them. */
  function Stage(e: Effect): nat
  {
    match e
    case SubmitFields(_, _) => 0
    case TransformAttempt(_) => 1
    case Emit(_) => 2
    case LogError(_) => 2
  }

  /** Effects come in call order: field write, then transform, then the
      emission or the logged error; and every store call targets the deal's
      own record. */
  lemma EffectsInCallOrder(d: Deal, o: StoreOutcomes)
    ensures var t := Classify(d, o).effects;
      && (forall i, j :: 0 <= i < j < |t| ==> Stage(t[i]) < Stage(t[j]))
      && (forall i :: 0 <= i < |t| && t[i].SubmitFields? ==> t[i].id == d.id)
      && (forall i :: 0 <= i < |t| && t[i].TransformAttempt? ==> t[i].id == d.id)
  {
  }
}

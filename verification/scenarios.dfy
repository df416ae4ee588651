/** Three concrete runs: a small open deal, a large open deal, and an
    approved deal whose transform fails next to one that succeeds. */
module Scenarios {
  import opened Deals
  import opened MapStage
  import opened ReduceStage
  import opened Pipeline
  import MapPolicy

  const SMALL: Deal := Deal(1, 7, 5000, "a@x", OPEN, None)
  const LARGE: Deal := Deal(2, 8, 50000, "b@x", OPEN, None)
  const FAILING: Deal := Deal(3, 9, 1, "c@x", APPROVED, None)

  const WORKING: StoreOutcomes := StoreOutcomes(true, true, "SO1", true, true)
  const BROKEN_TRANSFORM: StoreOutcomes := StoreOutcomes(true, false, "", true, true)

  /** The batch of the small open deal alone emits its one pair. */
  lemma SmallBatchOutput()
    ensures MapOutput([SMALL], [WORKING]) == [Emission(7, SMALL.(salesorder := Some("SO1")))]
  {
    MapPolicy.EmitIffTransformSaved(SMALL, WORKING);
    assert MapOutput([SMALL], [WORKING]) == Emissions(Classify(SMALL, WORKING).effects) + MapOutput([], []);
  }

  /** A small open deal: status written, one transform, one pair keyed by its
      rep, and that rep's single digest goes to its e-mail and lists the order. */
  lemma SmallOpenDealRun(sendOk: RepId -> bool)
    ensures Classify(SMALL, WORKING).effects ==
      [ SubmitFields(1, SetStatus(APPROVED)),
        TransformAttempt(1),
        Emit(Emission(7, SMALL.(salesorder := Some("SO1")))) ]
    ensures var run := Run([SMALL], [WORKING], sendOk);
      && run.Keys == {7}
      && |Sends(run[7])| == 1
      && Sends(run[7])[0].recipients == ["a@x"]
      && ListedOrders(Sends(run[7])[0].body) == Some(["SO1"])
  {
    var v := SMALL.(salesorder := Some("SO1"));
    var es := [Emission(7, v)];
    SmallBatchOutput();
    assert Keys(es) == {7};
    assert ValuesFor(es, 7) == [v] by {
      assert es[1..] == [];
    }
    assert LineSafe([v]);
    DigestListsEveryOrder(7, [v], sendOk(7));
    assert SalesOrders([v]) == ["SO1"];
  }


  /** A large open deal: only the manual-approval flag is written, nothing is
      emitted, and no digest is sent to anyone. */
  lemma LargeOpenDealRun(sendOk: RepId -> bool)
    ensures Classify(LARGE, WORKING).effects == [SubmitFields(2, SetNeedsManualApproval(true))]
    ensures Run([LARGE], [WORKING], sendOk) == map[]
  {
    MapPolicy.LargeOpenFlagsOnly(LARGE, WORKING);
    assert MapOutput([LARGE], [WORKING]) == [] + MapOutput([], []);
    assert Keys([]) == {};
  }

  /** The batch of a failing deal followed by the small open deal emits only
      the small deal's pair. */
  lemma MixedBatchOutput()
    ensures MapOutput([FAILING, SMALL], [BROKEN_TRANSFORM, WORKING]) == [Emission(7, SMALL.(salesorder := Some("SO1")))]
  {
    MapPolicy.TransformFailureLogged(FAILING, BROKEN_TRANSFORM);
    MapPolicy.EmitIffTransformSaved(SMALL, WORKING);
    var v := SMALL.(salesorder := Some("SO1"));
    assert [FAILING, SMALL][1..] == [SMALL] && [BROKEN_TRANSFORM, WORKING][1..] == [WORKING];
    assert MapOutput([SMALL], [WORKING]) == [Emission(7, v)] + MapOutput([], []);
  }

  /** A failing transform on one deal is logged and drops only that deal: its
      rep gets no digest, while the next deal's rep still gets one. */
  lemma FailedTransformIsLocal(sendOk: RepId -> bool)
    ensures Count(Classify(FAILING, BROKEN_TRANSFORM).effects, Logged) == 1
    ensures var run := Run([FAILING, SMALL], [BROKEN_TRANSFORM, WORKING], sendOk);
      && 9 !in run
      && 7 in run
  {
    MapPolicy.TransformFailureLogged(FAILING, BROKEN_TRANSFORM);
    MixedBatchOutput();
    assert Keys([Emission(7, SMALL.(salesorder := Some("SO1")))]) == {7};
  }
}

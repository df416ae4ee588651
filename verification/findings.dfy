/** Two places where the script as written cannot do what it evidently
    intends. For each, the behaviour as written is modelled here and shown to
    differ from the intended behaviour, which the rest of the model follows. */
module Findings {
  import opened Deals
  import opened Text
  import opened MapStage
  import opened ReduceStage
  import MapPolicy

  // ---------------------------------------------------------------------
  // 1. The module loader lists only 'N/search' and 'N/query'. The names
  //    `record` and `email` are therefore unbound, and evaluating
  //    `record.submitFields`, `record.transform` or `email.send` throws a
  //    ReferenceError before any store or e-mail call is issued.

  /** The map invocation as written: the ReferenceError in either write branch
      is uncaught; in the approved branch it is raised inside the `try` and
      logged. */
  function ClassifyAsWritten(d: Deal): (r: Invocation)
    ensures StoreCalls(r.effects) == 0
    ensures Emissions(r.effects) == []
  {
    if AutoApproves(d) || NeedsManualApproval(d) then Invocation([], Aborted)
    else if IsApproved(d) then
      var logged := [LogError(TRANSFORM_ERROR)];
      assert logged[1..] == [];
      assert Count(logged, WriteCall) == 0 + Count(logged[1..], WriteCall) == 0;
      assert Count(logged, TransformCall) == 0 + Count(logged[1..], TransformCall) == 0;
      Invocation(logged, Completed)
    else Invocation([], Completed)
  }

  /** The reduce invocation as written: `email` is unbound, so every group only
      logs, even one with values. */
  function DigestAsWritten(key: RepId, values: seq<Deal>): (r: seq<ReduceEffect>)
    ensures Sends(r) == []
    ensures |r| == 1 && r[0].LogSendError?
  {
    [LogSendError(EMAIL_ERROR, key)]
  }

  /** As written, no deal ever yields a sales order or a digest, while with the
      two modules loaded and a store that answers, the same small open deal is
      approved, transformed and emitted. */
  lemma MissingImportsLoseEveryOrder(d: Deal, o: StoreOutcomes)
    requires AutoApproves(d)
    requires o.writeOk && o.transformOk && o.saveOk && o.emitOk
    ensures ClassifyAsWritten(d) == Invocation([], Aborted)
    ensures Emissions(Classify(d, o).effects) == [Emission(d.salesrep, WithSalesOrder(d, o.tranid))]
  {
    MapPolicy.EmitIffTransformSaved(d, o);
  }

  /** As written, a group whose send the transport would accept still gets no
      digest; with 'N/email' loaded it gets exactly one. */
  lemma MissingEmailImportDropsDigest(key: RepId, values: seq<Deal>)
    requires |values| > 0
    ensures Sends(DigestAsWritten(key, values)) == []
    ensures |Sends(Digest(key, values, true))| == 1
  {
    DigestSendsOnce(key, values, true);
  }

  // ---------------------------------------------------------------------
  // 2. The reduce stage receives the values as the JSON strings the map stage
  //    wrote, but reads `.salesorder` and `[0].email` off them without
  //    parsing. A property of a string primitive is `undefined`, which the
  //    join renders as "".

  /** The listing as written: one empty line per value. */
  function RawListing(values: seq<string>): seq<string>
  {
    seq(|values|, _ => "")
  }

  function RawEmailBody(values: seq<string>): string
  {
    BODY_HEAD + Join(RawListing(values), NEWLINE) + BODY_TAIL
  }

  /** As written, a digest names no sales order at all: its listing reads
      back as empty lines only, one per value. */
  lemma RawDigestListsNoOrder(values: seq<string>, tranid: string)
    requires |values| > 0 && tranid != ""
    ensures ListedOrders(RawEmailBody(values)) == Some(RawListing(values))
    ensures tranid !in RawListing(values)
  {
    var listing := Join(RawListing(values), NEWLINE);
    var body := RawEmailBody(values);
    assert body[..|BODY_HEAD|] == BODY_HEAD;
    assert body[|body| - |BODY_TAIL|..] == BODY_TAIL;
    assert body[|BODY_HEAD|..|body| - |BODY_TAIL|] == listing;
    SplitJoin(RawListing(values), NEWLINE);
  }

  /** The emitted value for a sales order "SO1", as the reduce stage sees it
      in each reading: the decoded digest lists "SO1", the raw one does not. */
  lemma RawDigestCounterexample(d: Deal)
    requires d.salesorder == Some("SO1")
    ensures ListedOrders(EmailBody([d])) == Some(["SO1"])
    ensures ListedOrders(RawEmailBody(["{\"salesorder\":\"SO1\"}"])) == Some([""])
  {
    assert SalesOrders([d]) == ["SO1"];
    RawDigestListsNoOrder(["{\"salesorder\":\"SO1\"}"], "SO1");
    assert RawListing(["{\"salesorder\":\"SO1\"}"]) == [""];
  }
}

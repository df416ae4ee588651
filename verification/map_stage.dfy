/** The map stage: the approval policy applied to one extracted deal.

    The record store is not modelled; its answers come in as a
    `StoreOutcomes` oracle, and the stage's observable behaviour is the trace
    of effects it issues, in order, plus whether the invocation completed or
    was aborted by an uncaught store error. */
module MapStage {
  import opened Deals

  /** The two field writes the policy issues through `submitFields`. */
  datatype FieldUpdate =
    | SetStatus(status: string)
    | SetNeedsManualApproval(flag: bool)

  /** One key/value pair written to the map context: the rep id and the deal
      with its sales order attached. */
  datatype Emission = Emission(key: RepId, value: Deal)

  datatype Effect =
    | SubmitFields(id: RecordId, update: FieldUpdate)
    | TransformAttempt(id: RecordId)
    | Emit(emission: Emission)
    | LogError(title: string)

  datatype Completion = Completed | Aborted

  /** What one map invocation did. */
  datatype Invocation = Invocation(effects: seq<Effect>, completion: Completion)

  /** How the host answers during one invocation: whether a field write
      succeeds, whether the opportunity-to-sales-order transform succeeds, the
      tranid the new sales order reports, whether saving it succeeds, and
      whether the following `mapContext.write` succeeds (it sits inside the
      same `try`, after the save, so its failure leaves a saved sales order
      that is logged but not emitted). At most one write and one transform happen per invocation
      (see `InvocationBounds`), so one answer of each kind suffices. */
  datatype StoreOutcomes = StoreOutcomes(writeOk: bool, transformOk: bool, tranid: string, saveOk: bool, emitOk: bool)

  const TRANSFORM_ERROR: string := "Sales Order Transformation Error"

  /** The first branch's guard: small open deals are approved automatically. */
  predicate AutoApproves(d: Deal)
  {
    d.totalamount < AUTO_APPROVE_LIMIT && d.status == OPEN
  }

  /** The second branch's guard: large open deals wait for a human. */
  predicate NeedsManualApproval(d: Deal)
  {
    d.status == OPEN && d.totalamount >= AUTO_APPROVE_LIMIT
  }

  /** The independent third check, on the status as extracted. */
  predicate IsApproved(d: Deal)
  {
    d.status == APPROVED
  }

  /** Whether an invocation reaches a transform: through the first branch
      once its status write succeeded, or through the third check. */
  predicate ReachesTransform(d: Deal, o: StoreOutcomes)
  {
    (AutoApproves(d) && o.writeOk) || IsApproved(d)
  }

  /** Whether an invocation emits: a transform is reached, it and the save of
      the new sales order succeed, and so does the write of the pair. */
  predicate Emits(d: Deal, o: StoreOutcomes)
  {
    ReachesTransform(d, o) && o.transformOk && o.saveOk && o.emitOk
  }

  /** The deal as emitted: the sales order's tranid attached. */
  function WithSalesOrder(d: Deal, tranid: string): Deal
  {
    d.(salesorder := Some(tranid))
  }

  /** The guarded transform block, identical in both places it occurs: a
      transform, then (when it, the save and the write of the pair succeed)
      an emission keyed by the rep; any failure inside is caught and logged. */
  function TransformAndEmit(d: Deal, o: StoreOutcomes): (t: seq<Effect>)
    ensures |t| == 2 && t[0] == TransformAttempt(d.id)
    ensures Count(t, WriteCall) == 0
    ensures Count(t, TransformCall) == 1
    ensures Count(t, Emitted) + Count(t, Logged) == 1
    ensures Count(t, Emitted) == 1 <==> o.transformOk && o.saveOk && o.emitOk
  {
    var outcome := if o.transformOk && o.saveOk && o.emitOk then [Emit(Emission(d.salesrep, WithSalesOrder(d, o.tranid)))]
                   else [LogError(TRANSFORM_ERROR)];
    // The counts of a concatenation, needed for the ensures clauses above.
    CountConcat([TransformAttempt(d.id)], outcome, WriteCall);
    CountConcat([TransformAttempt(d.id)], outcome, TransformCall);
    CountConcat([TransformAttempt(d.id)], outcome, Emitted);
    CountConcat([TransformAttempt(d.id)], outcome, Logged);
    [TransformAttempt(d.id)] + outcome
  }

  /** The if / else-if on status and amount. The flag says whether the step
      finished normally: the `submitFields` calls sit outside any `try`. */
  function ApprovalStep(d: Deal, o: StoreOutcomes): (seq<Effect>, bool)
  {
    if AutoApproves(d) then
      var write := [SubmitFields(d.id, SetStatus(APPROVED))];
      if o.writeOk then (write + TransformAndEmit(d, o), true) else (write, false)
    else if NeedsManualApproval(d) then
      ([SubmitFields(d.id, SetNeedsManualApproval(true))], o.writeOk)
    else
      ([], true)
  }

  /** One map invocation on deal `d`. The status check after the
      if / else-if reads the extracted status, which the status write does
      not change. */
  function Classify(d: Deal, o: StoreOutcomes): (r: Invocation)
    ensures r.completion == Aborted <==> d.status == OPEN && !o.writeOk
    ensures r.completion == Aborted ==> |r.effects| == 1 && r.effects[0].SubmitFields?
    ensures |r.effects| <= 3
  {
    var (head, finished) := ApprovalStep(d, o);
    if !finished then Invocation(head, Aborted)
    else if IsApproved(d) then Invocation(head + TransformAndEmit(d, o), Completed)
    else Invocation(head, Completed)
  }

  // ---------------------------------------------------------------------
  // Counting effects in a trace

  datatype Kind = WriteCall | TransformCall | Emitted | Logged

  function KindOf(e: Effect): Kind
  {
    match e
    case SubmitFields(_, _) => WriteCall
    case TransformAttempt(_) => TransformCall
    case Emit(_) => Emitted
    case LogError(_) => Logged
  }

  /** Number of effects of kind `k` in trace `t`. */
  function Count(t: seq<Effect>, k: Kind): nat
    decreases |t|
  {
    if |t| == 0 then 0
    else (if KindOf(t[0]) == k then 1 else 0) + Count(t[1..], k)
  }

  lemma {:induction false} CountConcat(a: seq<Effect>, b: seq<Effect>, k: Kind)
    ensures Count(a + b, k) == Count(a, k) + Count(b, k)
    decreases |a|
  {
    if |a| > 0 {
      assert (a + b)[1..] == a[1..] + b;
      CountConcat(a[1..], b, k);
    } else {
      assert a + b == b;
    }
  }

  /** Calls into the record store: field writes and transforms. */
  function StoreCalls(t: seq<Effect>): nat
  {
    Count(t, WriteCall) + Count(t, TransformCall)
  }

  /** The key/value pairs a trace writes, in order. */
  function Emissions(t: seq<Effect>): (es: seq<Emission>)
    ensures |es| == Count(t, Emitted)
    ensures forall e :: e in es ==> Emit(e) in t
    decreases |t|
  {
    if |t| == 0 then []
    else (if t[0].Emit? then [t[0].emission] else []) + Emissions(t[1..])
  }

  lemma {:induction false} EmissionsConcat(a: seq<Effect>, b: seq<Effect>)
    ensures Emissions(a + b) == Emissions(a) + Emissions(b)
    decreases |a|
  {
    if |a| > 0 {
      assert (a + b)[1..] == a[1..] + b;
      EmissionsConcat(a[1..], b);
    } else {
      assert a + b == b;
    }
  }
}

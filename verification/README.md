# Deal approval map/reduce, modelled in Dafny

This project models the decision logic of the NetSuite map/reduce script
`KM_TechnicalAssessment_MR.js`. The script reviews open opportunities
("deals"), approves the small ones, turns approved ones into sales orders,
and mails each sales rep a digest of the sales orders created for them.

- **Map stage** (`MapStage`, properties in `MapPolicy`). `Classify(d, o)` is
  one `map` invocation on an extracted deal `d`. The record store's answers
  come from an oracle `o`: does the field write succeed, does the transform
  succeed, which tranid does it report, does the save succeed, does the write
  of the emitted pair succeed. The result is
  the ordered trace of effects (`SubmitFields`, `TransformAttempt`, `Emit`,
  `LogError`) and whether the invocation completed or was aborted by an
  uncaught store error.
- **Reduce stage** (`ReduceStage`). `Digest(key, values, sendOk)` is one
  `reduce` invocation. It makes one send request to the first value's e-mail,
  whose body lists every value's sales order joined by line breaks. A failed
  send is logged. `Text` gives the join and its inverse split, so a body can
  be read back into its listing.
- **Pipeline** (`Pipeline`). Runs the map stage over a batch, groups the
  emitted pairs by rep id (a host step, kept in emission order), and reduces
  each group. Its lemmas relate individual deals to digests, and also relate
  one run to the next.
- **Findings** (`Findings`). The script as written differs from its evident
  intent in two places. Both behaviours are modelled.
- **Scenarios** (`Scenarios`). Three concrete runs.

Points where the model follows the code rather than what a reader might expect:

- Statuses are strings compared with `'Open'` and `'Approved'`, not a closed
  enumeration. So a deal with any other status (e.g. "Pending") is possible
  and is left untouched.
- The reduce key is the rep's employee id written by `mapContext.write`. The
  comment at line 148 says it is an e-mail; it is not.
- The store calls per invocation counted here are the field write and the
  transform. The save is part of the transform's outcome.
- An empty group sends nothing. The body is built outside the `try` and cannot
  fail, but `values[0].email` throws inside it, and that error is logged.

## Model

| member | source | states |
|---|---|---|
| `Text.SplitJoin` | KM_TechnicalAssessment_MR.js:153 | splitting the newline-joined listing on '\n' gives back exactly the joined order numbers, when the list is non-empty and no number holds a line break |
| `Text.JoinSplit` | KM_TechnicalAssessment_MR.js:153 | joining the pieces of a split on '\n' gives back the original text, so the listing and its lines determine each other |
| `MapStage.Classify` | KM_TechnicalAssessment_MR.js:67-127 | an invocation aborts exactly when the deal is "Open" and its uncaught field write fails; an aborted invocation's only effect is that write; no invocation has more than three effects |
| `MapStage.TransformAndEmit` | KM_TechnicalAssessment_MR.js:81-97 | the guarded transform block (it recurs at lines 109-125): two effects, the transform first; no field write; then exactly one of an emission or a logged error, the emission exactly when the transform, the save and the write of the pair all succeed |
| `MapStage.Emissions` | KM_TechnicalAssessment_MR.js:93 | the pairs written by a trace are as many as its `Emit` effects, and each comes from one of them |
| `MapPolicy.SmallOpenApprovesThenTransforms` | KM_TechnicalAssessment_MR.js:72-86 | an "Open" deal below 10000: the first effect writes status "Approved"; it is the only field write; when it succeeds, the next effect is the one and only transform, and the invocation completes |
| `MapPolicy.LargeOpenFlagsOnly` | KM_TechnicalAssessment_MR.js:98-104 | an "Open" deal at or above 10000 (10000 itself included): the only effect is the manual-approval flag write; no transform, no emission; the invocation completes exactly when the write succeeds |
| `MapPolicy.ApprovedTransformsOnce` | KM_TechnicalAssessment_MR.js:107-126 | an "Approved" deal of any amount: exactly one transform, issued first, no field write, and normal completion |
| `MapPolicy.OtherStatusInert` | KM_TechnicalAssessment_MR.js:72-107 | a status other than "Open" or "Approved" yields no effect at all and normal completion |
| `MapPolicy.ClosedDealsInert` | KM_TechnicalAssessment_MR.js:37-38 | a deal the extraction filter would exclude (Closed Won / Closed Lost) would be left untouched by the policy anyway |
| `MapPolicy.EmitIffTransformSaved` | KM_TechnicalAssessment_MR.js:81-121 | a pair is emitted iff a transform is reached (small "Open" deal with a successful write, or "Approved" deal) and the transform, the save and the write of the pair all succeed; it is keyed by the rep, carries the transform's tranid as `salesorder`, and no other field of the deal changes |
| `MapPolicy.TransformFailureLogged` | KM_TechnicalAssessment_MR.js:81-125 | when a transform is reached but it, the save or the write of the pair fails: one logged error, as the last effect, no emission, normal completion |
| `MapPolicy.WriteFailureAborts` | KM_TechnicalAssessment_MR.js:72-104 | a failed status or flag write on an "Open" deal aborts the invocation; that write on the deal's record is the only effect, and no transform is attempted |
| `MapPolicy.InvocationBounds` | KM_TechnicalAssessment_MR.js:72-126 | every invocation makes at most one transform, at most two store calls, at most one emission and at most one logged error |
| `MapPolicy.EffectsInCallOrder` | KM_TechnicalAssessment_MR.js:72-126 | effects occur strictly as field write, then transform, then emission or logged error; every write and transform targets the deal's own record |
| `ReduceStage.Digest` | KM_TechnicalAssessment_MR.js:147-166 | one or two effects; the trace ends in a logged "Email Error" naming the rep exactly when the group is empty or the send fails; no other error is logged |
| `ReduceStage.EmailBody` | KM_TechnicalAssessment_MR.js:151-154 | the body, with the template's exact line breaks and indentation, is always shaped like a digest; for a non-empty group without line breaks in its order numbers it reads back as exactly those numbers, in the order presented |
| `ReduceStage.DigestSendsOnce` | KM_TechnicalAssessment_MR.js:156-162 | every non-empty group yields exactly one send: from the system user (-1), to the first value's e-mail only, with subject "Sales Orders Created" and the digest body |
| `ReduceStage.DigestListsEveryOrder` | KM_TechnicalAssessment_MR.js:149-153 | when no order number holds a line break, the group's one send lists exactly the values' order numbers in the order presented, so every value's order appears |
| `ReduceStage.EmptyGroupLogged` | KM_TechnicalAssessment_MR.js:156-165 | an empty group makes no send; the error raised inside the `try` is logged and not propagated |
| `ReduceStage.OnlyFirstContactNotified` | KM_TechnicalAssessment_MR.js:159 | when a later value carries a different e-mail, that address receives nothing |
| `Pipeline.MapOutput` | KM_TechnicalAssessment_MR.js:90-121 | a batch emits at most one pair per deal; every pair is keyed by its value's rep and carries a sales order; newline-free tranids give newline-free listings |
| `Pipeline.MapOutputSplits` | KM_TechnicalAssessment_MR.js:67-127 | invocations are independent: a batch's output is the concatenation of its parts' outputs, so one deal's failure changes nothing emitted for another |
| `Pipeline.EmissionReachesOutput` | KM_TechnicalAssessment_MR.js:93-121 | a deal whose invocation emits contributes its rep-keyed pair, with its tranid, to the batch output |
| `Pipeline.EmissionOrigin` | KM_TechnicalAssessment_MR.js:93-121 | every pair in the batch output is the emission of one deal whose invocation emits |
| `Pipeline.ValuesFor` | KM_TechnicalAssessment_MR.js:139-140 | a rep's values are exactly the values emitted under that rep's key |
| `Pipeline.Group` | KM_TechnicalAssessment_MR.js:139-140 | one group per rep that received a pair, and no group is empty |
| `Pipeline.RunReduce` | KM_TechnicalAssessment_MR.js:145-147 | one reduce invocation per group key, and no other |
| `Pipeline.Run` | KM_TechnicalAssessment_MR.js:67-166 | a whole run sends a digest for exactly the reps that received a pair; each makes exactly one send, to the e-mail of the first value emitted for that rep |
| `Pipeline.GroupLineSafe` | KM_TechnicalAssessment_MR.js:93-153 | when no tranid holds a line break, no value grouped under a rep has a line break in its order number |
| `Pipeline.EveryOrderReported` | KM_TechnicalAssessment_MR.js:93-162 | every sales order emitted in a run is reported: its rep gets exactly one send, and that send's listing contains the order's tranid (an order saved but whose pair could not be written is logged, not reported) |
| `Pipeline.NoDigestWithoutOrder` | KM_TechnicalAssessment_MR.js:147-162 | a digest goes only to a rep with at least one deal whose invocation emitted |
| `Pipeline.ListedOnlyOwnOrders` | KM_TechnicalAssessment_MR.js:139-153 | a rep's digest lists only that rep's own orders: every line of its listing is the tranid of a deal of that rep whose invocation emitted |
| `Pipeline.OrderOrigin` | KM_TechnicalAssessment_MR.js:93-153 | every order number in rep `k`'s group is the tranid of a deal of `k` whose invocation emitted |
| `Pipeline.NextPassRow` | KM_TechnicalAssessment_MR.js:74-78 | the next run reads the same deal (id, rep, amount) without a sales order attached |
| `Pipeline.SecondPassTransformsAgain` | KM_TechnicalAssessment_MR.js:72-126 | a small "Open" deal whose status write succeeded comes back "Approved" in the next run and is transformed a second time |
| `Pipeline.LargeDealNeverTransformed` | KM_TechnicalAssessment_MR.js:98-104 | a large "Open" deal stays "Open" in the next run, which again only writes the flag |
| `Findings.ClassifyAsWritten` | KM_TechnicalAssessment_MR.js:67-127 | with `record` unbound (line 5), a map invocation makes no store call and emits nothing |
| `Findings.DigestAsWritten` | KM_TechnicalAssessment_MR.js:147-166 | with `email` unbound (line 5), a reduce invocation sends nothing and logs one error |
| `Findings.MissingImportsLoseEveryOrder` | KM_TechnicalAssessment_MR.js:72-93 | a small "Open" deal aborts with no effect as written, yet emits its sales order when the store is reachable and answers |
| `Findings.MissingEmailImportDropsDigest` | KM_TechnicalAssessment_MR.js:156-162 | a non-empty group gets no send as written, but exactly one when the e-mail module is loaded and the transport accepts |
| `Findings.RawDigestListsNoOrder` | KM_TechnicalAssessment_MR.js:149-154 | as written, a digest body reads back as empty lines only, so it names no order number |
| `Findings.RawDigestCounterexample` | KM_TechnicalAssessment_MR.js:149-154 | for an order "SO1", the decoded digest lists ["SO1"] while the as-written one lists [""] |
| `Scenarios.SmallBatchOutput` | KM_TechnicalAssessment_MR.js:72-93 | a batch holding only a 5000 "Open" deal, with every store call succeeding, emits exactly its one rep-keyed pair carrying tranid "SO1" |
| `Scenarios.SmallOpenDealRun` | KM_TechnicalAssessment_MR.js:72-162 | a 5000 "Open" deal: status write, transform, one emission keyed by its rep; that rep alone gets a digest, sent to its e-mail and listing "SO1" |
| `Scenarios.MixedBatchOutput` | KM_TechnicalAssessment_MR.js:107-121 | a batch of an "Approved" deal whose transform fails and a small "Open" deal emits only the small deal's pair |
| `Scenarios.LargeOpenDealRun` | KM_TechnicalAssessment_MR.js:98-104 | a 50000 "Open" deal: only the flag write, and no digest for anyone |
| `Scenarios.FailedTransformIsLocal` | KM_TechnicalAssessment_MR.js:107-125 | an "Approved" deal whose transform fails logs one error, and its rep gets no digest, while the next deal's rep still gets one |

## Left out

- `getInputData` (lines 21-46): a SuiteQL join run by the external query engine. Its filter is kept only as `Deals.PassesExtractionFilter`. The map input is modelled as already-decoded rows.
- `summarize` (lines 188-207): it only writes host statistics and errors to the log and makes no decision.
- `log.debug` calls (lines 44, 70): diagnostic output with no effect on any decision.
- JSON serialisation (lines 68, 93, 121): records are structured datatypes throughout. The reduce values are modelled as decoded records, apart from the finding below.
- `StoreOutcomes`: the save and `mapContext.write` are not separate effects. Their failures, and a failure of `getValue('tranid')`, are outcomes of the transform block, which ends in a logged error in each case. The trace does not record whether a sales order was already saved when the write of its pair failed.
- `MapStage.Classify`: a failed field write is recorded as an issued `SubmitFields` effect followed by the abort. The outcome of the store call is not modelled further.
- Governance-unit accounting, restarts (`isRestarted`, `executionNo`), parallel execution and the host's ordering of grouped values are runtime concerns. `Pipeline.Group` keeps emission order, and the digest properties hold for whatever order is presented.
- Amounts are whole integers. JavaScript coercions of a missing or non-numeric `totalamount` (where `null < 10000` holds and `NaN` fails both comparisons) are not modelled.
- Record and rep ids are natural numbers. The host's conversion of the key to a string is not modelled.
- `Pipeline.NextPassRow`: assumes nothing but this script changes a deal between runs. The manual-approval flag is not a selected column, so it is invisible to the next run.
- Tranids are assumed to contain no line break. Only the read-back of a digest listing (`ReduceStage.EmailBody`, `ReduceStage.DigestListsEveryOrder`, `Pipeline.EveryOrderReported`) depends on this; the one-send facts hold for every non-empty group.
- `Findings.RawDigestCounterexample`: covers only the listing. The as-written recipient list `[undefined]` (from `[0].email` read off a string) is not modelled.
- Transports: e-mail delivery and the record store are parameters (`sendOk`, `StoreOutcomes`), not modelled services.

## Findings

| source | as written | input that shows it | evidently intended | confidence | as-written member | corrected member |
|---|---|---|---|---|---|---|
| KM_TechnicalAssessment_MR.js:5 | the loader lists only 'N/search' and 'N/query', so `record` and `email` are unbound; every store and e-mail call throws a ReferenceError before it is issued | an "Open" deal of amount 5000: the uncaught error at line 74 aborts the invocation, so there is no approval, no sales order and no digest | 'N/record' and 'N/email' loaded, so the calls reach the store and the mail transport | high (not executed) | `Findings.MissingImportsLoseEveryOrder` | `MapPolicy.EmitIffTransformSaved` |
| KM_TechnicalAssessment_MR.js:149-159 | the reduce values are the JSON strings written at lines 93/121, but `.salesorder` and `[0].email` are read off them unparsed, giving `undefined` | one value `{"salesorder":"SO1"}`: the body's listing is one empty line, not "SO1" | each value parsed before its fields are read, so the listing names every order | high (not executed) | `Findings.RawDigestCounterexample` | `ReduceStage.DigestListsEveryOrder` |

/** The reduce stage: one digest e-mail per sales rep, listing the sales
    orders created for that rep in this run. The e-mail transport is not
    modelled; whether a send succeeds comes in as a parameter. */
module ReduceStage {
  import opened Deals
  import opened Text

  datatype SendRequest = SendRequest(author: int, recipients: seq<string>, subject: string, body: string)

  datatype ReduceEffect =
    | SendAttempt(request: SendRequest)
    | LogSendError(title: string, rep: RepId)

  /** The default system user the digest is sent from. */
  const SYSTEM_AUTHOR: int := -1
  const SUBJECT: string := "Sales Orders Created"
  const EMAIL_ERROR: string := "Email Error"

  function Spaces(n: nat): string
  {
    seq(n, _ => ' ')
  }

  /** The fixed text of the template literal around the listing: its opening
      line break and indentation, the heading line, and the indentation of the
      closing line. */
  const BODY_HEAD: string := "\n" + Spaces(16) + "The following Sales Orders have been created:" + "\n" + Spaces(16)
  const BODY_TAIL: string := "\n" + Spaces(12)

  /** Each value's `salesorder`, in the order the values are presented. */
  function SalesOrders(values: seq<Deal>): seq<string>
  {
    seq(|values|, i requires 0 <= i < |values| => SalesOrderText(values[i]))
  }

  /** The digest body: the listing joined with line breaks inside the
      template. It is always shaped like a digest, and when no order number
      holds a line break it reads back as exactly the listed orders, in the
      order presented. */
  function EmailBody(values: seq<Deal>): (body: string)
    ensures ListedOrders(body).Some?
    ensures |values| > 0 && LineSafe(values) ==> ListedOrders(body) == Some(SalesOrders(values))
  {
    var listing := Join(SalesOrders(values), NEWLINE);
    var body := BODY_HEAD + listing + BODY_TAIL;
    assert body[..|BODY_HEAD|] == BODY_HEAD;
    assert body[|body| - |BODY_TAIL|..] == BODY_TAIL;
    assert body[|BODY_HEAD|..|body| - |BODY_TAIL|] == listing;
    // Both branches return `body`; the first exists only to invoke the
    // round-trip lemma that the second ensures clause rests on.
    if |values| > 0 && LineSafe(values) then
      SplitJoin(SalesOrders(values), NEWLINE);
      body
    else
      body
  }


  /** Reads a digest body back into the list of order numbers it shows;
      `None` for text that is not shaped like a digest. */
  function ListedOrders(body: string): Option<seq<string>>
  {
    if |body| >= |BODY_HEAD| + |BODY_TAIL|
       && body[..|BODY_HEAD|] == BODY_HEAD
       && body[|body| - |BODY_TAIL|..] == BODY_TAIL
    then Some(Split(body[|BODY_HEAD|..|body| - |BODY_TAIL|], NEWLINE))
    else None
  }

  /** No order number in the listing holds a line break (tranids never do). */
  predicate LineSafe(values: seq<Deal>)
  {
    forall i :: 0 <= i < |values| ==> NEWLINE !in SalesOrderText(values[i])
  }

  /** One reduce invocation for rep `key`. The body is built before the `try`
      and cannot fail; reading the first value's e-mail happens inside it, so
      an empty group is logged like a failed send, without a send. */
  function Digest(key: RepId, values: seq<Deal>, sendOk: bool): (r: seq<ReduceEffect>)
    ensures 1 <= |r| <= 2
    ensures r[|r| - 1].LogSendError? <==> |values| == 0 || !sendOk
    ensures forall i :: 0 <= i < |r| && r[i].LogSendError? ==> r[i] == LogSendError(EMAIL_ERROR, key)
  {
    if |values| == 0 then [LogSendError(EMAIL_ERROR, key)]
    else
      var request := SendRequest(SYSTEM_AUTHOR, [values[0].email], SUBJECT, EmailBody(values));
      if sendOk then [SendAttempt(request)]
      else [SendAttempt(request), LogSendError(EMAIL_ERROR, key)]
  }

  /** The send requests in a reduce trace. */
  function Sends(t: seq<ReduceEffect>): (rs: seq<SendRequest>)
    ensures |rs| <= |t|
    ensures forall q :: q in rs ==> SendAttempt(q) in t
    decreases |t|
  {
    if |t| == 0 then []
    else (if t[0].SendAttempt? then [t[0].request] else []) + Sends(t[1..])
  }

  /** A non-empty group yields exactly one send: from the system user, to the
      first value's e-mail only, with the fixed subject and the digest body. A
      failed send is logged after it and never retried. */
  lemma DigestSendsOnce(key: RepId, values: seq<Deal>, sendOk: bool)
    requires |values| > 0
    ensures var sends := Sends(Digest(key, values, sendOk));
      && |sends| == 1
      && sends[0].author == SYSTEM_AUTHOR
      && sends[0].recipients == [values[0].email]
      && sends[0].subject == SUBJECT
      && sends[0].body == EmailBody(values)
  {
    var r := Digest(key, values, sendOk);
    if sendOk {
      assert r[1..] == [];
    } else {
      assert r[1..][1..] == [];
    }
  }

  /** The group's one send lists every value's sales order, in the order
      presented, when no order number holds a line break. */
  lemma DigestListsEveryOrder(key: RepId, values: seq<Deal>, sendOk: bool)
    requires |values| > 0 && LineSafe(values)
    ensures var sends := Sends(Digest(key, values, sendOk));
      && |sends| == 1
      && ListedOrders(sends[0].body) == Some(SalesOrders(values))
      && forall j :: 0 <= j < |values| ==> SalesOrderText(values[j]) in ListedOrders(sends[0].body).value
  {
    DigestSendsOnce(key, values, sendOk);
    assert forall j :: 0 <= j < |values| ==> SalesOrders(values)[j] == SalesOrderText(values[j]);
  }

  /** An empty group makes no send attempt; the error is logged instead of
      propagated. */
  lemma EmptyGroupLogged(key: RepId, sendOk: bool)
    ensures Digest(key, [], sendOk) == [LogSendError(EMAIL_ERROR, key)]
    ensures Sends(Digest(key, [], sendOk)) == []
  {
  }

  /** Only the first value's contact is written to: a group whose values carry
      different e-mails still produces a single-recipient send. */
  lemma OnlyFirstContactNotified(key: RepId, values: seq<Deal>, sendOk: bool, j: nat)
    requires 0 < j < |values| && values[j].email != values[0].email
    ensures forall q :: q in Sends(Digest(key, values, sendOk)) ==> values[j].email !in q.recipients
  {
  }
}

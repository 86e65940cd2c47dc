/**
 * The parser's handling of messages from the parse worker: each message is
 * read as an error, a progress report or the finished result, and the pending
 * promise returned to the caller is settled by the first error, or by the
 * first result whose caches rehydrate without throwing.
 */
module Dispatch {
  import opened Wrappers
  import opened JsValues
  import opened DemoTypes

  /**
   * A message's data: its `error` and `progress` fields, and the result fields
   * it carries (none, for a plain progress report), which are read as the
   * parse result when neither `error` nor `progress` is truthy.
   */
  datatype Message = Message(error: JsValue, progress: JsValue, payload: WireDemo)

  /** How the handler reads one message. */
  datatype Reaction =
    | Reject(reason: JsValue)
    | Report(fraction: JsValue)
    | Deliver(payload: WireDemo)

  /** A truthy `error` wins over everything; then a truthy `progress`; anything else is the result. */
  function Classify(m: Message): (r: Reaction)
    ensures r.Reject? <==> Truthy(m.error)
    ensures r.Report? <==> !Truthy(m.error) && Truthy(m.progress)
    ensures r.Deliver? <==> !Truthy(m.error) && !Truthy(m.progress)
    ensures r.Reject? ==> r.reason == m.error
    ensures r.Report? ==> r.fraction == m.progress
    ensures r.Deliver? ==> r.payload == m.payload
  {
    if Truthy(m.error) then Reject(m.error)
    else if Truthy(m.progress) then Report(m.progress)
    else Deliver(m.payload)
  }

  /** The state of the promise the parser hands out. */
  datatype Settlement = Pending | Resolved(demo: CachedDemo) | Rejected(reason: JsValue)

  /** What the handler does besides settling: call the progress callback, or start rehydrating the payload's caches. */
  datatype Effect = ProgressCallback(value: JsValue) | RehydrateCaches

  /** The promise state after some messages, and the handler's effects in order. */
  datatype Trace = Trace(settlement: Settlement, effects: seq<Effect>)

  /** A promise settles once: later calls to resolve or reject are ignored. */
  function Settle(s: Settlement, outcome: Settlement): (r: Settlement)
    requires !outcome.Pending?
    ensures s.Pending? ==> r == outcome
    ensures !s.Pending? ==> r == s
  {
    if s.Pending? then outcome else s
  }

  /** The message settles a pending promise: it is an error, or a result whose three `rehydrate` calls all return. */
  predicate Settles(m: Message, rh: Rehydrators) {
    match Classify(m)
    case Reject(_) => true
    case Report(_) => false
    case Deliver(payload) => Rehydrate(payload, rh).Success?
  }

  /** The handler run on one message. */
  function OnMessage(s: Settlement, m: Message, rh: Rehydrators): (r: Trace)
    ensures r.settlement != s ==> s.Pending?
    ensures s.Pending? ==> (r.settlement.Pending? <==> !Settles(m, rh))
    ensures Truthy(m.error) ==>
              r.effects == [] && (s.Pending? ==> r.settlement == Rejected(m.error))
    ensures !Truthy(m.error) && Truthy(m.progress) ==>
              r.settlement == s && r.effects == [ProgressCallback(m.progress)]
    ensures !Truthy(m.error) && !Truthy(m.progress) ==>
              && r.effects == [RehydrateCaches]
              && (Rehydrate(m.payload, rh).Failure? ==> r.settlement == s)
              && (s.Pending? && Rehydrate(m.payload, rh).Success? ==>
                    r.settlement == Resolved(Rehydrate(m.payload, rh).value))
  {
    match Classify(m)
    case Reject(reason) => Trace(Settle(s, Rejected(reason)), [])
    case Report(fraction) => Trace(s, [ProgressCallback(fraction)])
    case Deliver(payload) =>
      match Rehydrate(payload, rh)
      case Success(demo) => Trace(Settle(s, Resolved(demo)), [RehydrateCaches])
      case Failure(_) => Trace(s, [RehydrateCaches])
  }

  /** The handler run on a sequence of messages, in delivery order; it stays attached after the promise settles. */
  function Run(s: Settlement, msgs: seq<Message>, rh: Rehydrators): (r: Trace)
    ensures r.settlement != s ==> s.Pending?
    decreases |msgs|
  {
    if msgs == [] then Trace(s, [])
    else
      var first := OnMessage(s, msgs[0], rh);
      var rest := Run(first.settlement, msgs[1..], rh);
      Trace(rest.settlement, first.effects + rest.effects)
  }

  /** The promise a settling message settles a pending promise to. */
  function Outcome(m: Message, rh: Rehydrators): (r: Settlement)
    requires Settles(m, rh)
    ensures !r.Pending?
  {
    if Truthy(m.error) then Rejected(m.error) else Resolved(Rehydrate(m.payload, rh).value)
  }

  /** The values passed to the progress callback, from a list of effects. */
  function CallbackValues(effects: seq<Effect>): (r: seq<JsValue>)
    ensures |r| <= |effects|
    decreases |effects|
  {
    if effects == [] then []
    else (if effects[0].ProgressCallback? then [effects[0].value] else []) + CallbackValues(effects[1..])
  }

  /** The `progress` fields of the messages read as progress reports, in order. */
  function ReportedProgress(msgs: seq<Message>): (r: seq<JsValue>)
    ensures |r| <= |msgs|
    decreases |msgs|
  {
    if msgs == [] then []
    else (if Classify(msgs[0]).Report? then [msgs[0].progress] else []) + ReportedProgress(msgs[1..])
  }

  /**
   * Exactly the settling messages settle a pending promise, to rejected with
   * the error or resolved with the rehydrated payload; a progress report never does.
   */
  lemma SettlesIff(m: Message, rh: Rehydrators)
    ensures OnMessage(Pending, m, rh).settlement.Pending? <==> !Settles(m, rh)
    ensures Settles(m, rh) ==> OnMessage(Pending, m, rh).settlement == Outcome(m, rh)
    ensures Classify(m).Report? ==> !Settles(m, rh)
  {
  }

  /**
   * A progress report of 0 is falsy, so it is read as a result. Such a message
   * carries no result fields: if all three `rehydrate` calls accept `undefined`
   * it resolves the promise with the message's empty object; otherwise the
   * handler throws and the promise stays pending.
   */
  lemma ZeroProgressIsDelivered(m: Message, rh: Rehydrators)
    requires !Truthy(m.error) && m.progress == Num(0.0) && m.payload == NoFields
    ensures Classify(m) == Deliver(NoFields)
    ensures Settles(m, rh) <==> AcceptsUndefined(rh)
    ensures OnMessage(Pending, m, rh).settlement == (if AcceptsUndefined(rh) then Resolved(EmptyDemo) else Pending)
  {
  }

  /** A settled promise stays as it is whatever messages follow. */
  lemma SettledIsFinal(s: Settlement, msgs: seq<Message>, rh: Rehydrators)
    requires !s.Pending?
    ensures Run(s, msgs, rh).settlement == s
  {
  }

  /** While no settling message arrives, the promise stays pending. */
  lemma {:induction false} NonSettlingKeepsPending(msgs: seq<Message>, rh: Rehydrators)
    requires forall i :: 0 <= i < |msgs| ==> !Settles(msgs[i], rh)
    ensures Run(Pending, msgs, rh).settlement == Pending
    decreases |msgs|
  {
    if msgs != [] {
      assert forall i :: 0 <= i < |msgs[1..]| ==> msgs[1..][i] == msgs[i + 1];
      NonSettlingKeepsPending(msgs[1..], rh);
    }
  }

  /** The first settling message decides the promise, and nothing after it changes that. */
  lemma {:induction false} FirstSettlingMessageDecides(msgs: seq<Message>, k: nat, rh: Rehydrators)
    requires k < |msgs|
    requires forall i :: 0 <= i < k ==> !Settles(msgs[i], rh)
    requires Settles(msgs[k], rh)
    ensures Run(Pending, msgs, rh).settlement == Outcome(msgs[k], rh)
    decreases k
  {
    if k == 0 {
      SettledIsFinal(Outcome(msgs[0], rh), msgs[1..], rh);
    } else {
      assert forall i :: 0 <= i < k - 1 ==> msgs[1..][i] == msgs[i + 1];
      FirstSettlingMessageDecides(msgs[1..], k - 1, rh);
    }
  }

  lemma {:induction false} CallbackValuesAppend(a: seq<Effect>, b: seq<Effect>)
    ensures CallbackValues(a + b) == CallbackValues(a) + CallbackValues(b)
    decreases |a|
  {
    if a == [] {
      assert a + b == b;
    } else {
      var head := if a[0].ProgressCallback? then [a[0].value] else [];
      assert (a + b)[0] == a[0];
      assert (a + b)[1..] == a[1..] + b;
      CallbackValuesAppend(a[1..], b);
      calc {
        CallbackValues(a + b);
        head + CallbackValues(a[1..] + b);
        head + (CallbackValues(a[1..]) + CallbackValues(b));
        (head + CallbackValues(a[1..])) + CallbackValues(b);
      }
    }
  }

  /**
   * The progress callback is called once for every message read as a progress
   * report, with that message's value and in delivery order, whether or not the
   * promise has already settled; no other message calls it.
   */
  lemma {:induction false} CallbackSeesEveryReport(s: Settlement, msgs: seq<Message>, rh: Rehydrators)
    ensures CallbackValues(Run(s, msgs, rh).effects) == ReportedProgress(msgs)
    decreases |msgs|
  {
    if msgs != [] {
      var first := OnMessage(s, msgs[0], rh);
      var rest := Run(first.settlement, msgs[1..], rh);
      CallbackSeesEveryReport(first.settlement, msgs[1..], rh);
      CallbackValuesAppend(first.effects, rest.effects);
      assert CallbackValues(first.effects) == (if Classify(msgs[0]).Report? then [msgs[0].progress] else []);
    }
  }
}

/**
 * The bot's side of the chat platform: inbound updates, outgoing messages,
 * the long-polling cursor and a broadcast to every subscriber. The platform
 * itself is not modelled: what it returns is an input, what is sent an output.
 */
module Telegram {
  import opened Wrappers

  /** An inbound message; `chat` is `message['chat']['id']`, `text` is `message.get('text')`. */
  datatype Message = Message(chat: Option<int>, text: Option<string>)

  /** One element of a `getUpdates` result. */
  datatype Update = Update(updateId: int, message: Option<Message>)

  /** One `send_message(chat_id, text)` call. */
  datatype Outgoing = Outgoing(chat: int, text: string)

  /** A decoded `getUpdates` reply: its `ok` flag (missing reads as false) and its `result` list (missing reads as empty). */
  datatype Response = Response(ok: bool, result: seq<Update>)

  /** The sender of an update, when it has a message with a chat id. */
  function Sender(u: Update): (r: Option<int>)
    ensures r.Some? <==> u.message.Some? && u.message.value.chat.Some?
    ensures r.Some? ==> r == u.message.value.chat
  {
    if u.message.Some? then u.message.value.chat else None
  }

  /** The text of an update's message; `msg.get('text', '')`. */
  function TextOf(u: Update): (r: string)
    ensures u.message.Some? && u.message.value.text.Some? ==> r == u.message.value.text.value
    ensures u.message.None? || u.message.value.text.None? ==> r == ""
  {
    if u.message.Some? then u.message.value.text.GetOr("") else ""
  }

  /** What processing one update does: the new subscriber set, the sends attempted, and whether it raised. */
  datatype StepResult = StepResult(subscribers: set<int>, sent: seq<Outgoing>, raised: bool)

  /**
   * What one pass of the `for upd in ...` loop leaves behind: the subscriber
   * set, the cursor, the sends, how many updates it took and whether an
   * exception ended it early.
   */
  datatype BatchResult = BatchResult(subscribers: set<int>, offset: Option<int>, sent: seq<Outgoing>, consumed: nat, aborted: bool)

  /**
   * The `for` loop of `updates_loop`: for each update, in order, the cursor
   * becomes `update_id + 1` and then the update is processed; an exception
   * leaves the loop, so the updates after it are not processed.
   */
  function RunBatch(step: (set<int>, Update) -> StepResult, subscribers: set<int>, offset: Option<int>, updates: seq<Update>): (r: BatchResult)
    ensures r.consumed <= |updates|
    ensures updates == [] ==> r == BatchResult(subscribers, offset, [], 0, false)
    ensures updates != [] ==> 1 <= r.consumed && r.offset == Some(updates[r.consumed - 1].updateId + 1)
    ensures !r.aborted ==> r.consumed == |updates|
    decreases |updates|
  {
    if updates == [] then BatchResult(subscribers, offset, [], 0, false)
    else
      var cursor := Some(updates[0].updateId + 1);
      var s := step(subscribers, updates[0]);
      if s.raised then BatchResult(s.subscribers, cursor, s.sent, 1, true)
      else
        var rest := RunBatch(step, s.subscribers, cursor, updates[1..]);
        BatchResult(rest.subscribers, rest.offset, s.sent + rest.sent, rest.consumed + 1, rest.aborted)
  }

  /** A pass that has already taken `consumed` updates and sent `sent` goes on as `rest`. */
  function Resume(rest: BatchResult, sent: seq<Outgoing>, consumed: nat): BatchResult {
    BatchResult(rest.subscribers, rest.offset, sent + rest.sent, rest.consumed + consumed, rest.aborted)
  }

  /** Taking one update that does not raise: the pass resumes on the updates after it. */
  lemma ResumeQuiet(step: (set<int>, Update) -> StepResult, subscribers: set<int>, offset: Option<int>,
                    updates: seq<Update>, i: nat, sent: seq<Outgoing>, whole: BatchResult)
    requires i < |updates|
    requires whole == Resume(RunBatch(step, subscribers, offset, updates[i..]), sent, i)
    requires !step(subscribers, updates[i]).raised
    ensures var s := step(subscribers, updates[i]);
      whole == Resume(RunBatch(step, s.subscribers, Some(updates[i].updateId + 1), updates[i + 1..]), sent + s.sent, i + 1)
  {
    assert updates[i..][0] == updates[i] && updates[i..][1..] == updates[i + 1..];
  }

  /** Taking one update that raises: the pass ends there, with the cursor past that update. */
  lemma ResumeRaised(step: (set<int>, Update) -> StepResult, subscribers: set<int>, offset: Option<int>,
                     updates: seq<Update>, i: nat, sent: seq<Outgoing>, whole: BatchResult)
    requires i < |updates|
    requires whole == Resume(RunBatch(step, subscribers, offset, updates[i..]), sent, i)
    requires step(subscribers, updates[i]).raised
    ensures var s := step(subscribers, updates[i]);
      && whole.subscribers == s.subscribers
      && whole.offset == Some(updates[i].updateId + 1)
      && whole.sent == sent + s.sent
  {
    assert updates[i..][0] == updates[i];
  }

  /** An update whose processing can raise in no subscriber state. */
  ghost predicate NeverRaises(step: (set<int>, Update) -> StepResult, u: Update) {
    forall s: set<int> :: !step(s, u).raised
  }

  /** A batch none of whose updates can raise is consumed in full, and the cursor ends past its last update. */
  lemma {:induction false} QuietBatchConsumedInFull(step: (set<int>, Update) -> StepResult, subscribers: set<int>, offset: Option<int>, updates: seq<Update>)
    requires forall k | 0 <= k < |updates| :: NeverRaises(step, updates[k])
    ensures !RunBatch(step, subscribers, offset, updates).aborted
    ensures updates != [] ==> RunBatch(step, subscribers, offset, updates).offset == Some(updates[|updates| - 1].updateId + 1)
    decreases |updates|
  {
    if updates != [] {
      assert NeverRaises(step, updates[0]);
      var s := step(subscribers, updates[0]);
      assert !s.raised;
      QuietBatchConsumedInFull(step, s.subscribers, Some(updates[0].updateId + 1), updates[1..]);
    }
  }

  /** `if OFFSET: params['offset'] = OFFSET`: a cursor of 0, like no cursor, is not sent. */
  function OffsetParam(offset: Option<int>): (r: Option<int>)
    ensures r.Some? <==> offset.Some? && offset.value != 0
    ensures r.Some? ==> r == offset
  {
    match offset
    case Some(o) => if o != 0 then Some(o) else None
    case None => None
  }

  /**
   * After a pass that took at least one update with a non-negative id, the
   * next `getUpdates` request carries the cursor: it is past the last update
   * taken, so it is positive and never dropped as `0`.
   */
  lemma NextRequestCarriesCursor(step: (set<int>, Update) -> StepResult, subscribers: set<int>, offset: Option<int>, updates: seq<Update>)
    requires updates != []
    requires forall k | 0 <= k < |updates| :: updates[k].updateId >= 0
    ensures var r := RunBatch(step, subscribers, offset, updates);
      && OffsetParam(r.offset) == r.offset
      && r.offset == Some(updates[r.consumed - 1].updateId + 1)
  {
    var r := RunBatch(step, subscribers, offset, updates);
    assert updates[r.consumed - 1].updateId >= 0;
  }
}

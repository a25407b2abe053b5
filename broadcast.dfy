/** Sending one text to every subscriber, as the change monitor does. */
module Broadcasting {
  import opened Telegram

  /** A set without members is the empty set. */
  lemma NoMemberMeansEmpty(s: set<int>)
    ensures (forall x :: x !in s) ==> s == {}
  {
    if forall x :: x !in s {
      assert s == {};
    }
  }

  /** The recipients of a list of sends. */
  function Recipients(sent: seq<Outgoing>): set<int> {
    set k | 0 <= k < |sent| :: sent[k].chat
  }

  /** Appending a send adds its recipient. */
  lemma RecipientsAppend(sent: seq<Outgoing>, o: Outgoing)
    ensures Recipients(sent + [o]) == Recipients(sent) + {o.chat}
  {
    var r := Recipients(sent + [o]);
    assert (sent + [o])[|sent|] == o;
    forall c | c in Recipients(sent) ensures c in r {
      var k :| 0 <= k < |sent| && sent[k].chat == c;
      assert (sent + [o])[k] == sent[k];
    }
  }

  /** `sent` is `text` sent once to each member of `subscribers`, in some order. */
  ghost predicate IsBroadcast(sent: seq<Outgoing>, subscribers: set<int>, text: string) {
    && |sent| == |subscribers|
    && Recipients(sent) == subscribers
    && (forall k | 0 <= k < |sent| :: sent[k].text == text)
    && (forall j, k | 0 <= j < k < |sent| :: sent[j].chat != sent[k].chat)
  }

  /** Sending to one more chat, not yet served, extends a broadcast. */
  lemma BroadcastStep(sent: seq<Outgoing>, done: set<int>, text: string, chat: int)
    requires IsBroadcast(sent, done, text)
    requires chat !in done
    ensures IsBroadcast(sent + [Outgoing(chat, text)], done + {chat}, text)
  {
    RecipientsAppend(sent, Outgoing(chat, text));
    forall k | 0 <= k < |sent| ensures sent[k].chat != chat {
      assert sent[k].chat in Recipients(sent);
    }
  }

  /** Part way through a broadcast: `done` is served, `remaining` is not, and the delivered chats are the reachable ones served. */
  ghost predicate Progress(subscribers: set<int>, text: string, unreachable: set<int>, remaining: set<int>, done: set<int>, sent: seq<Outgoing>, delivered: set<int>) {
    && done !! remaining && done + remaining == subscribers
    && IsBroadcast(sent, done, text)
    && delivered == done - unreachable
  }

  /** Serving one chat of `remaining` moves it to `done`. */
  lemma ProgressStep(subscribers: set<int>, text: string, unreachable: set<int>, remaining: set<int>, done: set<int>, sent: seq<Outgoing>, delivered: set<int>, chat: int)
    requires Progress(subscribers, text, unreachable, remaining, done, sent, delivered)
    requires chat in remaining
    ensures Progress(subscribers, text, unreachable, remaining - {chat}, done + {chat}, sent + [Outgoing(chat, text)],
                     if chat in unreachable then delivered else delivered + {chat})
  {
    BroadcastStep(sent, done, text, chat);
    MoveOne(subscribers, remaining, done, chat);
  }

  /** Moving one member across keeps `done` and `remaining` a partition of `subscribers`. */
  lemma MoveOne(subscribers: set<int>, remaining: set<int>, done: set<int>, chat: int)
    requires done !! remaining && done + remaining == subscribers
    requires chat in remaining
    ensures chat !in done
    ensures (done + {chat}) !! (remaining - {chat}) && (done + {chat}) + (remaining - {chat}) == subscribers
  {
  }

  /**
   * `for chat in list(SUBSCRIBERS): send_message(chat, text)`, each send on
   * its own: a send to an unreachable chat fails without stopping the loop.
   * The iteration order of the set is not fixed.
   */
  method Broadcast(subscribers: set<int>, text: string, unreachable: set<int>) returns (sent: seq<Outgoing>, delivered: set<int>)
    ensures IsBroadcast(sent, subscribers, text)
    ensures delivered == subscribers - unreachable
  {
    sent, delivered := [], {};
    var remaining := subscribers;
    ghost var done: set<int> := {};
    while remaining != {}
      invariant Progress(subscribers, text, unreachable, remaining, done, sent, delivered)
      decreases remaining
    {
      NoMemberMeansEmpty(remaining);
      var chat :| chat in remaining;
      ProgressStep(subscribers, text, unreachable, remaining, done, sent, delivered, chat);
      sent := sent + [Outgoing(chat, text)];
      if chat !in unreachable {
        delivered := delivered + {chat};
      }
      done := done + {chat};
      remaining := remaining - {chat};
    }
  }
}

/**
 * The per-session notification feed: a list into which every new message is
 * inserted at index 0, so it reads newest first.
 */
module Feed {

  /** `notif.insert(0, msg)` */
  function Push(feed: seq<string>, msg: string): seq<string> {
    [msg] + feed
  }

  /** The feed after the messages have been pushed one by one, in order. */
  function PushAll(feed: seq<string>, msgs: seq<string>): seq<string>
    decreases |msgs|
  {
    if msgs == [] then feed else PushAll(Push(feed, msgs[0]), msgs[1..])
  }

  /** The messages in the opposite order: the last one first. */
  function Reverse(s: seq<string>): (r: seq<string>)
    ensures |r| == |s|
    ensures forall k :: 0 <= k < |s| ==> r[k] == s[|s| - 1 - k]
  {
    if s == [] then []
    else
      var rest := Reverse(s[1..]);
      assert forall k :: 0 <= k < |s| - 1 ==> rest[k] == s[1..][|s| - 2 - k];
      rest + [s[0]]
  }

  /** Pushing a batch of messages puts them, newest first, in front of the old feed. */
  lemma {:induction false} PushAllIsReverse(feed: seq<string>, msgs: seq<string>)
    ensures PushAll(feed, msgs) == Reverse(msgs) + feed
    decreases |msgs|
  {
    if msgs != [] {
      PushAllIsReverse(Push(feed, msgs[0]), msgs[1..]);
      assert Reverse(msgs) == Reverse(msgs[1..]) + [msgs[0]];
    }
  }

  /**
   * Newest first: the last message pushed is at index 0, the i-th pushed
   * message sits after every later one, and the old feed follows unchanged.
   */
  lemma NewestFirst(feed: seq<string>, msgs: seq<string>)
    ensures |PushAll(feed, msgs)| == |msgs| + |feed|
    ensures msgs != [] ==> PushAll(feed, msgs)[0] == msgs[|msgs| - 1]
    ensures forall i :: 0 <= i < |msgs| ==> PushAll(feed, msgs)[|msgs| - 1 - i] == msgs[i]
    ensures PushAll(feed, msgs)[|msgs|..] == feed
  {
    PushAllIsReverse(feed, msgs);
  }
}

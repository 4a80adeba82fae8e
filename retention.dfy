/** The retention filter `messages.filter(msg => msg.timestamp > cutoff)`,
    shared by the server's getRecentMessages, its daily cleanup job and the
    offline client's hourly cleanup. The cutoff (now minus seven days) is a
    parameter. */
module Retention {
  import opened ChatTypes

  predicate IsRecent(m: Message, cutoff: int) {
    m.timestamp > cutoff
  }

  /** The messages newer than cutoff, in their original order: a message is
      kept exactly when it is newer than the cutoff, and nothing is dropped
      exactly when every message is recent. */
  function KeepRecent(msgs: seq<Message>, cutoff: int): (kept: seq<Message>)
    ensures |kept| <= |msgs|
    ensures forall m :: m in kept <==> m in msgs && IsRecent(m, cutoff)
    ensures |kept| == |msgs| <==> forall i :: 0 <= i < |msgs| ==> IsRecent(msgs[i], cutoff)
    ensures |kept| == |msgs| ==> kept == msgs
    decreases |msgs|
  {
    if msgs == [] then []
    else if IsRecent(msgs[0], cutoff) then [msgs[0]] + KeepRecent(msgs[1..], cutoff)
    else KeepRecent(msgs[1..], cutoff)
  }

  /** Filtering distributes over concatenation, so it keeps the order of the
      messages it retains. */
  lemma {:induction false} KeepRecentAppend(a: seq<Message>, b: seq<Message>, cutoff: int)
    ensures KeepRecent(a + b, cutoff) == KeepRecent(a, cutoff) + KeepRecent(b, cutoff)
    decreases |a|
  {
    if a != [] {
      assert (a + b)[1..] == a[1..] + b;
      KeepRecentAppend(a[1..], b, cutoff);
    } else {
      assert a + b == b;
    }
  }

  /** A message appended after the cutoff stays at the end of the filtered list;
      one at or before the cutoff does not appear. */
  lemma KeepRecentPush(msgs: seq<Message>, m: Message, cutoff: int)
    ensures KeepRecent(msgs + [m], cutoff)
         == if IsRecent(m, cutoff) then KeepRecent(msgs, cutoff) + [m] else KeepRecent(msgs, cutoff)
  {
    KeepRecentAppend(msgs, [m], cutoff);
    assert [m][1..] == [];
  }

  /** Filtering with a later cutoff after an earlier one is filtering with the
      later one; in particular filtering twice with one cutoff is filtering once. */
  lemma {:induction false} KeepRecentCompose(msgs: seq<Message>, c1: int, c2: int)
    requires c1 <= c2
    ensures KeepRecent(KeepRecent(msgs, c1), c2) == KeepRecent(msgs, c2)
    decreases |msgs|
  {
    if msgs != [] {
      KeepRecentCompose(msgs[1..], c1, c2);
      if IsRecent(msgs[0], c1) {
        var k := [msgs[0]] + KeepRecent(msgs[1..], c1);
        assert k[0] == msgs[0] && k[1..] == KeepRecent(msgs[1..], c1);
      }
    }
  }

  lemma KeepRecentIdempotent(msgs: seq<Message>, cutoff: int)
    ensures KeepRecent(KeepRecent(msgs, cutoff), cutoff) == KeepRecent(msgs, cutoff)
  {
    KeepRecentCompose(msgs, cutoff, cutoff);
  }

  /** With the cutoff set a week before now (calendar days taken as 24 hours),
      a stored message is among the recent ones exactly while it is less than
      a week old. */
  lemma RecentWithinWeek(msgs: seq<Message>, m: Message, now: int)
    requires m in msgs
    ensures m in KeepRecent(msgs, now - WeekMs) <==> now - m.timestamp < WeekMs
  {
  }
}

/**
 * The command mailbox: the pending commands a device pulls, and the flip of
 * those commands to SENT.
 */
module Mailbox {
  import opened Schema

  /** `WHERE device_id = d AND status = 'PENDING'` */
  predicate PendingFor(c: Command, d: int) {
    c.deviceId == d && c.status == Pending
  }

  /** The device's pending commands, in table order. */
  function PendingCommands(cs: seq<Command>, d: int): (r: seq<Command>)
    ensures |r| <= |cs|
    ensures forall c :: c in r <==> c in cs && PendingFor(c, d)
  {
    if cs == [] then []
    else (if PendingFor(cs[0], d) then [cs[0]] else []) + PendingCommands(cs[1..], d)
  }

  /** The table after `UPDATE pending_commands SET status = 'SENT'` on the device's pending rows. */
  function MarkSent(cs: seq<Command>, d: int): (r: seq<Command>)
    ensures |r| == |cs|
    ensures forall i :: 0 <= i < |cs| && cs[i].deviceId != d ==> r[i] == cs[i]
    ensures forall i :: 0 <= i < |cs| && cs[i].deviceId == d ==> r[i] == cs[i].(status := Sent)
  {
    if cs == [] then []
    else [if PendingFor(cs[0], d) then cs[0].(status := Sent) else cs[0]] + MarkSent(cs[1..], d)
  }

  /** Selecting pending commands distributes over a split of the table. */
  lemma {:induction false} PendingConcat(a: seq<Command>, b: seq<Command>, d: int)
    ensures PendingCommands(a + b, d) == PendingCommands(a, d) + PendingCommands(b, d)
  {
    if a == [] {
      assert a + b == b;
    } else {
      assert (a + b)[1..] == a[1..] + b;
      PendingConcat(a[1..], b, d);
    }
  }

  /** The commands are delivered in creation order. */
  lemma {:induction false} PendingChronological(cs: seq<Command>, d: int)
    requires Chronological(cs)
    ensures Chronological(PendingCommands(cs, d))
  {
    if cs != [] {
      var rest := PendingCommands(cs[1..], d);
      assert Chronological(cs[1..]);
      PendingChronological(cs[1..], d);
      if PendingFor(cs[0], d) {
        var r := [cs[0]] + rest;
        forall j | 0 < j < |r| ensures cs[0].createdAt <= r[j].createdAt {
          assert r[j] in rest;
          assert r[j] in cs[1..];
        }
      }
    }
  }

  /** After the flip nothing is pending for the device: a second pull returns nothing. */
  lemma {:induction false} NothingPendingAfterPull(cs: seq<Command>, d: int)
    ensures PendingCommands(MarkSent(cs, d), d) == []
  {
    if cs != [] {
      var m := MarkSent(cs, d);
      assert m[1..] == MarkSent(cs[1..], d);
      NothingPendingAfterPull(cs[1..], d);
    }
  }

  /** Enqueueing LOCK then UNLOCK after a pull: the next pull returns exactly those two, in that order. */
  lemma LockThenUnlockDelivered(cs: seq<Command>, d: nat, lock: Command, unlock: Command)
    requires PendingFor(lock, d) && PendingFor(unlock, d)
    ensures PendingCommands(MarkSent(cs, d) + [lock] + [unlock], d) == [lock, unlock]
  {
    var m := MarkSent(cs, d);
    NothingPendingAfterPull(cs, d);
    PendingConcat(m + [lock], [unlock], d);
    PendingConcat(m, [lock], d);
    assert PendingCommands([lock], d) == [lock] by { assert [lock][1..] == []; }
    assert PendingCommands([unlock], d) == [unlock] by { assert [unlock][1..] == []; }
  }

  /** A pull leaves other devices' pending commands untouched. */
  lemma {:induction false} PullLeavesOthers(cs: seq<Command>, d: int, e: int)
    requires e != d
    ensures PendingCommands(MarkSent(cs, d), e) == PendingCommands(cs, e)
  {
    if cs != [] {
      var m := MarkSent(cs, d);
      assert m[1..] == MarkSent(cs[1..], d);
      PullLeavesOthers(cs[1..], d, e);
    }
  }

  /** One more row at the end of the table adds at most that row to the pull. */
  lemma PendingSnoc(cs: seq<Command>, c: Command, d: int)
    ensures PendingCommands(cs + [c], d) == PendingCommands(cs, d) + (if PendingFor(c, d) then [c] else [])
  {
    PendingConcat(cs, [c], d);
    assert [c][1..] == [];
  }

  /** One more row at the end of the table is flipped on its own. */
  lemma MarkSentSnoc(cs: seq<Command>, c: Command, d: int)
    ensures MarkSent(cs + [c], d) == MarkSent(cs, d) + [if PendingFor(c, d) then c.(status := Sent) else c]
  {
  }

  /** The flip keeps creation times, hence creation order. */
  lemma MarkSentChronological(cs: seq<Command>, d: int)
    requires Chronological(cs)
    ensures Chronological(MarkSent(cs, d))
  {
  }

  /** A second flip changes nothing. */
  lemma MarkSentTwice(cs: seq<Command>, d: int)
    ensures MarkSent(MarkSent(cs, d), d) == MarkSent(cs, d)
  {
  }
}

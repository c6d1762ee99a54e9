/**
 What the client makes of the answers of its calls, without following them one by one: which bytes a series of receives
 delivers, when it brings a complete line, and when a series of sends takes a text or a file.
 */
module Receipts {
  import opened Text
  import opened Connection
  import opened Outcomes
  import opened ClientProgram

  // ---------------------------------------------------------------------------
  // Receiving

  /** The bytes in some answers, whatever stands between them. */
  function Joined(recvs: seq<RecvOutcome>): string {
    if recvs == [] then ""
    else (if recvs[0].Data? then recvs[0].bytes else "") + Joined(recvs[1..])
  }

  predicate Flowing(recvs: seq<RecvOutcome>) {
    forall k | 0 <= k < |recvs| :: recvs[k].Data? || recvs[k].RecvInterrupted?
  }

  /** The receives that count are those before the stream ends, or fails. */
  predicate FlowsUpTo(recvs: seq<RecvOutcome>, k: nat) {
    k <= |recvs| && Flowing(recvs[..k]) && (k < |recvs| ==> !recvs[k].Data? && !recvs[k].RecvInterrupted?)
  }

  lemma FirstOf(recvs: seq<RecvOutcome>, k: nat)
    requires 0 < k <= |recvs|
    ensures recvs[..k][1..] == recvs[1..][..k - 1] && recvs[..k][0] == recvs[0]
    ensures Joined(recvs[..k]) == (if recvs[0].Data? then recvs[0].bytes else "") + Joined(recvs[1..][..k - 1])
    ensures Flowing(recvs[..k]) ==> Flowing(recvs[1..][..k - 1]) && (recvs[0].Data? || recvs[0].RecvInterrupted?)
  {
    assert recvs[..k][1..] == recvs[1..][..k - 1];
  }

  /** What flows is what arrives before the stream ends. */
  lemma {:induction false} FlowExactly(recvs: seq<RecvOutcome>, k: nat)
    requires FlowsUpTo(recvs, k)
    ensures Flow(recvs) == Joined(recvs[..k])
    decreases k
  {
    if k > 0 {
      FirstOf(recvs, k);
      FlowExactly(recvs[1..], k - 1);
    }
  }

  /** After `k` receives there is a line, and before each of them there was none but room for more. */
  ghost predicate LineAfter(buffered: string, recvs: seq<RecvOutcome>, k: nat) {
    && k <= |recvs| && Flowing(recvs[..k]) && '\n' in buffered + Joined(recvs[..k])
    && forall j | 0 <= j < k :: '\n' in buffered + Joined(recvs[..j]) || |buffered + Joined(recvs[..j])| <= 4096
  }

  function FirstBytes(recvs: seq<RecvOutcome>): string {
    if recvs != [] && recvs[0].Data? then recvs[0].bytes else ""
  }

  lemma JoinedFirst(buffered: string, recvs: seq<RecvOutcome>, k: nat)
    requires 0 < k <= |recvs|
    ensures buffered + Joined(recvs[..k]) == (buffered + FirstBytes(recvs)) + Joined(recvs[1..][..k - 1])
  {
    FirstOf(recvs, k);
  }

  lemma FlowingFirst(recvs: seq<RecvOutcome>, k: nat)
    requires 0 < k <= |recvs| && (recvs[0].Data? || recvs[0].RecvInterrupted?)
    ensures Flowing(recvs[..k]) <==> Flowing(recvs[1..][..k - 1])
  {
    FirstOf(recvs, k);
    if Flowing(recvs[1..][..k - 1]) {
      forall j | 0 <= j < k
        ensures recvs[..k][j].Data? || recvs[..k][j].RecvInterrupted?
      {
        if j > 0 {
          assert recvs[1..][..k - 1][j - 1] == recvs[..k][j];
        }
      }
    }
  }

  lemma OneReceiveLess(buffered: string, recvs: seq<RecvOutcome>, k: nat)
    requires LineAfter(buffered, recvs, k) && k > 0
    ensures LineAfter(buffered + FirstBytes(recvs), recvs[1..], k - 1)
  {
    FirstOf(recvs, k);
    JoinedFirst(buffered, recvs, k);
    forall j | 0 <= j < k - 1
      ensures '\n' in (buffered + FirstBytes(recvs)) + Joined(recvs[1..][..j])
           || |(buffered + FirstBytes(recvs)) + Joined(recvs[1..][..j])| <= 4096
    {
      JoinedFirst(buffered, recvs, j + 1);
    }
    hide Joined, Flowing, FirstBytes;
  }

  lemma OneReceiveMore(buffered: string, recvs: seq<RecvOutcome>, k: nat)
    requires recvs != [] && (recvs[0].Data? || recvs[0].RecvInterrupted?) && |buffered| <= 4096
    requires LineAfter(buffered + FirstBytes(recvs), recvs[1..], k)
    ensures LineAfter(buffered, recvs, k + 1)
  {
    FlowingFirst(recvs, k + 1);
    JoinedFirst(buffered, recvs, k + 1);
    assert buffered + Joined(recvs[..0]) == buffered;
    forall j | 0 < j < k + 1
      ensures '\n' in buffered + Joined(recvs[..j]) || |buffered + Joined(recvs[..j])| <= 4096
    {
      JoinedFirst(buffered, recvs, j);
    }
    hide Joined, Flowing, FirstBytes;
  }

  /** The reader finds a line exactly when some receive brings one before 4096 bytes without one have piled up. */
  lemma {:induction false} LineFoundIff(buffered: string, recvs: seq<RecvOutcome>)
    ensures LineFound(buffered, recvs) <==> exists k: nat :: LineAfter(buffered, recvs, k)
    decreases |recvs|
  {
    if '\n' in buffered {
      assert buffered + Joined(recvs[..0]) == buffered;
      assert LineAfter(buffered, recvs, 0);
    } else {
      NotAtOnce(buffered, recvs);
      if |buffered| <= 4096 && recvs != [] && (recvs[0].Data? || recvs[0].RecvInterrupted?) {
        var next := buffered + FirstBytes(recvs);
        assert recvs[0].RecvInterrupted? ==> next == buffered;
        LineFoundIff(next, recvs[1..]);
        hide LineAfter;
        if k: nat :| LineAfter(next, recvs[1..], k) {
          OneReceiveMore(buffered, recvs, k);
        }
        if k: nat :| LineAfter(buffered, recvs, k) {
          OneReceiveLess(buffered, recvs, k);
        }
      }
    }
  }

  lemma NotAtOnce(buffered: string, recvs: seq<RecvOutcome>)
    requires '\n' !in buffered
    ensures forall k: nat | LineAfter(buffered, recvs, k) ::
              k > 0 && |buffered| <= 4096 && recvs != [] && (recvs[0].Data? || recvs[0].RecvInterrupted?)
  {
    assert buffered + Joined(recvs[..0]) == buffered;
    forall k: nat | LineAfter(buffered, recvs, k)
      ensures k > 0 && |buffered| <= 4096 && recvs != [] && (recvs[0].Data? || recvs[0].RecvInterrupted?)
    {
      if k > 0 {
        FirstOf(recvs, k);
      }
    }
  }

  // ---------------------------------------------------------------------------
  // Sending

  /** A text of `n` bytes is sent exactly when some calls in a row, none of which fails, accept so many. */
  lemma {:induction false} SentIff(sends: seq<SendOutcome>, n: nat)
    ensures SendsLeft(sends, n).Some? <==> exists k | 0 <= k <= |sends| :: GoOn(sends[..k]) && Total(sends[..k]) >= n
    decreases |sends|
  {
    if n == 0 {
      assert GoOn(sends[..0]) && Total(sends[..0]) >= 0;
    } else if sends != [] && (sends[0].SendInterrupted? || (sends[0].Sent? && sends[0].count > 0)) {
      var rest := n - Min(Share(sends), n);
      SentIff(sends[1..], rest);
      if SendsLeft(sends, n).Some? {
        var k :| 0 <= k <= |sends[1..]| && GoOn(sends[1..][..k]) && Total(sends[1..][..k]) >= rest;
        OneSendMore(sends, k);
      }
      forall k | 0 <= k <= |sends| && GoOn(sends[..k]) && Total(sends[..k]) >= n
        ensures SendsLeft(sends, n).Some?
      {
        GoesOn(sends, k);
      }
    } else {
      forall k | 0 < k <= |sends|
        ensures !GoOn(sends[..k])
      {
        assert sends[..k][0] == sends[0];
      }
    }
  }

  lemma OneSendMore(sends: seq<SendOutcome>, k: nat)
    requires sends != [] && (sends[0].SendInterrupted? || (sends[0].Sent? && sends[0].count > 0))
    requires k < |sends| && GoOn(sends[1..][..k])
    ensures GoOn(sends[..k + 1]) && Total(sends[..k + 1]) == Share(sends) + Total(sends[1..][..k])
  {
    var all := sends[..k + 1];
    assert all[1..] == sends[1..][..k];
    forall j | 0 <= j < |all|
      ensures (all[j].Sent? && all[j].count > 0) || all[j].SendInterrupted?
    {
      if j > 0 {
        assert all[j] == sends[1..][..k][j - 1];
      }
    }
  }

  /** Every call takes at least one byte. */
  predicate AllTake(sends: seq<SendOutcome>) {
    forall k | 0 <= k < |sends| :: sends[k].Sent? && sends[k].count > 0
  }

  lemma {:induction false} TextTaken(sends: seq<SendOutcome>, n: nat)
    requires AllTake(sends) && n <= |sends|
    ensures var left := SendsLeft(sends, n); left.Some? && AllTake(left.value) && |left.value| >= |sends| - n
    decreases |sends|
  {
    if n > 0 {
      TextTaken(sends[1..], n - Min(sends[0].count, n));
    }
  }

  /** A file that can be read is sent in whole by calls each of which takes something, if there are enough of them. */
  lemma {:induction false} FileTaken(sends: seq<SendOutcome>, n: nat)
    requires AllTake(sends) && n <= |sends|
    ensures FileSent(sends, [], n).Some?
    decreases n
  {
    var count := Min(BUFFER_SIZE, n);
    TextTaken(sends, count);
    if count == BUFFER_SIZE {
      FileTaken(SendsLeft(sends, count).value, n - count);
    }
  }

  /** Only what the reads deliver is sent: a read that comes short of 65536 bytes before the end breaks the upload. */
  lemma {:induction false} ShortReadBreaks(sends: seq<SendOutcome>, outcomes: seq<ReadOutcome>, n: nat)
    requires outcomes != [] && outcomes[0].count < 65536 && outcomes[0].count < n
    ensures FileSent(sends, outcomes, n).None?
  {
  }
}

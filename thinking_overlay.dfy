/**
 * The full-screen "thinking" overlay: while visible it cycles through its
 * messages on an interval, lights one progress dot per message reached, and
 * calls its completion callback once after a timeout.
 */
module ThinkingOverlay {

  /** The messages shown when the caller passes none. */
  const DefaultMessages: seq<string> := [
    "Analyzing market demand...",
    "Evaluating competition...",
    "Searching industry trends...",
    "Gathering salary data...",
    "Finalizing recommendations..."
  ]

  /** The default list is non-empty, so the modulus below is never zero for it. */
  lemma DefaultMessagesNonEmpty()
    ensures |DefaultMessages| == 5
  {
  }

  /** The interval's update `(i + 1) % messages.length`: the next message, wrapping after the last. */
  function Tick(i: nat, n: nat): (r: nat)
    requires n > 0
    ensures r < n
    ensures i + 1 < n ==> r == i + 1
    ensures i + 1 == n ==> r == 0
  {
    (i + 1) % n
  }

  /** The index after k ticks from i. */
  function Ticks(i: nat, k: nat, n: nat): (r: nat)
    requires n > 0
    ensures k == 0 ==> r == i
    ensures k > 0 || i < n ==> r < n
  {
    if k == 0 then i else Tick(Ticks(i, k - 1, n), n)
  }

  lemma MulSign(d: int, n: int)
    requires n > 0
    ensures d >= 1 ==> d * n >= n
    ensures d <= -1 ==> d * n <= -n
  {
  }

  /** Euclidean division has one remainder. */
  lemma ModUnique(a: int, n: int, q: int, r: int)
    requires n > 0 && 0 <= r < n && a == q * n + r
    ensures a % n == r
  {
    var q', r' := a / n, a % n;
    assert (q - q') * n == r' - r;
    MulSign(q - q', n);
  }

  lemma ModSucc(x: nat, n: nat)
    requires n > 0
    ensures (x % n + 1) % n == (x + 1) % n
  {
    var q, r := x / n, x % n;
    if r + 1 < n {
      ModUnique(x + 1, n, q, r + 1);
      ModUnique(r + 1, n, 0, r + 1);
    } else {
      ModUnique(x + 1, n, q + 1, 0);
      ModUnique(r + 1, n, 1, 0);
    }
  }

  /** Starting from the first message, k ticks show message k mod length. */
  lemma {:induction false} TicksFromZero(k: nat, n: nat)
    requires n > 0
    ensures Ticks(0, k, n) == k % n
  {
    if k > 0 {
      TicksFromZero(k - 1, n);
      ModSucc(k - 1, n);
    }
  }

  /** Progress dot i is lit once the message index has reached it. */
  function DotLit(i: int, msgIndex: int): (b: bool)
    ensures i == 0 && msgIndex >= 0 ==> b
    ensures b ==> i <= msgIndex
  {
    i <= msgIndex
  }

  /** The number of lit dots among dots 0 .. n-1. */
  function LitCount(n: nat, msgIndex: int): nat
  {
    if n == 0 then 0 else LitCount(n - 1, msgIndex) + (if DotLit(n - 1, msgIndex) then 1 else 0)
  }

  lemma {:induction false} AllLit(n: nat, msgIndex: int)
    requires n <= msgIndex + 1
    ensures LitCount(n, msgIndex) == n
  {
    if n > 0 {
      AllLit(n - 1, msgIndex);
    }
  }

  /** With message m of n shown, exactly m + 1 dots are lit. */
  lemma {:induction false} LitDots(n: nat, msgIndex: nat)
    requires msgIndex < n
    ensures LitCount(n, msgIndex) == msgIndex + 1
  {
    if n - 1 == msgIndex {
      AllLit(n - 1, msgIndex);
    } else {
      LitDots(n - 1, msgIndex);
    }
  }

  class Overlay {
    const messageCount: nat
    var visible: bool
    var msgIndex: nat
    /** the message interval and the completion timer are armed */
    var intervalPending: bool
    var timerPending: bool
    /** how many times `onComplete` has been called */
    var completions: nat

    ghost predicate Valid()
      reads this
    {
      messageCount > 0 && msgIndex < messageCount && (!visible ==> !intervalPending && !timerPending)
    }

    /** Mounting runs the effect once for the initial props. */
    constructor (messageCount: nat, visible: bool)
      requires messageCount > 0
      ensures Valid() && this.messageCount == messageCount && this.visible == visible
      ensures msgIndex == 0 && completions == 0
      ensures intervalPending == visible && timerPending == visible
    {
      this.messageCount := messageCount;
      this.visible := visible;
      msgIndex := 0;
      intervalPending, timerPending := visible, visible;
      completions := 0;
    }

    /**
     * The effect re-runs because `visible`, `onComplete` or `duration`
     * changed: the previous run's interval and timer are cleared; hidden, the
     * index goes back to 0; visible, both are armed afresh.
     */
    method PropsChanged(v: bool)
      requires Valid()
      modifies this
      ensures Valid() && visible == v && completions == old(completions)
      ensures !v ==> msgIndex == 0 && !intervalPending && !timerPending
      ensures v ==> msgIndex == old(msgIndex) && intervalPending && timerPending
    {
      intervalPending, timerPending := false, false;
      visible := v;
      if !v {
        msgIndex := 0;
        return;
      }
      intervalPending, timerPending := true, true;
    }

    /** The message interval fires: the index moves to the next message. */
    method IntervalFires()
      requires Valid()
      modifies this`msgIndex
      ensures Valid()
      ensures msgIndex == if intervalPending then Tick(old(msgIndex), messageCount) else old(msgIndex)
    {
      if intervalPending {
        msgIndex := (msgIndex + 1) % messageCount;
      }
    }

    /** The completion timer fires once and calls `onComplete`. */
    method TimerFires()
      requires Valid()
      modifies this`timerPending, this`completions
      ensures Valid() && !timerPending
      ensures completions == old(completions) + (if old(timerPending) then 1 else 0)
    {
      if timerPending {
        timerPending := false;
        completions := completions + 1;
      }
    }

    /** The effect's cleanup on unmount clears the interval and the timer. */
    method Unmount()
      requires Valid()
      modifies this`intervalPending, this`timerPending
      ensures !intervalPending && !timerPending
    {
      intervalPending, timerPending := false, false;
    }
  }
}

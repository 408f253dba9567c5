/**
 * The readiness assessment page: a cursor over the fetched questions with
 * one answer slot per question and a draft (the textarea), the buttons that
 * move it, the progress bar and the page's phase.
 */
module Readiness {
  import opened JsText
  import opened Wrappers

  // ------------------------------------------------------------ the cursor

  /** The stored answers, the index of the question shown and the textarea's draft. */
  datatype Cursor = Cursor(answers: seq<string>, current: int, draft: string)

  predicate InRange(c: Cursor)
  {
    0 <= c.current < |c.answers|
  }

  /** `updated[k] || ""`: the stored answer at k, or "" where there is none. */
  function DraftAt(answers: seq<string>, k: int): (d: string)
    ensures 0 <= k < |answers| ==> d == answers[k]
    ensures !(0 <= k < |answers|) ==> d == ""
  {
    if 0 <= k < |answers| then answers[k] else ""
  }

  /** `updated = [...answers]; updated[current] = answer`: the draft written into the current slot only. */
  function Stored(c: Cursor): (a: seq<string>)
    requires InRange(c)
    ensures |a| == |c.answers| && a[c.current] == c.draft
    ensures forall k :: 0 <= k < |a| && k != c.current ==> a[k] == c.answers[k]
  {
    c.answers[c.current := c.draft]
  }

  /** `handleNext`: store the draft, move one question on and load its stored answer. */
  function Next(c: Cursor): (r: Cursor)
    requires InRange(c)
    ensures r.answers == Stored(c) && r.current == c.current + 1
    ensures r.draft == DraftAt(r.answers, c.current + 1)
  {
    var a := Stored(c);
    Cursor(a, c.current + 1, DraftAt(a, c.current + 1))
  }

  /** `handleBack`: store the draft, move one question back and load its stored answer. */
  function Back(c: Cursor): (r: Cursor)
    requires InRange(c)
    ensures r.answers == Stored(c) && r.current == c.current - 1
    ensures r.draft == DraftAt(r.answers, c.current - 1)
  {
    var a := Stored(c);
    Cursor(a, c.current - 1, DraftAt(a, c.current - 1))
  }

  /** Next then Back returns to the same question with the same draft, now also stored. */
  lemma NextThenBack(c: Cursor)
    requires 0 <= c.current < |c.answers| - 1
    ensures Back(Next(c)) == Cursor(Stored(c), c.current, c.draft)
  {
    assert Stored(Next(c)) == Stored(c);
  }

  /** Back then Next returns to the same question with the same draft, now also stored. */
  lemma BackThenNext(c: Cursor)
    requires 0 < c.current < |c.answers|
    ensures Next(Back(c)) == Cursor(Stored(c), c.current, c.draft)
  {
    assert Stored(Back(c)) == Stored(c);
  }

  /** `finalAnswers`: what `handleSubmit` sends, the answers with only the current slot replaced by the draft. */
  function SubmitPayload(c: Cursor): (a: seq<string>)
    requires InRange(c)
    ensures |a| == |c.answers| && a[c.current] == c.draft
    ensures forall k :: 0 <= k < |a| && k != c.current ==> a[k] == c.answers[k]
  {
    Stored(c)
  }

  /** The answers freshly loaded for `n` questions: `new Array(n).fill("")`. */
  function BlankAnswers(n: nat): (a: seq<string>)
    ensures |a| == n && forall k :: 0 <= k < n ==> a[k] == ""
  {
    seq(n, _ => "")
  }

  // ------------------------------------------------------------- progress

  /** `isLast`: on the last question the progress bar is full. */
  function IsLast(current: int, n: int): (b: bool)
    ensures b && n > 0 ==> Progress(current, n) == 100.0
  {
    assert n > 0 ==> n as real / n as real == 1.0;
    current == n - 1
  }

  /** The progress bar in percent: (current + 1) / n * 100, or 0 without questions. */
  function Progress(current: int, n: int): (p: real)
    ensures n > 0 ==> p * n as real == (current + 1) as real * 100.0
    ensures n <= 0 ==> p == 0.0
  {
    if n > 0 then ((current + 1) as real / n as real) * 100.0 else 0.0
  }

  lemma ProgressBounds(current: int, n: int)
    requires 0 <= current < n
    ensures 0.0 < Progress(current, n) <= 100.0
    ensures Progress(current, n) == 100.0 <==> IsLast(current, n)
  {
    var q := (current + 1) as real / n as real;
    assert q * n as real == (current + 1) as real;
    assert q <= 1.0 by {
      assert (current + 1) as real <= n as real;
    }
    if Progress(current, n) == 100.0 {
      assert q == 1.0;
    }
  }

  lemma ProgressWithoutQuestions(current: int)
    ensures Progress(current, 0) == 0.0
  {
  }

  // -------------------------------------------------------------- buttons

  datatype Button = BackButton | NextButton | SubmitButton

  /**
   * Back is disabled on the first question; Next (shown before the last
   * question) and Submit (shown on it) are disabled while the draft is all
   * whitespace, that is while its trimmed form is empty (`GateIsTrim`).
   */
  function Enabled(c: Cursor, b: Button): (ok: bool)
    ensures ok && InRange(c) && b == NextButton ==> c.current + 1 < |c.answers|
    ensures ok && InRange(c) && b == BackButton ==> 0 <= c.current - 1
    ensures ok && b == SubmitButton ==> IsLast(c.current, |c.answers|)
  {
    match b
    case BackButton => c.current != 0
    case NextButton => !IsLast(c.current, |c.answers|) && !AllWhitespace(c.draft)
    case SubmitButton => IsLast(c.current, |c.answers|) && !AllWhitespace(c.draft)
  }

  /** The gates as the buttons write them: `disabled={!answer.trim()}`. */
  lemma GateIsTrim(c: Cursor)
    ensures Enabled(c, BackButton) <==> c.current != 0
    ensures Enabled(c, NextButton) <==> !IsLast(c.current, |c.answers|) && Trim(c.draft) != ""
    ensures Enabled(c, SubmitButton) <==> IsLast(c.current, |c.answers|) && Trim(c.draft) != ""
  {
  }

  datatype Input = Type(text: string) | Press(button: Button)

  /** One user input on the question panel; a disabled button does nothing and Submit leaves the cursor alone. */
  function Step(c: Cursor, e: Input): (r: Cursor)
    requires InRange(c)
    ensures InRange(r) && |r.answers| == |c.answers|
    ensures e.Press? && !Enabled(c, e.button) ==> r == c
  {
    match e
    case Type(t) => c.(draft := t)
    case Press(BackButton) => if Enabled(c, BackButton) then Back(c) else c
    case Press(NextButton) => if Enabled(c, NextButton) then Next(c) else c
    case Press(SubmitButton) => c
  }

  function Walk(c: Cursor, inputs: seq<Input>): Cursor
    requires InRange(c)
    decreases inputs
  {
    if inputs == [] then c else Walk(Step(c, inputs[0]), inputs[1..])
  }

  /** Whatever the user types and clicks, the cursor stays on a question and no answer slot is added or lost. */
  lemma {:induction false} WalkStaysInRange(c: Cursor, inputs: seq<Input>)
    requires InRange(c)
    ensures InRange(Walk(c, inputs)) && |Walk(c, inputs).answers| == |c.answers|
    decreases inputs
  {
    if inputs != [] {
      WalkStaysInRange(Step(c, inputs[0]), inputs[1..]);
    }
  }

  // ----------------------------------------------------------------- page

  datatype Phase = Loading | Questions | Submitting | Done

  class Page {
    var phase: Phase
    var questions: seq<string>
    var answers: seq<string>
    var current: int
    var answer: string
    var error: string

    function CursorOf(): Cursor
      reads this
    {
      Cursor(answers, current, answer)
    }

    ghost predicate Valid()
      reads this
    {
      && |answers| == |questions|
      && (phase == Loading ==> questions == [] && current == 0)
      && (questions == [] ==> current == 0)
      && (questions != [] ==> 0 <= current < |questions|)
    }

    /** The question panel with its buttons is on screen: no error page, questions loaded. */
    predicate Interactive()
      reads this
    {
      error == "" && phase == Questions && |questions| > 0
    }

    constructor ()
      ensures Valid() && phase == Loading && error == ""
      ensures questions == [] && answers == [] && current == 0 && answer == ""
    {
      phase := Loading;
      questions, answers := [], [];
      current := 0;
      answer := "";
      error := "";
    }

    /** The questions arrive: one blank answer per question, and the questions are shown. */
    method QuestionsLoaded(qs: seq<string>)
      requires Valid() && phase == Loading
      modifies this
      ensures Valid() && phase == Questions && questions == qs
      ensures answers == BlankAnswers(|qs|)
      ensures current == old(current) && answer == old(answer) && error == old(error)
    {
      questions := qs;
      answers := BlankAnswers(|qs|);
      phase := Questions;
    }

    /** The question request fails: the error page replaces the panel. */
    method LoadFailed(message: string)
      modifies this`error
      ensures error == message
    {
      error := message;
    }

    /** The textarea's change handler. */
    method TypeAnswer(text: string)
      requires Valid()
      modifies this`answer
      ensures Valid()
      ensures answer == if old(Interactive()) then text else old(answer)
    {
      if Interactive() {
        answer := text;
      }
    }

    method HandleNext()
      requires Valid() && InRange(CursorOf())
      modifies this`answers, this`answer, this`current
      ensures CursorOf() == Next(old(CursorOf()))
    {
      var updated := answers;
      updated := updated[current := answer];
      answers := updated;
      answer := if current + 1 < |updated| then updated[current + 1] else "";
      current := current + 1;
    }

    method HandleBack()
      requires Valid() && InRange(CursorOf())
      modifies this`answers, this`answer, this`current
      ensures CursorOf() == Back(old(CursorOf()))
    {
      var updated := answers;
      updated := updated[current := answer];
      answers := updated;
      answer := if 0 <= current - 1 then updated[current - 1] else "";
      current := current - 1;
    }

    /** `handleSubmit` up to the request: the payload sent, and the submitting phase. */
    method HandleSubmit() returns (payload: seq<string>)
      requires Valid() && InRange(CursorOf())
      modifies this`phase
      ensures payload == SubmitPayload(CursorOf()) && phase == Submitting
    {
      var finalAnswers := answers;
      finalAnswers := finalAnswers[current := answer];
      payload := finalAnswers;
      phase := Submitting;
    }

    /** A click on one of the panel's buttons. Only an enabled button on a shown panel acts. */
    method Click(b: Button) returns (sent: Option<seq<string>>)
      requires Valid()
      modifies this
      ensures Valid() && questions == old(questions) && error == old(error)
      ensures !(old(Interactive()) && Enabled(old(CursorOf()), b)) ==> unchanged(this) && sent == None
      ensures old(Interactive()) && Enabled(old(CursorOf()), b) ==>
        && CursorOf() == Step(old(CursorOf()), Press(b))
        && (b == SubmitButton <==> sent.Some?)
        && (b == SubmitButton ==> sent.value == SubmitPayload(old(CursorOf())) && phase == Submitting)
        && (b != SubmitButton ==> phase == old(phase))
    {
      ghost var c := CursorOf();
      sent := None;
      if !(Interactive() && Enabled(CursorOf(), b)) {
        return;
      }
      match b
      case BackButton =>
        assert Step(c, Press(BackButton)) == Back(c);
        HandleBack();
      case NextButton =>
        assert Step(c, Press(NextButton)) == Next(c);
        HandleNext();
      case SubmitButton =>
        assert Step(c, Press(SubmitButton)) == c;
        var payload := HandleSubmit();
        sent := Some(payload);
    }

    /**
     * The evaluation request fails: the message is recorded and the phase
     * goes back to the questions. A non-empty message shows the error page,
     * so the panel does not come back.
     */
    method EvaluationFailed(message: string)
      requires Valid()
      modifies this`error, this`phase
      ensures Valid()
      ensures old(phase) == Submitting ==> error == message && phase == Questions
      ensures old(phase) != Submitting ==> error == old(error) && phase == old(phase)
      ensures old(phase) == Submitting && message != "" ==> !Interactive()
    {
      if phase == Submitting {
        error := message;
        phase := Questions;
      }
    }
  }
}

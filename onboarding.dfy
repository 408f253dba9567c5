/**
 * The onboarding wizard: the tag lists of the Skills step (`TagInput`) and
 * the gating of the Back, Next and Launch buttons across the three steps
 * Profile, Skills and Your Role.
 */
module Onboarding {
  import opened JsText

  // ------------------------------------------------------------- tag input

  /** One `TagInput`: the list it edits (`value`) and its text box (`input`). */
  datatype TagBox = TagBox(tags: seq<string>, input: string)

  predicate NoDuplicates(tags: seq<string>)
  {
    forall a, b :: 0 <= a < b < |tags| ==> tags[a] != tags[b]
  }

  /** The invariant of every tag list: distinct, trimmed, non-empty entries. */
  predicate CleanTags(tags: seq<string>)
  {
    NoDuplicates(tags) && forall k :: 0 <= k < |tags| ==> tags[k] != "" && IsTrimmed(tags[k])
  }

  /**
   * `add`: the trimmed input is appended and the box cleared when it is
   * non-empty and not yet listed; otherwise list and box stay as they are.
   */
  function Add(box: TagBox): (r: TagBox)
    ensures Trim(box.input) != "" && Trim(box.input) !in box.tags ==>
      r.tags == box.tags + [Trim(box.input)] && r.input == ""
    ensures Trim(box.input) == "" || Trim(box.input) in box.tags ==> r == box
  {
    var v := Trim(box.input);
    if v != "" && v !in box.tags then TagBox(box.tags + [v], "") else box
  }

  /** The `includes` guard keeps any duplicate-free list duplicate-free. */
  lemma AddKeepsDistinct(box: TagBox)
    requires NoDuplicates(box.tags)
    ensures NoDuplicates(Add(box).tags)
  {
    var v := Trim(box.input);
    if v != "" && v !in box.tags {
      var t := box.tags + [v];
      assert Add(box).tags == t;
      forall a, b | 0 <= a < b < |t|
        ensures t[a] != t[b]
      {
        if b == |box.tags| {
          assert t[a] == box.tags[a];
        }
      }
    }
  }

  lemma AddPreservesClean(box: TagBox)
    requires CleanTags(box.tags)
    ensures CleanTags(Add(box).tags)
  {
    AddKeepsDistinct(box);
    var v := Trim(box.input);
    if v != "" && v !in box.tags {
      var t := box.tags + [v];
      assert Add(box).tags == t;
      assert IsTrimmed(v);
      forall k | 0 <= k < |t|
        ensures t[k] != "" && IsTrimmed(t[k])
      {
        if k < |box.tags| {
          assert t[k] == box.tags[k];
        }
      }
    }
  }

  /** The remove button of tag v: `value.filter(x => x !== v)`. */
  function Remove(tags: seq<string>, v: string): (r: seq<string>)
    ensures forall x :: x in r <==> x in tags && x != v
    ensures |r| <= |tags|
  {
    if tags == [] then []
    else if tags[0] != v then [tags[0]] + Remove(tags[1..], v)
    else Remove(tags[1..], v)
  }

  /** Remove keeps the order of what it keeps: it distributes over concatenation. */
  lemma {:induction false} RemoveDistributes(a: seq<string>, b: seq<string>, v: string)
    ensures Remove(a + b, v) == Remove(a, v) + Remove(b, v)
  {
    if a != [] {
      assert (a + b)[1..] == a[1..] + b;
      RemoveDistributes(a[1..], b, v);
    } else {
      assert a + b == b;
    }
  }

  /** A list without v is left exactly as it is. */
  lemma {:induction false} RemoveAbsent(tags: seq<string>, v: string)
    requires v !in tags
    ensures Remove(tags, v) == tags
  {
    if tags != [] {
      RemoveAbsent(tags[1..], v);
    }
  }

  lemma {:induction false} RemovePreservesClean(tags: seq<string>, v: string)
    requires CleanTags(tags)
    ensures CleanTags(Remove(tags, v))
  {
    if tags != [] {
      RemovePreservesClean(tags[1..], v);
      if tags[0] != v {
        var r := Remove(tags, v);
        assert r == [tags[0]] + Remove(tags[1..], v);
        assert tags[0] !in tags[1..];
      }
    }
  }

  /** Removing a tag that `add` just accepted gives back the list before the add. */
  lemma RemoveUndoesAdd(box: TagBox)
    requires Trim(box.input) != "" && Trim(box.input) !in box.tags
    ensures Remove(Add(box).tags, Trim(box.input)) == box.tags
  {
    var v := Trim(box.input);
    RemoveDistributes(box.tags, [v], v);
    RemoveAbsent(box.tags, v);
    assert Remove([v], v) == [];
  }

  // ---------------------------------------------------------------- wizard

  datatype Form = Form(
    name: string,
    phone: string,
    expYears: real,
    skills: seq<string>,
    strengths: seq<string>,
    weaknesses: seq<string>,
    targetRole: string)

  /** `steps = ["Profile", "Skills", "Your Role"]` */
  const StepCount: int := 3

  /** `canNext`: the validation of the step being shown. */
  function CanNext(step: int, f: Form): (ok: bool)
    ensures step == 0 ==> (ok <==> !AllWhitespace(f.name))
    ensures step == 1 ==> (ok <==> f.skills != [] && f.strengths != [] && f.weaknesses != [])
    ensures step != 0 && step != 1 ==> (ok <==> !AllWhitespace(f.targetRole))
  {
    if step == 0 then |Trim(f.name)| > 0
    else if step == 1 then |f.skills| > 0 && |f.strengths| > 0 && |f.weaknesses| > 0
    else |Trim(f.targetRole)| > 0
  }

  /** Back is disabled on the first step. */
  predicate BackEnabled(step: int)
  {
    step != 0
  }

  /** Next is rendered before the last step, Launch on it. */
  function NextShown(step: int): (b: bool)
    ensures b <==> step <= 1
  {
    step < StepCount - 1
  }

  function NextEnabled(step: int, f: Form): (b: bool)
    ensures b ==> step <= 1 && CanNext(step, f)
    ensures 0 <= step <= 1 && CanNext(step, f) ==> b
  {
    NextShown(step) && CanNext(step, f)
  }

  function SubmitEnabled(step: int, f: Form, loading: bool): (b: bool)
    ensures b ==> step >= 2 && !loading && CanNext(step, f)
  {
    !NextShown(step) && CanNext(step, f) && !loading
  }

  /** A click on Back; a disabled button does nothing. */
  function PressBack(step: int): (r: int)
    ensures r == step || r == step - 1
    ensures 0 <= step <= StepCount - 1 ==> 0 <= r <= StepCount - 1
  {
    if BackEnabled(step) then step - 1 else step
  }

  /** A click on Next with the form as it stands; a disabled button does nothing. */
  function PressNext(step: int, f: Form): (r: int)
    ensures r == step || r == step + 1
    ensures r == step + 1 ==> step < StepCount - 1 && CanNext(step, f)
    ensures 0 <= step <= StepCount - 1 ==> 0 <= r <= StepCount - 1
  {
    if NextEnabled(step, f) then step + 1 else step
  }

  datatype WizardEvent = Back | Next(form: Form)

  function Run(step: int, events: seq<WizardEvent>): int
    decreases events
  {
    if events == [] then step
    else
      var s := match events[0]
        case Back => PressBack(step)
        case Next(f) => PressNext(step, f);
      Run(s, events[1..])
  }

  /** Whatever the user clicks, the step stays in [0, 2]. */
  lemma {:induction false} RunStaysInRange(step: int, events: seq<WizardEvent>)
    requires 0 <= step <= StepCount - 1
    ensures 0 <= Run(step, events) <= StepCount - 1
    decreases events
  {
    if events != [] {
      var s := match events[0]
        case Back => PressBack(step)
        case Next(f) => PressNext(step, f);
      RunStaysInRange(s, events[1..]);
    }
  }

  /** Next only advances from a valid step; Back only leaves step 0 alone. */
  lemma StepMoves(step: int, f: Form)
    ensures PressNext(step, f) == step + 1 <==> step < 2 && CanNext(step, f)
    ensures PressNext(step, f) == step <==> !(step < 2 && CanNext(step, f))
    ensures PressBack(step) == step <==> step == 0
  {
  }

  /** Launch is enabled only on the last step, with a role filled in and no request running. */
  lemma SubmitOnlyAtLast(step: int, f: Form, loading: bool)
    requires 0 <= step <= StepCount - 1
    ensures SubmitEnabled(step, f, loading) <==> step == 2 && !AllWhitespace(f.targetRole) && !loading
  {
  }
}

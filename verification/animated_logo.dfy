/**
 * The animated logo: a typewriter that types each configured text,
 * holds it, deletes it, blinks a cursor and moves on to the next text,
 * skipping blank texts. Every timer firing is one step of the phase
 * machine.
 */
module AnimatedLogo {
  import opened Wrappers
  import opened JsText

  /** `texts.filter(keep)`. */
  function Filter(texts: seq<string>, keep: string -> bool): (r: seq<string>)
    ensures |r| <= |texts|
  {
    if texts == [] then []
    else (if keep(texts[0]) then [texts[0]] else []) + Filter(texts[1..], keep)
  }

  /** The filter keeps exactly the texts it is asked to keep. */
  lemma {:induction false} FilterMembers(texts: seq<string>, keep: string -> bool)
    ensures forall t :: t in Filter(texts, keep) <==> t in texts && keep(t)
  {
    if texts != [] {
      FilterMembers(texts[1..], keep);
      assert texts == [texts[0]] + texts[1..];
    }
  }

  /** The filter works piece by piece, so it keeps the order of the texts
      it keeps. */
  lemma {:induction false} FilterConcat(a: seq<string>, b: seq<string>, keep: string -> bool)
    ensures Filter(a + b, keep) == Filter(a, keep) + Filter(b, keep)
  {
    if a == [] {
      assert a + b == b;
    } else {
      assert (a + b)[0] == a[0] && (a + b)[1..] == a[1..] + b;
      FilterConcat(a[1..], b, keep);
    }
  }

  lemma {:induction false} FilterAll(texts: seq<string>, keep: string -> bool)
    requires forall i :: 0 <= i < |texts| ==> keep(texts[i])
    ensures Filter(texts, keep) == texts
  {
    if texts != [] {
      FilterAll(texts[1..], keep);
    }
  }

  predicate NotBlank(t: string) {
    !IsBlank(t)
  }

  /** `texts.filter(text => text.trim().length > 0)`. */
  function TextSequence(texts: seq<string>): (r: seq<string>)
    ensures |r| <= |texts|
  {
    Filter(texts, NotBlank)
  }

  /** The sequence holds exactly the texts that are not blank. */
  lemma TextSequenceMembers(texts: seq<string>)
    ensures forall t :: t in TextSequence(texts) <==> t in texts && !IsBlank(t)
  {
    FilterMembers(texts, NotBlank);
  }

  /** Filtering concatenated lists is concatenating their filters. */
  lemma TextSequenceConcat(a: seq<string>, b: seq<string>)
    ensures TextSequence(a + b) == TextSequence(a) + TextSequence(b)
  {
    FilterConcat(a, b, NotBlank);
  }

  /** A list without a blank text is kept whole. */
  lemma TextSequenceKeepsNonBlank(texts: seq<string>)
    requires forall i :: 0 <= i < |texts| ==> !IsBlank(texts[i])
    ensures TextSequence(texts) == texts
  {
    FilterAll(texts, NotBlank);
  }

  datatype Phase = Typing | Displaying | Deleting | Waiting

  /** The three pieces of animation state. */
  datatype Frame = Frame(display: string, phase: Phase, index: nat)

  /** The text being typed, for a non-empty sequence. */
  function Target(textSeq: seq<string>, f: Frame): string
    requires |textSeq| > 0
  {
    textSeq[f.index % |textSeq|]
  }

  /** One run of the phase effect followed by the timer it sets, if any;
      an empty sequence sets no timer. */
  function Next(textSeq: seq<string>, f: Frame): (g: Frame)
    ensures |textSeq| == 0 ==> g == f
    ensures g.phase == Displaying ==> f.phase == Typing || f.phase == Displaying
    ensures f.phase == Displaying && |textSeq| > 0 ==> g == f.(phase := Deleting)
  {
    if |textSeq| == 0 then f
    else
      var target := Target(textSeq, f);
      match f.phase
      case Typing =>
        if |f.display| < |target| then f.(display := target[..|f.display| + 1])
        else f.(phase := Displaying)
      case Displaying => f.(phase := Deleting)
      case Deleting =>
        if |f.display| > 0 then f.(display := f.display[..|f.display| - 1])
        else f.(phase := Waiting)
      case Waiting => Frame(f.display, Typing, (f.index + 1) % |textSeq|)
  }

  /** `k` steps of the machine. */
  function Run(textSeq: seq<string>, f: Frame, k: nat): Frame
    decreases k
  {
    if k == 0 then f else Run(textSeq, Next(textSeq, f), k - 1)
  }

  /** The states the machine keeps to while the texts stay the same: the
      display is always the start of the current text, all of it while
      displaying and none of it while waiting, and the index points into
      the sequence. */
  predicate Consistent(textSeq: seq<string>, f: Frame) {
    |textSeq| > 0 ==>
      && f.index < |textSeq|
      && f.display <= Target(textSeq, f)
      && (f.phase == Displaying ==> f.display == Target(textSeq, f))
      && (f.phase == Waiting ==> f.display == "")
  }

  /** Every step keeps the machine consistent. */
  lemma NextConsistent(textSeq: seq<string>, f: Frame)
    requires Consistent(textSeq, f)
    ensures Consistent(textSeq, Next(textSeq, f))
  {
    if |textSeq| > 0 {
      var target := Target(textSeq, f);
      var g := Next(textSeq, f);
      match f.phase
      case Typing =>
        if |f.display| < |target| {
          assert g.display == target[..|f.display| + 1];
        }
      case Displaying =>
      case Deleting =>
        if |f.display| > 0 {
          assert g.display == f.display[..|f.display| - 1];
          assert g.display <= f.display;
        }
      case Waiting =>
    }
  }

  /** Typing a text from any point of it reaches the whole text, one
      character per step. */
  lemma {:induction false} TypingRun(textSeq: seq<string>, index: nat, j: nat, k: nat)
    requires index < |textSeq| && j + k == |textSeq[index]|
    ensures Run(textSeq, Frame(textSeq[index][..j], Typing, index), k) == Frame(textSeq[index], Typing, index)
    decreases k
  {
    var t := textSeq[index];
    if k == 0 {
      assert t[..j] == t;
    } else {
      assert Target(textSeq, Frame(t[..j], Typing, index)) == t;
      assert t[..j + 1] == t[..j][..0] + t[..j + 1];
      assert Next(textSeq, Frame(t[..j], Typing, index)) == Frame(t[..j + 1], Typing, index);
      TypingRun(textSeq, index, j + 1, k - 1);
    }
  }

  /** Deleting from any start of a text empties the display, one character
      per step. */
  lemma {:induction false} DeletingRun(textSeq: seq<string>, index: nat, j: nat)
    requires index < |textSeq| && j <= |textSeq[index]|
    ensures Run(textSeq, Frame(textSeq[index][..j], Deleting, index), j) == Frame("", Deleting, index)
  {
    var t := textSeq[index];
    if j > 0 {
      assert t[..j][..j - 1] == t[..j - 1];
      assert Next(textSeq, Frame(t[..j], Deleting, index)) == Frame(t[..j - 1], Deleting, index);
      DeletingRun(textSeq, index, j - 1);
    }
  }

  /** Running `a` steps and then `b` more is running `a + b` steps. */
  lemma {:induction false} RunAdd(textSeq: seq<string>, f: Frame, a: nat, b: nat)
    ensures Run(textSeq, f, a + b) == Run(textSeq, Run(textSeq, f, a), b)
    decreases a
  {
    if a > 0 {
      RunAdd(textSeq, Next(textSeq, f), a - 1, b);
    }
  }

  /** A whole cycle: from an empty display about to type text `i`, after
      typing it, holding it, deleting it and blinking, the machine is about
      to type the next text, wrapping round after the last. */
  lemma FullCycle(textSeq: seq<string>, i: nat)
    requires i < |textSeq|
    ensures var n := |textSeq[i]|;
      Run(textSeq, Frame("", Typing, i), 2 * n + 4) == Frame("", Typing, (i + 1) % |textSeq|)
  {
    var t := textSeq[i];
    var n := |t|;
    var start := Frame("", Typing, i);
    assert t[..0] == "";
    TypingRun(textSeq, i, 0, n);
    var typed := Frame(t, Typing, i);
    assert Next(textSeq, typed) == Frame(t, Displaying, i);
    assert Next(textSeq, Frame(t, Displaying, i)) == Frame(t, Deleting, i);
    assert Run(textSeq, typed, 2) == Frame(t, Deleting, i);
    assert t[..n] == t;
    DeletingRun(textSeq, i, n);
    var emptied := Frame("", Deleting, i);
    assert Next(textSeq, emptied) == Frame("", Waiting, i);
    assert Next(textSeq, Frame("", Waiting, i)) == Frame("", Typing, (i + 1) % |textSeq|);
    assert Run(textSeq, emptied, 2) == Frame("", Typing, (i + 1) % |textSeq|);
    RunAdd(textSeq, start, n, 2);
    RunAdd(textSeq, start, n + 2, n);
    RunAdd(textSeq, start, 2 * n + 2, 2);
  }

  /** The component's state. `prevTexts` stands for the JSON text of the
      texts last seen; two lists of strings have the same JSON text exactly
      when they are equal. */
  class Typewriter {
    var texts: seq<string>
    var prevTexts: seq<string>
    var display: string
    var phase: Phase
    var index: nat

    function Snapshot(): Frame
      reads this
    {
      Frame(display, phase, index)
    }

    function Sequence(): seq<string>
      reads this
    {
      TextSequence(texts)
    }

    ghost predicate Valid()
      reads this
    {
      prevTexts == texts && Consistent(Sequence(), Snapshot())
    }

    constructor (texts: seq<string>)
      ensures Valid()
      ensures this.texts == texts && Snapshot() == Frame("", Typing, 0)
    {
      this.texts := texts;
      prevTexts := texts;
      display := "";
      phase := Typing;
      index := 0;
    }

    /** New texts from the settings and the reset effect: any change
        starts over with an empty display, typing the first text. */
    method SetTexts(newTexts: seq<string>)
      requires Valid()
      modifies this
      ensures Valid()
      ensures texts == newTexts
      ensures newTexts == old(texts) ==> Snapshot() == old(Snapshot())
      ensures newTexts != old(texts) ==> Snapshot() == Frame("", Typing, 0)
    {
      texts := newTexts;
      if prevTexts != newTexts {
        prevTexts := newTexts;
        display := "";
        phase := Typing;
        index := 0;
      }
    }

    /** One effect run and the timer it set: the machine's next state.
        With no text to show, nothing happens. */
    method Step()
      requires Valid()
      modifies this
      ensures Valid()
      ensures texts == old(texts)
      ensures Snapshot() == Next(Sequence(), old(Snapshot()))
    {
      NextConsistent(Sequence(), Snapshot());
      var textSeq := TextSequence(texts);
      if |textSeq| == 0 {
        return;
      }
      var target := textSeq[index % |textSeq|];
      match phase {
        case Typing =>
          if |display| < |target| {
            display := target[..|display| + 1];
          } else {
            phase := Displaying;
          }
        case Displaying =>
          phase := Deleting;
        case Deleting =>
          if |display| > 0 {
            display := display[..|display| - 1];
          } else {
            phase := Waiting;
          }
        case Waiting =>
          index := (index + 1) % |textSeq|;
          phase := Typing;
      }
    }

    /** What is rendered: nothing when no text is configured, otherwise
        the display followed by the cursor; the display is always the start
        of the current text. */
    method Render() returns (shown: Option<string>)
      requires Valid()
      ensures shown.None? <==> |Sequence()| == 0
      ensures shown.Some? ==> shown.value == display + "_" && display <= Target(Sequence(), Snapshot())
    {
      if |TextSequence(texts)| == 0 {
        return None;
      }
      return Some(display + "_");
    }
  }
}

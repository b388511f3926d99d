/**
 * The logo section of the settings drawer: a visibility toggle whose texts
 * area is shown and hidden with a transition, and an editable list of logo
 * texts. Typing is passed on to the parent after a 300 ms debounce; adding
 * and removing a text are passed on at once.
 */
module LogoSettings {
  import opened Wrappers

  /** The logo part of the dashboard settings, as the parent holds it. */
  datatype LogoConfig = LogoConfig(visible: bool, texts: seq<string>)

  /** `handleAddText`: one more, empty, text at the end. */
  function WithEmptyText(texts: seq<string>): (r: seq<string>)
    ensures |r| == |texts| + 1 && r[..|texts|] == texts && r[|texts|] == ""
  {
    texts + [""]
  }

  /** `handleRemoveText(index)`: a list of one text or none is left alone;
      otherwise every text but the one at `index` is kept, in order. */
  function WithoutText(texts: seq<string>, index: nat): seq<string> {
    if |texts| <= 1 then texts
    else if index < |texts| then texts[..index] + texts[index + 1..]
    else texts
  }

  /** Removal drops exactly the text at `index` from a list of two or more
      and changes nothing otherwise; in particular a list that has a text
      is never left without one. */
  lemma WithoutTextSpec(texts: seq<string>, index: nat)
    ensures var r := WithoutText(texts, index);
      && (|texts| <= 1 || index >= |texts| ==> r == texts)
      && (|texts| >= 2 && index < |texts| ==>
            && |r| == |texts| - 1
            && (forall j :: 0 <= j < index ==> r[j] == texts[j])
            && (forall j :: index <= j < |r| ==> r[j] == texts[j + 1])
            && multiset(r) + multiset{texts[index]} == multiset(texts))
      && (|texts| >= 1 ==> |r| >= 1)
  {
    if |texts| >= 2 && index < |texts| {
      assert texts == texts[..index] + [texts[index]] + texts[index + 1..];
    }
  }

  /** The update a debounced edit sends as the source writes it: the whole
      settings object captured when the edit was typed, with the new
      texts. */
  datatype StaleUpdate = StaleUpdate(captured: LogoConfig, texts: seq<string>)

  /** What the parent holds after a debounced update fires, as written. */
  function FireAsWritten(u: StaleUpdate): LogoConfig {
    u.captured.(texts := u.texts)
  }

  /** A pending edit is neither cancelled by adding a text nor by switching
      the logo off, and it carries the settings of the moment it was
      typed: when it fires it takes away the text added meanwhile and
      switches the logo back on. */
  lemma StaleDebounceReverts()
    ensures
      var before := LogoConfig(true, ["Nexus"]);
      var edited := before.texts[0 := "Nexus!"];
      var pending := StaleUpdate(before, edited);
      var afterAdd := before.(texts := WithEmptyText(edited));
      var afterHide := afterAdd.(visible := false);
      var fired := FireAsWritten(pending);
      && |afterHide.texts| == 2 && !afterHide.visible
      && |fired.texts| == 1 && fired.visible
  {
  }

  /** The settings section's own state, with the parent's settings it
      is given. `pending` holds the texts of a debounce timer that has not
      fired yet. */
  class LogoEditor {
    /** The parent's logo settings; `onChange` replaces them. */
    var settings: LogoConfig
    /** The list as shown in the inputs. */
    var localTexts: seq<string>
    var pending: Option<seq<string>>
    var shouldRenderTexts: bool
    var textsAnimating: bool
    /** A show animation waiting for its second animation frame. */
    var framePending: bool

    /** The shown list is what the parent holds, or what the pending
        update will hand it; and a visible logo always has its texts area
        mounted. */
    ghost predicate Valid()
      reads this
    {
      && (pending.None? ==> localTexts == settings.texts)
      && (pending.Some? ==> localTexts == pending.value)
      && (settings.visible ==> shouldRenderTexts)
    }

    constructor (settings: LogoConfig)
      ensures Valid()
      ensures this.settings == settings && localTexts == settings.texts && pending == None
      ensures shouldRenderTexts == settings.visible && textsAnimating == settings.visible && !framePending
    {
      this.settings := settings;
      localTexts := settings.texts;
      pending := None;
      shouldRenderTexts := settings.visible;
      textsAnimating := settings.visible;
      framePending := false;
    }

    /** `handleVisibleChange(visible)` and the effect it triggers: showing
        mounts the area at once and starts the animation two frames later;
        hiding only stops the animation. */
    method HandleVisibleChange(visible: bool)
      requires Valid()
      modifies this
      ensures Valid()
      ensures settings == old(settings).(visible := visible)
      ensures localTexts == old(localTexts) && pending == old(pending)
      ensures visible ==> shouldRenderTexts && framePending && textsAnimating == old(textsAnimating)
      ensures !visible ==> shouldRenderTexts == old(shouldRenderTexts) && !textsAnimating && framePending == old(framePending)
    {
      settings := settings.(visible := visible);
      if visible {
        shouldRenderTexts := true;
        framePending := true;
      } else {
        textsAnimating := false;
      }
    }

    /** The second animation frame after showing. */
    method AnimationFrame()
      requires Valid()
      modifies this
      ensures Valid()
      ensures textsAnimating == (old(textsAnimating) || old(framePending)) && !framePending
      ensures settings == old(settings) && localTexts == old(localTexts) && pending == old(pending)
      ensures shouldRenderTexts == old(shouldRenderTexts)
    {
      if framePending {
        textsAnimating := true;
        framePending := false;
      }
    }

    /** `handleTextsTransitionEnd`: the area is unmounted once the hide
        animation has run, and only then. */
    method HandleTextsTransitionEnd()
      requires Valid()
      modifies this
      ensures Valid()
      ensures shouldRenderTexts == (old(shouldRenderTexts) && (old(textsAnimating) || settings.visible))
      ensures settings == old(settings) && localTexts == old(localTexts) && pending == old(pending)
      ensures textsAnimating == old(textsAnimating) && framePending == old(framePending)
    {
      if !textsAnimating && !settings.visible {
        shouldRenderTexts := false;
      }
    }

    /** `handleTextChange(index, value)`: the input shows the new text at
        once and the timer is restarted with the new list. */
    method HandleTextChange(index: nat, value: string)
      requires Valid()
      requires index < |localTexts|
      modifies this
      ensures Valid()
      ensures localTexts == old(localTexts)[index := value] && pending == Some(localTexts)
      ensures |localTexts| == |old(localTexts)|
      ensures settings == old(settings)
      ensures shouldRenderTexts == old(shouldRenderTexts) && textsAnimating == old(textsAnimating)
    {
      var newTexts := localTexts[index := value];
      localTexts := newTexts;
      pending := Some(newTexts);
    }

    /** The debounce timer fires: the parent receives the typed texts, with
        the visibility it holds now. */
    method DebounceFires()
      requires Valid()
      modifies this
      ensures Valid()
      ensures pending == None
      ensures settings == if old(pending).Some? then old(settings).(texts := old(pending).value) else old(settings)
      ensures settings.texts == localTexts && settings.visible == old(settings).visible
      ensures localTexts == old(localTexts)
      ensures shouldRenderTexts == old(shouldRenderTexts) && textsAnimating == old(textsAnimating)
    {
      if pending.Some? {
        settings := settings.(texts := pending.value);
        pending := None;
      }
    }

    /** `handleAddText()`: the new list goes to the parent at once, and it
        already holds any typed edit, so the pending update is dropped. */
    method HandleAddText()
      requires Valid()
      modifies this
      ensures Valid()
      ensures localTexts == WithEmptyText(old(localTexts)) && settings == old(settings).(texts := localTexts)
      ensures pending == None
      ensures shouldRenderTexts == old(shouldRenderTexts) && textsAnimating == old(textsAnimating)
    {
      var newTexts := WithEmptyText(localTexts);
      localTexts := newTexts;
      settings := settings.(texts := newTexts);
      pending := None;
    }

    /** `handleRemoveText(index)`: nothing happens to a list of one text or
        none; otherwise the shorter list goes to the parent at once. */
    method HandleRemoveText(index: nat)
      requires Valid()
      modifies this
      ensures Valid()
      ensures |old(localTexts)| <= 1 ==> localTexts == old(localTexts) && settings == old(settings) && pending == old(pending)
      ensures |old(localTexts)| > 1 ==>
        localTexts == WithoutText(old(localTexts), index) && settings == old(settings).(texts := localTexts) && pending == None
      ensures |old(localTexts)| >= 1 ==> |localTexts| >= 1
      ensures shouldRenderTexts == old(shouldRenderTexts) && textsAnimating == old(textsAnimating)
    {
      WithoutTextSpec(localTexts, index);
      if |localTexts| <= 1 {
        return;
      }
      var newTexts := WithoutText(localTexts, index);
      localTexts := newTexts;
      settings := settings.(texts := newTexts);
      pending := None;
    }

    /** The unmount cleanup: the timer is cleared, so an edit typed less
        than 300 ms before is not passed on. */
    method Unmount()
      modifies this
      ensures pending == None
      ensures settings == old(settings) && localTexts == old(localTexts)
      ensures shouldRenderTexts == old(shouldRenderTexts) && textsAnimating == old(textsAnimating)
    {
      pending := None;
    }
  }
}

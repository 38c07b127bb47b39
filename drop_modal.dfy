/**
 * The drop-down modal of the search form (pages/components/DropModalComponent.ts): open it
 * through its trigger, pick one selectable item at random, save and close it.
 * The items the modal renders are observations; `Math.random()` is an injected real in [0, 1).
 */
module DropModal {
  import opened Wrappers
  import opened Text
  import opened Domain

  /** What one item of the modal shows: its text content (`null` when absent), whether it holds
      a checkbox and, if so, whether that checkbox is disabled, and its `class` attribute. */
  datatype ModalItem = ModalItem(textContent: Option<string>, checkbox: Option<bool>, classAttr: Option<string>)

  /** A selectable item: its position among the modal's items and its trimmed text. */
  datatype Candidate = Candidate(index: nat, text: string)

  const NoTriggerError := "DropModalComponent: trigger locator is not provided"
  const NoSelectableItemsError := "DropModalComponent: no selectable items found"
  /** The modal's own waits for becoming visible or hidden (the default of
      `BaseComponent.waitForVisible` and `waitForHidden`), in ms. */
  const ModalTimeout: nat := 5000

  /** `(await item.textContent())?.trim() ?? ''` */
  function ItemText(item: ModalItem): string {
    Trim(item.textContent.GetOr(""))
  }

  /** Some excluded string occurs in `text`. */
  predicate IsExcluded(text: string, excludeTexts: seq<string>) {
    exists k :: 0 <= k < |excludeTexts| && Contains(text, excludeTexts[k])
  }

  /** The class test for items without a checkbox; it is case-sensitive. */
  predicate MarkedDisabled(classAttr: Option<string>) {
    classAttr.Some? && (Contains(classAttr.value, "disabled") || Contains(classAttr.value, "Disabled"))
  }

  /** A checkbox decides by its own disabled state; otherwise the class attribute decides. */
  predicate IsEnabled(item: ModalItem) {
    match item.checkbox
    case Some(disabled) => !disabled
    case None => !MarkedDisabled(item.classAttr)
  }

  predicate Selectable(item: ModalItem, excludeTexts: seq<string>) {
    var text := ItemText(item);
    text != "" && !IsExcluded(text, excludeTexts) && IsEnabled(item)
  }

  /** The candidates the selection loop collects, in item order. */
  function Candidates(items: seq<ModalItem>, excludeTexts: seq<string>): (c: seq<Candidate>)
    ensures |c| <= |items|
  {
    if items == [] then []
    else
      var i := |items| - 1;
      Candidates(items[..i], excludeTexts)
        + (if Selectable(items[i], excludeTexts) then [Candidate(i, ItemText(items[i]))] else [])
  }

  /** Every candidate is a selectable item, carrying that item's index and trimmed text. */
  predicate CandidatesSound(items: seq<ModalItem>, excludeTexts: seq<string>, c: seq<Candidate>) {
    forall k :: 0 <= k < |c| ==>
      && c[k].index < |items|
      && Selectable(items[c[k].index], excludeTexts)
      && c[k].text == ItemText(items[c[k].index])
  }

  /** Candidates keep the items' order. */
  predicate IncreasingIndices(c: seq<Candidate>) {
    forall k, l :: 0 <= k < l < |c| ==> c[k].index < c[l].index
  }

  /** Every selectable item is among the candidates. */
  predicate CandidatesComplete(items: seq<ModalItem>, excludeTexts: seq<string>, c: seq<Candidate>) {
    forall i :: 0 <= i < |items| && Selectable(items[i], excludeTexts) ==>
      exists k :: 0 <= k < |c| && c[k].index == i
  }

  /** One step of `Candidates`: the candidates of a prefix come first. */
  lemma CandidatesStep(items: seq<ModalItem>, excludeTexts: seq<string>)
    requires items != []
    ensures var i := |items| - 1;
      Candidates(items, excludeTexts) == Candidates(items[..i], excludeTexts)
        + (if Selectable(items[i], excludeTexts) then [Candidate(i, ItemText(items[i]))] else [])
  {
  }

  lemma {:induction false} CandidatesAreSound(items: seq<ModalItem>, excludeTexts: seq<string>)
    ensures CandidatesSound(items, excludeTexts, Candidates(items, excludeTexts))
  {
    if items != [] {
      var i := |items| - 1;
      var prefix := items[..i];
      CandidatesAreSound(prefix, excludeTexts);
      CandidatesStep(items, excludeTexts);
      var c := Candidates(items, excludeTexts);
      var p := Candidates(prefix, excludeTexts);
      forall k | 0 <= k < |c|
        ensures c[k].index < |items| && Selectable(items[c[k].index], excludeTexts)
        ensures c[k].text == ItemText(items[c[k].index])
      {
        if k < |p| {
          assert c[k] == p[k];
          assert prefix[p[k].index] == items[p[k].index];
        }
      }
    }
  }

  lemma {:induction false} CandidatesAreOrdered(items: seq<ModalItem>, excludeTexts: seq<string>)
    ensures IncreasingIndices(Candidates(items, excludeTexts))
  {
    if items != [] {
      var i := |items| - 1;
      var prefix := items[..i];
      CandidatesAreOrdered(prefix, excludeTexts);
      CandidatesAreSound(prefix, excludeTexts);
      CandidatesStep(items, excludeTexts);
      var c := Candidates(items, excludeTexts);
      var p := Candidates(prefix, excludeTexts);
      forall k, l | 0 <= k < l < |c|
        ensures c[k].index < c[l].index
      {
        assert c[k] == p[k];
        if l < |p| {
          assert c[l] == p[l];
        } else {
          assert p[k].index < |prefix|;
        }
      }
    }
  }

  lemma {:induction false} CandidatesAreComplete(items: seq<ModalItem>, excludeTexts: seq<string>)
    ensures CandidatesComplete(items, excludeTexts, Candidates(items, excludeTexts))
  {
    if items != [] {
      var i := |items| - 1;
      var prefix := items[..i];
      CandidatesAreComplete(prefix, excludeTexts);
      CandidatesStep(items, excludeTexts);
      var c := Candidates(items, excludeTexts);
      var p := Candidates(prefix, excludeTexts);
      forall j | 0 <= j < |items| && Selectable(items[j], excludeTexts)
        ensures exists k :: 0 <= k < |c| && c[k].index == j
      {
        if j == i {
          assert c[|c| - 1].index == i;
        } else {
          assert prefix[j] == items[j];
          var k :| 0 <= k < |p| && p[k].index == j;
          assert c[k] == p[k];
        }
      }
    }
  }

  /** The candidates are exactly the selectable items, each with its own index and trimmed text,
      in increasing index order. */
  lemma CandidatesCharacterized(items: seq<ModalItem>, excludeTexts: seq<string>)
    ensures CandidatesSound(items, excludeTexts, Candidates(items, excludeTexts))
    ensures IncreasingIndices(Candidates(items, excludeTexts))
    ensures CandidatesComplete(items, excludeTexts, Candidates(items, excludeTexts))
  {
    CandidatesAreSound(items, excludeTexts);
    CandidatesAreOrdered(items, excludeTexts);
    CandidatesAreComplete(items, excludeTexts);
  }

  /** Nothing is left to choose from exactly when no item is selectable. */
  lemma NoCandidatesIff(items: seq<ModalItem>, excludeTexts: seq<string>)
    ensures Candidates(items, excludeTexts) == [] <==>
      forall i :: 0 <= i < |items| ==> !Selectable(items[i], excludeTexts)
  {
    CandidatesCharacterized(items, excludeTexts);
    var c := Candidates(items, excludeTexts);
    if c != [] {
      assert c[0].index < |items| && Selectable(items[c[0].index], excludeTexts);
    }
  }

  /** The selection loop of `selectRandomItem`: skip blank, excluded and disabled items. */
  method CollectCandidates(items: seq<ModalItem>, excludeTexts: seq<string>) returns (candidates: seq<Candidate>)
    ensures candidates == Candidates(items, excludeTexts)
  {
    candidates := [];
    for i := 0 to |items|
      invariant candidates == Candidates(items[..i], excludeTexts)
    {
      assert items[..i + 1][..i] == items[..i];
      var item := items[i];
      var text := ItemText(item);
      if text == "" {
        continue;
      }
      if IsExcluded(text, excludeTexts) {
        continue;
      }
      match item.checkbox {
        case Some(disabled) =>
          if disabled {
            continue;
          }
        case None =>
          if MarkedDisabled(item.classAttr) {
            continue;
          }
      }
      candidates := candidates + [Candidate(i, text)];
    }
    assert items[..|items|] == items;
  }

  /** `Math.floor(Math.random() * n)` for a draw `rand` in [0, 1). */
  function RandomIndex(rand: real, n: nat): (k: nat)
    requires 0.0 <= rand < 1.0 && n > 0
    ensures k < n
  {
    var x := rand * n as real;
    assert 0.0 <= x < n as real by {
      assert rand * n as real <= 1.0 * n as real;
    }
    x.Floor
  }

  class DropModalComponent {
    /** Whether a trigger locator was configured. */
    const hasTrigger: bool
    /** The items the modal renders, in document order. */
    const items: seq<ModalItem>
    /** Whether the modal is shown. */
    var visible: bool
    /** The indices of the items clicked so far, in order. */
    var clicked: seq<nat>

    constructor (hasTrigger: bool, items: seq<ModalItem>)
      ensures this.hasTrigger == hasTrigger && this.items == items
      ensures !visible && clicked == []
    {
      this.hasTrigger := hasTrigger;
      this.items := items;
      visible := false;
      clicked := [];
    }

    /** Click the trigger and wait for the modal; `appears` says whether it showed up in time. */
    method Open(appears: bool) returns (r: Result<()>)
      modifies this`visible
      ensures !hasTrigger ==> r == Err(NoTriggerError) && visible == old(visible)
      ensures hasTrigger ==> visible == appears && (r.Ok? <==> appears)
      ensures hasTrigger && !appears ==> r == Err(TimeoutError(ModalTimeout))
    {
      if !hasTrigger {
        return Err(NoTriggerError);
      }
      visible := appears;
      if !appears {
        return Err(TimeoutError(ModalTimeout));
      }
      r := Ok(());
    }

    /** Click the save button and wait for the modal to hide; `hides` says whether it did in time. */
    method Save(hides: bool) returns (r: Result<()>)
      modifies this`visible
      ensures visible == (old(visible) && !hides)
      ensures r.Ok? <==> hides
      ensures !hides ==> r == Err(TimeoutError(ModalTimeout))
    {
      if hides {
        visible := false;
        r := Ok(());
      } else {
        r := Err(TimeoutError(ModalTimeout));
      }
    }

    /** `selectRandomItem`: click one selectable item chosen by `rand` and return its text. */
    method SelectRandomItem(excludeTexts: seq<string>, rand: real) returns (r: Result<string>)
      requires 0.0 <= rand < 1.0
      modifies this`clicked
      ensures !visible ==> r == Err(TimeoutError(ModalTimeout))
      ensures r.Err? ==> clicked == old(clicked)
      ensures visible ==> (r == Err(NoSelectableItemsError) <==> Candidates(items, excludeTexts) == [])
      ensures visible && Candidates(items, excludeTexts) != [] ==> r.Ok?
      ensures r.Ok? ==>
        var c := Candidates(items, excludeTexts);
        var k := RandomIndex(rand, |c|);
        clicked == old(clicked) + [c[k].index] && r.value == c[k].text
      ensures r.Ok? ==>
        var i := clicked[|clicked| - 1];
        i < |items| && Selectable(items[i], excludeTexts) && r.value == ItemText(items[i])
    {
      if !visible {
        return Err(TimeoutError(ModalTimeout));
      }
      var candidates := CollectCandidates(items, excludeTexts);
      if |candidates| == 0 {
        return Err(NoSelectableItemsError);
      }
      var k := RandomIndex(rand, |candidates|);
      var chosen := candidates[k];
      CandidatesAreSound(items, excludeTexts);
      assert chosen.index < |items| && Selectable(items[chosen.index], excludeTexts);
      clicked := clicked + [chosen.index];
      r := Ok(chosen.text);
    }
  }

  /** For an item with a checkbox the class attribute plays no part. */
  lemma CheckboxOverridesClass(item: ModalItem, classAttr: Option<string>, excludeTexts: seq<string>)
    requires item.checkbox.Some?
    ensures Selectable(item.(classAttr := classAttr), excludeTexts) == Selectable(item, excludeTexts)
  {
  }

  lemma {:induction false} LongerNeedleNotContained(s: string, sub: string)
    requires |s| < |sub|
    ensures !Contains(s, sub)
    decreases |s|
  {
    if s != [] {
      LongerNeedleNotContained(s[1..], sub);
    }
  }

  /** The class test only knows the spellings `disabled` and `Disabled`: an item without a
      checkbox whose class reads `DISABLED` stays selectable. */
  lemma ClassMarkerIsCaseSensitive(text: string)
    requires Trim(text) != ""
    ensures Selectable(ModalItem(Some(text), None, Some("DISABLED")), [])
  {
    var cls := "DISABLED";
    assert cls[0] != "disabled"[0];
    assert cls[1] != "Disabled"[1];
    LongerNeedleNotContained(cls[1..], "disabled");
    LongerNeedleNotContained(cls[1..], "Disabled");
  }
}

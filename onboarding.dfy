/**
 * The onboarding wizard: a four-step cursor with a clamped Back and a guarded Next, the
 * per-step condition that enables Next, and the language choices of step 1.
 */
module Onboarding {
  import opened Common

  /** A language the wizard offers: the name shown and the lower-case value stored. */
  datatype Language = Language(name: string, value: string)

  const Languages: seq<Language> := [
    Language("English", "english"), Language("Spanish", "spanish"), Language("French", "french"),
    Language("German", "german"), Language("Italian", "italian"), Language("Portuguese", "portuguese"),
    Language("Chinese", "chinese"), Language("Japanese", "japanese"), Language("Korean", "korean"),
    Language("Arabic", "arabic"), Language("Hindi", "hindi"), Language("Russian", "russian")
  ]

  /** The titles of the wizard's steps, one per step. */
  const StepTitles: seq<string> := ["Welcome to LingoLive!", "Choose Your Languages", "Cultural Tips", "Test Your Voice"]
  const StepCount: nat := |StepTitles|

  datatype Preferences = Preferences(nativeLanguage: string, targetLanguages: seq<string>, useCase: string, voiceTested: bool)

  const InitialPreferences := Preferences("", [], "", false)

  /** Whether Next is enabled on `step`: always on the welcome and tips steps, on the language
      step once a native language and a target are chosen, on the voice step once the voice
      was tested, and never on any other step. */
  predicate CanProceed(step: int, p: Preferences): (r: bool)
    ensures r ==> 0 <= step < StepCount
  {
    if step == 0 || step == 2 then true
    else if step == 1 then p.nativeLanguage != "" && |p.targetLanguages| > 0
    else if step == 3 then p.voiceTested
    else false
  }

  // ---------------------------------------------------------------------------------
  // Target languages
  // ---------------------------------------------------------------------------------

  /** `ts` without any occurrence of `v`, the others kept in order. */
  function RemoveAll(ts: seq<string>, v: string): (r: seq<string>)
    ensures v !in r
    ensures forall x :: x in r <==> x in ts && x != v
    ensures |r| <= |ts|
    ensures NoDuplicates(ts) ==> NoDuplicates(r)
    decreases |ts|
  {
    if ts == [] then []
    else if ts[0] == v then RemoveAll(ts[1..], v)
    else
      var rest := RemoveAll(ts[1..], v);
      assert NoDuplicates(ts) ==> ts[0] !in ts[1..];
      [ts[0]] + rest
  }

  /** Removing a value that does not occur leaves the list as it was. */
  lemma {:induction false} RemoveAllAbsent(ts: seq<string>, v: string)
    requires v !in ts
    ensures RemoveAll(ts, v) == ts
    decreases |ts|
  {
    if ts != [] {
      RemoveAllAbsent(ts[1..], v);
    }
  }

  /** Removing a value from a list that ends with it is removing it from the rest. */
  lemma {:induction false} RemoveAllAppended(ts: seq<string>, v: string)
    ensures RemoveAll(ts + [v], v) == RemoveAll(ts, v)
    decreases |ts|
  {
    if ts == [] {
      assert ts + [v] == [v];
    } else {
      assert (ts + [v])[0] == ts[0] && (ts + [v])[1..] == ts[1..] + [v];
      RemoveAllAppended(ts[1..], v);
    }
  }

  /** The target list after clicking the button of language value `v`. */
  function ToggleTarget(ts: seq<string>, v: string): (r: seq<string>)
    ensures v in r <==> v !in ts
    ensures forall x :: x != v ==> (x in r <==> x in ts)
    ensures NoDuplicates(ts) ==> NoDuplicates(r)
  {
    if v in ts then RemoveAll(ts, v) else ts + [v]
  }

  /** Clicking an unselected language twice gives back the original list. */
  lemma ToggleTwiceRestores(ts: seq<string>, v: string)
    requires v !in ts
    ensures ToggleTarget(ToggleTarget(ts, v), v) == ts
  {
    RemoveAllAppended(ts, v);
    RemoveAllAbsent(ts, v);
  }

  /** The languages offered as targets: every language whose value is not the native one. */
  function TargetChoices(langs: seq<Language>, native: string): (r: seq<Language>)
    ensures forall l :: l in r <==> l in langs && l.value != native
    ensures |r| <= |langs|
    decreases |langs|
  {
    if langs == [] then []
    else if langs[0].value == native then TargetChoices(langs[1..], native)
    else [langs[0]] + TargetChoices(langs[1..], native)
  }

  predicate DistinctValues(langs: seq<Language>) {
    forall i, j :: 0 <= i < j < |langs| ==> langs[i].value != langs[j].value
  }

  predicate Offers(langs: seq<Language>, v: string) {
    exists i :: 0 <= i < |langs| && langs[i].value == v
  }

  /** Choosing one of the languages as native removes exactly that one from the targets;
      any other native value removes none. */
  lemma {:induction false} TargetChoicesSize(langs: seq<Language>, native: string)
    requires DistinctValues(langs)
    ensures |TargetChoices(langs, native)| == if Offers(langs, native) then |langs| - 1 else |langs|
    decreases |langs|
  {
    if langs != [] {
      var rest := langs[1..];
      assert DistinctValues(rest) by {
        forall i, j | 0 <= i < j < |rest| ensures rest[i].value != rest[j].value {
          assert rest[i] == langs[i + 1] && rest[j] == langs[j + 1];
        }
      }
      TargetChoicesSize(rest, native);
      if langs[0].value == native {
        assert !Offers(rest, native) by {
          forall i | 0 <= i < |rest| ensures rest[i].value != native {
            assert rest[i] == langs[i + 1];
          }
        }
      } else {
        assert Offers(langs, native) == Offers(rest, native) by {
          if Offers(langs, native) {
            var i :| 0 <= i < |langs| && langs[i].value == native;
            assert rest[i - 1] == langs[i];
          }
          if Offers(rest, native) {
            var i :| 0 <= i < |rest| && rest[i].value == native;
            assert langs[i + 1] == rest[i];
          }
        }
      }
    }
  }

  /** The twelve languages have pairwise different values: their initials already differ. */
  lemma LanguagesDistinct()
    ensures DistinctValues(Languages)
  {
    var initials := "esfgipcjkahr";
    assert forall i :: 0 <= i < |Languages| ==> |Languages[i].value| > 0 && Languages[i].value[0] == initials[i];
    assert forall i, j :: 0 <= i < j < |initials| ==> initials[i] != initials[j];
  }

  /** With the twelve languages, choosing one of them as native leaves the other eleven as
      targets, and any other native value leaves all twelve. */
  lemma TargetCount(native: string)
    ensures |TargetChoices(Languages, native)| == if Offers(Languages, native) then 11 else 12
  {
    LanguagesDistinct();
    TargetChoicesSize(Languages, native);
  }

  // ---------------------------------------------------------------------------------
  // Step indicator
  // ---------------------------------------------------------------------------------

  /** The indicator dots, one per step; a dot is lit when its step has been reached. The lit
      dots always form a prefix of the row, and on any step the first dot is lit. */
  function StepDots(current: int): (r: seq<bool>)
    ensures |r| == StepCount
    ensures forall i, j :: 0 <= i <= j < |r| && r[j] ==> r[i]
    ensures current >= 0 ==> r[0]
  {
    seq(StepCount, i => i <= current)
  }

  function CountLit(dots: seq<bool>): nat
    decreases |dots|
  {
    if dots == [] then 0 else (if dots[0] then 1 else 0) + CountLit(dots[1..])
  }

  lemma {:induction false} LitPrefixCount(dots: seq<bool>, k: nat)
    requires k <= |dots| && forall i :: 0 <= i < |dots| ==> (dots[i] <==> i < k)
    ensures CountLit(dots) == k
    decreases |dots|
  {
    if dots != [] {
      LitPrefixCount(dots[1..], if k > 0 then k - 1 else 0);
    }
  }

  /** On step `current` the lit dots are exactly the first `current + 1`. */
  lemma LitDots(current: int)
    requires 0 <= current < StepCount
    ensures CountLit(StepDots(current)) == current + 1
  {
    LitPrefixCount(StepDots(current), current + 1);
  }

  // ---------------------------------------------------------------------------------
  // The wizard's state
  // ---------------------------------------------------------------------------------

  class Wizard {
    var currentStep: int
    var prefs: Preferences

    /** The cursor always names one of the steps. */
    ghost predicate Valid()
      reads this
    {
      0 <= currentStep < StepCount
    }

    constructor ()
      ensures Valid() && currentStep == 0 && prefs == InitialPreferences
    {
      currentStep := 0;
      prefs := InitialPreferences;
    }

    /** Back: one step back, but never before the first step. */
    method Back()
      requires Valid()
      modifies this`currentStep
      ensures Valid()
      ensures currentStep == if old(currentStep) == 0 then 0 else old(currentStep) - 1
    {
      currentStep := if currentStep - 1 < 0 then 0 else currentStep - 1;
    }

    /** The Next handler: one step forward, or `onComplete` on the last step. */
    method NextStep() returns (completed: bool)
      requires Valid()
      modifies this`currentStep
      ensures Valid()
      ensures completed <==> old(currentStep) == StepCount - 1
      ensures currentStep == if completed then old(currentStep) else old(currentStep) + 1
    {
      if currentStep < StepCount - 1 {
        currentStep := currentStep + 1;
        completed := false;
      } else {
        completed := true;
      }
    }

    /** A click on the Next button, which is disabled while the step's condition fails. */
    method PressNext() returns (completed: bool)
      requires Valid()
      modifies this`currentStep
      ensures Valid()
      ensures !CanProceed(old(currentStep), prefs) ==> !completed && currentStep == old(currentStep)
      ensures CanProceed(old(currentStep), prefs) ==>
                && (completed <==> old(currentStep) == StepCount - 1)
                && currentStep == if completed then old(currentStep) else old(currentStep) + 1
      ensures completed ==> prefs.voiceTested
      ensures old(currentStep) == 1 && currentStep == 2 ==> prefs.nativeLanguage != "" && |prefs.targetLanguages| > 0
    {
      if CanProceed(currentStep, prefs) {
        completed := NextStep();
      } else {
        completed := false;
      }
    }

    /** The native-language select. */
    method SetNativeLanguage(v: string)
      modifies this`prefs
      ensures prefs == old(prefs).(nativeLanguage := v)
    {
      prefs := prefs.(nativeLanguage := v);
    }

    /** A target-language button: selects the language if unselected, unselects it otherwise. */
    method ToggleTargetLanguage(v: string)
      modifies this`prefs
      ensures prefs == old(prefs).(targetLanguages := ToggleTarget(old(prefs.targetLanguages), v))
    {
      prefs := prefs.(targetLanguages := ToggleTarget(prefs.targetLanguages, v));
    }

    /** The end of the simulated recording. */
    method FinishVoiceTest()
      modifies this`prefs
      ensures prefs == old(prefs).(voiceTested := true)
    {
      prefs := prefs.(voiceTested := true);
    }
  }

  /** Targets chosen before the native language are kept when it changes, so the native
      language can end up among the targets. */
  method NativeAmongTargets() returns (w: Wizard)
    ensures w.prefs.nativeLanguage == "spanish" && "spanish" in w.prefs.targetLanguages
    ensures CanProceed(1, w.prefs)
  {
    w := new Wizard();
    w.ToggleTargetLanguage("spanish");
    w.SetNativeLanguage("spanish");
  }
}

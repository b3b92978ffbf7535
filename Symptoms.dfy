/** The symptom vocabulary offered for each condition, and the editor's
    symptom toggle. */
module Symptoms {
  import opened Wrappers
  import opened DayRecord

  /** The seven labels offered whatever the condition. */
  const Base: seq<string> := [
    "Cramps", "Headache", "Fatigue", "Bloating",
    "Mood Swings", "Back Pain", "Breast Tenderness"
  ]

  const PcosExtra: seq<string> := [
    "Irregular Periods", "Weight Gain", "Hair Growth", "Hair Loss", "Acne", "Insulin Resistance"
  ]

  const PcodExtra: seq<string> := ["Pelvic Pain", "Heavy Periods", "Weight Gain", "Acne"]

  const PcosSymptoms: seq<string> := Base + PcosExtra

  const PcodSymptoms: seq<string> := Base + PcodExtra

  /** No label occurs twice. */
  predicate NoDuplicates(s: seq<string>)
  {
    forall i, j :: 0 <= i < j < |s| ==> s[i] != s[j]
  }

  /** The labels offered as toggle buttons for condition `c`. */
  function Options(c: Option<Condition>): (r: seq<string>)
    ensures |Base| <= |r| && r[..|Base|] == Base
    ensures c == Some(Pcos) ==> |r| == 13 && r[|Base|..] == PcosExtra
    ensures c == Some(Pcod) ==> |r| == 11 && r[|Base|..] == PcodExtra
    ensures c == Some(Neither) || c == None ==> r == Base && |r| == 7
    ensures c == Some(Pcos) ==> "Hair Loss" in r && "Insulin Resistance" in r
    ensures c == Some(Pcod) ==> "Pelvic Pain" in r && "Insulin Resistance" !in r
    ensures NoDuplicates(r)
  {
    VocabularyDuplicateFree();
    match c
    case Some(Pcos) => PcosSymptoms
    case Some(Pcod) => PcodSymptoms
    case _ => Base
  }

  /** Every vocabulary list is duplicate-free. */
  lemma VocabularyDuplicateFree()
    ensures NoDuplicates(Base) && NoDuplicates(PcosSymptoms) && NoDuplicates(PcodSymptoms)
  {
  }

  /** The PCOS and PCOD vocabularies properly extend the base one. */
  lemma ConditionVocabularyExtendsBase(name: string)
    ensures name in Base ==> name in Options(Some(Pcos)) && name in Options(Some(Pcod))
    ensures "Hair Loss" !in Base && "Pelvic Pain" !in Base
  {
  }

  /** `s` with every occurrence of `x` dropped, the others in their order
      (JavaScript's `s.filter(t => t !== x)`). */
  function Remove(s: seq<string>, x: string): seq<string>
  {
    if s == [] then []
    else if s[0] == x then Remove(s[1..], x)
    else [s[0]] + Remove(s[1..], x)
  }

  lemma {:induction false} RemoveMembership(s: seq<string>, x: string, t: string)
    ensures t in Remove(s, x) <==> t in s && t != x
  {
    if s != [] {
      RemoveMembership(s[1..], x, t);
      assert s == [s[0]] + s[1..];
    }
  }

  lemma {:induction false} RemoveAbsent(s: seq<string>, x: string)
    requires x !in s
    ensures Remove(s, x) == s
  {
    if s != [] {
      assert x !in s[1..];
      RemoveAbsent(s[1..], x);
    }
  }

  lemma {:induction false} RemoveAppend(a: seq<string>, b: seq<string>, x: string)
    ensures Remove(a + b, x) == Remove(a, x) + Remove(b, x)
  {
    if a == [] {
      assert a + b == b;
    } else {
      assert (a + b)[1..] == a[1..] + b;
      RemoveAppend(a[1..], b, x);
    }
  }

  /** Prepending a label keeps a list duplicate-free exactly when the label
      is new to it. */
  lemma NoDuplicatesCons(h: string, s: seq<string>)
    ensures NoDuplicates([h] + s) <==> h !in s && NoDuplicates(s)
  {
    var c := [h] + s;
    if h !in s && NoDuplicates(s) {
      forall i, j | 0 <= i < j < |c| ensures c[i] != c[j] {
        if i > 0 { assert c[i] == s[i - 1] && c[j] == s[j - 1]; }
        else { assert c[j] == s[j - 1]; }
      }
    }
    if NoDuplicates(c) {
      forall i, j | 0 <= i < j < |s| ensures s[i] != s[j] {
        assert s[i] == c[i + 1] && s[j] == c[j + 1];
      }
      forall k | 0 <= k < |s| ensures s[k] != h {
        assert c[0] == h && c[k + 1] == s[k];
      }
    }
  }

  lemma {:induction false} RemoveNoDuplicates(s: seq<string>, x: string)
    requires NoDuplicates(s)
    ensures NoDuplicates(Remove(s, x))
  {
    if s != [] {
      assert s == [s[0]] + s[1..];
      NoDuplicatesCons(s[0], s[1..]);
      RemoveNoDuplicates(s[1..], x);
      if s[0] != x {
        RemoveMembership(s[1..], x, s[0]);
        NoDuplicatesCons(s[0], Remove(s[1..], x));
      }
    }
  }

  /** Appending a label that is new to a duplicate-free list keeps it
      duplicate-free. */
  lemma NoDuplicatesSnoc(s: seq<string>, x: string)
    requires NoDuplicates(s) && x !in s
    ensures NoDuplicates(s + [x])
  {
  }

  /** The symptom toggle: drop `x` if the list holds it, append it
      otherwise. `x` ends up present exactly when it was absent; every other
      label keeps its membership, and the other labels keep their order. */
  function Toggle(s: seq<string>, x: string): (r: seq<string>)
    ensures x in r <==> x !in s
    ensures forall t :: t != x ==> (t in r <==> t in s)
    ensures Remove(r, x) == Remove(s, x)
    ensures x !in s ==> |r| == |s| + 1 && r[|s|] == x
  {
    if x in s then
      RemoveMembership(s, x, x);
      assert forall t :: t in Remove(s, x) <==> t in s && t != x by {
        forall t { RemoveMembership(s, x, t); }
      }
      RemoveAbsent(Remove(s, x), x);
      Remove(s, x)
    else
      RemoveAppend(s, [x], x);
      assert Remove([x], x) == [];
      RemoveAbsent(s, x);
      s + [x]
  }

  /** Toggling a label that is absent twice restores the list exactly. */
  lemma ToggleTwice(s: seq<string>, x: string)
    requires x !in s
    ensures Toggle(Toggle(s, x), x) == s
  {
    RemoveAppend(s, [x], x);
    assert Remove([x], x) == [];
    RemoveAbsent(s, x);
  }

  /** Toggling any label twice restores which labels are present; for a
      label that was present it comes back at the end of the list. */
  lemma ToggleTwiceMembership(s: seq<string>, x: string)
    ensures forall t :: t in Toggle(Toggle(s, x), x) <==> t in s
  {
  }

  /** Toggling keeps a duplicate-free list duplicate-free. */
  lemma ToggleNoDuplicates(s: seq<string>, x: string)
    requires NoDuplicates(s)
    ensures NoDuplicates(Toggle(s, x))
  {
    if x in s {
      RemoveNoDuplicates(s, x);
    } else {
      NoDuplicatesSnoc(s, x);
    }
  }
}

/**
 * Section selection on the resume page (app/resume/page.tsx): which of the
 * seven sections go into the printed export. The selection is a record from
 * section key to a flag, replaced by `toggle`, `toggleAll` and `setPreset`;
 * the page derives "all selected", "none selected", the included count and
 * the print container's contents from it.
 */
module Resume {

  datatype SectionKey = Header | Objective | Work | Tech | Education | Activities | Projects

  /** The sections in the order the page defines and prints them. */
  const SectionOrder: seq<SectionKey> := [Header, Objective, Work, Tech, Education, Activities, Projects]

  const SectionCount := 7

  /** Position of a section in `SectionOrder`. */
  function Rank(k: SectionKey): (r: nat)
    ensures r < SectionCount
  {
    match k
    case Header => 0
    case Objective => 1
    case Work => 2
    case Tech => 3
    case Education => 4
    case Activities => 5
    case Projects => 6
  }

  /** `SectionOrder` lists every section once, each at its rank. */
  lemma {:induction false} OrderListsEverySectionOnce()
    ensures |SectionOrder| == SectionCount
    ensures forall k :: SectionOrder[Rank(k)] == k
    ensures forall k :: k in SectionOrder
    ensures forall i :: 0 <= i < |SectionOrder| ==> Rank(SectionOrder[i]) == i
  {
    forall k
      ensures SectionOrder[Rank(k)] == k && k in SectionOrder
    {
      match k
      case Header =>
      case Objective =>
      case Work =>
      case Tech =>
      case Education =>
      case Activities =>
      case Projects =>
      assert SectionOrder[Rank(k)] == k;
    }
  }

  type Selection = map<SectionKey, bool>

  /** `Record<SectionKey, boolean>`: every key has a flag. */
  predicate Total(s: Selection) {
    forall k: SectionKey :: k in s
  }

  /** A map with an entry for each of the seven keys is a whole record. */
  lemma SevenKeysTotal(s: Selection)
    requires Header in s && Objective in s && Work in s && Tech in s
    requires Education in s && Activities in s && Projects in s
    ensures Total(s)
  {
    forall k
      ensures k in s
    {
      match k
      case Header =>
      case Objective =>
      case Work =>
      case Tech =>
      case Education =>
      case Activities =>
      case Projects =>
    }
  }

  /** A record literal: one flag per section, in page order. */
  function Flags(header: bool, objective: bool, work: bool, tech: bool,
                 education: bool, activities: bool, projects: bool): (s: Selection)
    ensures Total(s)
  {
    var s := map[Header := header, Objective := objective, Work := work, Tech := tech,
                 Education := education, Activities := activities, Projects := projects];
    SevenKeysTotal(s);
    s
  }

  /** The selection where every section has flag `v`. */
  function Uniform(v: bool): (s: Selection)
    ensures Total(s) && forall k :: s[k] == v
  {
    Flags(v, v, v, v, v, v, v)
  }

  /** `Object.values(selected).every(Boolean)`. */
  predicate AllChecked(s: Selection)
    requires Total(s)
  {
    forall k :: s[k]
  }

  /** `Object.values(selected).every(v => !v)`. */
  predicate NoneChecked(s: Selection)
    requires Total(s)
  {
    forall k :: !s[k]
  }

  /** The sections of `keys` whose flag is set, in the order of `keys`. */
  function Included(s: Selection, keys: seq<SectionKey>): (r: seq<SectionKey>)
    requires Total(s)
    ensures |r| <= |keys|
    ensures forall k :: k in r <==> k in keys && s[k]
    decreases |keys|
  {
    if keys == [] then []
    else
      var rest := Included(s, keys[1..]);
      assert forall k :: k in keys <==> k == keys[0] || k in keys[1..];
      if s[keys[0]] then [keys[0]] + rest else rest
  }

  /** What the hidden print container renders, in order. */
  function PrintedSections(s: Selection): seq<SectionKey>
    requires Total(s)
  {
    Included(s, SectionOrder)
  }

  /** `Object.values(selected).filter(Boolean).length`: counted over the flags, not over the printed list. */
  function CountChecked(s: Selection, keys: seq<SectionKey>): nat
    requires Total(s)
    decreases |keys|
  {
    if keys == [] then 0 else (if s[keys[0]] then 1 else 0) + CountChecked(s, keys[1..])
  }

  function IncludedCount(s: Selection): nat
    requires Total(s)
  {
    CountChecked(s, SectionOrder)
  }

  datatype Preset = Full | Core | Minimal

  /** The selection each preset writes. */
  function PresetSelection(p: Preset): (s: Selection)
    ensures Total(s)
  {
    match p
    case Full => Flags(true, true, true, true, true, true, true)
    case Core => Flags(true, true, true, true, true, false, false)
    case Minimal => Flags(true, false, true, true, true, false, false)
  }

  // ---------------------------------------------------------------- lemmas

  lemma {:induction false} CountIsIncludedLength(s: Selection, keys: seq<SectionKey>)
    requires Total(s)
    ensures CountChecked(s, keys) == |Included(s, keys)|
    decreases |keys|
  {
    if keys != [] {
      CountIsIncludedLength(s, keys[1..]);
    }
  }

  /** The count shown is the number of printed sections, between 0 and 7. */
  lemma CountMatchesPrinted(s: Selection)
    requires Total(s)
    ensures IncludedCount(s) == |PrintedSections(s)| <= SectionCount
  {
    CountIsIncludedLength(s, SectionOrder);
  }

  lemma {:induction false} CountZeroIffNone(s: Selection, keys: seq<SectionKey>)
    requires Total(s)
    ensures CountChecked(s, keys) == 0 <==> forall i :: 0 <= i < |keys| ==> !s[keys[i]]
    decreases |keys|
  {
    if keys != [] {
      CountZeroIffNone(s, keys[1..]);
      assert forall i :: 1 <= i < |keys| ==> keys[i] == keys[1..][i - 1];
    }
  }

  lemma {:induction false} CountFullIffAll(s: Selection, keys: seq<SectionKey>)
    requires Total(s)
    ensures CountChecked(s, keys) <= |keys|
    ensures CountChecked(s, keys) == |keys| <==> forall i :: 0 <= i < |keys| ==> s[keys[i]]
    decreases |keys|
  {
    if keys != [] {
      CountFullIffAll(s, keys[1..]);
      assert forall i :: 1 <= i < |keys| ==> keys[i] == keys[1..][i - 1];
    }
  }

  /** Export is disabled exactly when the count is 0, and every box is ticked exactly when it is 7. */
  lemma CountExtremes(s: Selection)
    requires Total(s)
    ensures NoneChecked(s) <==> IncludedCount(s) == 0
    ensures AllChecked(s) <==> IncludedCount(s) == SectionCount
  {
    CountZeroIffNone(s, SectionOrder);
    CountFullIffAll(s, SectionOrder);
    OrderListsEverySectionOnce();
    if IncludedCount(s) == 0 {
      forall k
        ensures !s[k]
      {
        assert SectionOrder[Rank(k)] == k;
      }
    }
    if IncludedCount(s) == SectionCount {
      forall k
        ensures s[k]
      {
        assert SectionOrder[Rank(k)] == k;
      }
    }
  }

  /** Each section comes before the next one in page order. */
  predicate Ascending(r: seq<SectionKey>) {
    forall i :: 0 <= i < |r| - 1 ==> Rank(r[i]) < Rank(r[i + 1])
  }

  lemma {:induction false} IncludedKeepsOrder(s: Selection, keys: seq<SectionKey>)
    requires Total(s) && Ascending(keys)
    ensures Ascending(Included(s, keys))
    ensures forall x :: x in Included(s, keys) ==> keys != [] && Rank(keys[0]) <= Rank(x)
    decreases |keys|
  {
    if keys != [] {
      var tail := keys[1..];
      assert forall i :: 0 <= i < |tail| ==> tail[i] == keys[i + 1];
      IncludedKeepsOrder(s, tail);
      var rest := Included(s, tail);
      if s[keys[0]] {
        var r := [keys[0]] + rest;
        forall i | 0 <= i < |r| - 1
          ensures Rank(r[i]) < Rank(r[i + 1])
        {
          assert r[i + 1] == rest[i] && rest[i] in rest;
          if i > 0 {
            assert r[i] == rest[i - 1];
          }
        }
      }
    }
  }

  /** The print container holds exactly the selected sections, each once, in page order. */
  lemma PrintedRules(s: Selection)
    requires Total(s)
    ensures forall k :: k in PrintedSections(s) <==> s[k]
    ensures Ascending(PrintedSections(s))
  {
    OrderListsEverySectionOnce();
    IncludedKeepsOrder(s, SectionOrder);
  }

  /** Every preset keeps header, work, technologies and education; they differ only in objective, activities and projects. */
  lemma PresetRules()
    ensures forall p: Preset :: (PresetSelection(p)[Header] && PresetSelection(p)[Work]
      && PresetSelection(p)[Tech] && PresetSelection(p)[Education])
    ensures PresetSelection(Full) == Uniform(true)
    ensures PresetSelection(Core)[Objective] && !PresetSelection(Core)[Activities] && !PresetSelection(Core)[Projects]
    ensures !PresetSelection(Minimal)[Objective] && !PresetSelection(Minimal)[Activities]
      && !PresetSelection(Minimal)[Projects]
  {
  }

  /** The printed lists of the three presets. */
  lemma PresetPrinted(p: Preset)
    ensures p == Full ==> PrintedSections(PresetSelection(p)) == SectionOrder
    ensures p == Core ==> PrintedSections(PresetSelection(p)) == [Header, Objective, Work, Tech, Education]
    ensures p == Minimal ==> PrintedSections(PresetSelection(p)) == [Header, Work, Tech, Education]
  {
    PrintedOfFlags(PresetSelection(p));
    PresetKeeps(p);
  }

  lemma PresetKeeps(p: Preset)
    ensures var s := PresetSelection(p);
      var kept := Keep(s, Header) + (Keep(s, Objective) + (Keep(s, Work) + (Keep(s, Tech)
        + (Keep(s, Education) + (Keep(s, Activities) + Keep(s, Projects))))));
      (p == Full ==> kept == SectionOrder)
      && (p == Core ==> kept == [Header, Objective, Work, Tech, Education])
      && (p == Minimal ==> kept == [Header, Work, Tech, Education])
  {
    var s := PresetSelection(p);
    var h, o, w, t, e := Keep(s, Header), Keep(s, Objective), Keep(s, Work), Keep(s, Tech), Keep(s, Education);
    var a, r := Keep(s, Activities), Keep(s, Projects);
    assert h == [Header] && w == [Work] && t == [Tech] && e == [Education];
    match p
    case Full =>
      assert o == [Objective] && a == [Activities] && r == [Projects];
      assert h + (o + (w + (t + (e + (a + r))))) == SectionOrder;
    case Core =>
      assert o == [Objective] && a == [] && r == [];
      assert h + (o + (w + (t + (e + (a + r))))) == [Header, Objective, Work, Tech, Education];
    case Minimal =>
      assert o == [] && a == [] && r == [];
      assert h + (o + (w + (t + (e + (a + r))))) == [Header, Work, Tech, Education];
  }

  /** `{selected.k && <Section />}`: the section when its flag is set, nothing otherwise. */
  function Keep(s: Selection, k: SectionKey): seq<SectionKey>
    requires Total(s)
  {
    if s[k] then [k] else []
  }

  lemma IncludedStep(s: Selection, keys: seq<SectionKey>)
    requires Total(s) && keys != []
    ensures Included(s, keys) == Keep(s, keys[0]) + Included(s, keys[1..])
  {
  }

  /** The printed list, spelled out section by section as the print container writes it. */
  lemma PrintedOfFlags(s: Selection)
    requires Total(s)
    ensures PrintedSections(s) == Keep(s, Header) + (Keep(s, Objective) + (Keep(s, Work) + (Keep(s, Tech)
      + (Keep(s, Education) + (Keep(s, Activities) + Keep(s, Projects))))))
  {
    var k0 := SectionOrder;
    var k1 := [Objective, Work, Tech, Education, Activities, Projects];
    var k2 := [Work, Tech, Education, Activities, Projects];
    var k3 := [Tech, Education, Activities, Projects];
    var k4 := [Education, Activities, Projects];
    var k5 := [Activities, Projects];
    var k6 := [Projects];
    assert k0[1..] == k1 && k1[1..] == k2 && k2[1..] == k3 && k3[1..] == k4;
    assert k4[1..] == k5 && k5[1..] == k6 && k6[1..] == [];
    IncludedStep(s, k0);
    IncludedStep(s, k1);
    IncludedStep(s, k2);
    IncludedStep(s, k3);
    IncludedStep(s, k4);
    IncludedStep(s, k5);
    IncludedStep(s, k6);
    assert Keep(s, Projects) + [] == Keep(s, Projects);
  }

  /** `toggle(k)` flips one flag; toggling twice restores the selection. */
  lemma ToggleRules(s: Selection, k: SectionKey)
    requires Total(s)
    ensures Total(s[k := !s[k]])
    ensures s[k := !s[k]][k] == !s[k] && forall j :: j != k ==> s[k := !s[k]][j] == s[j]
    ensures s[k := !s[k]][k := !s[k := !s[k]][k]] == s
  {
  }

  /** `toggleAll`: from a full selection everything is cleared, from any other everything is set. */
  lemma ToggleAllRules(s: Selection)
    requires Total(s)
    ensures AllChecked(s) ==> NoneChecked(Uniform(!AllChecked(s)))
    ensures !AllChecked(s) ==> AllChecked(Uniform(!AllChecked(s)))
  {
  }

  // -------------------------------------------------------------- the page

  /** The page's `selected` state. */
  class ResumePage {
    var selected: Selection

    ghost predicate Valid()
      reads this
    {
      Total(selected)
    }

    /** Every section starts selected. */
    constructor ()
      ensures Valid() && selected == Uniform(true)
    {
      selected := Flags(true, true, true, true, true, true, true);
    }

    method Toggle(k: SectionKey)
      requires Valid()
      modifies this
      ensures Valid()
      ensures selected == old(selected)[k := !old(selected)[k]]
    {
      selected := selected[k := !selected[k]];
    }

    /** `Object.keys(s).reduce((acc, k) => ({ ...acc, [k]: next }), {})` with `next = !allChecked`. */
    method ToggleAll()
      requires Valid()
      modifies this
      ensures Valid()
      ensures selected == Uniform(!AllChecked(old(selected)))
    {
      var next := !(forall k :: selected[k]);
      var acc: Selection := map[];
      var i := 0;
      while i < |SectionOrder|
        invariant 0 <= i <= |SectionOrder|
        invariant forall k :: k in acc <==> k in SectionOrder[..i]
        invariant forall k :: k in acc ==> acc[k] == next
      {
        acc := acc[SectionOrder[i] := next];
        i := i + 1;
      }
      OrderListsEverySectionOnce();
      assert SectionOrder[..i] == SectionOrder;
      selected := acc;
    }

    method SetPreset(p: Preset)
      modifies this
      ensures Valid()
      ensures selected == PresetSelection(p)
    {
      match p {
        case Full => selected := Flags(true, true, true, true, true, true, true);
        case Core => selected := Flags(true, true, true, true, true, false, false);
        case Minimal => selected := Flags(true, false, true, true, true, false, false);
      }
    }
  }
}

/** The preset search both the header of App.tsx and the preset lists of
    components/SettingsModal.tsx offer: the presets of one machine whose product
    name or structure contains the search text, ignoring case. */
module Presets {
  import opened JsRuntime
  import opened JsArrays
  import opened Types

  /** `p.machineId === currentMachineId`: an absent machine id never equals the
      null of "no machine selected", so only a present id can match. */
  predicate OnMachine(p: ProductPreset, currentMachineId: Option<string>)
  {
    p.machineId.Some? && currentMachineId == p.machineId
  }

  /** The lower-cased product name or structure contains the lower-cased search. */
  predicate MatchesSearch(p: ProductPreset, search: string)
  {
    Contains(Lower(p.productName), Lower(search)) || Contains(Lower(p.structure), Lower(search))
  }

  function OnMachineOf(currentMachineId: Option<string>): ProductPreset -> bool
  {
    p => OnMachine(p, currentMachineId)
  }

  function MatchesSearchOf(search: string): ProductPreset -> bool
  {
    p => MatchesSearch(p, search)
  }

  /** `presets.filter(onMachine).filter(matchesSearch)`. */
  function MachinePresets(presets: seq<ProductPreset>, currentMachineId: Option<string>, search: string)
    : (r: seq<ProductPreset>)
    ensures forall p :: p in r <==> p in presets && OnMachine(p, currentMachineId) && MatchesSearch(p, search)
    ensures forall p :: (multiset(r)[p] ==
                         if OnMachine(p, currentMachineId) && MatchesSearch(p, search) then multiset(presets)[p] else 0)
    ensures currentMachineId.None? ==> r == []
  {
    var r := Filter(Filter(presets, OnMachineOf(currentMachineId)), MatchesSearchOf(search));
    assert r != [] ==> r[0] in r;
    r
  }

  /** The two filters together are one filter by both tests: the result keeps the
      order of `presets`. */
  lemma {:induction false} MachinePresetsInOrder(presets: seq<ProductPreset>, currentMachineId: Option<string>,
                                                 search: string)
    ensures MachinePresets(presets, currentMachineId, search)
         == Filter(presets, Both(OnMachineOf(currentMachineId), MatchesSearchOf(search)))
  {
    FilterFilter(presets, OnMachineOf(currentMachineId), MatchesSearchOf(search));
  }

  /** An empty search matches every preset. */
  lemma {:induction false} EmptySearchMatches(p: ProductPreset)
    ensures MatchesSearch(p, "")
  {
    assert Lower("") == "";
    assert IsPrefix("", Lower(p.productName));
  }
}

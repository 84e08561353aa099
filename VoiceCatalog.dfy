/**
 * The `voice_map` the application builds from a voice list: a Python dict
 * from display name to voice id. A dict keeps its keys in first-insertion
 * order and a repeated key keeps its place but takes the later value, and the
 * combobox and the default selection use that order, so the map is modelled
 * with its key order.
 */
module VoiceCatalog {
  import opened Wrappers

  /** One voice as listed: display name and remote identifier. */
  datatype VoiceEntry = VoiceEntry(name: string, voiceId: string)

  /** A name -> id dict: `names` is `list(d.keys())`, `ids` the mapping. */
  datatype VoiceMap = VoiceMap(names: seq<string>, ids: map<string, string>)

  const EmptyVoiceMap := VoiceMap([], map[])

  /** Keys listed once each, and exactly the keys of the mapping. */
  ghost predicate WellFormed(vm: VoiceMap) {
    && (forall i, j :: 0 <= i < j < |vm.names| ==> vm.names[i] != vm.names[j])
    && (forall n :: n in vm.ids <==> n in vm.names)
  }

  /** `d[name] = id`. */
  function Insert(vm: VoiceMap, name: string, id: string): (vm': VoiceMap) {
    if name in vm.ids then VoiceMap(vm.names, vm.ids[name := id])
    else VoiceMap(vm.names + [name], vm.ids[name := id])
  }

  /** `{e.name: e.voiceId for e in entries}`. */
  function BuildVoiceMap(entries: seq<VoiceEntry>): (vm: VoiceMap) {
    if entries == [] then EmptyVoiceMap
    else Insert(BuildVoiceMap(entries[..|entries| - 1]), entries[|entries| - 1].name, entries[|entries| - 1].voiceId)
  }

  /** The distinct names of a list. */
  function Names(entries: seq<VoiceEntry>): (names: set<string>) {
    set i | 0 <= i < |entries| :: entries[i].name
  }

  /** True when no entry after position i carries the same name as entry i. */
  predicate LastWithName(entries: seq<VoiceEntry>, i: nat)
    requires i < |entries|
  {
    forall j :: i < j < |entries| ==> entries[j].name != entries[i].name
  }

  lemma InsertWellFormed(vm: VoiceMap, name: string, id: string)
    requires WellFormed(vm)
    ensures WellFormed(Insert(vm, name, id))
  {
  }

  /** The names of a list with one more entry. */
  lemma NamesSnoc(pre: seq<VoiceEntry>, e: VoiceEntry)
    ensures Names(pre + [e]) == Names(pre) + {e.name}
  {
    var all := pre + [e];
    forall x | x in Names(all) ensures x in Names(pre) + {e.name} {
      var i :| 0 <= i < |all| && all[i].name == x;
      if i < |pre| { assert pre[i] == all[i]; }
    }
    forall x | x in Names(pre) ensures x in Names(all) {
      var i :| 0 <= i < |pre| && pre[i].name == x;
      assert all[i] == pre[i];
    }
    assert all[|pre|] == e;
  }

  /** The built map is well formed, its keys are exactly the distinct names, each listed once. */
  lemma {:induction false} BuildVoiceMapKeys(entries: seq<VoiceEntry>)
    ensures WellFormed(BuildVoiceMap(entries))
    ensures BuildVoiceMap(entries).ids.Keys == Names(entries)
    ensures |BuildVoiceMap(entries).names| == |Names(entries)|
  {
    BuildVoiceMapWellFormed(entries);
    BuildVoiceMapKeySet(entries);
    BuildVoiceMapSize(entries);
  }

  lemma {:induction false} BuildVoiceMapWellFormed(entries: seq<VoiceEntry>)
    ensures WellFormed(BuildVoiceMap(entries))
  {
    if entries != [] {
      var n := |entries| - 1;
      BuildVoiceMapWellFormed(entries[..n]);
      InsertWellFormed(BuildVoiceMap(entries[..n]), entries[n].name, entries[n].voiceId);
    }
  }

  lemma {:induction false} BuildVoiceMapKeySet(entries: seq<VoiceEntry>)
    ensures BuildVoiceMap(entries).ids.Keys == Names(entries)
  {
    if entries != [] {
      var n := |entries| - 1;
      var pre := entries[..n];
      BuildVoiceMapKeySet(pre);
      assert entries == pre + [entries[n]];
      NamesSnoc(pre, entries[n]);
    }
  }

  lemma {:induction false} BuildVoiceMapSize(entries: seq<VoiceEntry>)
    ensures |BuildVoiceMap(entries).names| == |Names(entries)|
  {
    if entries != [] {
      var n := |entries| - 1;
      var pre := entries[..n];
      var e := entries[n];
      BuildVoiceMapSize(pre);
      BuildVoiceMapKeySet(pre);
      assert entries == pre + [e];
      NamesSnoc(pre, e);
      if e.name in BuildVoiceMap(pre).ids {
        assert Names(pre) + {e.name} == Names(pre);
      } else {
        assert |Names(pre) + {e.name}| == |Names(pre)| + 1;
      }
    }
  }


  /** A later entry with a repeated name overwrites the id: each name maps to the id of its last entry. */
  lemma {:induction false} BuildVoiceMapLastWins(entries: seq<VoiceEntry>, i: nat)
    requires i < |entries| && LastWithName(entries, i)
    ensures entries[i].name in BuildVoiceMap(entries).ids
    ensures BuildVoiceMap(entries).ids[entries[i].name] == entries[i].voiceId
  {
    var n := |entries| - 1;
    if i < n {
      var pre := entries[..n];
      assert pre[i] == entries[i];
      BuildVoiceMapLastWins(pre, i);
    }
  }

  /** The first key of a non-empty map is the name of the first entry. */
  lemma {:induction false} BuildVoiceMapFirstKey(entries: seq<VoiceEntry>)
    requires entries != []
    ensures BuildVoiceMap(entries).names != [] && BuildVoiceMap(entries).names[0] == entries[0].name
  {
    var n := |entries| - 1;
    if n > 0 {
      var pre := entries[..n];
      assert pre[0] == entries[0];
      BuildVoiceMapFirstKey(pre);
    } else {
      assert entries[..n] == [];
    }
  }

  /** Selection after a remote load: the first key when there is one, else unchanged. */
  function SelectAfterRemote(vm: VoiceMap, current: string): (s: string)
    ensures vm.names != [] ==> s == vm.names[0]
    ensures vm.names == [] ==> s == current
  {
    if vm.names != [] then vm.names[0] else current
  }

  /** Selection after a cached load: the first key only when nothing was selected. */
  function SelectAfterCached(vm: VoiceMap, current: string): (s: string)
    ensures vm.names != [] && current == "" ==> s == vm.names[0]
    ensures vm.names == [] || current != "" ==> s == current
  {
    if vm.names != [] && current == "" then vm.names[0] else current
  }

  /** A remote load that lists voices selects the first listed voice, and that voice resolves. */
  lemma RemoteLoadSelectsFirst(entries: seq<VoiceEntry>, current: string)
    requires entries != []
    ensures var vm := BuildVoiceMap(entries);
            SelectAfterRemote(vm, current) == entries[0].name && entries[0].name in vm.ids
  {
    BuildVoiceMapFirstKey(entries);
    BuildVoiceMapKeys(entries);
  }
}

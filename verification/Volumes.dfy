/** pkg/util/merge/merge.go: merging pod volumes, which keeps duplicates and does not sort projected items. */
module Volumes {
  import opened Strings
  import opened KeyedLists
  import opened ContainerMerge

  datatype KeyToPath = KeyToPath(key: string, path: string, mode: Option<int>)

  datatype EmptyDir = EmptyDir(medium: string, sizeLimit: Option<string>)

  /** optional is left as the default volume has it. */
  datatype SecretSource =
    SecretSource(secretName: string, items: seq<KeyToPath>, defaultMode: Option<int>, optional: Option<bool>)

  datatype ConfigMapSource =
    ConfigMapSource(name: string, items: seq<KeyToPath>, defaultMode: Option<int>, optional: Option<bool>)

  /** other stands for every remaining kind of source. */
  datatype VolumeSource = VolumeSource(
    emptyDir: Option<EmptyDir>, secret: Option<SecretSource>, configMap: Option<ConfigMapSource>,
    other: Option<string>)

  datatype Volume = Volume(name: string, source: VolumeSource)

  function VolumeKey(v: Volume): string { v.name }

  function ItemKey(i: KeyToPath): string { i.key }

  function MergeKeyToPath(defaultKey: KeyToPath, overrideKey: KeyToPath): KeyToPath {
    if defaultKey.key != overrideKey.key then defaultKey
    else KeyToPath(defaultKey.key, Text(defaultKey.path, overrideKey.path), Pointer(defaultKey.mode, overrideKey.mode))
  }

  /** In some order, each key once: the override union of the two item lists. */
  ghost predicate ItemsMerged(items: seq<KeyToPath>, defaults: seq<KeyToPath>, overrides: seq<KeyToPath>) {
    && LastWins(items, ItemKey) == Overlay(LastWins(defaults, ItemKey), LastWins(overrides, ItemKey), MergeKeyToPath)
    && forall i, j :: 0 <= i < j < |items| ==> items[i].key != items[j].key
  }

  lemma ItemKeysKeep(a: seq<KeyToPath>, b: seq<KeyToPath>)
    ensures KeepsKeys(a, b, ItemKey, MergeKeyToPath)
  {
    LastWinsConsistent(a, ItemKey);
    LastWinsConsistent(b, ItemKey);
  }

  lemma VisitedItems(defaults: seq<KeyToPath>, overrides: seq<KeyToPath>, order: seq<string>)
    requires Visits(order, Overlay(LastWins(defaults, ItemKey), LastWins(overrides, ItemKey), MergeKeyToPath).Keys)
    ensures var m := Overlay(LastWins(defaults, ItemKey), LastWins(overrides, ItemKey), MergeKeyToPath);
      ItemsMerged(ValuesIn(m, order), defaults, overrides)
  {
    ItemKeysKeep(defaults, overrides);
    VisitedMap(Overlay(LastWins(defaults, ItemKey), LastWins(overrides, ItemKey), MergeKeyToPath), order);
  }

  lemma VisitedMap(m: map<string, KeyToPath>, order: seq<string>)
    requires Consistent(m, ItemKey) && Visits(order, m.Keys)
    ensures LastWins(ValuesIn(m, order), ItemKey) == m
    ensures forall i, j :: 0 <= i < j < |order| ==> ValuesIn(m, order)[i].key != ValuesIn(m, order)[j].key
  {
    LastWinsOfVisit(m, order, ItemKey);
    assert (map k | k in m && k in order :: m[k]) == m;
    assert forall i :: 0 <= i < |order| ==> ValuesIn(m, order)[i].key == order[i];
  }

  method MergeKeyToPathItems(defaultItems: seq<KeyToPath>, overrideItems: seq<KeyToPath>)
    returns (mergedItems: seq<KeyToPath>)
    ensures ItemsMerged(mergedItems, defaultItems, overrideItems)
  {
    var defaultItemsMap := CreateMap(defaultItems, ItemKey);
    var overrideItemsMap := CreateMap(overrideItems, ItemKey);
    ghost var order;
    mergedItems, order := CollectBoth(defaultItemsMap, overrideItemsMap, MergeKeyToPath);
    VisitedItems(defaultItems, overrideItems, order);
  }

  /** What Volume may return; only the order of projected items is open. */
  ghost predicate IsVolumeMerge(r: Volume, d: Volume, o: Volume) {
    var ds, os := d.source, o.source;
    if os.emptyDir.Some? && ds.emptyDir.Some? then
      var e := EmptyDir(Text(ds.emptyDir.value.medium, os.emptyDir.value.medium),
                        Pointer(ds.emptyDir.value.sizeLimit, os.emptyDir.value.sizeLimit));
      r == d.(source := ds.(emptyDir := Some(e)))
    else if os.secret.Some? && ds.secret.Some? then
      && r.source.secret.Some?
      && var s, t := ds.secret.value, os.secret.value;
         var m := SecretSource(Text(s.secretName, t.secretName), r.source.secret.value.items,
                               Pointer(s.defaultMode, t.defaultMode), s.optional);
         && r == d.(source := ds.(secret := Some(m)))
         && ItemsMerged(m.items, s.items, t.items)
    else if os.configMap.Some? && ds.configMap.Some? then
      && r.source.configMap.Some?
      && var s, t := ds.configMap.value, os.configMap.value;
         var m := ConfigMapSource(Text(s.name, t.name), r.source.configMap.value.items,
                                  Pointer(s.defaultMode, t.defaultMode), Pointer(s.optional, t.optional));
         && r == d.(source := ds.(configMap := Some(m)))
         && ItemsMerged(m.items, s.items, t.items)
    else r == d.(source := os)
  }

  method MergeVolume(defaultVolume: Volume, overrideVolume: Volume) returns (mergedVolume: Volume)
    ensures IsVolumeMerge(mergedVolume, defaultVolume, overrideVolume)
  {
    var overrideSource, defaultSource := overrideVolume.source, defaultVolume.source;
    mergedVolume := defaultVolume;
    if overrideSource.emptyDir.Some? && defaultSource.emptyDir.Some? {
      var e, v := defaultSource.emptyDir.value, overrideSource.emptyDir.value;
      e := e.(medium := Text(e.medium, v.medium), sizeLimit := Pointer(e.sizeLimit, v.sizeLimit));
      return mergedVolume.(source := defaultSource.(emptyDir := Some(e)));
    }
    if overrideSource.secret.Some? && defaultSource.secret.Some? {
      var s, v := defaultSource.secret.value, overrideSource.secret.value;
      var items := MergeKeyToPathItems(s.items, v.items);
      s := s.(secretName := Text(s.secretName, v.secretName), items := items,
              defaultMode := Pointer(s.defaultMode, v.defaultMode));
      return mergedVolume.(source := defaultSource.(secret := Some(s)));
    }
    if overrideSource.configMap.Some? && defaultSource.configMap.Some? {
      var c, v := defaultSource.configMap.value, overrideSource.configMap.value;
      var items := MergeKeyToPathItems(c.items, v.items);
      c := c.(name := Text(c.name, v.name), items := items, defaultMode := Pointer(c.defaultMode, v.defaultMode),
              optional := Pointer(c.optional, v.optional));
      return mergedVolume.(source := defaultSource.(configMap := Some(c)));
    }
    mergedVolume := mergedVolume.(source := overrideSource);
  }

  /** The override volumes whose name no default volume has, in order and with duplicates. */
  function NewVolumes(defaults: seq<Volume>, overrides: seq<Volume>): seq<Volume> {
    if overrides == [] then []
    else
      var last := overrides[|overrides| - 1];
      NewVolumes(defaults, overrides[..|overrides| - 1])
      + if last.name in LastWins(defaults, VolumeKey) then [] else [last]
  }

  /** The list before sorting: every default, merged with the last override of its name, then the new ones. */
  ghost predicate VolumesMerged(merged: seq<Volume>, defaults: seq<Volume>, overrides: seq<Volume>) {
    var overridesMap := LastWins(overrides, VolumeKey);
    && |merged| >= |defaults|
    && merged[|defaults|..] == NewVolumes(defaults, overrides)
    && forall i :: 0 <= i < |defaults| ==> DefaultMerged(merged[i], defaults[i], overridesMap)
  }

  ghost predicate DefaultMerged(merged: Volume, original: Volume, overridesMap: map<string, Volume>) {
    if original.name in overridesMap then IsVolumeMerge(merged, original, overridesMap[original.name])
    else merged == original
  }

  /** The first loop. */
  method MergeDefaults(defaultVolumes: seq<Volume>, overrideVolumesMap: map<string, Volume>)
    returns (mergedVolumes: seq<Volume>)
    ensures |mergedVolumes| == |defaultVolumes|
    ensures forall i :: 0 <= i < |defaultVolumes| ==>
      DefaultMerged(mergedVolumes[i], defaultVolumes[i], overrideVolumesMap)
  {
    mergedVolumes := [];
    for i := 0 to |defaultVolumes|
      invariant |mergedVolumes| == i
      invariant forall j :: 0 <= j < i ==> DefaultMerged(mergedVolumes[j], defaultVolumes[j], overrideVolumesMap)
    {
      var mergedVolume := defaultVolumes[i];
      if mergedVolume.name in overrideVolumesMap {
        mergedVolume := MergeVolume(defaultVolumes[i], overrideVolumesMap[mergedVolume.name]);
      }
      mergedVolumes := mergedVolumes + [mergedVolume];
    }
  }

  /** The second loop. */
  method SelectNew(defaultVolumesMap: map<string, Volume>, overrideVolumes: seq<Volume>,
                   ghost defaultVolumes: seq<Volume>)
    returns (added: seq<Volume>)
    requires defaultVolumesMap == LastWins(defaultVolumes, VolumeKey)
    ensures added == NewVolumes(defaultVolumes, overrideVolumes)
  {
    added := [];
    for i := 0 to |overrideVolumes|
      invariant added == NewVolumes(defaultVolumes, overrideVolumes[..i])
    {
      assert overrideVolumes[..i + 1][..i] == overrideVolumes[..i];
      if overrideVolumes[i].name !in defaultVolumesMap {
        added := added + [overrideVolumes[i]];
      }
    }
    assert overrideVolumes[..|overrideVolumes|] == overrideVolumes;
  }

  method MergeVolumes(defaultVolumes: seq<Volume>, overrideVolumes: seq<Volume>)
    returns (mergedVolumes: seq<Volume>, ghost unsorted: seq<Volume>)
    ensures VolumesMerged(unsorted, defaultVolumes, overrideVolumes)
    ensures mergedVolumes == StableSort(unsorted, VolumeKey)
    ensures forall k :: NothingLost(mergedVolumes, defaultVolumes, overrideVolumes, k)
  {
    var defaultVolumesMap := CreateMap(defaultVolumes, VolumeKey);
    var overrideVolumesMap := CreateMap(overrideVolumes, VolumeKey);
    var merged := MergeDefaults(defaultVolumes, overrideVolumesMap);
    var added := SelectNew(defaultVolumesMap, overrideVolumes, defaultVolumes);
    mergedVolumes := merged + added;
    assert mergedVolumes[|merged|..] == added;
    unsorted := mergedVolumes;
    mergedVolumes := SliceStable(mergedVolumes, VolumeKey);
    forall k ensures NothingLost(mergedVolumes, defaultVolumes, overrideVolumes, k) {
      CountsKept(unsorted, defaultVolumes, overrideVolumes, k);
    }
  }

  /** As many volumes of a name as the defaults have, or, if they have none, as many as the overrides have. */
  ghost predicate NothingLost(merged: seq<Volume>, defaults: seq<Volume>, overrides: seq<Volume>, k: string) {
    |WithKey(merged, VolumeKey, k)| ==
      if WithKey(defaults, VolumeKey, k) != [] then |WithKey(defaults, VolumeKey, k)|
      else |WithKey(overrides, VolumeKey, k)|
  }

  lemma {:induction false} SameNamesSameCount(xs: seq<Volume>, ys: seq<Volume>, k: string)
    requires |xs| == |ys| && forall i :: 0 <= i < |xs| ==> xs[i].name == ys[i].name
    ensures |WithKey(xs, VolumeKey, k)| == |WithKey(ys, VolumeKey, k)|
  {
    if xs != [] {
      SameNamesSameCount(xs[..|xs| - 1], ys[..|ys| - 1], k);
    }
  }

  lemma {:induction false} NewVolumesWithKey(defaults: seq<Volume>, overrides: seq<Volume>, k: string)
    ensures WithKey(NewVolumes(defaults, overrides), VolumeKey, k) ==
      if WithKey(defaults, VolumeKey, k) != [] then [] else WithKey(overrides, VolumeKey, k)
  {
    if overrides != [] {
      var front, last := overrides[..|overrides| - 1], overrides[|overrides| - 1];
      NewVolumesWithKey(defaults, front, k);
      LastWinsIsLastWithKey(defaults, VolumeKey, last.name);
      var news := NewVolumes(defaults, front);
      assert (news + [last])[..|news|] == news;
      assert NewVolumes(defaults, overrides) ==
        news + if last.name in LastWins(defaults, VolumeKey) then [] else [last];
      WithKeyAppend(news, if last.name in LastWins(defaults, VolumeKey) then [] else [last], VolumeKey, k);
    }
  }

  lemma CountsKept(merged: seq<Volume>, defaults: seq<Volume>, overrides: seq<Volume>, k: string)
    requires VolumesMerged(merged, defaults, overrides)
    ensures NothingLost(merged, defaults, overrides, k)
  {
    var front, back := merged[..|defaults|], merged[|defaults|..];
    assert merged == front + back;
    WithKeyAppend(front, back, VolumeKey, k);
    SameNamesSameCount(front, defaults, k);
    NewVolumesWithKey(defaults, overrides, k);
  }

  // ----- When grouping matters -----

  datatype Kind = EmptyDirKind | SecretKind | ConfigMapKind | OtherKind

  /** At most one source of a volume may be set, and one must be. */
  predicate IsOfKind(s: VolumeSource, k: Kind) {
    && (s.emptyDir.Some? <==> k.EmptyDirKind?) && (s.secret.Some? <==> k.SecretKind?)
    && (s.configMap.Some? <==> k.ConfigMapKind?) && (s.other.Some? <==> k.OtherKind?)
  }

  /** Equal but for the order in which items are projected. */
  predicate SameSource(s: VolumeSource, t: VolumeSource) {
    && s.emptyDir == t.emptyDir && s.other == t.other
    && (s.secret.Some? <==> t.secret.Some?)
    && (s.secret.Some? ==>
          && s.secret.value.(items := []) == t.secret.value.(items := [])
          && LastWins(s.secret.value.items, ItemKey) == LastWins(t.secret.value.items, ItemKey))
    && (s.configMap.Some? <==> t.configMap.Some?)
    && (s.configMap.Some? ==>
          && s.configMap.value.(items := []) == t.configMap.value.(items := [])
          && LastWins(s.configMap.value.items, ItemKey) == LastWins(t.configMap.value.items, ItemKey))
  }

  /** The original sets a text that the override leaves empty. */
  predicate OpenText(override: string, original: string) {
    override == "" && original != ""
  }

  predicate OpenPointer<T>(override: Option<T>, original: Option<T>) {
    override.None? && original.Some?
  }

  /** The original has an item whose key the override lacks, or sets something in an item that the override does not. */
  predicate OpenItems(overrides: seq<KeyToPath>, originals: seq<KeyToPath>) {
    var x, y := LastWins(originals, ItemKey), LastWins(overrides, ItemKey);
    exists k :: k in x && (k !in y || OpenText(y[k].path, x[k].path) || OpenPointer(y[k].mode, x[k].mode))
  }

  /** The override leaves open something that an original of the same kind would contribute. */
  predicate LeavesOpen(override: VolumeSource, original: VolumeSource, k: Kind)
    requires IsOfKind(override, k) && IsOfKind(original, k)
  {
    match k
    case EmptyDirKind =>
      var e, o := override.emptyDir.value, original.emptyDir.value;
      OpenText(e.medium, o.medium) || OpenPointer(e.sizeLimit, o.sizeLimit)
    case SecretKind =>
      var e, o := override.secret.value, original.secret.value;
      || OpenText(e.secretName, o.secretName) || OpenPointer(e.defaultMode, o.defaultMode)
      || e.optional != o.optional || OpenItems(e.items, o.items)
    case ConfigMapKind =>
      var e, o := override.configMap.value, original.configMap.value;
      || OpenText(e.name, o.name) || OpenPointer(e.defaultMode, o.defaultMode)
      || OpenPointer(e.optional, o.optional) || OpenItems(e.items, o.items)
    case OtherKind => false
  }

  /** Merging items onto an original list gives the override's own items exactly when they leave nothing open. */
  lemma ItemsUnaffected(items: seq<KeyToPath>, originals: seq<KeyToPath>, overrides: seq<KeyToPath>)
    requires ItemsMerged(items, originals, overrides)
    ensures LastWins(items, ItemKey) == LastWins(overrides, ItemKey) <==> !OpenItems(overrides, originals)
  {
    var x, y, r := LastWins(originals, ItemKey), LastWins(overrides, ItemKey), LastWins(items, ItemKey);
    LastWinsConsistent(originals, ItemKey);
    LastWinsConsistent(overrides, ItemKey);
    if OpenItems(overrides, originals) {
      var k :| k in x && (k !in y || OpenText(y[k].path, x[k].path) || OpenPointer(y[k].mode, x[k].mode));
      assert k in r && (k !in y || r[k] != y[k]);
    } else {
      forall k ensures k in r <==> k in y ensures k in y ==> r[k] == y[k] {
      }
    }
  }

  lemma ItemsAssociative(a: seq<KeyToPath>, b: seq<KeyToPath>, c: seq<KeyToPath>, ab: seq<KeyToPath>,
                         left: seq<KeyToPath>, bc: seq<KeyToPath>, right: seq<KeyToPath>)
    requires ItemsMerged(ab, a, b) && ItemsMerged(left, ab, c) && ItemsMerged(bc, b, c) && ItemsMerged(right, a, bc)
    ensures LastWins(left, ItemKey) == LastWins(right, ItemKey)
  {
    LastWinsConsistent(a, ItemKey);
    LastWinsConsistent(b, ItemKey);
    LastWinsConsistent(c, ItemKey);
    OverlayAssociative(LastWins(a, ItemKey), LastWins(b, ItemKey), LastWins(c, ItemKey), MergeKeyToPath);
  }

  /** Three layers of one mergeable kind. */
  lemma SameKindAssociative(a: Volume, b: Volume, c: Volume, k: Kind,
                            ab: Volume, left: Volume, bc: Volume, right: Volume)
    requires IsOfKind(a.source, k) && IsOfKind(b.source, k) && IsOfKind(c.source, k)
    requires IsVolumeMerge(ab, a, b) && IsVolumeMerge(left, ab, c)
    requires IsVolumeMerge(bc, b, c) && IsVolumeMerge(right, a, bc)
    ensures SameSource(left.source, right.source)
  {
    match k
    case SecretKind =>
      ItemsAssociative(a.source.secret.value.items, b.source.secret.value.items, c.source.secret.value.items,
                       ab.source.secret.value.items, left.source.secret.value.items,
                       bc.source.secret.value.items, right.source.secret.value.items);
    case ConfigMapKind =>
      ItemsAssociative(a.source.configMap.value.items, b.source.configMap.value.items, c.source.configMap.value.items,
                       ab.source.configMap.value.items, left.source.configMap.value.items,
                       bc.source.configMap.value.items, right.source.configMap.value.items);
    case _ =>
  }

  /** Merging a volume onto one of its own kind changes it exactly when it leaves something open. */
  lemma MergeChanges(r: Volume, original: Volume, override: Volume, k: Kind)
    requires IsOfKind(original.source, k) && IsOfKind(override.source, k) && IsVolumeMerge(r, original, override)
    ensures SameSource(override.source, r.source) <==> !LeavesOpen(override.source, original.source, k)
  {
    match k
    case SecretKind =>
      ItemsUnaffected(r.source.secret.value.items, original.source.secret.value.items,
                      override.source.secret.value.items);
    case ConfigMapKind =>
      ItemsUnaffected(r.source.configMap.value.items, original.source.configMap.value.items,
                      override.source.configMap.value.items);
    case _ =>
  }

  /**
   Three layers of a volume give the same in either grouping, in any iteration orders, unless the outer two are of
   one kind, the middle one is of another, and the last leaves open what the first would contribute.
   */
  lemma VolumeAssociative(a: Volume, b: Volume, c: Volume, ka: Kind, kb: Kind, kc: Kind,
                          ab: Volume, left: Volume, bc: Volume, right: Volume)
    requires IsOfKind(a.source, ka) && IsOfKind(b.source, kb) && IsOfKind(c.source, kc)
    requires IsVolumeMerge(ab, a, b) && IsVolumeMerge(left, ab, c)
    requires IsVolumeMerge(bc, b, c) && IsVolumeMerge(right, a, bc)
    ensures left.name == right.name == a.name
    ensures SameSource(left.source, right.source) <==>
      !(ka == kc && kb != ka && LeavesOpen(c.source, a.source, ka))
  {
    if ka == kb == kc {
      SameKindAssociative(a, b, c, ka, ab, left, bc, right);
    } else if ka == kc {
      assert ab.source == b.source && left.source == c.source && bc.source == c.source;
      MergeChanges(right, a, bc, ka);
    }
  }

  /** An instance: a change of source kind in the middle layer is forgotten or not. */
  lemma VolumeNotAssociative(ab: Volume, left: Volume, bc: Volume, right: Volume)
    requires var none := VolumeSource(None, None, None, None);
      var a := Volume("v", none.(emptyDir := Some(EmptyDir("Memory", None))));
      var b := Volume("v", none.(other := Some("nfs")));
      var c := Volume("v", none.(emptyDir := Some(EmptyDir("", None))));
      && IsVolumeMerge(ab, a, b) && IsVolumeMerge(left, ab, c)
      && IsVolumeMerge(bc, b, c) && IsVolumeMerge(right, a, bc)
    ensures !SameSource(left.source, right.source)
  {
    assert left.source.emptyDir == Some(EmptyDir("", None));
    assert right.source.emptyDir == Some(EmptyDir("Memory", None));
  }
}

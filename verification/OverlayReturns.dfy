/** A layer below which something was built again, with the same outcome as before: whether it is still
    mounted on what it was mounted on. */
module OverlayReturns {
  import opened Collections
  import opened Wrappers
  import opened OverlayDisk
  import opened OverlayRuns
  import opened OverlayProofs
  import opened OverlaySteps
  import opened OverlayMounts

  // ----- what a layer's manifests record of its lineage, and what its directories hold -----

  function SourceBelow(l: Lineage): seq<Diff> {
    if l.Root? then SourceDiffs(l.source) else SourceBelow(l.base)
  }

  /** The lineage's changes up to the layer `top`, or the source image's alone. */
  function UpTo(l: Lineage, top: Option<Lineage>): seq<Diff> {
    if top.None? then SourceBelow(l) else Expected(top.value)
  }

  ghost predicate RecordsUpTo(d: Disk, l: Lineage, top: Option<Lineage>)
    requires l.name in d.meta
  {
    forall pick :: Picks(d.meta[l.name], pick) ==> NonEmpty(Diffs(Picked(d.meta[l.name], pick))) == NonEmpty(UpTo(l, top))
  }

  /** `top` is in the lineage, and the layers above it, all build-only, have their own changes in their
      directories. */
  ghost predicate HoldsAbove(d: Disk, l: Lineage, top: Option<Lineage>) {
    top == Some(l) ||
    (l.buildOnly && l.name in d.upper && d.upper[l.name] == l.own && if l.Root? then top.None? else HoldsAbove(d, l.base, top))
  }

  /** No directory is filled whose change is recorded. */
  ghost predicate RecordedAreDrained(d: Disk, top: Option<Lineage>) {
    top.Some? ==> top.value.name in d.meta && AllDrained(d, Listed(d, top.value.name))
  }

  /** Each change of the lineage is either recorded or in its layer's directory, and not in both. */
  ghost predicate Intact(d: Disk, l: Lineage) {
    && l.name in d.meta
    && exists top :: HoldsAbove(d, l, top) && RecordsUpTo(d, l, top) && RecordedAreDrained(d, top)
  }

  // ----- exactly then the mount is sound -----

  lemma {:induction false} NoneNonEmpty(a: seq<Diff>)
    requires NonEmpty(a) == []
    ensures forall i :: 0 <= i < |a| ==> a[i] == map[]
  {
    if a != [] {
      NoneNonEmpty(a[..|a| - 1]);
    }
  }

  lemma DrainedIffNone(d: Disk, names: seq<Name>)
    requires forall x <- names :: x in d.upper
    ensures AllDrained(d, names) <==> NonEmpty(Uppers(d, names)) == []
  {
    var stack := Uppers(d, names);
    if AllDrained(d, names) {
      NonEmptyNone(stack);
    }
    if NonEmpty(stack) == [] {
      NoneNonEmpty(stack);
      forall x | x in names ensures d.upper[x] == map[] {
        var i :| 0 <= i < |names| && names[i] == x;
        assert stack[i] == d.upper[x];
      }
    }
  }

  lemma OneOnTop(stack: seq<Diff>, own: Diff)
    ensures NonEmpty(stack + One(own)) == NonEmpty(stack) + One(own)
    ensures NonEmpty(stack + [own]) == NonEmpty(stack) + One(own)
  {
    OwnOnTop(stack, stack, own);
    NonEmptyConcat(stack, One(own));
    assert NonEmpty(One(own)) == One(own) by {
      assert [own][..0] == [];
    }
  }

  lemma ListedMountable(d: Disk, built: map<Name, Lineage>, l: Lineage, lts: seq<LayerType>)
    requires BuiltOk(d, built, lts) && Known(built, l, lts)
    ensures l.name in d.meta && forall x <- Listed(d, l.name) :: x in d.upper
  {
    BuiltMountable(d, built, l, lts);
  }

  /** Above `top` the directories give what the lineage calls for; `rest` is that. */
  lemma {:induction false} ListedSplits(d: Disk, built: map<Name, Lineage>, l: Lineage, top: Option<Lineage>, lts: seq<LayerType>)
      returns (rest: seq<Diff>)
    requires BuiltOk(d, built, lts) && Known(built, l, lts) && HoldsAbove(d, l, top)
    ensures l.name in d.meta && forall x <- Listed(d, l.name) :: x in d.upper
    ensures top.Some? ==> top.value.name in d.meta && forall x <- Listed(d, top.value.name) :: x in d.upper
    ensures NonEmpty(Expected(l)) == NonEmpty(UpTo(l, top)) + rest
    ensures var below := if top.Some? then Uppers(d, Listed(d, top.value.name)) else [];
      NonEmpty(Uppers(d, Listed(d, l.name))) == NonEmpty(below) + rest
    decreases l
  {
    ListedMountable(d, built, l, lts);
    rest := [];
    if top != Some(l) {
      BaseKnown(d, built, l, lts);
      if l.Child? {
        rest := ListedSplits(d, built, l.base, top, lts);
      }
      ghost var below := if top.Some? then Uppers(d, Listed(d, top.value.name)) else [];
      ListedTop(d, l);
      OneOnTopSplits(Uppers(d, d.meta[l.name].builtLayers), NonEmpty(below), rest, l.own);
      OneOnTopSplits(if l.Root? then SourceDiffs(l.source) else Expected(l.base), NonEmpty(UpTo(l, top)), rest, l.own);
      rest := rest + One(l.own);
    }
  }

  lemma ListedTop(d: Disk, l: Lineage)
    requires l.name in d.meta && forall x <- Listed(d, l.name) :: x in d.upper
    ensures Uppers(d, Listed(d, l.name)) == Uppers(d, d.meta[l.name].builtLayers) + [d.upper[l.name]]
  {
  }

  /** One more change on top of a stack that splits. */
  lemma OneOnTopSplits(stack: seq<Diff>, base: seq<Diff>, rest: seq<Diff>, own: Diff)
    requires NonEmpty(stack) == base + rest
    ensures NonEmpty(stack + [own]) == base + (rest + One(own))
    ensures NonEmpty(stack + One(own)) == base + (rest + One(own))
  {
    OneOnTop(stack, own);
  }

  lemma MountIsListed(d: Disk, l: Lineage, pick: LayerType)
    requires Mountable(d, l)
    ensures MountStack(d, l.name, pick) == Diffs(Picked(d.meta[l.name], pick)) + Uppers(d, Listed(d, l.name))
  {
    ListedTop(d, l);
  }

  lemma Cancels(a: seq<Diff>, b: seq<Diff>, c: seq<Diff>)
    ensures a + (b + c) == a + c <==> b == []
  {
    assert |a + (b + c)| == |a| + |b| + |c| && |a + c| == |a| + |c|;
  }

  lemma MountSplits(d: Disk, l: Lineage, top: Option<Lineage>, below: seq<Diff>, rest: seq<Diff>, pick: LayerType)
    requires Mountable(d, l) && RecordsUpTo(d, l, top) && Picks(d.meta[l.name], pick)
    requires NonEmpty(Expected(l)) == NonEmpty(UpTo(l, top)) + rest
    requires NonEmpty(Uppers(d, Listed(d, l.name))) == NonEmpty(below) + rest
    ensures NonEmpty(MountStack(d, l.name, pick)) == NonEmpty(Expected(l)) <==> NonEmpty(below) == []
  {
    MountIsListed(d, l, pick);
    NonEmptyConcat(Diffs(Picked(d.meta[l.name], pick)), Uppers(d, Listed(d, l.name)));
    Cancels(NonEmpty(UpTo(l, top)), NonEmpty(below), rest);
  }

  lemma SomePick(m: Metadata) returns (pick: LayerType)
    ensures Picks(m, pick)
  {
    pick := if m.manifests == map[] then LayerType("", false) else PickOne(m.manifests.Keys);
  }

  lemma SoundIffNone(d: Disk, l: Lineage, top: Option<Lineage>, below: seq<Diff>, rest: seq<Diff>)
    requires Mountable(d, l) && RecordsUpTo(d, l, top)
    requires NonEmpty(Expected(l)) == NonEmpty(UpTo(l, top)) + rest
    requires NonEmpty(Uppers(d, Listed(d, l.name))) == NonEmpty(below) + rest
    ensures Sound(d, l) <==> NonEmpty(below) == []
  {
    var one := SomePick(d.meta[l.name]);
    MountSplits(d, l, top, below, rest, one);
    forall pick | Picks(d.meta[l.name], pick)
      ensures NonEmpty(MountStack(d, l.name, pick)) == NonEmpty(Expected(l)) <==> NonEmpty(below) == []
    {
      MountSplits(d, l, top, below, rest, pick);
    }
  }

  /** A layer whose manifests record its lineage up to `top`, with the changes above in their directories,
      is mounted on exactly its lineage's changes if and only if no directory that it lists is filled
      although its change is recorded. */
  lemma SoundIffDrained(d: Disk, built: map<Name, Lineage>, l: Lineage, top: Option<Lineage>, lts: seq<LayerType>)
    requires BuiltOk(d, built, lts) && Known(built, l, lts) && l.name in d.meta
    requires HoldsAbove(d, l, top) && RecordsUpTo(d, l, top)
    ensures Sound(d, l) <==> RecordedAreDrained(d, top)
  {
    var rest := ListedSplits(d, built, l, top, lts);
    BuiltMountable(d, built, l, lts);
    SoundIffNone(d, l, top, if top.Some? then Uppers(d, Listed(d, top.value.name)) else [], rest);
    if top.Some? {
      DrainedIffNone(d, Listed(d, top.value.name));
    }
  }

  lemma IntactIsSound(d: Disk, built: map<Name, Lineage>, l: Lineage, lts: seq<LayerType>)
    requires BuiltOk(d, built, lts) && Known(built, l, lts) && Intact(d, l)
    ensures Sound(d, l)
  {
    var top :| HoldsAbove(d, l, top) && RecordsUpTo(d, l, top) && RecordedAreDrained(d, top);
    SoundIffDrained(d, built, l, top, lts);
  }

  // ----- building a listed layer again -----

  lemma LastCancels(a: seq<Diff>, b: seq<Diff>, last: seq<Diff>)
    requires a + last == b + last
    ensures a == b
  {
    assert |a + last| == |b + last|;
    assert a == (a + last)[..|a|] && b == (b + last)[..|b|];
  }

  lemma {:induction false} ReplacedStack(a: seq<Diff>, b: seq<Diff>, u: Diff, v: Diff, i: nat)
    requires |a| == |b| && u != v && forall j :: 0 <= j < |a| ==> b[j] == a[j] || (a[j] == u && b[j] == v)
    requires i < |a| && b[i] != a[i]
    ensures NonEmpty(a) != NonEmpty(b)
  {
    if v == map[] {
      EmptiedStack(a, b);
    } else if u == map[] {
      EmptiedStack(b, a);
    } else if a[|a| - 1] == b[|b| - 1] {
      ReplacedStack(a[..|a| - 1], b[..|b| - 1], u, v, i);
      if NonEmpty(a) == NonEmpty(b) {
        LastCancels(NonEmpty(a[..|a| - 1]), NonEmpty(b[..|b| - 1]), One(a[|a| - 1]));
      }
    } else {
      assert NonEmpty(a)[|NonEmpty(a)| - 1] == u && NonEmpty(b)[|NonEmpty(b)| - 1] == v;
    }
  }

  lemma RefilledStack(d: Disk, d': Disk, l: Lineage, x: Name, pick: LayerType)
    requires Mountable(d, l) && Mountable(d', l) && d'.meta[l.name] == d.meta[l.name] && d'.upper[l.name] == d.upper[l.name]
    requires x in d.meta[l.name].builtLayers && d'.upper[x] != d.upper[x]
    requires forall k <- d.meta[l.name].builtLayers :: k != x ==> d'.upper[k] == d.upper[k]
    ensures NonEmpty(MountStack(d', l.name, pick)) != NonEmpty(MountStack(d, l.name, pick))
  {
    var a, b := MountStack(d, l.name, pick), MountStack(d', l.name, pick);
    var m, names := Diffs(Picked(d.meta[l.name], pick)), d.meta[l.name].builtLayers;
    var i :| 0 <= i < |names| && names[i] == x;
    assert a[|m| + i] == d.upper[x] && b[|m| + i] == d'.upper[x];
    ReplacedStack(a, b, d.upper[x], d'.upper[x], |m| + i);
  }

  /** When only the directory of one listed layer may have changed, a sound mount stays sound if and only
      if that directory holds what it held. */
  lemma RefilledMount(d: Disk, d': Disk, l: Lineage, x: Name)
    requires Sound(d, l) && Mountable(d', l) && d'.meta[l.name] == d.meta[l.name] && d'.upper[l.name] == d.upper[l.name]
    requires x in d.meta[l.name].builtLayers
    requires forall k <- d.meta[l.name].builtLayers :: k != x ==> d'.upper[k] == d.upper[k]
    ensures Sound(d', l) <==> d'.upper[x] == d.upper[x]
  {
    if d'.upper[x] == d.upper[x] {
      SameMount(d, d', l);
    } else {
      var pick := SomePick(d.meta[l.name]);
      RefilledStack(d, d', l, x, pick);
    }
  }
}

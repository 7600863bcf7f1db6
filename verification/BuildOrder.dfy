/** The order in which one stacker file's layers are built (pkg/types/stackerfile.go). */
module BuildOrder {
  import opened Collections
  import opened Wrappers

  type Name = string
  type Path = string

  datatype Url = Url(scheme: string, host: string)

  // `NoBase` is a layer without a from directive.
  datatype From = NoBase | TarFrom(url: Url) | BuiltFrom(tag: Name) | OtherFrom

  datatype Layer = Layer(from: From, imports: seq<Url>)

  /** `prerequisites` are the absolute paths of the files this one builds upon. */
  datatype Stackerfile = Stackerfile(layers: map<Name, Layer>, fileOrder: seq<Name>, prerequisites: seq<Path>)

  /** FileOrder lists the keys of the layer map, as the parser makes them. */
  predicate WellFormed(s: Stackerfile) {
    && (forall n <- s.fileOrder :: n in s.layers) && (forall n <- s.layers :: n in s.fileOrder)
    && Distinct(s.fileOrder)
  }

  // ----- what a layer waits for -----

  function StackerHosts(urls: seq<Url>): set<Name> {
    set url | url in urls && url.scheme == "stacker" :: url.host
  }

  function Needs(layer: Layer): set<Name> {
    StackerHosts(layer.imports) +
    match layer.from
    case TarFrom(url) => StackerHosts([url])
    case BuiltFrom(tag) => {tag}
    case _ => {}
  }

  function Elements(order: seq<Name>): set<Name> {
    set n | n in order
  }

  /** An order in which every layer's needs are met by prerequisites or by earlier layers. */
  ghost predicate Valid(s: Stackerfile, prereq: set<Name>, order: seq<Name>) {
    && Distinct(order) && (forall n <- order :: n in s.layers)
    && forall i {:trigger Met(s, prereq, order, i)} :: 0 <= i < |order| ==> Met(s, prereq, order, i)
  }

  ghost predicate Met(s: Stackerfile, prereq: set<Name>, order: seq<Name>, i: nat)
    requires i < |order|
  {
    order[i] in s.layers && Needs(s.layers[order[i]]) <= prereq + Elements(order[..i])
  }

  ghost predicate Complete(s: Stackerfile, prereq: set<Name>, order: seq<Name>) {
    Valid(s, prereq, order) && forall n <- s.layers :: n in order
  }

  // ----- the passes -----

  /** One scan over the first `n` names in file order, given what earlier scans returned. */
  function Sweep(s: Stackerfile, prereq: set<Name>, ret: seq<Name>, n: nat): seq<Name>
    requires WellFormed(s) && n <= |s.fileOrder|
  {
    if n == 0 then ret
    else
      var before := Sweep(s, prereq, ret, n - 1);
      var name := s.fileOrder[n - 1];
      if name !in prereq && name !in before && Needs(s.layers[name]) <= prereq + Elements(before)
      then before + [name] else before
  }

  function Sweeps(s: Stackerfile, prereq: set<Name>, n: nat): seq<Name>
    requires WellFormed(s)
  {
    if n == 0 then [] else Sweep(s, prereq, Sweeps(s, prereq, n - 1), |s.fileOrder|)
  }

  lemma {:induction false} SweepGrows(s: Stackerfile, prereq: set<Name>, ret: seq<Name>, n: nat)
    requires WellFormed(s) && n <= |s.fileOrder|
    ensures ret <= Sweep(s, prereq, ret, n)
  {
    if n > 0 {
      SweepGrows(s, prereq, ret, n - 1);
    }
  }

  lemma ValidExtend(s: Stackerfile, prereq: set<Name>, order: seq<Name>, name: Name)
    requires Valid(s, prereq, order) && name in s.layers && name !in order
    requires Needs(s.layers[name]) <= prereq + Elements(order)
    ensures Valid(s, prereq, order + [name])
  {
    var longer := order + [name];
    forall i | 0 <= i < |longer| ensures Met(s, prereq, longer, i) {
      assert longer[..i] == order[..i];
      assert order[..|order|] == order;
      assert i < |order| ==> Met(s, prereq, order, i);
    }
  }

  lemma {:induction false} SweepValid(s: Stackerfile, prereq: set<Name>, ret: seq<Name>, n: nat)
    requires WellFormed(s) && n <= |s.fileOrder| && Valid(s, prereq, ret) && forall m <- ret :: m !in prereq
    ensures Valid(s, prereq, Sweep(s, prereq, ret, n)) && forall m <- Sweep(s, prereq, ret, n) :: m !in prereq
  {
    if n > 0 {
      SweepValid(s, prereq, ret, n - 1);
      var before, name := Sweep(s, prereq, ret, n - 1), s.fileOrder[n - 1];
      assert name in s.fileOrder;
      if Sweep(s, prereq, ret, n) != before {
        ValidExtend(s, prereq, before, name);
      }
    }
  }

  lemma {:induction false} SweepsValid(s: Stackerfile, prereq: set<Name>, n: nat)
    requires WellFormed(s)
    ensures Valid(s, prereq, Sweeps(s, prereq, n)) && forall m <- Sweeps(s, prereq, n) :: m !in prereq
  {
    if n > 0 {
      SweepsValid(s, prereq, n - 1);
      SweepValid(s, prereq, Sweeps(s, prereq, n - 1), |s.fileOrder|);
    }
  }

  lemma SweepKeeps(s: Stackerfile, prereq: set<Name>, ret: seq<Name>, n: nat, name: Name)
    requires WellFormed(s) && 0 < n <= |s.fileOrder| && name in Sweep(s, prereq, ret, n - 1)
    ensures name in Sweep(s, prereq, ret, n)
  {
  }

  lemma LastTaken(s: Stackerfile, prereq: set<Name>, ret: seq<Name>, n: nat)
    requires WellFormed(s) && 0 < n <= |s.fileOrder| && s.fileOrder[n - 1] !in prereq
    requires s.fileOrder[n - 1] in s.layers && Elements(ret) <= Elements(Sweep(s, prereq, ret, n - 1))
    requires Needs(s.layers[s.fileOrder[n - 1]]) <= prereq + Elements(ret)
    ensures s.fileOrder[n - 1] in Sweep(s, prereq, ret, n)
  {
    assert Needs(s.layers[s.fileOrder[n - 1]]) <= prereq + Elements(Sweep(s, prereq, ret, n - 1));
  }

  /** A layer whose needs are met before a scan is in the order after it. */
  lemma {:induction false} SweepTakes(s: Stackerfile, prereq: set<Name>, ret: seq<Name>, n: nat, name: Name)
    requires WellFormed(s) && n <= |s.fileOrder| && name in s.fileOrder[..n] && name !in prereq
    requires Needs(s.layers[name]) <= prereq + Elements(ret)
    ensures name in Sweep(s, prereq, ret, n)
  {
    assert s.fileOrder[..n] == s.fileOrder[..n - 1] + [s.fileOrder[n - 1]];
    if name in s.fileOrder[..n - 1] {
      SweepTakes(s, prereq, ret, n - 1, name);
      SweepKeeps(s, prereq, ret, n, name);
    } else {
      SweepGrows(s, prereq, ret, n - 1);
      LastTaken(s, prereq, ret, n);
    }
  }

  lemma NextTaken(s: Stackerfile, prereq: set<Name>, order: seq<Name>, k: nat, before: seq<Name>)
    requires WellFormed(s) && Complete(s, prereq, order) && k < |order| && order[k] !in prereq
    requires Follows(order, k, before)
    ensures order[k] in Sweep(s, prereq, before, |s.fileOrder|)
  {
    var name := order[k];
    assert Met(s, prereq, order, k);
    assert Elements(order[..k]) <= Elements(before);
    assert s.fileOrder[..|s.fileOrder|] == s.fileOrder;
    SweepTakes(s, prereq, before, |s.fileOrder|, name);
  }

  ghost predicate Follows(order: seq<Name>, k: nat, ret: seq<Name>)
    requires k <= |order|
  {
    forall n <- order[..k] :: n in ret
  }

  lemma FollowsStep(order: seq<Name>, k: nat, before: seq<Name>, after: seq<Name>)
    requires k < |order| && Follows(order, k, before) && before <= after && order[k] in after
    ensures Follows(order, k + 1, after)
  {
    assert order[..k + 1] == order[..k] + [order[k]];
  }

  /** After k scans the first k layers of any complete order have been taken. */
  lemma {:induction false} SweepsFollow(s: Stackerfile, prereq: set<Name>, order: seq<Name>, k: nat)
    requires WellFormed(s) && Complete(s, prereq, order) && (forall n <- order :: n !in prereq) && k <= |order|
    ensures Follows(order, k, Sweeps(s, prereq, k))
  {
    if k > 0 {
      SweepsFollow(s, prereq, order, k - 1);
      var before := Sweeps(s, prereq, k - 1);
      SweepGrows(s, prereq, before, |s.fileOrder|);
      NextTaken(s, prereq, order, k - 1, before);
      FollowsStep(order, k - 1, before, Sweep(s, prereq, before, |s.fileOrder|));
    }
  }

  lemma DistinctLength(a: seq<Name>, b: seq<Name>)
    requires Distinct(a) && forall n <- a :: n in b
    ensures |a| <= |b|
  {
    if a != [] {
      var last, rest := a[|a| - 1], a[..|a| - 1];
      assert last in a && last in b;
      var i :| 0 <= i < |b| && b[i] == last;
      forall n <- rest ensures n in b[..i] + b[i + 1..] {
        assert n in a && n in b;
        var j :| 0 <= j < |b| && b[j] == n;
        assert j < i ==> b[..i][j] == n;
        assert j > i ==> b[i + 1..][j - i - 1] == n;
      }
      DistinctLength(rest, b[..i] + b[i + 1..]);
    }
  }

  lemma SameLength(a: seq<Name>, b: seq<Name>)
    requires Distinct(a) && Distinct(b) && |a| == |b| && forall n <- a :: n in b
    ensures forall n <- b :: n in a
  {
    forall n <- b ensures n in a {
      if n !in a {
        DistinctLength(a + [n], b);
      }
    }
  }

  lemma SameNames(s: Stackerfile, prereq: set<Name>, order: seq<Name>)
    requires WellFormed(s) && Complete(s, prereq, order)
    ensures |order| == |s.fileOrder| && forall n :: n in order <==> n in s.fileOrder
  {
    DistinctLength(order, s.fileOrder);
    DistinctLength(s.fileOrder, order);
  }

  /** The last scan finds an order if there is one at all. */
  lemma SweepsComplete(s: Stackerfile, prereq: set<Name>, order: seq<Name>)
    requires WellFormed(s) && Complete(s, prereq, order) && forall n <- s.layers :: n !in prereq
    ensures |Sweeps(s, prereq, |s.fileOrder|)| == |s.fileOrder|
  {
    var ret := Sweeps(s, prereq, |s.fileOrder|);
    SameNames(s, prereq, order);
    SweepsFollow(s, prereq, order, |order|);
    assert order[..|order|] == order;
    DistinctLength(s.fileOrder, ret);
    SweepsValid(s, prereq, |s.fileOrder|);
    DistinctLength(ret, s.fileOrder);
  }

  // ----- the order itself -----

  method UnprocessedStackerImports(layer: Layer, processed: set<Name>) returns (unprocessed: seq<Name>)
    ensures unprocessed == [] <==> StackerHosts(layer.imports) + (if layer.from.TarFrom? then StackerHosts([layer.from.url]) else {}) <= processed
  {
    unprocessed := [];
    for i := 0 to |layer.imports|
      invariant unprocessed == [] <==> StackerHosts(layer.imports[..i]) <= processed
    {
      var url := layer.imports[i];
      assert layer.imports[..i + 1] == layer.imports[..i] + [url];
      assert StackerHosts(layer.imports[..i + 1]) == StackerHosts(layer.imports[..i]) + StackerHosts([url]);
      if url.scheme == "stacker" {
        if url.host !in processed {
          assert url.host in StackerHosts([url]);
          unprocessed := unprocessed + [url.host];
        }
      }
    }
    assert layer.imports[..|layer.imports|] == layer.imports;
    if layer.from.TarFrom? && layer.from.url.scheme == "stacker" {
      var url := layer.from.url;
      if url.host !in processed {
        assert url.host in StackerHosts([url]);
        unprocessed := unprocessed + [url.host];
      }
    }
  }

  ghost predicate AllBased(s: Stackerfile, prereq: set<Name>, names: seq<Name>) {
    forall n <- names :: n in s.layers && (n !in prereq ==> !s.layers[n].from.NoBase?)
  }

  lemma BasedNext(s: Stackerfile, prereq: set<Name>, j: nat)
    requires j < |s.fileOrder|
    ensures AllBased(s, prereq, s.fileOrder[..j + 1]) <==>
      AllBased(s, prereq, s.fileOrder[..j]) && AllBased(s, prereq, [s.fileOrder[j]])
    ensures AllBased(s, prereq, s.fileOrder) ==> AllBased(s, prereq, [s.fileOrder[j]])
  {
    assert s.fileOrder[..j + 1] == s.fileOrder[..j] + [s.fileOrder[j]];
  }

  lemma NeedsMet(layer: Layer, processed: set<Name>)
    ensures Needs(layer) <= processed <==>
      && StackerHosts(layer.imports) + (if layer.from.TarFrom? then StackerHosts([layer.from.url]) else {}) <= processed
      && (layer.from.BuiltFrom? ==> layer.from.tag in processed)
  {
  }

  /** One scan over the file's layers; it fails on a layer without a base. */
  method Scan(s: Stackerfile, prereq: set<Name>, before: seq<Name>) returns (ok: bool, ret: seq<Name>)
    requires WellFormed(s) && Valid(s, prereq, before) && forall m <- before :: m !in prereq && !s.layers[m].from.NoBase?
    ensures ok <==> AllBased(s, prereq, s.fileOrder)
    ensures ok ==> ret == Sweep(s, prereq, before, |s.fileOrder|)
  {
    ret := before;
    var processed := prereq + Elements(before);
    for j := 0 to |s.fileOrder|
      invariant ret == Sweep(s, prereq, before, j) && processed == prereq + Elements(ret)
      invariant AllBased(s, prereq, s.fileOrder[..j])
      invariant forall m <- ret :: m in s.layers && !s.layers[m].from.NoBase?
    {
      var name := s.fileOrder[j];
      assert name in s.fileOrder;
      BasedNext(s, prereq, j);
      if name !in processed {
        var layer := s.layers[name];
        if layer.from.NoBase? {
          return false, ret;
        }
        var baseTagProcessed := layer.from.BuiltFrom? && layer.from.tag in processed;
        var unprocessed := UnprocessedStackerImports(layer, processed);
        NeedsMet(layer, processed);
        if |unprocessed| == 0 && (!layer.from.BuiltFrom? || baseTagProcessed) {
          ret := ret + [name];
          processed := processed + {name};
        }
      }
    }
    assert s.fileOrder[..|s.fileOrder|] == s.fileOrder;
    ok := true;
  }

  /** The order is found if and only if every layer has a base, no layer shares its name with a
      prerequisite's, and some order meets every need; and then it is such an order. */
  method DependencyOrder(s: Stackerfile, prereq: set<Name>) returns (r: Result<seq<Name>>)
    requires WellFormed(s)
    ensures r.Ok? ==> Complete(s, prereq, r.value) && |r.value| == |s.fileOrder|
    ensures r.Ok? <==>
      && (forall n <- s.layers :: n !in prereq && !s.layers[n].from.NoBase?)
      && exists order :: Complete(s, prereq, order)
  {
    var ret: seq<Name> := [];
    for i := 0 to |s.fileOrder|
      invariant ret == Sweeps(s, prereq, i)
      invariant i > 0 ==> AllBased(s, prereq, s.fileOrder)
    {
      SweepsValid(s, prereq, i);
      SweepsBased(s, prereq, i);
      var ok;
      ok, ret := Scan(s, prereq, ret);
      if !ok {
        return Err;
      }
    }
    SweepsValid(s, prereq, |s.fileOrder|);
    OrderFound(s, prereq, ret);
    if |ret| != |s.fileOrder| {
      return Err;
    }
    return Ok(ret);
  }

  lemma SweepsBased(s: Stackerfile, prereq: set<Name>, n: nat)
    requires WellFormed(s) && (n > 0 ==> AllBased(s, prereq, s.fileOrder))
    ensures forall m <- Sweeps(s, prereq, n) :: m in s.layers && m !in prereq && !s.layers[m].from.NoBase?
  {
    SweepsValid(s, prereq, n);
    forall m <- Sweeps(s, prereq, n) ensures m in s.layers && m !in prereq && !s.layers[m].from.NoBase? {
      assert m in s.fileOrder;
    }
  }

  lemma OrderFound(s: Stackerfile, prereq: set<Name>, ret: seq<Name>)
    requires WellFormed(s) && ret == Sweeps(s, prereq, |s.fileOrder|)
    requires Valid(s, prereq, ret) && forall m <- ret :: m !in prereq
    ensures |ret| == |s.fileOrder| ==> Complete(s, prereq, ret) && forall n <- s.layers :: n !in prereq
    ensures (exists order :: Complete(s, prereq, order)) && (forall n <- s.layers :: n !in prereq) ==> |ret| == |s.fileOrder|
  {
    if |ret| == |s.fileOrder| {
      SameLength(ret, s.fileOrder);
    }
    if order :| Complete(s, prereq, order) {
      if forall n <- s.layers :: n !in prereq {
        SweepsComplete(s, prereq, order);
      }
    }
  }

  // ----- why an order is not found -----

  /** Layers that wait only for each other or for names that do not exist. */
  ghost predicate Stuck(s: Stackerfile, prereq: set<Name>, names: set<Name>) {
    names != {} && forall n <- names :: Waits(s, prereq, names, n)
  }

  ghost predicate Waits(s: Stackerfile, prereq: set<Name>, names: set<Name>, n: Name) {
    n in s.layers && exists need <- Needs(s.layers[n]) :: need !in prereq && (need in names || need !in s.layers)
  }

  lemma WaitsUnmet(s: Stackerfile, prereq: set<Name>, names: set<Name>, done: seq<Name>, n: Name)
    requires Waits(s, prereq, names, n) && forall m <- done :: m in s.layers && m !in names
    ensures !(Needs(s.layers[n]) <= prereq + Elements(done))
  {
    var need :| need in Needs(s.layers[n]) && need !in prereq && (need in names || need !in s.layers);
    assert need !in done;
  }

  /** Stuck layers never become ready. */
  lemma {:induction false} StuckStaysOut(s: Stackerfile, prereq: set<Name>, names: set<Name>, order: seq<Name>, i: nat)
    requires Stuck(s, prereq, names) && Valid(s, prereq, order) && i <= |order|
    ensures forall n <- order[..i] :: n !in names
  {
    if i > 0 {
      StuckStaysOut(s, prereq, names, order, i - 1);
      assert order[..i] == order[..i - 1] + [order[i - 1]];
      assert Met(s, prereq, order, i - 1);
      if order[i - 1] in names {
        WaitsUnmet(s, prereq, names, order[..i - 1], order[i - 1]);
      }
    }
  }

  lemma StuckMeansNoOrder(s: Stackerfile, prereq: set<Name>, names: set<Name>, order: seq<Name>)
    requires Stuck(s, prereq, names)
    ensures !Complete(s, prereq, order)
  {
    if Valid(s, prereq, order) {
      StuckStaysOut(s, prereq, names, order, |order|);
      assert order[..|order|] == order;
      var n :| n in names;
      assert Waits(s, prereq, names, n);
    }
  }

  /** If every layer has a name of its own and no order exists, some layers are stuck. */
  lemma NoOrderMeansStuck(s: Stackerfile, prereq: set<Name>) returns (names: set<Name>)
    requires WellFormed(s) && (forall n <- s.layers :: n !in prereq) && !exists order :: Complete(s, prereq, order)
    ensures Stuck(s, prereq, names)
  {
    var ret := MaximalOrder(s, prereq, []);
    names := s.layers.Keys - Elements(ret);
    assert !Complete(s, prereq, ret);
    var left :| left in s.layers && left !in ret;
    assert left in names;
    forall n <- names ensures Waits(s, prereq, names, n) {
      assert !(Needs(s.layers[n]) <= prereq + Elements(ret));
      var need :| need in Needs(s.layers[n]) && need !in prereq + Elements(ret);
    }
  }

  /** A valid order that no layer can extend. */
  lemma MaximalOrder(s: Stackerfile, prereq: set<Name>, order: seq<Name>) returns (longest: seq<Name>)
    requires WellFormed(s) && Valid(s, prereq, order)
    ensures Valid(s, prereq, longest)
    ensures forall n <- s.layers :: n !in longest ==> !(Needs(s.layers[n]) <= prereq + Elements(longest))
    decreases |s.fileOrder| - |order|
  {
    if n :| n in s.layers && n !in order && Needs(s.layers[n]) <= prereq + Elements(order) {
      ValidExtend(s, prereq, order, n);
      DistinctLength(order + [n], s.fileOrder);
      longest := MaximalOrder(s, prereq, order + [n]);
    } else {
      longest := order;
    }
  }
}

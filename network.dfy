/** The signal network of main.py: a name-keyed table of neurons kept in
    insertion order, each with a kind and a current value, and the weighted links
    between them. A neuron is its position in the table; a link is an edge
    (src, dst, weight), and the edges are kept in the order they were made, so
    the edges with a given src, in order, are that neuron's outgoing list. */
module Network {

  datatype Kind = Input | Hidden | Output

  /** A weighted link from the neuron at position src to the one at dst. */
  datatype Edge = Edge(src: nat, dst: nat, weight: real)

  /** Every edge joins two of the n neurons. */
  predicate Wired(n: nat, edges: seq<Edge>)
  {
    forall k :: 0 <= k < |edges| ==> edges[k].src < n && edges[k].dst < n
  }

  predicate Distinct(names: seq<string>)
  {
    forall i, j :: 0 <= i < j < |names| ==> names[i] != names[j]
  }

  /** Position of `name` in the table, or -1 when it is absent. */
  function IndexOf(names: seq<string>, name: string): (i: int)
    ensures -1 <= i < |names|
    ensures i >= 0 ==> names[i] == name
    ensures i < 0 <==> name !in names
  {
    if names == [] then -1
    else if names[|names| - 1] == name then |names| - 1
    else IndexOf(names[..|names| - 1], name)
  }

  /** The neuron values after `set(name, x)`: only an input neuron called `name`
      takes the value; when `name` is absent or not an input nothing changes. */
  function SetInput(names: seq<string>, kinds: seq<Kind>, v: seq<real>, name: string, x: real): (r: seq<real>)
    requires |kinds| == |names| == |v| && Distinct(names)
    ensures |r| == |v|
    ensures forall k :: 0 <= k < |v| ==> r[k] == if names[k] == name && kinds[k] == Input then x else v[k]
  {
    var i := IndexOf(names, name);
    if i >= 0 && kinds[i] == Input then v[i := x] else v
  }

  /** The edges with every edge from or into neuron m removed. */
  function Detach(edges: seq<Edge>, m: nat): (r: seq<Edge>)
    ensures forall k :: 0 <= k < |r| ==> r[k].src != m && r[k].dst != m && r[k] in edges
    ensures forall k :: 0 <= k < |edges| && edges[k].src != m && edges[k].dst != m ==> edges[k] in r
  {
    if edges == [] then []
    else
      var e := edges[0];
      (if e.src == m || e.dst == m then [] else [e]) + Detach(edges[1..], m)
  }

  /** Detaching removes every copy of an edge from or into m and keeps every
      other edge as often as it occurs, duplicates included. */
  lemma {:induction false} DetachCounts(edges: seq<Edge>, m: nat)
    ensures forall e :: multiset(Detach(edges, m))[e] == if e.src == m || e.dst == m then 0 else multiset(edges)[e]
  {
    if edges != [] {
      var d := edges[0];
      assert edges == [d] + edges[1..];
      DetachCounts(edges[1..], m);
    }
  }

  /** Detaching keeps the surviving edges in their order: an edge added last
      survives as the last edge, or not at all. */
  lemma {:induction false} DetachSnoc(s: seq<Edge>, e: Edge, m: nat)
    ensures Detach(s + [e], m) == Detach(s, m) + (if e.src == m || e.dst == m then [] else [e])
  {
    if s == [] {
      assert Detach([e], m) == (if e.src == m || e.dst == m then [] else [e]) + Detach([], m);
    } else {
      var t := s + [e];
      var d := s[0];
      assert t[0] == d && t[1..] == s[1..] + [e];
      DetachSnoc(s[1..], e, m);
      calc {
        Detach(t, m);
        (if d.src == m || d.dst == m then [] else [d]) + Detach(s[1..] + [e], m);
        (if d.src == m || d.dst == m then [] else [d]) + Detach(s[1..], m) + (if e.src == m || e.dst == m then [] else [e]);
        Detach(s, m) + (if e.src == m || e.dst == m then [] else [e]);
      }
    }
  }

  /** Step 1 of a forward pass: every non-input neuron is reset to 0. */
  function Zeroed(kinds: seq<Kind>, v: seq<real>): (r: seq<real>)
    requires |kinds| == |v|
    ensures |r| == |v|
  {
    seq(|v|, i requires 0 <= i < |v| => if kinds[i] == Input then v[i] else 0.0)
  }

  /** What an edge of weight w adds to its target when its source holds x. */
  function Signal(x: real, w: real): real
  {
    x * w
  }

  /** Neuron src sends along its own edges among `edges`, in order: each adds the
      current value of src times the weight to the edge's target. */
  function Send(v: seq<real>, src: nat, edges: seq<Edge>): (r: seq<real>)
    requires src < |v| && Wired(|v|, edges)
    ensures |r| == |v|
  {
    if edges == [] then v
    else
      var u := Send(v, src, edges[..|edges| - 1]);
      var e := edges[|edges| - 1];
      if e.src == src then u[e.dst := u[e.dst] + Signal(u[src], e.weight)] else u
  }

  /** Sending along one more edge extends the previous sends by at most one update. */
  lemma SendStep(v: seq<real>, src: nat, edges: seq<Edge>, k: nat)
    requires src < |v| && k < |edges| && Wired(|v|, edges)
    ensures var u := Send(v, src, edges[..k]); var e := edges[k];
      Send(v, src, edges[..k + 1]) == if e.src == src then u[e.dst := u[e.dst] + Signal(u[src], e.weight)] else u
  {
    var p := edges[..k + 1];
    assert p[..|p| - 1] == edges[..k] && p[|p| - 1] == edges[k];
    assert Wired(|v|, edges[..k]) && Wired(|v|, p);
  }

  /** Step 2 of a forward pass, done for the first i neurons in insertion order. */
  function Pass(v: seq<real>, edges: seq<Edge>, i: nat): (r: seq<real>)
    requires i <= |v| && Wired(|v|, edges)
    ensures |r| == |v|
  {
    if i == 0 then v else Send(Pass(v, edges, i - 1), i - 1, edges)
  }

  /** A whole forward pass: reset, one accumulation pass, identity activation. */
  function Forward(kinds: seq<Kind>, edges: seq<Edge>, v: seq<real>): (r: seq<real>)
    requires |kinds| == |v| && Wired(|v|, edges)
    ensures |r| == |v|
  {
    Pass(Zeroed(kinds, v), edges, |v|)
  }

  /** The map `run` returns, built from the first n neurons. */
  function OutputsUpTo(names: seq<string>, kinds: seq<Kind>, v: seq<real>, n: nat): map<string, real>
    requires n <= |names| == |kinds| == |v|
  {
    if n == 0 then map[]
    else if kinds[n - 1] == Output then OutputsUpTo(names, kinds, v, n - 1)[names[n - 1] := v[n - 1]]
    else OutputsUpTo(names, kinds, v, n - 1)
  }

  function Outputs(names: seq<string>, kinds: seq<Kind>, v: seq<real>): map<string, real>
    requires |names| == |kinds| == |v|
  {
    OutputsUpTo(names, kinds, v, |names|)
  }

  /** The returned map has exactly the output neurons' names as keys, and, names
      being distinct, each maps to its own neuron's value. */
  lemma {:induction false} OutputsExactly(names: seq<string>, kinds: seq<Kind>, v: seq<real>, n: nat)
    requires n <= |names| == |kinds| == |v| && Distinct(names)
    ensures forall s :: s in OutputsUpTo(names, kinds, v, n) <==> exists i :: 0 <= i < n && names[i] == s && kinds[i] == Output
    ensures forall i :: 0 <= i < n && kinds[i] == Output ==> OutputsUpTo(names, kinds, v, n)[names[i]] == v[i]
  {
    if n > 0 {
      OutputsExactly(names, kinds, v, n - 1);
    }
  }

  /** No edge ends at an input neuron. */
  predicate InputsUntargeted(kinds: seq<Kind>, edges: seq<Edge>)
    requires Wired(|kinds|, edges)
  {
    forall k :: 0 <= k < |edges| ==> kinds[edges[k].dst] != Input
  }

  lemma {:induction false} SendKeeps(v: seq<real>, src: nat, edges: seq<Edge>, m: nat)
    requires src < |v| && m < |v| && Wired(|v|, edges)
    requires forall k :: 0 <= k < |edges| ==> edges[k].dst != m
    ensures Send(v, src, edges)[m] == v[m]
  {
    if edges != [] {
      SendKeeps(v, src, edges[..|edges| - 1], m);
    }
  }

  lemma {:induction false} PassKeeps(v: seq<real>, edges: seq<Edge>, i: nat, m: nat)
    requires i <= |v| && m < |v| && Wired(|v|, edges)
    requires forall k :: 0 <= k < |edges| ==> edges[k].dst != m
    ensures Pass(v, edges, i)[m] == v[m]
  {
    if i > 0 {
      PassKeeps(v, edges, i - 1, m);
      SendKeeps(Pass(v, edges, i - 1), i - 1, edges, m);
    }
  }

  /** When no edge ends at an input, a forward pass leaves every input's value
      as it was. */
  lemma ForwardKeepsInputs(kinds: seq<Kind>, edges: seq<Edge>, v: seq<real>)
    requires |kinds| == |v| && Wired(|v|, edges) && InputsUntargeted(kinds, edges)
    ensures forall m :: 0 <= m < |v| && kinds[m] == Input ==> Forward(kinds, edges, v)[m] == v[m]
  {
    forall m | 0 <= m < |v| && kinds[m] == Input ensures Forward(kinds, edges, v)[m] == v[m] {
      PassKeeps(Zeroed(kinds, v), edges, |v|, m);
    }
  }

  /** A forward pass reads only the inputs: two value tables that agree on every
      input neuron give the same result. */
  lemma ForwardReadsOnlyInputs(kinds: seq<Kind>, edges: seq<Edge>, v: seq<real>, w: seq<real>)
    requires |kinds| == |v| == |w| && Wired(|v|, edges)
    requires forall m :: 0 <= m < |v| && kinds[m] == Input ==> v[m] == w[m]
    ensures Forward(kinds, edges, v) == Forward(kinds, edges, w)
  {
    assert Zeroed(kinds, v) == Zeroed(kinds, w);
  }

  /** Calling `run` twice in a row gives the same neuron values, hence the same
      returned map, when no edge ends at an input. */
  lemma RunTwice(kinds: seq<Kind>, edges: seq<Edge>, v: seq<real>)
    requires |kinds| == |v| && Wired(|v|, edges) && InputsUntargeted(kinds, edges)
    ensures Forward(kinds, edges, Forward(kinds, edges, v)) == Forward(kinds, edges, v)
  {
    ForwardKeepsInputs(kinds, edges, v);
    ForwardReadsOnlyInputs(kinds, edges, Forward(kinds, edges, v), v);
  }

  /** Weighted sum of x over the edges from src into j. */
  function Gathered(x: real, edges: seq<Edge>, src: nat, j: nat): real
  {
    if edges == [] then 0.0
    else
      var e := edges[|edges| - 1];
      Gathered(x, edges[..|edges| - 1], src, j) + (if e.src == src && e.dst == j then Signal(x, e.weight) else 0.0)
  }

  /** Weighted sum arriving at j from the first i neurons, each sending its value in v. */
  function Incoming(v: seq<real>, edges: seq<Edge>, j: nat, i: nat): real
    requires i <= |v|
  {
    if i == 0 then 0.0 else Incoming(v, edges, j, i - 1) + Gathered(v[i - 1], edges, i - 1, j)
  }

  /** The raw weighted sum into neuron j: value of the source times the weight,
      over every edge into j. */
  function EdgeSum(v: seq<real>, edges: seq<Edge>, j: nat): real
    requires Wired(|v|, edges)
  {
    if edges == [] then 0.0
    else
      var e := edges[|edges| - 1];
      EdgeSum(v, edges[..|edges| - 1], j) + (if e.dst == j then Signal(v[e.src], e.weight) else 0.0)
  }

  /** Two layers: only inputs send, and only non-inputs receive. */
  predicate Layered(kinds: seq<Kind>, edges: seq<Edge>)
    requires Wired(|kinds|, edges)
  {
    forall k :: 0 <= k < |edges| ==> kinds[edges[k].src] == Input && kinds[edges[k].dst] != Input
  }

  lemma {:induction false} SendSums(v: seq<real>, src: nat, edges: seq<Edge>)
    requires src < |v| && Wired(|v|, edges)
    requires forall k :: 0 <= k < |edges| ==> edges[k].dst != src
    ensures forall j :: 0 <= j < |v| ==> Send(v, src, edges)[j] == v[j] + Gathered(v[src], edges, src, j)
  {
    if edges != [] {
      var init := edges[..|edges| - 1];
      SendSums(v, src, init);
      SendKeeps(v, src, init, src);
    }
  }

  lemma {:induction false} SendSilent(v: seq<real>, src: nat, edges: seq<Edge>)
    requires src < |v| && Wired(|v|, edges)
    requires forall k :: 0 <= k < |edges| ==> edges[k].src != src
    ensures Send(v, src, edges) == v
  {
    if edges != [] {
      SendSilent(v, src, edges[..|edges| - 1]);
    }
  }

  lemma {:induction false} GatheredNone(x: real, edges: seq<Edge>, src: nat, j: nat)
    requires forall k :: 0 <= k < |edges| ==> edges[k].dst != j
    ensures Gathered(x, edges, src, j) == 0.0
  {
    if edges != [] {
      GatheredNone(x, edges[..|edges| - 1], src, j);
    }
  }

  lemma {:induction false} GatheredSilent(x: real, edges: seq<Edge>, src: nat)
    requires forall k :: 0 <= k < |edges| ==> edges[k].src != src
    ensures forall j :: Gathered(x, edges, src, j) == 0.0
  {
    if edges != [] {
      GatheredSilent(x, edges[..|edges| - 1], src);
    }
  }

  lemma {:induction false} IncomingNone(v: seq<real>, edges: seq<Edge>, j: nat, i: nat)
    requires i <= |v|
    requires forall k :: 0 <= k < |edges| ==> edges[k].dst != j
    ensures Incoming(v, edges, j, i) == 0.0
  {
    if i > 0 {
      IncomingNone(v, edges, j, i - 1);
      GatheredNone(v[i - 1], edges, i - 1, j);
    }
  }

  lemma {:induction false} IncomingSenders(v: seq<real>, w: seq<real>, edges: seq<Edge>, j: nat, i: nat)
    requires i <= |v| == |w|
    requires forall k :: 0 <= k < |edges| && edges[k].src < i ==> v[edges[k].src] == w[edges[k].src]
    ensures Incoming(v, edges, j, i) == Incoming(w, edges, j, i)
  {
    if i > 0 {
      IncomingSenders(v, w, edges, j, i - 1);
      if v[i - 1] != w[i - 1] {
        GatheredSilent(v[i - 1], edges, i - 1);
        GatheredSilent(w[i - 1], edges, i - 1);
      }
    }
  }

  lemma {:induction false} IncomingLast(v: seq<real>, init: seq<Edge>, e: Edge, j: nat, i: nat)
    requires i <= |v|
    ensures Incoming(v, init + [e], j, i)
         == Incoming(v, init, j, i) + (if e.src < i && e.dst == j then Signal(v[e.src], e.weight) else 0.0)
  {
    assert (init + [e])[..|init|] == init;
    if i > 0 {
      IncomingLast(v, init, e, j, i - 1);
    }
  }

  /** Grouping the incoming sum by sender, over all senders, or taking it edge by
      edge, gives the same total. */
  lemma {:induction false} IncomingByEdge(v: seq<real>, edges: seq<Edge>, j: nat)
    requires Wired(|v|, edges)
    ensures Incoming(v, edges, j, |v|) == EdgeSum(v, edges, j)
  {
    if edges == [] {
      IncomingNone(v, edges, j, |v|);
    } else {
      var init := edges[..|edges| - 1];
      var e := edges[|edges| - 1];
      assert edges == init + [e];
      IncomingByEdge(v, init, j);
      IncomingLast(v, init, e, j, |v|);
    }
  }

  lemma {:induction false} PassSums(kinds: seq<Kind>, edges: seq<Edge>, v: seq<real>, i: nat)
    requires i <= |v| == |kinds| && Wired(|v|, edges) && Layered(kinds, edges)
    ensures forall j :: 0 <= j < |v| ==> Pass(v, edges, i)[j] == v[j] + Incoming(v, edges, j, i)
  {
    if i > 0 {
      PassSums(kinds, edges, v, i - 1);
      var p := Pass(v, edges, i - 1);
      if kinds[i - 1] == Input {
        SendSums(p, i - 1, edges);
        IncomingNone(v, edges, i - 1, i - 1);
      } else {
        SendSilent(p, i - 1, edges);
        GatheredSilent(v[i - 1], edges, i - 1);
      }
    }
  }

  /** For a two-layer wiring a forward pass is closed-form: inputs keep their
      values and every other neuron holds the raw weighted sum of the inputs on
      its incoming edges (no thresholding, so it may be negative). */
  lemma LayeredForward(kinds: seq<Kind>, edges: seq<Edge>, v: seq<real>)
    requires |kinds| == |v| && Wired(|v|, edges) && Layered(kinds, edges)
    ensures forall j :: 0 <= j < |v| ==>
      Forward(kinds, edges, v)[j] == if kinds[j] == Input then v[j] else EdgeSum(v, edges, j)
  {
    var z := Zeroed(kinds, v);
    PassSums(kinds, edges, z, |v|);
    forall j | 0 <= j < |v| ensures Forward(kinds, edges, v)[j] == if kinds[j] == Input then v[j] else EdgeSum(v, edges, j) {
      IncomingSenders(z, v, edges, j, |v|);
      IncomingByEdge(v, edges, j);
      if kinds[j] == Input {
        IncomingNone(z, edges, j, |v|);
      }
    }
  }

  class Brain {
    var names: seq<string>
    var kinds: seq<Kind>
    var edges: seq<Edge>
    var vals: array<real>

    /** Names are unique keys, the tables line up, and edges stay inside. */
    predicate Valid()
      reads this
    {
      |kinds| == |names| && vals.Length == |names| && Distinct(names) && Wired(|names|, edges)
    }

    constructor ()
      ensures Valid() && fresh(vals)
      ensures names == [] && kinds == [] && edges == []
    {
      names, kinds, edges := [], [], [];
      vals := new real[0];
    }

    /** `add`: a new name is appended with value 0 and no edges; an existing name
        is replaced in place by the new neuron, whose value is 0 and which has no
        edges: the old neuron's edges, both ways, no longer reach the table. */
    method Add(name: string, kind: Kind)
      requires Valid()
      modifies this, vals
      ensures Valid()
      ensures name !in old(names) ==>
        && names == old(names) + [name] && kinds == old(kinds) + [kind] && edges == old(edges)
        && fresh(vals) && vals[..] == old(vals[..]) + [0.0]
      ensures name in old(names) ==> var i := IndexOf(old(names), name);
        && names == old(names) && kinds == old(kinds)[i := kind] && edges == Detach(old(edges), i)
        && vals == old(vals) && vals[..] == old(vals[..])[i := 0.0]
    {
      var i := IndexOf(names, name);
      if i < 0 {
        var n := vals.Length;
        var a := new real[n + 1];
        forall k | 0 <= k < n {
          a[k] := vals[k];
        }
        a[n] := 0.0;
        names, kinds, vals := names + [name], kinds + [kind], a;
      } else {
        kinds := kinds[i := kind];
        edges := Detach(edges, i);
        vals[i] := 0.0;
      }
    }

    /** `link`: a weighted link from neuron src to neuron dst, after all earlier ones. */
    method Connect(src: nat, dst: nat, w: real := 1.0)
      requires Valid() && src < |names| && dst < |names|
      modifies this
      ensures Valid() && names == old(names) && kinds == old(kinds) && vals == old(vals)
      ensures edges == old(edges) + [Edge(src, dst, w)]
    {
      edges := edges + [Edge(src, dst, w)];
    }

    /** `set`: write x into the input neuron called `name`, if there is one. */
    method Set(name: string, x: real)
      requires Valid()
      modifies vals
      ensures vals[..] == SetInput(names, kinds, old(vals[..]), name, x)
    {
      var i := IndexOf(names, name);
      if i >= 0 && kinds[i] == Input {
        vals[i] := x;
      }
    }

    /** `run`: one forward pass over the value array, then the output neurons'
        values by name. The activation step calls `fire`, which is the identity,
        so it leaves the array as it is and is not repeated here. */
    method Run() returns (acts: map<string, real>)
      requires Valid()
      modifies vals
      ensures vals[..] == Forward(kinds, edges, old(vals[..]))
      ensures acts == Outputs(names, kinds, vals[..])
    {
      ghost var v0 := vals[..];
      Reset();
      ghost var z := vals[..];
      var i := 0;
      while i < vals.Length
        invariant 0 <= i <= vals.Length
        invariant vals[..] == Pass(z, edges, i)
      {
        Spread(i);
        i := i + 1;
      }
      acts := Outputs(names, kinds, vals[..]);
    }

    /** Step 1 of `run`: every non-input neuron is set back to 0. */
    method Reset()
      requires Valid()
      modifies vals
      ensures vals[..] == Zeroed(kinds, old(vals[..]))
    {
      ghost var v0 := vals[..];
      var i := 0;
      while i < vals.Length
        invariant 0 <= i <= vals.Length
        invariant forall k :: 0 <= k < i ==> vals[k] == Zeroed(kinds, v0)[k]
        invariant forall k :: i <= k < vals.Length ==> vals[k] == v0[k]
      {
        if kinds[i] != Input {
          vals[i] := 0.0;
        }
        i := i + 1;
      }
    }

    /** Neuron i sends its current value along each of its edges, in order. */
    method Spread(i: nat)
      requires Valid() && i < vals.Length
      modifies vals
      ensures vals[..] == Send(old(vals[..]), i, edges)
    {
      ghost var v0 := vals[..];
      var k := 0;
      while k < |edges|
        invariant 0 <= k <= |edges|
        invariant vals[..] == Send(v0, i, edges[..k])
      {
        var e := edges[k];
        ghost var u := vals[..];
        if e.src == i {
          vals[e.dst] := vals[e.dst] + Signal(vals[i], e.weight);
          assert vals[..] == u[e.dst := u[e.dst] + Signal(u[i], e.weight)];
        }
        SendStep(v0, i, edges, k);
        k := k + 1;
      }
      assert edges[..|edges|] == edges;
    }
  }

  // Positions of the neurons of `build_brain`, in the order it adds them.
  const FIRE_LEFT: nat := 0
  const FIRE_RIGHT: nat := 1
  const FIRE_UP: nat := 2
  const FIRE_DOWN: nat := 3
  const FOOD_LEFT: nat := 4
  const FOOD_RIGHT: nat := 5
  const FOOD_UP: nat := 6
  const FOOD_DOWN: nat := 7
  const HUNGER: nat := 8
  const MOVE_LEFT: nat := 9
  const MOVE_RIGHT: nat := 10
  const MOVE_UP: nat := 11
  const MOVE_DOWN: nat := 12

  const BrainNames: seq<string> := [
    "fire_left", "fire_right", "fire_up", "fire_down",
    "food_left", "food_right", "food_up", "food_down",
    "hunger_sensor", "move_left", "move_right", "move_up", "move_down"]

  const BrainKinds: seq<Kind> := [
    Input, Input, Input, Input, Input, Input, Input, Input, Input,
    Output, Output, Output, Output]

  /** The links of `build_brain`, in the order it makes them: fear (-3 toward
      and +2 away from fire), food attraction (+1) and a small hunger bias (+0.2). */
  const BrainEdges: seq<Edge> := [
    Edge(FIRE_LEFT, MOVE_LEFT, -3.0), Edge(FIRE_RIGHT, MOVE_RIGHT, -3.0),
    Edge(FIRE_UP, MOVE_UP, -3.0), Edge(FIRE_DOWN, MOVE_DOWN, -3.0),
    Edge(FIRE_LEFT, MOVE_RIGHT, 2.0), Edge(FIRE_RIGHT, MOVE_LEFT, 2.0),
    Edge(FIRE_UP, MOVE_DOWN, 2.0), Edge(FIRE_DOWN, MOVE_UP, 2.0),
    Edge(FOOD_LEFT, MOVE_LEFT, 1.0), Edge(FOOD_RIGHT, MOVE_RIGHT, 1.0),
    Edge(FOOD_UP, MOVE_UP, 1.0), Edge(FOOD_DOWN, MOVE_DOWN, 1.0),
    Edge(HUNGER, MOVE_LEFT, 0.2), Edge(HUNGER, MOVE_RIGHT, 0.2),
    Edge(HUNGER, MOVE_UP, 0.2), Edge(HUNGER, MOVE_DOWN, 0.2)]

  /** `build_brain`: nine inputs, four outputs, and input-to-output links only. */
  method BuildBrain() returns (b: Brain)
    ensures fresh(b) && fresh(b.vals) && b.Valid()
    ensures b.names == BrainNames && b.kinds == BrainKinds && b.edges == BrainEdges
    ensures forall i :: 0 <= i < b.vals.Length ==> b.vals[i] == 0.0
  {
    b := new Brain();
    var i := 0;
    while i < |BrainNames|
      invariant 0 <= i <= |BrainNames|
      invariant b.Valid() && fresh(b.vals)
      invariant b.names == BrainNames[..i] && b.kinds == BrainKinds[..i] && b.edges == []
      invariant forall k :: 0 <= k < b.vals.Length ==> b.vals[k] == 0.0
    {
      assert BrainNames[i] !in BrainNames[..i];
      b.Add(BrainNames[i], BrainKinds[i]);
      assert BrainNames[..i + 1] == BrainNames[..i] + [BrainNames[i]];
      assert BrainKinds[..i + 1] == BrainKinds[..i] + [BrainKinds[i]];
      i := i + 1;
    }
    Wire(b);
  }

  /** The sixteen `link` calls of `build_brain`, in order. */
  method Wire(b: Brain)
    requires b.Valid() && b.names == BrainNames && b.edges == []
    modifies b
    ensures b.Valid() && b.names == old(b.names) && b.kinds == old(b.kinds) && b.vals == old(b.vals)
    ensures b.edges == BrainEdges
  {
    b.Connect(FIRE_LEFT, MOVE_LEFT, -3.0);
    b.Connect(FIRE_RIGHT, MOVE_RIGHT, -3.0);
    b.Connect(FIRE_UP, MOVE_UP, -3.0);
    b.Connect(FIRE_DOWN, MOVE_DOWN, -3.0);
    b.Connect(FIRE_LEFT, MOVE_RIGHT, 2.0);
    b.Connect(FIRE_RIGHT, MOVE_LEFT, 2.0);
    b.Connect(FIRE_UP, MOVE_DOWN, 2.0);
    b.Connect(FIRE_DOWN, MOVE_UP, 2.0);
    b.Connect(FOOD_LEFT, MOVE_LEFT, 1.0);
    b.Connect(FOOD_RIGHT, MOVE_RIGHT, 1.0);
    b.Connect(FOOD_UP, MOVE_UP, 1.0);
    b.Connect(FOOD_DOWN, MOVE_DOWN, 1.0);
    b.Connect(HUNGER, MOVE_LEFT, 0.2);
    b.Connect(HUNGER, MOVE_RIGHT, 0.2);
    b.Connect(HUNGER, MOVE_UP, 0.2);
    b.Connect(HUNGER, MOVE_DOWN, 0.2);
  }

  /** The wiring of `build_brain` has only input-to-output links. */
  lemma BrainLayered()
    ensures Wired(|BrainKinds|, BrainEdges) && Layered(BrainKinds, BrainEdges)
  {
  }

  /** With the `build_brain` wiring, one forward pass gives each move the raw
      linear sum of the sensors: -3 for fire on that side, +2 for fire on the
      opposite side, +1 for food on that side, +0.2 times the hunger sensor; the
      inputs keep their values. */
  lemma BrainClosedForm(v: seq<real>)
    requires |v| == |BrainNames|
    ensures Wired(|v|, BrainEdges)
    ensures var r := Forward(BrainKinds, BrainEdges, v);
      && r[MOVE_LEFT] == -3.0 * v[FIRE_LEFT] + 2.0 * v[FIRE_RIGHT] + v[FOOD_LEFT] + 0.2 * v[HUNGER]
      && r[MOVE_RIGHT] == -3.0 * v[FIRE_RIGHT] + 2.0 * v[FIRE_LEFT] + v[FOOD_RIGHT] + 0.2 * v[HUNGER]
      && r[MOVE_UP] == -3.0 * v[FIRE_UP] + 2.0 * v[FIRE_DOWN] + v[FOOD_UP] + 0.2 * v[HUNGER]
      && r[MOVE_DOWN] == -3.0 * v[FIRE_DOWN] + 2.0 * v[FIRE_UP] + v[FOOD_DOWN] + 0.2 * v[HUNGER]
      && forall i :: 0 <= i <= HUNGER ==> r[i] == v[i]
  {
    BrainLayered();
    LayeredForward(BrainKinds, BrainEdges, v);
    var p0: seq<Edge> := [];
    var p1 := p0 + [Edge(FIRE_LEFT, MOVE_LEFT, -3.0)];
    var p2 := p1 + [Edge(FIRE_RIGHT, MOVE_RIGHT, -3.0)];
    var p3 := p2 + [Edge(FIRE_UP, MOVE_UP, -3.0)];
    var p4 := p3 + [Edge(FIRE_DOWN, MOVE_DOWN, -3.0)];
    var p5 := p4 + [Edge(FIRE_LEFT, MOVE_RIGHT, 2.0)];
    var p6 := p5 + [Edge(FIRE_RIGHT, MOVE_LEFT, 2.0)];
    var p7 := p6 + [Edge(FIRE_UP, MOVE_DOWN, 2.0)];
    var p8 := p7 + [Edge(FIRE_DOWN, MOVE_UP, 2.0)];
    var p9 := p8 + [Edge(FOOD_LEFT, MOVE_LEFT, 1.0)];
    var p10 := p9 + [Edge(FOOD_RIGHT, MOVE_RIGHT, 1.0)];
    var p11 := p10 + [Edge(FOOD_UP, MOVE_UP, 1.0)];
    var p12 := p11 + [Edge(FOOD_DOWN, MOVE_DOWN, 1.0)];
    var p13 := p12 + [Edge(HUNGER, MOVE_LEFT, 0.2)];
    var p14 := p13 + [Edge(HUNGER, MOVE_RIGHT, 0.2)];
    var p15 := p14 + [Edge(HUNGER, MOVE_UP, 0.2)];
    var p16 := p15 + [Edge(HUNGER, MOVE_DOWN, 0.2)];
    assert p16 == BrainEdges;
    EdgeSumSnoc(v, p15, Edge(HUNGER, MOVE_DOWN, 0.2));
    EdgeSumSnoc(v, p14, Edge(HUNGER, MOVE_UP, 0.2));
    EdgeSumSnoc(v, p13, Edge(HUNGER, MOVE_RIGHT, 0.2));
    EdgeSumSnoc(v, p12, Edge(HUNGER, MOVE_LEFT, 0.2));
    EdgeSumSnoc(v, p11, Edge(FOOD_DOWN, MOVE_DOWN, 1.0));
    EdgeSumSnoc(v, p10, Edge(FOOD_UP, MOVE_UP, 1.0));
    EdgeSumSnoc(v, p9, Edge(FOOD_RIGHT, MOVE_RIGHT, 1.0));
    EdgeSumSnoc(v, p8, Edge(FOOD_LEFT, MOVE_LEFT, 1.0));
    EdgeSumSnoc(v, p7, Edge(FIRE_DOWN, MOVE_UP, 2.0));
    EdgeSumSnoc(v, p6, Edge(FIRE_UP, MOVE_DOWN, 2.0));
    EdgeSumSnoc(v, p5, Edge(FIRE_RIGHT, MOVE_LEFT, 2.0));
    EdgeSumSnoc(v, p4, Edge(FIRE_LEFT, MOVE_RIGHT, 2.0));
    EdgeSumSnoc(v, p3, Edge(FIRE_DOWN, MOVE_DOWN, -3.0));
    EdgeSumSnoc(v, p2, Edge(FIRE_UP, MOVE_UP, -3.0));
    EdgeSumSnoc(v, p1, Edge(FIRE_RIGHT, MOVE_RIGHT, -3.0));
    EdgeSumSnoc(v, p0, Edge(FIRE_LEFT, MOVE_LEFT, -3.0));
    assert EdgeSum(v, p0, MOVE_RIGHT) == 0.0;
    assert EdgeSum(v, p16, MOVE_RIGHT) == -3.0 * v[FIRE_RIGHT] + 2.0 * v[FIRE_LEFT] + v[FOOD_RIGHT] + 0.2 * v[HUNGER];
  }

  /** Appending one edge adds its signal to its target's sum and nothing else. */
  lemma EdgeSumSnoc(v: seq<real>, s: seq<Edge>, e: Edge)
    requires Wired(|v|, s + [e])
    ensures Wired(|v|, s) && e.src < |v| && e.dst < |v|
    ensures forall j :: EdgeSum(v, s + [e], j)
                     == EdgeSum(v, s, j) + (if e.dst == j then Signal(v[e.src], e.weight) else 0.0)
  {
    assert (s + [e])[..|s|] == s && (s + [e])[|s|] == e;
    assert forall i :: 0 <= i < |s| ==> s[i] == (s + [e])[i];
  }
}

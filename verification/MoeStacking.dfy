/** Stacking the per-expert weights of a mixture-of-experts checkpoint (scripts/veomni/moe_merge.py) and unstacking them
    (scripts/veomni/moe_split.py). Parameter names are structured keys. */
module MoeStacking {
  import opened Outcomes

  datatype Proj = Gate | Up | Down

  datatype Key = Expert(layer: nat, index: nat, proj: Proj) | Stack(layer: nat, proj: Proj) | Other(name: string)

  datatype Tensor<W> = Cell(w: W) | Rows(rows: seq<Tensor<W>>)

  type State<W> = map<Key, Tensor<W>>

  datatype MoeError = MissingExpert(key: Key) | NothingToStack | ShapesDiffer | IndexOutOfRange

  function Shape<W>(t: Tensor<W>): seq<nat> {
    match t
    case Cell(_) => []
    case Rows(rows) => [|rows|] + if rows == [] then [] else Shape(rows[0])
  }

  function RowCount<W>(t: Tensor<W>): nat { if t.Rows? then |t.rows| else 0 }

  /** torch.stack. */
  function StackOf<W>(ts: seq<Tensor<W>>): Result<Tensor<W>, MoeError> {
    if ts == [] then Err(NothingToStack)
    else if exists j :: 0 <= j < |ts| && Shape(ts[j]) != Shape(ts[0]) then Err(ShapesDiffer)
    else Ok(Rows(ts))
  }

  // ---------------------------------------------------------------- slots

  /** The loops visit one slot after another: layer by layer, and gate, up, down within a layer. */
  function ProjAt(slot: nat): Proj { if slot % 3 == 0 then Gate else if slot % 3 == 1 then Up else Down }

  function SlotOf(layer: nat, proj: Proj): (slot: nat)
    ensures slot / 3 == layer && ProjAt(slot) == proj
  {
    3 * layer + match proj case Gate => 0 case Up => 1 case Down => 2
  }

  lemma SlotOnly(slot: nat)
    ensures SlotOf(slot / 3, ProjAt(slot)) == slot
  {
  }

  function ExpertKey(slot: nat, j: nat): Key { Expert(slot / 3, j, ProjAt(slot)) }

  function StackKey(slot: nat): Key { Stack(slot / 3, ProjAt(slot)) }

  predicate Within(k: Key, lo: nat, hi: nat) { !k.Other? && lo <= SlotOf(k.layer, k.proj) < hi }

  function At<W>(d: State<W>, k: Key): Option<Tensor<W>> { if k in d then Some(d[k]) else None }

  // ---------------------------------------------------------------- what the two scripts compute

  predicate AllExperts<W>(d: State<W>, slot: nat, experts: nat) {
    forall j :: 0 <= j < experts ==> ExpertKey(slot, j) in d
  }

  function Experts<W>(d: State<W>, slot: nat, experts: nat): seq<Tensor<W>>
    requires AllExperts(d, slot, experts)
  {
    seq(experts, j requires 0 <= j < experts => d[ExpertKey(slot, j)])
  }

  predicate SlotStacks<W>(d: State<W>, slot: nat, experts: nat) {
    AllExperts(d, slot, experts) && StackOf(Experts(d, slot, experts)).Ok?
  }

  predicate Mergeable<W>(d: State<W>, lo: nat, hi: nat, experts: nat) {
    forall slot :: lo <= slot < hi ==> SlotStacks(d, slot, experts)
  }

  /** Slots lo..hi-1 stacked: their expert entries gone, one stacked entry each, every other entry as it was. */
  function MergedAt<W>(d: State<W>, lo: nat, hi: nat, experts: nat, k: Key): Option<Tensor<W>>
    requires Mergeable(d, lo, hi, experts)
  {
    if k.Stack? && Within(k, lo, hi) then
      assert SlotStacks(d, SlotOf(k.layer, k.proj), experts);
      Some(Rows(Experts(d, SlotOf(k.layer, k.proj), experts)))
    else if k.Expert? && Within(k, lo, hi) && k.index < experts then None
    else At(d, k)
  }

  ghost predicate IsMerge<W>(d: State<W>, lo: nat, hi: nat, experts: nat, m: State<W>) {
    Mergeable(d, lo, hi, experts) && forall k :: At(m, k) == MergedAt(d, lo, hi, experts, k)
  }

  predicate SlotSplits<W>(d: State<W>, slot: nat, experts: nat) {
    StackKey(slot) in d ==> experts <= RowCount(d[StackKey(slot)])
  }

  predicate Splittable<W>(d: State<W>, lo: nat, hi: nat, experts: nat) {
    forall slot :: lo <= slot < hi ==> SlotSplits(d, slot, experts)
  }

  /** Slots lo..hi-1 unstacked: their stacked entries gone, the expert entries set from the rows of what was there. */
  function SplitAt<W>(d: State<W>, lo: nat, hi: nat, experts: nat, k: Key): Option<Tensor<W>>
    requires Splittable(d, lo, hi, experts)
  {
    if k.Stack? && Within(k, lo, hi) then None
    else if k.Expert? && Within(k, lo, hi) && k.index < experts && Stack(k.layer, k.proj) in d then
      assert SlotSplits(d, SlotOf(k.layer, k.proj), experts);
      Some(d[Stack(k.layer, k.proj)].rows[k.index])
    else At(d, k)
  }

  ghost predicate IsSplit<W>(d: State<W>, lo: nat, hi: nat, experts: nat, m: State<W>) {
    Splittable(d, lo, hi, experts) && forall k :: At(m, k) == SplitAt(d, lo, hi, experts, k)
  }

  /** A tensor of this shape, every row of the shape that is left. */
  predicate Rect<W>(t: Tensor<W>, shape: seq<nat>)
    decreases t
  {
    match t
    case Cell(_) => shape == []
    case Rows(rows) => shape != [] && |rows| == shape[0] && forall i :: 0 <= i < |rows| ==> Rect(rows[i], shape[1..])
  }

  lemma {:induction false} ShapeOfRect<W>(t: Tensor<W>, shape: seq<nat>)
    requires Rect(t, shape) && 0 !in shape
    ensures Shape(t) == shape
    decreases t
  {
    if t.Rows? { ShapeOfRect(t.rows[0], shape[1..]); }
  }

  /** Tensors can be stacked exactly when there are any and all have one shape. */
  lemma StacksExactly<W>(ts: seq<Tensor<W>>, shapes: seq<seq<nat>>)
    requires |ts| == |shapes| && forall j :: 0 <= j < |ts| ==> Rect(ts[j], shapes[j]) && 0 !in shapes[j]
    ensures StackOf(ts).Ok? <==> ts != [] && forall j :: 0 <= j < |ts| ==> shapes[j] == shapes[0]
  {
    forall j | 0 <= j < |ts| ensures Shape(ts[j]) == shapes[j] { ShapeOfRect(ts[j], shapes[j]); }
  }

  /** What the expert entries of a slot must be: all there, at least one, and of one shape. */
  ghost predicate SlotUniform<W>(d: State<W>, shapes: map<Key, seq<nat>>, slot: nat, experts: nat)
    requires forall k: Key :: k in d ==> k in shapes
  {
    && experts > 0 && Expert(slot / 3, 0, ProjAt(slot)) in d
    && forall j :: 0 <= j < experts ==>
         && Expert(slot / 3, j, ProjAt(slot)) in d
         && shapes[Expert(slot / 3, j, ProjAt(slot))] == shapes[Expert(slot / 3, 0, ProjAt(slot))]
  }

  /** Merging succeeds exactly when that holds of every slot of the layers merged. */
  lemma MergeableExactly<W>(d: State<W>, shapes: map<Key, seq<nat>>, lo: nat, hi: nat, experts: nat)
    requires forall k: Key :: k in d ==> k in shapes && Rect(d[k], shapes[k]) && 0 !in shapes[k]
    ensures Mergeable(d, lo, hi, experts) <==> forall slot: nat :: lo <= slot < hi ==> SlotUniform(d, shapes, slot, experts)
  {
    hide StackOf;
    forall slot: nat ensures SlotStacks(d, slot, experts) <==> SlotUniform(d, shapes, slot, experts) {
      if forall j :: 0 <= j < experts ==> Expert(slot / 3, j, ProjAt(slot)) in d {
        var of := seq(experts, j requires 0 <= j < experts => shapes[Expert(slot / 3, j, ProjAt(slot))]);
        assert AllExperts(d, slot, experts);
        StacksExactly(Experts(d, slot, experts), of);
        assert forall j :: 0 <= j < experts ==> of[j] == shapes[Expert(slot / 3, j, ProjAt(slot))];
      } else {
        var j :| 0 <= j < experts && Expert(slot / 3, j, ProjAt(slot)) !in d;
        assert ExpertKey(slot, j) !in d;
      }
    }
  }

  // ---------------------------------------------------------------- moe_merge.py

  /** One of the three pop-and-stack passes of a layer. */
  method MergeSlot<W>(d: State<W>, slot: nat, experts: nat) returns (r: Result<State<W>, MoeError>)
    ensures r.Ok? <==> SlotStacks(d, slot, experts)
    ensures r.Err? && r.error.MissingExpert? <==> !AllExperts(d, slot, experts)
    ensures r.Ok? ==> IsMerge(d, slot, slot + 1, experts, r.value)
  {
    SlotOnly(slot);
    var state, popped := d, [];
    for j := 0 to experts
      invariant forall i :: 0 <= i < j ==> ExpertKey(slot, i) in d
      invariant |popped| == j && forall i :: 0 <= i < j ==> popped[i] == d[ExpertKey(slot, i)]
      invariant forall k :: At(state, k) == if k.Expert? && Within(k, slot, slot + 1) && k.index < j then None else At(d, k)
    {
      assert At(state, ExpertKey(slot, j)) == At(d, ExpertKey(slot, j));
      if ExpertKey(slot, j) !in state { return Err(MissingExpert(ExpertKey(slot, j))); }
      popped := popped + [state[ExpertKey(slot, j)]];
      state := state - {ExpertKey(slot, j)};
    }
    assert popped == Experts(d, slot, experts);
    var stacked := StackOf(popped);
    if stacked.Err? { return Err(stacked.error); }
    state := state[StackKey(slot) := stacked.value];
    return Ok(state);
  }

  /** Stacking one more slot after earlier ones: the earlier ones do not matter to it. */
  lemma MergeOneMore<W>(d: State<W>, lo: nat, mid: nat, experts: nat, m: State<W>)
    requires lo <= mid && IsMerge(d, lo, mid, experts, m)
    ensures SlotStacks(m, mid, experts) <==> SlotStacks(d, mid, experts)
    ensures SlotStacks(m, mid, experts) ==> Experts(m, mid, experts) == Experts(d, mid, experts)
    ensures AllExperts(m, mid, experts) <==> AllExperts(d, mid, experts)
  {
    hide Mergeable, StackOf;
    SlotOnly(mid);
    forall j | 0 <= j < experts ensures At(m, ExpertKey(mid, j)) == At(d, ExpertKey(mid, j)) {
      assert At(m, ExpertKey(mid, j)) == MergedAt(d, lo, mid, experts, ExpertKey(mid, j));
    }
    assert AllExperts(m, mid, experts) <==> AllExperts(d, mid, experts);
    if AllExperts(d, mid, experts) {
      assert Experts(m, mid, experts) == Experts(d, mid, experts);
    }
  }

  lemma MergeExtends<W>(d: State<W>, lo: nat, mid: nat, experts: nat, m: State<W>, m2: State<W>)
    requires lo <= mid && IsMerge(d, lo, mid, experts, m) && IsMerge(m, mid, mid + 1, experts, m2)
    ensures IsMerge(d, lo, mid + 1, experts, m2)
  {
    hide SlotStacks, StackOf, Experts;
    MergeOneMore(d, lo, mid, experts, m);
    assert SlotStacks(m, mid, experts);
    forall k ensures At(m2, k) == MergedAt(d, lo, mid + 1, experts, k) {
      assert At(m, k) == MergedAt(d, lo, mid, experts, k);
      assert At(m2, k) == MergedAt(m, mid, mid + 1, experts, k);
    }
  }

  /** The nested loops succeed exactly when every slot has all its experts with equal shapes, and give the merged state. */
  method MergeExperts<W>(d: State<W>, firstMoe: nat, layers: nat, experts: nat) returns (r: Result<State<W>, MoeError>)
    ensures r.Ok? <==> Mergeable(d, 3 * firstMoe, 3 * layers, experts)
    ensures r.Ok? ==> IsMerge(d, 3 * firstMoe, 3 * layers, experts, r.value)
  {
    hide Mergeable, SlotStacks, IsMerge;
    var state := d;
    var i := firstMoe;
    MergeNone(d, 3 * firstMoe, 3 * firstMoe, experts);
    while i < layers
      invariant firstMoe <= i && (i <= layers || i == firstMoe)
      invariant i == firstMoe ==> state == d
      invariant IsMerge(d, 3 * firstMoe, 3 * i, experts, state)
    {
      for c: nat := 0 to 3
        invariant IsMerge(d, 3 * firstMoe, 3 * i + c, experts, state)
      {
        MergeOneMore(d, 3 * firstMoe, 3 * i + c, experts, state);
        var one := MergeSlot(state, 3 * i + c, experts);
        if one.Err? {
          NotMergeable(d, 3 * firstMoe, 3 * layers, experts, 3 * i + c);
          return one;
        }
        MergeExtends(d, 3 * firstMoe, 3 * i + c, experts, state, one.value);
        state := one.value;
      }
      i := i + 1;
    }
    if layers < firstMoe { MergeNone(d, 3 * firstMoe, 3 * layers, experts); }
    IsMergeable(d, 3 * firstMoe, 3 * layers, experts, state);
    return Ok(state);
  }

  lemma MergeNone<W>(d: State<W>, lo: nat, hi: nat, experts: nat)
    requires hi <= lo
    ensures IsMerge(d, lo, hi, experts, d)
  {
  }

  lemma NotMergeable<W>(d: State<W>, lo: nat, hi: nat, experts: nat, slot: nat)
    requires lo <= slot < hi && !SlotStacks(d, slot, experts)
    ensures !Mergeable(d, lo, hi, experts)
  {
  }

  lemma IsMergeable<W>(d: State<W>, lo: nat, hi: nat, experts: nat, m: State<W>)
    requires IsMerge(d, lo, hi, experts, m)
    ensures Mergeable(d, lo, hi, experts)
  {
  }

  // ---------------------------------------------------------------- moe_split.py

  method SplitSlot<W>(d: State<W>, slot: nat, experts: nat) returns (r: Result<State<W>, MoeError>)
    ensures r.Ok? <==> SlotSplits(d, slot, experts)
    ensures r.Ok? ==> IsSplit(d, slot, slot + 1, experts, r.value)
  {
    SlotOnly(slot);
    if StackKey(slot) !in d { return Ok(d); }
    var stacked := d[StackKey(slot)];
    var state := d - {StackKey(slot)};
    for j := 0 to experts
      invariant j <= RowCount(stacked)
      invariant forall k :: At(state, k) == if k.Stack? && Within(k, slot, slot + 1) then None
                                            else if k.Expert? && Within(k, slot, slot + 1) && k.index < j
                                            then Some(stacked.rows[k.index]) else At(d, k)
    {
      if j >= RowCount(stacked) { return Err(IndexOutOfRange); }
      state := state[ExpertKey(slot, j) := stacked.rows[j]];
    }
    return Ok(state);
  }

  lemma SplitOneMore<W>(d: State<W>, lo: nat, mid: nat, experts: nat, m: State<W>)
    requires lo <= mid && IsSplit(d, lo, mid, experts, m)
    ensures At(m, StackKey(mid)) == At(d, StackKey(mid))
    ensures SlotSplits(m, mid, experts) <==> SlotSplits(d, mid, experts)
  {
    SlotOnly(mid);
    assert At(m, StackKey(mid)) == SplitAt(d, lo, mid, experts, StackKey(mid));
  }

  lemma SplitExtends<W>(d: State<W>, lo: nat, mid: nat, experts: nat, m: State<W>, m2: State<W>)
    requires lo <= mid && IsSplit(d, lo, mid, experts, m) && IsSplit(m, mid, mid + 1, experts, m2)
    ensures IsSplit(d, lo, mid + 1, experts, m2)
  {
    hide SlotSplits;
    SplitOneMore(d, lo, mid, experts, m);
    assert SlotSplits(m, mid, experts);
    forall k ensures At(m2, k) == SplitAt(d, lo, mid + 1, experts, k) {
      assert At(m, k) == SplitAt(d, lo, mid, experts, k);
      assert At(m2, k) == SplitAt(m, mid, mid + 1, experts, k);
    }
  }

  method SplitExperts<W>(d: State<W>, layers: nat, experts: nat) returns (r: Result<State<W>, MoeError>)
    ensures r.Ok? <==> Splittable(d, 0, 3 * layers, experts)
    ensures r.Ok? ==> IsSplit(d, 0, 3 * layers, experts, r.value)
  {
    hide Splittable, SlotSplits, IsSplit;
    var state := d;
    SplitNone(d, experts);
    for i: nat := 0 to layers
      invariant IsSplit(d, 0, 3 * i, experts, state)
    {
      for c: nat := 0 to 3
        invariant IsSplit(d, 0, 3 * i + c, experts, state)
      {
        SplitOneMore(d, 0, 3 * i + c, experts, state);
        var one := SplitSlot(state, 3 * i + c, experts);
        if one.Err? {
          NotSplittable(d, 3 * layers, experts, 3 * i + c);
          return one;
        }
        SplitExtends(d, 0, 3 * i + c, experts, state, one.value);
        state := one.value;
      }
    }
    IsSplittable(d, 3 * layers, experts, state);
    return Ok(state);
  }

  lemma SplitNone<W>(d: State<W>, experts: nat)
    ensures IsSplit(d, 0, 0, experts, d)
  {
  }

  lemma NotSplittable<W>(d: State<W>, hi: nat, experts: nat, slot: nat)
    requires slot < hi && !SlotSplits(d, slot, experts)
    ensures !Splittable(d, 0, hi, experts)
  {
  }

  lemma IsSplittable<W>(d: State<W>, hi: nat, experts: nat, m: State<W>)
    requires IsSplit(d, 0, hi, experts, m)
    ensures Splittable(d, 0, hi, experts)
  {
  }

  // ---------------------------------------------------------------- round trip

  /** No stacked entry of a layer that unstacking visits was there before. */
  ghost predicate NoStacks<W>(d: State<W>, layers: nat) {
    forall k: Key :: k.Stack? && k in d ==> layers <= k.layer
  }

  /** Unstacking can fail on a merged state only at a stacked entry that the merge did not make. */
  lemma MergedSplits<W>(d: State<W>, firstMoe: nat, layers: nat, experts: nat, m: State<W>)
    requires IsMerge(d, 3 * firstMoe, 3 * layers, experts, m) && NoStacks(d, layers)
    ensures Splittable(m, 0, 3 * layers, experts)
  {
    forall slot: nat | slot < 3 * layers ensures SlotSplits(m, slot, experts) {
      SlotOnly(slot);
      assert At(m, StackKey(slot)) == MergedAt(d, 3 * firstMoe, 3 * layers, experts, StackKey(slot));
      if 3 * firstMoe <= slot { assert SlotStacks(d, slot, experts); }
    }
  }

  /** Merging and then splitting gives back the whole state exactly when it had no stacked entry in the layers split. */
  lemma RoundTrip<W>(d: State<W>, firstMoe: nat, layers: nat, experts: nat, m: State<W>)
    requires IsMerge(d, 3 * firstMoe, 3 * layers, experts, m)
    ensures IsSplit(m, 0, 3 * layers, experts, d) <==> NoStacks(d, layers)
  {
    if NoStacks(d, layers) {
      MergedSplits(d, firstMoe, layers, experts, m);
      forall k ensures At(d, k) == SplitAt(m, 0, 3 * layers, experts, k) {
        RoundTripAt(d, firstMoe, layers, experts, m, k);
      }
    } else {
      var k: Key :| k.Stack? && k in d && k.layer < layers;
      assert At(d, k).Some?;
      if Splittable(m, 0, 3 * layers, experts) { assert SplitAt(m, 0, 3 * layers, experts, k) == None; }
    }
  }

  lemma RoundTripAt<W>(d: State<W>, firstMoe: nat, layers: nat, experts: nat, m: State<W>, k: Key)
    requires IsMerge(d, 3 * firstMoe, 3 * layers, experts, m) && NoStacks(d, layers)
    requires Splittable(m, 0, 3 * layers, experts)
    ensures At(d, k) == SplitAt(m, 0, 3 * layers, experts, k)
  {
    assert At(m, k) == MergedAt(d, 3 * firstMoe, 3 * layers, experts, k);
    if k.Expert? {
      var stack := Stack(k.layer, k.proj);
      assert At(m, stack) == MergedAt(d, 3 * firstMoe, 3 * layers, experts, stack);
      assert k == ExpertKey(SlotOf(k.layer, k.proj), k.index);
      if Within(k, 3 * firstMoe, 3 * layers) { assert SlotStacks(d, SlotOf(k.layer, k.proj), experts); }
    }
  }

  /** A split state is determined by what it was split from, so the two scripts in a row are the identity. */
  lemma SplitUnique<W>(m: State<W>, hi: nat, experts: nat, s: State<W>, t: State<W>)
    requires IsSplit(m, 0, hi, experts, s) && IsSplit(m, 0, hi, experts, t)
    ensures s == t
  {
    forall k ensures At(s, k) == At(t, k) { assert At(s, k) == SplitAt(m, 0, hi, experts, k) == At(t, k); }
    assert forall k :: k in s <==> At(s, k).Some?;
    assert forall k :: k in s ==> s[k] == At(s, k).value == At(t, k).value;
  }

  method MergeThenSplit<W>(d: State<W>, firstMoe: nat, layers: nat, experts: nat) returns (r: Result<State<W>, MoeError>)
    ensures Mergeable(d, 3 * firstMoe, 3 * layers, experts) ==> (r == Ok(d) <==> NoStacks(d, layers))
    ensures !Mergeable(d, 3 * firstMoe, 3 * layers, experts) ==> r.Err?
  {
    var merged := MergeExperts(d, firstMoe, layers, experts);
    if merged.Err? { return merged; }
    RoundTrip(d, firstMoe, layers, experts, merged.value);
    r := SplitExperts(merged.value, layers, experts);
    if NoStacks(d, layers) { SplitUnique(merged.value, 3 * layers, experts, r.value, d); }
  }
}

/**
 * The already-tokenised XML document the decoder reads and the encoder
 * writes, and the field-level rules every record type shares: how a field is
 * found among an element's children, what each cardinality admits, and in
 * which order the encoder lays fields out.
 */
module ElementTree {
  import opened Wrappers
  import opened Errors

  /** One element: its tag, its text content and its child elements in document order. */
  datatype Node = Node(name: string, text: string, children: seq<Node>)

  function Leaf(name: string, text: string): (n: Node)
  {
    Node(name, text, [])
  }

  function Element(name: string, children: seq<Node>): (n: Node)
  {
    Node(name, "", children)
  }

  // ---------------------------------------------------------------------------
  // Finding a field among the children
  // ---------------------------------------------------------------------------

  /** The children whose tag is `f`, in document order; every other child is ignored. */
  function Named(cs: seq<Node>, f: string): (r: seq<Node>)
    ensures |r| <= |cs|
    ensures forall k :: 0 <= k < |r| ==> r[k].name == f
  {
    if cs == [] then [] else (if cs[0].name == f then [cs[0]] else []) + Named(cs[1..], f)
  }

  lemma {:induction false} NamedAppend(a: seq<Node>, b: seq<Node>, f: string)
    ensures Named(a + b, f) == Named(a, f) + Named(b, f)
  {
    if a == [] {
      assert a + b == b;
    } else {
      assert (a + b)[1..] == a[1..] + b;
      NamedAppend(a[1..], b, f);
    }
  }

  lemma {:induction false} NamedAllMatch(cs: seq<Node>, f: string)
    requires forall k :: 0 <= k < |cs| ==> cs[k].name == f
    ensures Named(cs, f) == cs
  {
    if cs != [] {
      NamedAllMatch(cs[1..], f);
    }
  }

  lemma {:induction false} NamedNoneMatch(cs: seq<Node>, f: string)
    requires forall k :: 0 <= k < |cs| ==> cs[k].name != f
    ensures Named(cs, f) == []
  {
    if cs != [] {
      NamedNoneMatch(cs[1..], f);
    }
  }

  /** A child whose tag no sibling shares is all that its field finds. */
  lemma {:induction false} NamedSingle(cs: seq<Node>, k: nat)
    requires k < |cs|
    requires forall j :: 0 <= j < |cs| && j != k ==> cs[j].name != cs[k].name
    ensures Named(cs, cs[k].name) == [cs[k]]
  {
    var f, pre, post := cs[k].name, cs[..k], cs[k+1..];
    assert cs == pre + [cs[k]] + post;
    assert forall j :: 0 <= j < |pre| ==> pre[j] == cs[j];
    assert forall j :: 0 <= j < |post| ==> post[j] == cs[k + 1 + j];
    NamedNoneMatch(pre, f);
    NamedNoneMatch(post, f);
    NamedAllMatch([cs[k]], f);
    NamedAppend(pre + [cs[k]], post, f);
    NamedAppend(pre, [cs[k]], f);
  }

  /** Inserting a sibling with another tag does not change what a field finds. */
  lemma NamedSkipsOther(cs: seq<Node>, u: Node, ds: seq<Node>, f: string)
    requires u.name != f
    ensures Named(cs + [u] + ds, f) == Named(cs + ds, f)
  {
    NamedAppend(cs + [u], ds, f);
    NamedAppend(cs, [u], f);
    NamedAppend(cs, ds, f);
    assert [u][1..] == [];
  }

  /** Swapping two adjacent siblings with different tags does not change what any field finds. */
  lemma NamedIgnoresSwap(cs: seq<Node>, a: Node, b: Node, ds: seq<Node>, f: string)
    requires a.name != b.name
    ensures Named(cs + [a, b] + ds, f) == Named(cs + [b, a] + ds, f)
  {
    NamedAppend(cs + [a, b], ds, f);
    NamedAppend(cs, [a, b], f);
    NamedAppend(cs + [b, a], ds, f);
    NamedAppend(cs, [b, a], f);
    assert [a, b][1..] == [b] && [b][1..] == [];
    assert [b, a][1..] == [a] && [a][1..] == [];
  }

  // ---------------------------------------------------------------------------
  // Cardinalities, as the Rust field types give them
  // ---------------------------------------------------------------------------

  /** `T`, `Option<T>`, `Vec<T>` and `Option<Vec<T>>`. */
  datatype Cardinality = Required | Optional | Repeated | OptionalRepeated

  datatype FieldSpec = FieldSpec(name: string, card: Cardinality)

  /** How many occurrences of a field each cardinality admits. */
  predicate Admits(card: Cardinality, count: nat)
  {
    match card
    case Required => count == 1
    case Optional => count <= 1
    case Repeated => count >= 1
    case OptionalRepeated => true
  }

  /** The children hold every field of the table as often as its cardinality admits. */
  predicate Conforms(cs: seq<Node>, fields: seq<FieldSpec>)
  {
    forall i :: 0 <= i < |fields| ==> Admits(fields[i].card, |Named(cs, fields[i].name)|)
  }

  /** `Conforms` for a table of at most six fields, checked field by field. */
  lemma ConformsFieldByField(cs: seq<Node>, fields: seq<FieldSpec>)
    requires |fields| <= 6
    requires 0 < |fields| ==> Admits(fields[0].card, |Named(cs, fields[0].name)|)
    requires 1 < |fields| ==> Admits(fields[1].card, |Named(cs, fields[1].name)|)
    requires 2 < |fields| ==> Admits(fields[2].card, |Named(cs, fields[2].name)|)
    requires 3 < |fields| ==> Admits(fields[3].card, |Named(cs, fields[3].name)|)
    requires 4 < |fields| ==> Admits(fields[4].card, |Named(cs, fields[4].name)|)
    requires 5 < |fields| ==> Admits(fields[5].card, |Named(cs, fields[5].name)|)
    ensures Conforms(cs, fields)
  {
  }

  predicate DistinctNames(fields: seq<FieldSpec>)
  {
    forall i, j :: 0 <= i < j < |fields| ==> fields[i].name != fields[j].name
  }

  /** Two child lists that agree on every field of the table. */
  predicate SameFields(cs1: seq<Node>, cs2: seq<Node>, fields: seq<FieldSpec>)
  {
    forall i :: 0 <= i < |fields| ==> Named(cs1, fields[i].name) == Named(cs2, fields[i].name)
  }

  lemma SameFieldAt(cs1: seq<Node>, cs2: seq<Node>, fields: seq<FieldSpec>, k: nat)
    requires SameFields(cs1, cs2, fields) && k < |fields|
    ensures Named(cs1, fields[k].name) == Named(cs2, fields[k].name)
  {
  }

  /** An element that is not a field of the record can be added anywhere without changing any field. */
  lemma UnknownSiblingKeepsFields(cs: seq<Node>, u: Node, ds: seq<Node>, fields: seq<FieldSpec>)
    requires forall i :: 0 <= i < |fields| ==> fields[i].name != u.name
    ensures SameFields(cs + [u] + ds, cs + ds, fields)
  {
    forall i | 0 <= i < |fields|
      ensures Named(cs + [u] + ds, fields[i].name) == Named(cs + ds, fields[i].name)
    {
      NamedSkipsOther(cs, u, ds, fields[i].name);
    }
  }

  /** Adjacent elements of two different fields can be written in either order. */
  lemma SwapKeepsFields(cs: seq<Node>, a: Node, b: Node, ds: seq<Node>, fields: seq<FieldSpec>)
    requires a.name != b.name
    ensures SameFields(cs + [a, b] + ds, cs + [b, a] + ds, fields)
  {
    forall i | 0 <= i < |fields|
      ensures Named(cs + [a, b] + ds, fields[i].name) == Named(cs + [b, a] + ds, fields[i].name)
    {
      NamedIgnoresSwap(cs, a, b, ds, fields[i].name);
    }
  }

  // ---------------------------------------------------------------------------
  // Reading a field of each cardinality
  // ---------------------------------------------------------------------------

  /** A required singular field: absent is `MissingField`, more than once is `DuplicateField`. */
  function RequiredChild(cs: seq<Node>, f: string): (r: Decoded<Node>)
    ensures r.Ok? <==> |Named(cs, f)| == 1
    ensures r.Ok? ==> r.value == Named(cs, f)[0]
    ensures Named(cs, f) == [] ==> r == Err(MissingField(f))
    ensures |Named(cs, f)| > 1 ==> r == Err(DuplicateField(f))
  {
    var found := Named(cs, f);
    if |found| == 0 then Err(MissingField(f))
    else if |found| > 1 then Err(DuplicateField(f))
    else Ok(found[0])
  }

  /** An optional singular field: absent is `None`, more than once is `DuplicateField`. */
  function OptionalChild(cs: seq<Node>, f: string): (r: Decoded<Option<Node>>)
    ensures r.Ok? <==> |Named(cs, f)| <= 1
    ensures r.Ok? ==> (r.value.None? <==> Named(cs, f) == [])
    ensures r.Ok? && r.value.Some? ==> r.value.value == Named(cs, f)[0]
    ensures |Named(cs, f)| > 1 ==> r == Err(DuplicateField(f))
  {
    var found := Named(cs, f);
    if |found| == 0 then Ok(None)
    else if |found| > 1 then Err(DuplicateField(f))
    else Ok(Some(found[0]))
  }

  /** A `Vec` field: every occurrence in document order; none at all is a missing field. */
  function RepeatedChildren(cs: seq<Node>, f: string): (r: Decoded<seq<Node>>)
    ensures r.Ok? <==> Named(cs, f) != []
    ensures r.Ok? ==> r.value == Named(cs, f)
    ensures Named(cs, f) == [] ==> r == Err(MissingField(f))
  {
    var found := Named(cs, f);
    if found == [] then Err(MissingField(f)) else Ok(found)
  }

  /** An `Option<Vec>` field: `None` when absent, otherwise every occurrence in document order. */
  function OptionalChildren(cs: seq<Node>, f: string): (r: Option<seq<Node>>)
    ensures r.None? <==> Named(cs, f) == []
    ensures r.Some? ==> r.value == Named(cs, f)
  {
    var found := Named(cs, f);
    if found == [] then None else Some(found)
  }

  /** Decodes each element in order, failing with the first element that fails. */
  function DecodeEach<T>(ns: seq<Node>, decode: Node -> Decoded<T>): (r: Decoded<seq<T>>)
    ensures r.Ok? <==> forall i :: 0 <= i < |ns| ==> decode(ns[i]).Ok?
    ensures r.Ok? ==> |r.value| == |ns| && forall i :: 0 <= i < |ns| ==> decode(ns[i]) == Ok(r.value[i])
  {
    if ns == [] then Ok([])
    else
      var head :- decode(ns[0]);
      var tail :- DecodeEach(ns[1..], decode);
      Ok([head] + tail)
  }

  /** One element per list item, in list order. */
  function EncodeEach<T>(xs: seq<T>, encode: T -> Node): (ns: seq<Node>)
    ensures |ns| == |xs| && forall i :: 0 <= i < |xs| ==> ns[i] == encode(xs[i])
  {
    seq(|xs|, i requires 0 <= i < |xs| => encode(xs[i]))
  }

  /** Decoding each of a list of encodings gives the list back when each item round-trips. */
  lemma {:induction false} DecodeEachInverse<T>(xs: seq<T>, encode: T -> Node, decode: Node -> Decoded<T>)
    requires forall i :: 0 <= i < |xs| ==> decode(encode(xs[i])) == Ok(xs[i])
    ensures DecodeEach(EncodeEach(xs, encode), decode) == Ok(xs)
  {
    var ns := EncodeEach(xs, encode);
    if xs != [] {
      assert ns[1..] == EncodeEach(xs[1..], encode);
      DecodeEachInverse(xs[1..], encode, decode);
      assert xs == [xs[0]] + xs[1..];
    }
  }

  // ---------------------------------------------------------------------------
  // Laying fields out in declaration order
  // ---------------------------------------------------------------------------

  /** The index of the first field named `f`, or `|fields|` when there is none. */
  function Position(fields: seq<FieldSpec>, f: string): (p: nat)
    ensures p <= |fields|
    ensures p < |fields| ==> fields[p].name == f
    ensures forall i :: 0 <= i < p ==> fields[i].name != f
  {
    if fields == [] then 0
    else if fields[0].name == f then 0
    else 1 + Position(fields[1..], f)
  }

  /** Every child is a field of the table, and fields appear in the order the table declares them. */
  predicate InDeclarationOrder(cs: seq<Node>, fields: seq<FieldSpec>)
  {
    && (forall k :: 0 <= k < |cs| ==> Position(fields, cs[k].name) < |fields|)
    && (forall i, j :: 0 <= i < j < |cs| ==> Position(fields, cs[i].name) <= Position(fields, cs[j].name))
  }

  /** One chunk of elements per field, each chunk holding only elements of its field. */
  predicate Layout(chunks: seq<seq<Node>>, fields: seq<FieldSpec>)
  {
    && |chunks| == |fields|
    && forall k, j :: 0 <= k < |chunks| && 0 <= j < |chunks[k]| ==> chunks[k][j].name == fields[k].name
  }

  function Flatten(chunks: seq<seq<Node>>): seq<Node>
  {
    if chunks == [] then [] else chunks[0] + Flatten(chunks[1..])
  }

  lemma {:induction false} NamedFlattenAbsent(chunks: seq<seq<Node>>, fields: seq<FieldSpec>, f: string)
    requires Layout(chunks, fields)
    requires forall i :: 0 <= i < |fields| ==> fields[i].name != f
    ensures Named(Flatten(chunks), f) == []
  {
    if chunks != [] {
      NamedAppend(chunks[0], Flatten(chunks[1..]), f);
      NamedNoneMatch(chunks[0], f);
      NamedFlattenAbsent(chunks[1..], fields[1..], f);
    }
  }

  /** In a laid-out element list, a field finds exactly its own chunk. */
  lemma {:induction false} NamedFlatten(chunks: seq<seq<Node>>, fields: seq<FieldSpec>, k: nat)
    requires Layout(chunks, fields) && DistinctNames(fields) && k < |fields|
    ensures Named(Flatten(chunks), fields[k].name) == chunks[k]
  {
    var f := fields[k].name;
    NamedAppend(chunks[0], Flatten(chunks[1..]), f);
    if k == 0 {
      NamedAllMatch(chunks[0], f);
      NamedFlattenAbsent(chunks[1..], fields[1..], f);
    } else {
      NamedNoneMatch(chunks[0], f);
      NamedFlatten(chunks[1..], fields[1..], k - 1);
    }
  }

  lemma NamedFlattenEach(chunks: seq<seq<Node>>, fields: seq<FieldSpec>)
    requires Layout(chunks, fields) && DistinctNames(fields)
    ensures forall k :: 0 <= k < |fields| ==> Named(Flatten(chunks), fields[k].name) == chunks[k]
  {
    forall k | 0 <= k < |fields|
      ensures Named(Flatten(chunks), fields[k].name) == chunks[k]
    {
      NamedFlatten(chunks, fields, k);
    }
  }

  /** A laid-out element list conforms to the table when each chunk's size is admitted. */
  lemma LayoutConforms(chunks: seq<seq<Node>>, fields: seq<FieldSpec>)
    requires Layout(chunks, fields) && DistinctNames(fields)
    ensures Conforms(Flatten(chunks), fields) <==> forall k :: 0 <= k < |fields| ==> Admits(fields[k].card, |chunks[k]|)
  {
    NamedFlattenEach(chunks, fields);
  }

  /** `LayoutConforms` for a table of at most six fields, spelled out chunk by chunk. */
  lemma LayoutConformsChunkByChunk(chunks: seq<seq<Node>>, fields: seq<FieldSpec>)
    requires Layout(chunks, fields) && DistinctNames(fields) && |fields| <= 6
    ensures Conforms(Flatten(chunks), fields) <==>
      && (0 < |fields| ==> Admits(fields[0].card, |chunks[0]|))
      && (1 < |fields| ==> Admits(fields[1].card, |chunks[1]|))
      && (2 < |fields| ==> Admits(fields[2].card, |chunks[2]|))
      && (3 < |fields| ==> Admits(fields[3].card, |chunks[3]|))
      && (4 < |fields| ==> Admits(fields[4].card, |chunks[4]|))
      && (5 < |fields| ==> Admits(fields[5].card, |chunks[5]|))
  {
    LayoutConforms(chunks, fields);
    forall k | 0 <= k < |fields| && (k < 6 ==> Admits(fields[k].card, |chunks[k]|))
      ensures Admits(fields[k].card, |chunks[k]|)
    {
    }
  }

  /** A laid-out element list is in declaration order. */
  lemma {:induction false} FlattenOrdered(chunks: seq<seq<Node>>, fields: seq<FieldSpec>)
    requires Layout(chunks, fields) && DistinctNames(fields)
    ensures InDeclarationOrder(Flatten(chunks), fields)
  {
    if chunks != [] {
      var head, rest := chunks[0], Flatten(chunks[1..]);
      var tail := fields[1..];
      FlattenOrdered(chunks[1..], tail);
      var cs := head + rest;
      assert Flatten(chunks) == cs;
      forall k | 0 <= k < |rest|
        ensures Position(fields, rest[k].name) == 1 + Position(tail, rest[k].name) < |fields|
      {
        var p := Position(tail, rest[k].name);
        assert tail[p].name == rest[k].name;
        assert fields[p + 1].name != fields[0].name;
      }
      forall k | 0 <= k < |cs|
        ensures Position(fields, cs[k].name) == if k < |head| then 0 else 1 + Position(tail, rest[k - |head|].name)
      {
        if k >= |head| {
          assert cs[k] == rest[k - |head|];
        }
      }
    }
  }
}

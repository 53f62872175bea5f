/**
 * Ordered key/value documents: the PHP arrays that the builders hand to
 * json_encode. A document object is a sequence of entries whose keys are
 * either names or the integer indices that array_merge renumbers.
 */
module Documents {
  import opened Wrappers

  datatype Key = Name(name: string) | Index(index: nat)

  datatype Json =
    | Str(s: string)
    | Bool(b: bool)
    | Arr(items: seq<Json>)
    | Obj(entries: seq<(Key, Json)>)

  type Entries = seq<(Key, Json)>

  /** The keys of a document object, in order. */
  function Keys(entries: Entries): seq<Key> {
    seq(|entries|, i requires 0 <= i < |entries| => entries[i].0)
  }

  /** Name keys for a sequence of keys, each written as its wire name. */
  function Named<T>(ks: seq<T>, wire: T -> string): seq<Key> {
    seq(|ks|, i requires 0 <= i < |ks| => Name(wire(ks[i])))
  }

  /** The keys 0, 1, ..., n - 1 that array_merge gives to a list it appends. */
  function IndexKeys(n: nat): seq<Key> {
    seq(n, i requires 0 <= i < n => Index(i))
  }

  /** The elements of `order` that belong to `present`, in the order of `order`. */
  function Select<T(==)>(order: seq<T>, present: set<T>): seq<T>
  {
    if order == [] then []
    else (if order[0] in present then [order[0]] else []) + Select(order[1..], present)
  }

  /** An entry `name => value` when the value is not null, nothing otherwise. */
  function Optional(name: string, value: Option<string>): Entries {
    if value.Some? then [(Name(name), Str(value.value))] else []
  }

  lemma KeysAppend(a: Entries, b: Entries)
    ensures Keys(a + b) == Keys(a) + Keys(b)
  {
    assert forall i :: 0 <= i < |a + b| ==> Keys(a + b)[i] == (Keys(a) + Keys(b))[i];
  }

  lemma NamedAppend<T>(a: seq<T>, b: seq<T>, wire: T -> string)
    ensures Named(a + b, wire) == Named(a, wire) + Named(b, wire)
  {
    assert forall i :: 0 <= i < |a + b| ==>
      Named(a + b, wire)[i] == (Named(a, wire) + Named(b, wire))[i];
  }

  /** An element is selected iff it is in the order and present. */
  lemma {:induction false} SelectMember<T>(order: seq<T>, present: set<T>, x: T)
    ensures x in Select(order, present) <==> x in order && x in present
  {
    if order != [] {
      SelectMember(order[1..], present, x);
      assert order == [order[0]] + order[1..];
    }
  }

  lemma SelectCons<T>(x: T, rest: seq<T>, present: set<T>)
    ensures Select([x] + rest, present) == (if x in present then [x] else []) + Select(rest, present)
  {
    assert ([x] + rest)[1..] == rest;
  }

  /** array_merge of several arrays with string keys: their entries one after another. */
  function MergeAll(pieces: seq<Entries>): Entries {
    if pieces == [] then [] else pieces[0] + MergeAll(pieces[1..])
  }

  /**
   * If the i-th piece holds exactly key order[i] when that key is present,
   * the merge holds exactly the present keys, in the order of `order`.
   */
  lemma {:induction false} MergeAllKeys<T>(pieces: seq<Entries>, order: seq<T>, present: set<T>, wire: T -> string)
    requires |pieces| == |order|
    requires forall i :: 0 <= i < |pieces| ==>
      Keys(pieces[i]) == if order[i] in present then [Name(wire(order[i]))] else []
    ensures Keys(MergeAll(pieces)) == Named(Select(order, present), wire)
  {
    if pieces != [] {
      MergeAllKeys(pieces[1..], order[1..], present, wire);
      KeysAppend(pieces[0], MergeAll(pieces[1..]));
      SelectCons(order[0], order[1..], present);
      assert order == [order[0]] + order[1..];
      var first := if order[0] in present then [order[0]] else [];
      NamedAppend(first, Select(order[1..], present), wire);
    }
  }

  /** Every entry of a merged array ends up in the merge. */
  lemma {:induction false} MergeAllMember(pieces: seq<Entries>, i: nat, e: (Key, Json))
    requires i < |pieces| && e in pieces[i]
    ensures e in MergeAll(pieces)
  {
    if i > 0 {
      MergeAllMember(pieces[1..], i - 1, e);
    }
  }

  /** Merging arrays that are all empty but the last gives the last. */
  lemma {:induction false} MergeAllOnlyLast(pieces: seq<Entries>)
    requires |pieces| > 0
    requires forall i :: 0 <= i < |pieces| - 1 ==> pieces[i] == []
    ensures MergeAll(pieces) == pieces[|pieces| - 1]
  {
    if |pieces| > 1 {
      MergeAllOnlyLast(pieces[1..]);
      assert pieces[0] == [];
    } else {
      assert MergeAll(pieces[1..]) == [];
    }
  }

  /**
   * With distinct wire names, a key's name occurs among the selected names
   * exactly when the key was selected.
   */
  lemma NamedSelected<T>(order: seq<T>, present: set<T>, wire: T -> string, k: T)
    requires k in order
    requires forall x, y :: wire(x) == wire(y) ==> x == y
    ensures Name(wire(k)) in Named(Select(order, present), wire) <==> k in present
  {
    var sel := Select(order, present);
    var named := Named(sel, wire);
    SelectMember(order, present, k);
    if Name(wire(k)) in named {
      var i :| 0 <= i < |named| && named[i] == Name(wire(k));
      assert wire(sel[i]) == wire(k);
    }
    if k in present {
      var i :| 0 <= i < |sel| && sel[i] == k;
      assert named[i] == Name(wire(k));
    }
  }

  /** The last array's entries close the merge. */
  lemma {:induction false} MergeAllLast(pieces: seq<Entries>)
    requires |pieces| > 0 && |pieces[|pieces| - 1]| > 0
    ensures |MergeAll(pieces)| >= |pieces[|pieces| - 1]|
    ensures MergeAll(pieces)[|MergeAll(pieces)| - 1] == pieces[|pieces| - 1][|pieces[|pieces| - 1]| - 1]
  {
    if |pieces| > 1 {
      MergeAllLast(pieces[1..]);
    } else {
      assert MergeAll(pieces[1..]) == [];
    }
  }

}

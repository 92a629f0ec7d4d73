/** Go's shared storage: a cell is what a map, a pointer or a slice's backing array
    refers to, and a slice is a window on one. Appending within the capacity writes
    into the array every other window on it shares. */
module GoHeap {
  import opened Contract

  /** One heap object. `kind` and `key` say whose storage it is, so that storage of
      different owners is different storage. */
  class Cell<T> {
    ghost const kind: int
    ghost const key: Text
    var v: T

    constructor (ghost kind: int, ghost key: Text, v: T)
      ensures this.kind == kind && this.key == key && this.v == v
    {
      this.kind, this.key, this.v := kind, key, v;
    }
  }

  /** s[:len:cap] over a backing array; Nil has none. */
  datatype Slice<!T> = Nil | Slice(back: Cell<seq<T>>, len: nat, cap: nat)

  ghost function Backing<T>(s: Slice<T>): set<object> {
    if s.Nil? then {} else {s.back as object}
  }

  ghost predicate SliceOk<T>(s: Slice<T>)
    reads Backing(s)
  {
    s.Slice? ==> s.len <= s.cap <= |s.back.v|
  }

  ghost predicate SliceIs<T>(s: Slice<T>, kind: int, key: Text) {
    s.Slice? ==> s.back.kind == kind && s.back.key == key
  }

  function View<T>(s: Slice<T>): seq<T>
    requires SliceOk(s)
    reads Backing(s)
  {
    if s.Nil? then [] else s.back.v[..s.len]
  }

  /** s[k]. */
  method At<T>(s: Slice<T>, k: nat) returns (x: T)
    requires SliceOk(s) && k < |View(s)|
    ensures x == View(s)[k]
  {
    x := s.back.v[k];
  }

  /** s[:len:len]: the same elements, and no spare capacity to append into. */
  function Capped<T>(s: Slice<T>): Slice<T> {
    if s.Nil? then s else s.(cap := s.len)
  }

  predicate HasSpare<T>(s: Slice<T>) { s.Slice? && s.len < s.cap }

  /** Go's append of one element: into the backing array while there is capacity,
      else into a new array with some spare of its own. */
  method Append<T>(s: Slice<T>, x: T, ghost kind: int, ghost key: Text) returns (r: Slice<T>)
    requires SliceOk(s) && SliceIs(s, kind, key)
    modifies if HasSpare(s) then Backing(s) else {}
    ensures r.Slice? && SliceOk(r) && SliceIs(r, kind, key)
    ensures View(r) == old(View(s)) + [x]
    ensures HasSpare(s) ==> r.back == s.back && r.cap == s.cap && |r.back.v| == old(|s.back.v|)
    ensures !HasSpare(s) ==> fresh(r.back)
    // nobody's elements move: only the first spare place of the array is written
    ensures HasSpare(s) ==> forall k :: 0 <= k < |s.back.v| && k != s.len ==> s.back.v[k] == old(s.back.v[k])
  {
    if s.Slice? && s.len < s.cap {
      s.back.v := s.back.v[s.len := x];
      r := Slice(s.back, s.len + 1, s.cap);
    } else {
      var spare: nat :| spare >= 0;
      var had := if s.Nil? then [] else s.back.v[..s.len];
      var back := new Cell(kind, key, had + [x] + seq(spare, _ => x));
      r := Slice(back, |had| + 1, |had| + 1 + spare);
    }
  }

  /** append([]T(nil), s...): the elements in an array of their own. */
  method CopySlice<T>(s: Slice<T>, ghost kind: int, ghost key: Text) returns (r: Slice<T>)
    requires SliceOk(s)
    ensures SliceOk(r) && SliceIs(r, kind, key) && View(r) == View(s)
    ensures r.Slice? ==> fresh(r.back)
  {
    if s.Nil? || s.len == 0 {
      r := Nil;
    } else {
      var back := new Cell(kind, key, s.back.v[..s.len]);
      r := Slice(back, s.len, s.len);
    }
  }

  /** The entries of a map in a map of their own, entry by entry. */
  method CopyMap<V>(m: map<Text, V>) returns (r: map<Text, V>)
    ensures r == m
  {
    r := map[];
    var todo := m.Keys;
    while todo != {}
      invariant todo <= m.Keys && r.Keys == m.Keys - todo
      invariant forall k :: k in r ==> r[k] == m[k]
      decreases todo
    {
      var k :| k in todo;
      r := r[k := m[k]];
      todo := todo - {k};
    }
  }
}

// Types shared by every component of the ControlHub model.
module Common {
  datatype Option<+T> = None | Some(value: T)

  datatype Result<+T, +E> = Ok(value: T) | Err(error: E)

  // Identifiers are opaque 128-bit values; only equality, the nil id and freshness matter.
  datatype Uuid = Uuid(bits: int)

  const NIL: Uuid := Uuid(0)

  // Instants and durations, in nanoseconds.
  type Time = int

  const SECOND: Time := 1_000_000_000

  type Byte = b: int | 0 <= b < 256

  // The two implementations of the store.
  datatype StoreKind = InMemory | InPostgres

  // Elements of a sequence that satisfy `keep`, in order.
  function Filter<T>(s: seq<T>, keep: T -> bool): (r: seq<T>)
    ensures |r| <= |s|
    ensures forall x :: x in r ==> x in s && keep(x)
  {
    if s == [] then []
    else if keep(s[0]) then [s[0]] + Filter(s[1..], keep)
    else Filter(s[1..], keep)
  }

  lemma {:induction false} FilterAppend<T>(s: seq<T>, t: seq<T>, keep: T -> bool)
    ensures Filter(s + t, keep) == Filter(s, keep) + Filter(t, keep)
  {
    if s == [] {
      assert s + t == t;
    } else {
      assert (s + t)[1..] == s[1..] + t;
      FilterAppend(s[1..], t, keep);
    }
  }

  lemma Assoc<T>(x: seq<T>, y: seq<T>, z: seq<T>)
    ensures x + y + z == x + (y + z)
  {
  }

  lemma SplitConcat<T>(x: seq<T>, y: seq<T>, k: nat)
    requires k <= |x|
    ensures x[..k] + (x[k..] + y) == x + y
  {
  }

  lemma DropConcat<T>(x: seq<T>, y: seq<T>, k: nat)
    requires k <= |x|
    ensures (x + y)[k..] == x[k..] + y
  {
  }

  // A set that some function sends injectively into another is no larger than it.
  lemma {:induction false} InjectionBound<A, B>(xs: set<A>, ys: set<B>, f: A --> B)
    requires forall x :: x in xs ==> f.requires(x) && f(x) in ys
    requires forall x, x' :: x in xs && x' in xs && f(x) == f(x') ==> x == x'
    ensures |xs| <= |ys|
  {
    if xs != {} {
      var x :| x in xs;
      InjectionBound(xs - {x}, ys - {f(x)}, f);
    }
  }

  lemma {:induction false} SubsetBound<A>(xs: set<A>, ys: set<A>)
    requires xs <= ys
    ensures |xs| <= |ys|
  {
    if xs != {} {
      var x :| x in xs;
      SubsetBound(xs - {x}, ys - {x});
    }
  }
}

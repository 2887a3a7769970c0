/** Go slices: a window on a shared array. Appending writes into the array while there is room, and copies after that. */
module GoSlices {

  datatype Slice<T> = Nil | Over(arr: array<T>, len: nat) {

    predicate Valid() {
      Over? ==> len <= arr.Length
    }

    predicate HasRoom() {
      Over? && len < arr.Length
    }

    ghost function Contents(): seq<T>
      requires Valid()
      reads if Over? then {arr} else {}
    {
      if Over? then arr[..len] else []
    }

    /** The array that an append to this slice writes into, if it does. */
    ghost function Clobbered(): set<object> {
      if HasRoom() then {arr} else {}
    }
  }

  /** append(s, x): in place when there is room, otherwise into a new array of any larger size. */
  method Append<T>(s: Slice<T>, x: T) returns (r: Slice<T>)
    requires s.Valid()
    modifies s.Clobbered()
    ensures r.Valid() && r.Over? && r.Contents() == old(s.Contents()) + [x] && s.Contents() == old(s.Contents())
    ensures if s.HasRoom() then r.arr == s.arr && s.arr[..] == old(s.arr[..])[s.len := x] else fresh(r.arr)
  {
    if s.HasRoom() {
      s.arr[s.len] := x;
      r := Over(s.arr, s.len + 1);
      return;
    }
    var n := if s.Over? then s.len else 0;
    var capacity: nat :| capacity > n;
    var bigger := new T[capacity](i => x);
    for i := 0 to n
      invariant s.Over? ==> s.len == n
      invariant fresh(bigger) && bigger[..i] == old(s.Contents())[..i]
      invariant forall j :: n <= j < capacity ==> bigger[j] == x
    {
      bigger[i] := s.arr[i];
    }
    r := Over(bigger, n + 1);
    assert bigger[..n + 1] == bigger[..n] + [x];
  }

  /** append([]T(nil), s...): a copy that shares nothing with the original. */
  method Copy<T>(s: Slice<T>) returns (r: Slice<T>)
    requires s.Valid()
    ensures r.Valid() && r.Contents() == s.Contents()
    ensures r.Over? ==> fresh(r.arr)
  {
    r := Nil;
    if s.Over? {
      for i := 0 to s.len
        invariant r.Valid() && r.Contents() == s.arr[..i]
        invariant r.Over? ==> fresh(r.arr)
      {
        r := Append(r, s.arr[i]);
        assert s.arr[..i + 1] == s.arr[..i] + [s.arr[i]];
      }
    }
  }
}

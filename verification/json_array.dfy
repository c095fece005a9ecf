/**
 The hand-grown array of a JSON value: `push_back` and the macro that makes room for it.  The
 first allocation leaves `capacity` at half of what is really there.
 */
module JsonArray {

  class ValueArray<T(0)> {
    var data: array?<T>
    var size: nat
    var capacity: nat
    ghost var copies: nat // elements copied by all reallocations so far

    // Nothing is ever read or written outside the allocation, and what copying has cost is less
    // than the capacity it has bought, which is at most twice the number of elements.
    ghost predicate Valid()
      reads this
    {
      && (data == null ==> size == 0 && capacity == 0 && copies == 0)
      && (data != null ==> 0 < size <= capacity <= data.Length && capacity <= 2 * size && copies < capacity)
    }

    ghost function Contents(): (s: seq<T>)
      requires Valid()
      reads this, data
      ensures |s| == size
    {
      if data == null then [] else data[..size]
    }

    ghost function Storage(): set<object>
      reads this
    {
      if data == null then {this} else {this, data}
    }

    constructor ()
      ensures Valid() && Contents() == [] && fresh(Storage())
    {
      data, size, capacity, copies := null, 0, 0, 0;
    }

    // JSON_ARRAY_REALLOC
    method Realloc()
      requires Valid()
      modifies this`data, this`capacity, this`copies
      ensures size == old(size) && data != null && fresh(Storage() - old(Storage()))
      ensures size < data.Length && data[..size] == old(Contents())
      ensures size + 1 <= capacity <= data.Length && capacity <= 2 * (size + 1) && copies < capacity
      ensures old(data) == null ==> capacity == 1 && data.Length == 2
      ensures old(data) != null && size + 1 >= old(capacity) ==> capacity == data.Length == 2 * old(capacity)
      ensures old(data) != null && size + 1 < old(capacity) ==> capacity == old(capacity) && data == old(data)
    {
      if capacity == 0 {
        capacity := 1;
      }
      if size + 1 >= capacity {
        if data != null {
          var last: array<T> := data;
          var more := new T[capacity * 2];
          data := more;
          for t := 0 to size
            invariant data == more && capacity == old(capacity) && size == old(size)
            invariant more[..t] == last[..t] && last[..] == old(data[..])
            invariant copies == old(copies) + t
          {
            data[t] := last[t];
            copies := copies + 1;
          }
          capacity := capacity * 2;
        } else {
          data := new T[capacity * 2];
        }
      }
    }

    method PushBack(val: T)
      requires Valid()
      modifies Storage()
      ensures Valid() && fresh(Storage() - old(Storage()))
      ensures Contents() == old(Contents()) + [val]
    {
      Realloc();
      data[size] := val;
      size := size + 1;
    }
  }

  // However many elements are pushed on a fresh array, it holds them in order, and growing it has
  // copied fewer than two elements for each one pushed.
  method PushAll<T(0)>(vals: seq<T>) returns (a: ValueArray<T>)
    ensures a.Valid() && a.Contents() == vals && fresh(a.Storage())
    ensures vals != [] ==> a.copies < 2 * |vals|
  {
    a := new ValueArray();
    for i := 0 to |vals|
      invariant a.Valid() && fresh(a.Storage())
      invariant a.Contents() == vals[..i]
    {
      a.PushBack(vals[i]);
    }
    assert vals[..|vals|] == vals;
  }
}

/**
 * Host-side flattening of nested arrays into a typed-array target
 * (`utils.flattenTo`, `utils.flatten2dArrayTo`, `utils.flatten3dArrayTo`).
 * `target.set(row, offset)` copies a row at an offset and throws a
 * RangeError when the row would run past the end of the target.
 */
module Flatten {
  import opened Wrappers
  import opened Values

  /** Rows laid end to end, in order. */
  function Concat(rows: seq<seq<real>>): seq<real>
  {
    if |rows| == 0 then [] else Concat(rows[..|rows| - 1]) + rows[|rows| - 1]
  }

  /** The rows of a stack of planes, plane after plane. */
  function Rows3(planes: seq<seq<seq<real>>>): seq<seq<real>>
  {
    if |planes| == 0 then [] else Rows3(planes[..|planes| - 1]) + planes[|planes| - 1]
  }

  /** How many leading rows fit in a target of `cap` entries. */
  function Fitting(rows: seq<seq<real>>, cap: nat): (f: nat)
    ensures f <= |rows| && |Concat(rows[..f])| <= cap
    ensures f < |rows| ==> |Concat(rows[..f + 1])| > cap
  {
    if |Concat(rows)| <= cap then
      assert rows[..|rows|] == rows;
      |rows|
    else
      var f := Fitting(rows[..|rows| - 1], cap);
      assert rows[..|rows| - 1][..f] == rows[..f];
      if f < |rows| - 1 then
        assert rows[..|rows| - 1][..f + 1] == rows[..f + 1];
        f
      else
        assert rows[..f + 1] == rows;
        f
  }

  lemma {:induction false} ConcatAppend(rows: seq<seq<real>>, row: seq<real>)
    ensures Concat(rows + [row]) == Concat(rows) + row
  {
    assert (rows + [row])[..|rows|] == rows;
  }

  /** Concatenating a prefix of the rows gives a prefix of the concatenation. */
  lemma {:induction false} ConcatPrefix(rows: seq<seq<real>>, y: nat)
    requires y <= |rows|
    ensures |Concat(rows[..y])| <= |Concat(rows)|
    ensures Concat(rows)[..|Concat(rows[..y])|] == Concat(rows[..y])
    decreases |rows|
  {
    if y == |rows| {
      assert rows[..y] == rows;
    } else {
      var init := rows[..|rows| - 1];
      ConcatPrefix(init, y);
      assert init[..y] == rows[..y];
    }
  }

  /**
   * Element x of row y sits at the sum of the earlier rows' lengths plus x.
   */
  lemma {:induction false} ConcatAt(rows: seq<seq<real>>, y: nat, x: nat)
    requires y < |rows| && x < |rows[y]|
    ensures |Concat(rows[..y])| + x < |Concat(rows)|
    ensures Concat(rows)[|Concat(rows[..y])| + x] == rows[y][x]
  {
    ConcatPrefix(rows, y + 1);
    assert rows[..y + 1] == rows[..y] + [rows[y]];
    ConcatAppend(rows[..y], rows[y]);
  }

  /** The rows do not all fit exactly when the first row that overflows is row `y`. */
  lemma {:induction false} FittingAt(rows: seq<seq<real>>, cap: nat, y: nat)
    requires y < |rows|
    requires |Concat(rows[..y])| <= cap < |Concat(rows[..y + 1])|
    ensures Fitting(rows, cap) == y
  {
    var f := Fitting(rows, cap);
    if f < y {
      assert rows[..y][..f + 1] == rows[..f + 1];
      ConcatPrefix(rows[..y], f + 1);
      assert false;
    } else if f > y {
      assert rows[..f][..y + 1] == rows[..y + 1];
      ConcatPrefix(rows[..f], y + 1);
      assert false;
    }
  }

  lemma {:induction false} Rows3Append(p: seq<seq<seq<real>>>, q: seq<seq<seq<real>>>)
    ensures Rows3(p + q) == Rows3(p) + Rows3(q)
    decreases |q|
  {
    if |q| == 0 {
      assert p + q == p;
    } else {
      var q' := q[..|q| - 1];
      Rows3Append(p, q');
      assert (p + q)[..|p + q| - 1] == p + q';
      assert q[..|q| - 1] == q';
    }
  }

  /** The rows before row y of plane z are a prefix of all rows. */
  lemma {:induction false} Rows3Prefix(planes: seq<seq<seq<real>>>, z: nat, y: nat)
    requires z < |planes| && y <= |planes[z]|
    ensures |Rows3(planes[..z])| + y <= |Rows3(planes)|
    ensures Rows3(planes)[..|Rows3(planes[..z])| + y] == Rows3(planes[..z]) + planes[z][..y]
  {
    assert planes == planes[..z] + ([planes[z]] + planes[z + 1..]);
    Rows3Append(planes[..z], [planes[z]] + planes[z + 1..]);
    Rows3Append([planes[z]], planes[z + 1..]);
    assert Rows3([planes[z]]) == Rows3([]) + planes[z];
  }

  /** When every row fits, all of them are written. */
  lemma {:induction false} FittingAll(rows: seq<seq<real>>, cap: nat)
    requires |Concat(rows)| <= cap
    ensures Fitting(rows, cap) == |rows| && rows[..Fitting(rows, cap)] == rows
  {
  }

  /**
   * When a prefix of the rows already overflows, the fitting rows of the
   * whole list are those of the prefix.
   */
  lemma {:induction false} PrefixFitting(rows: seq<seq<real>>, pre: seq<seq<real>>, cap: nat)
    requires |pre| <= |rows| && rows[..|pre|] == pre
    requires |Concat(pre)| > cap
    ensures Fitting(rows, cap) == Fitting(pre, cap)
    ensures rows[..Fitting(rows, cap)] == pre[..Fitting(pre, cap)]
    ensures |Concat(rows)| > cap
  {
    var f := Fitting(pre, cap);
    assert pre[..f] == rows[..|pre|][..f];
    assert pre[..f] == rows[..f];
    assert pre[..f + 1] == rows[..f + 1];
    FittingAt(rows, cap, f);
    ConcatPrefix(rows, |pre|);
  }

  /** The rows of the first z + 1 planes: those of the first z, then plane z's; a prefix of all rows. */
  lemma {:induction false} PlaneStep(planes: seq<seq<seq<real>>>, z: nat)
    requires z < |planes|
    ensures Rows3(planes[..z + 1]) == Rows3(planes[..z]) + planes[z]
    ensures |Rows3(planes[..z + 1])| <= |Rows3(planes)|
    ensures Rows3(planes)[..|Rows3(planes[..z + 1])|] == Rows3(planes[..z + 1])
  {
    Rows3Prefix(planes, z, |planes[z]|);
    assert planes[z][..|planes[z]|] == planes[z];
    assert planes[..z + 1] == planes[..z] + [planes[z]];
    Rows3Append(planes[..z], [planes[z]]);
    assert Rows3([planes[z]]) == Rows3([]) + planes[z];
  }

  /**
   * The state after copying some rows at consecutive offsets: the rows'
   * concatenation followed by the untouched rest of the original target.
   */
  ghost predicate Written(target: seq<real>, done: seq<seq<real>>, original: seq<real>)
  {
    |target| == |original| && |Concat(done)| <= |original|
    && target == Concat(done) + original[|Concat(done)|..]
  }

  /**
   * `target.set(row, offset)`: copies the row into the target starting at
   * `offset`, or throws a RangeError and changes nothing when it does not fit.
   */
  method SetAt(target: array<real>, row: seq<real>, offset: nat) returns (r: Outcome)
    modifies target
    ensures r.Pass? <==> offset + |row| <= target.Length
    ensures r.Pass? ==> target[..] == old(target[..offset]) + row + old(target[offset + |row|..])
    ensures r.Fail? ==> target[..] == old(target[..])
  {
    if offset + |row| > target.Length {
      return Fail("RangeError: offset is out of bounds");
    }
    forall i | 0 <= i < |row| {
      target[offset + i] := row[i];
    }
    assert target[..] == old(target[..offset]) + row + old(target[offset + |row|..]);
    r := Pass;
  }

  /** Extending a written prefix by one more row copied at the next offset. */
  lemma {:induction false} WrittenStep(t0: seq<real>, t1: seq<real>, done: seq<seq<real>>, row: seq<real>, original: seq<real>)
    requires Written(t0, done, original)
    requires |Concat(done)| + |row| <= |t0|
    requires t1 == t0[..|Concat(done)|] + row + t0[|Concat(done)| + |row|..]
    ensures Written(t1, done + [row], original)
  {
    ConcatAppend(done, row);
  }

  /** The loop step of both flatteners when row `row` overflows: everything before it is what fits. */
  lemma {:induction false} OverflowAt(rows: seq<seq<real>>, y: nat, cap: nat)
    requires y < |rows|
    requires |Concat(rows[..y])| <= cap < |Concat(rows[..y])| + |rows[y]|
    ensures Fitting(rows, cap) == y && |Concat(rows)| > cap
  {
    assert rows[..y + 1] == rows[..y] + [rows[y]];
    ConcatAppend(rows[..y], rows[y]);
    FittingAt(rows, cap, y);
    ConcatPrefix(rows, y + 1);
  }

  /** The loop step of both flatteners when row `y` fits: one more row is written. */
  lemma {:induction false} FitsAt(rows: seq<seq<real>>, y: nat)
    requires y < |rows|
    ensures |Concat(rows[..y + 1])| == |Concat(rows[..y])| + |rows[y]|
    ensures Concat(rows[..y + 1]) == Concat(rows[..y] + [rows[y]])
  {
    assert rows[..y + 1] == rows[..y] + [rows[y]];
    ConcatAppend(rows[..y], rows[y]);
  }

  /** Row k of `all`, copied after the rows before it, extends the written prefix to k + 1 rows. */
  lemma {:induction false} RowWritten(all: seq<seq<real>>, k: nat, t0: seq<real>, t1: seq<real>, original: seq<real>)
    requires k < |all| && Written(t0, all[..k], original)
    requires |Concat(all[..k])| + |all[k]| <= |t0|
    requires t1 == t0[..|Concat(all[..k])|] + all[k] + t0[|Concat(all[..k])| + |all[k]|..]
    ensures Written(t1, all[..k + 1], original)
    ensures |Concat(all[..k + 1])| == |Concat(all[..k])| + |all[k]|
  {
    WrittenStep(t0, t1, all[..k], all[k], original);
    FitsAt(all, k);
    assert all[..k + 1] == all[..k] + [all[k]];
  }

  /**
   * The row loop shared by both flatteners: copy each row at the running
   * offset, continuing after the rows `prior` already written. On a
   * RangeError the rows before the overflowing one have been copied.
   */
  method CopyRows(rows: seq<seq<real>>, target: array<real>, offset: nat,
                  ghost prior: seq<seq<real>>, ghost original: seq<real>)
    returns (r: Outcome, next: nat)
    requires Written(target[..], prior, original) && offset == |Concat(prior)|
    modifies target
    ensures r.Pass? <==> |Concat(prior + rows)| <= target.Length
    ensures r.Pass? ==> next == |Concat(prior + rows)| && Written(target[..], prior + rows, original)
    ensures Written(target[..], (prior + rows)[..Fitting(prior + rows, target.Length)], original)
  {
    ghost var all := prior + rows;
    next := offset;
    var y := 0;
    assert all[..|prior|] == prior;
    while y < |rows|
      invariant 0 <= y <= |rows|
      invariant next == |Concat(all[..|prior| + y])|
      invariant Written(target[..], all[..|prior| + y], original)
    {
      ghost var before := target[..];
      assert all[|prior| + y] == rows[y];
      r := SetAt(target, rows[y], next);
      if r.Fail? {
        OverflowAt(all, |prior| + y, target.Length);
        return;
      }
      RowWritten(all, |prior| + y, before, target[..], original);
      next := next + |rows[y]|;
      y := y + 1;
    }
    assert all[..|all|] == all;
    r := Pass;
  }

  /**
   * `flatten2dArrayTo`: row y is copied at the running offset, the sum of the
   * earlier rows' lengths. If a row overflows the target, the rows before it
   * have been copied and the RangeError propagates.
   */
  method Flatten2dArrayTo(rows: seq<seq<real>>, target: array<real>) returns (r: Outcome)
    modifies target
    ensures r.Pass? <==> |Concat(rows)| <= target.Length
    ensures Written(target[..], rows[..Fitting(rows, target.Length)], old(target[..]))
  {
    assert [] + rows == rows;
    var next;
    r, next := CopyRows(rows, target, 0, [], target[..]);
  }

  /**
   * `flatten3dArrayTo`: the rows of every plane, plane by plane, copied at one
   * running offset; the same outcome as flattening all the rows in order.
   */
  method Flatten3dArrayTo(planes: seq<seq<seq<real>>>, target: array<real>) returns (r: Outcome)
    modifies target
    ensures r.Pass? <==> |Concat(Rows3(planes))| <= target.Length
    ensures Written(target[..], Rows3(planes)[..Fitting(Rows3(planes), target.Length)], old(target[..]))
  {
    ghost var original := target[..];
    var offset := 0;
    var z := 0;
    while z < |planes|
      invariant 0 <= z <= |planes|
      invariant offset == |Concat(Rows3(planes[..z]))|
      invariant Written(target[..], Rows3(planes[..z]), original)
    {
      r, offset := CopyRows(planes[z], target, offset, Rows3(planes[..z]), original);
      PlaneStep(planes, z);
      if r.Fail? {
        PrefixFitting(Rows3(planes), Rows3(planes[..z + 1]), target.Length);
        return;
      }
      z := z + 1;
    }
    assert planes[..z] == planes;
    FittingAll(Rows3(planes), target.Length);
    r := Pass;
  }

  /** The numbers of an array-like whose elements are all numbers. */
  function AsNumbers(v: Value): (r: Option<seq<real>>)
    ensures r.Some? ==> v.List? && |r.value| == |v.items|
    ensures r.Some? ==> forall i :: 0 <= i < |v.items| ==> v.items[i] == Number(r.value[i])
  {
    if v.List? && forall i :: 0 <= i < |v.items| ==> v.items[i].Number? then
      Some(seq(|v.items|, i requires 0 <= i < |v.items| => v.items[i].n))
    else None
  }

  /** A two-dimensional array of numbers, as rows. */
  function AsRows(v: Value): (r: Option<seq<seq<real>>>)
    ensures r.Some? ==> v.List? && |r.value| == |v.items|
    ensures r.Some? ==> forall y :: 0 <= y < |v.items| ==> AsNumbers(v.items[y]) == Some(r.value[y])
  {
    if v.List? && forall y :: 0 <= y < |v.items| ==> AsNumbers(v.items[y]).Some? then
      Some(seq(|v.items|, y requires 0 <= y < |v.items| => AsNumbers(v.items[y]).value))
    else None
  }

  /** A three-dimensional array of numbers, as planes of rows. */
  function AsPlanes(v: Value): (r: Option<seq<seq<seq<real>>>>)
    ensures r.Some? ==> v.List? && |r.value| == |v.items|
    ensures r.Some? ==> forall z :: 0 <= z < |v.items| ==> AsRows(v.items[z]) == Some(r.value[z])
  {
    if v.List? && forall z :: 0 <= z < |v.items| ==> AsRows(v.items[z]).Some? then
      Some(seq(|v.items|, z requires 0 <= z < |v.items| => AsRows(v.items[z]).value))
    else None
  }

  /**
   * The values `flattenTo` lays out, by the shape its first elements reveal:
   * planes of rows, rows, or one row of numbers.
   */
  function Flattened(arr: Value): Option<seq<real>>
  {
    if First(arr).List? then
      if First(First(arr)).List? then
        if AsPlanes(arr).Some? then Some(Concat(Rows3(AsPlanes(arr).value))) else None
      else
        if AsRows(arr).Some? then Some(Concat(AsRows(arr).value)) else None
    else AsNumbers(arr)
  }

  /**
   * `utils.flattenTo`: a nested array whose first element's first element is
   * an array goes through `flatten3dArrayTo`, one whose first element is an
   * array through `flatten2dArrayTo`, anything else is copied with
   * `target.set`. Probing the first element of an empty array throws.
   * On success the target starts with the flattened values and the rest is
   * untouched.
   */
  method FlattenTo(arr: Value, target: array<real>) returns (r: Outcome)
    modifies target
    ensures First(arr).Undefined? || (First(arr).List? && First(First(arr)).Undefined?) ==> r.Fail?
    ensures r.Pass? ==> (Flattened(arr).Some?
      && |Flattened(arr).value| <= target.Length
      && target[..] == Flattened(arr).value + old(target[..])[|Flattened(arr).value|..])
    ensures Flattened(arr).Some? && |Flattened(arr).value| <= target.Length
            && !First(arr).Undefined? && !(First(arr).List? && First(First(arr)).Undefined?)
            ==> r.Pass?
  {
    var outer := IsArray(First(arr));
    if outer.Err? {
      return Fail(outer.error);
    }
    if outer.value {
      var inner := IsArray(First(First(arr)));
      if inner.Err? {
        return Fail(inner.error);
      }
      if inner.value {
        var planes := AsPlanes(arr);
        if planes.None? {
          return Fail("not modelled: ragged or non-numeric arr");
        }
        r := Flatten3dArrayTo(planes.value, target);
        if r.Pass? {
          FittingAll(Rows3(planes.value), target.Length);
        }
      } else {
        var rows := AsRows(arr);
        if rows.None? {
          return Fail("not modelled: ragged or non-numeric arr");
        }
        r := Flatten2dArrayTo(rows.value, target);
        if r.Pass? {
          FittingAll(rows.value, target.Length);
        }
      }
    } else {
      var numbers := AsNumbers(arr);
      if numbers.None? {
        return Fail("not modelled: non-numeric arr");
      }
      r := SetAt(target, numbers.value, 0);
    }
  }
}

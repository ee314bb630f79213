/**
 * The column-level operations of a data frame that the script uses, on
 * the frame's list of column labels: selecting a list of columns,
 * renaming, assigning a column, and dropping columns.
 */
module Columns {
  import opened Wrappers

  /** The entries of `names` that are not in `columns`, in the order of `names`. */
  function Missing<C(==)>(columns: seq<C>, names: seq<C>): seq<C>
  {
    if names == [] then []
    else (if names[0] in columns then [] else [names[0]]) + Missing(columns, names[1..])
  }

  /** `Missing` lists exactly the names that are not columns. */
  lemma {:induction false} MissingMembers<C(!new)>(columns: seq<C>, names: seq<C>)
    ensures forall n :: n in Missing(columns, names) <==> n in names && n !in columns
  {
    if names != [] {
      MissingMembers(columns, names[1..]);
      assert names == [names[0]] + names[1..];
    }
  }

  /**
   * `frame[names]`: the named columns in the order asked for, whatever
   * their order in the frame; a KeyError lists every name that is not a column.
   */
  function Select<C(==, !new)>(columns: seq<C>, names: seq<C>): (r: Result<seq<C>, seq<C>>)
    ensures r.Ok? <==> forall n :: n in names ==> n in columns
    ensures r.Ok? ==> r.value == names
    ensures r.Err? ==> r.error != [] && forall n :: n in r.error <==> n in names && n !in columns
  {
    var absent := Missing(columns, names);
    MissingMembers(columns, names);
    if absent == [] then Ok(names)
    else
      assert absent[0] in absent;
      Err(absent)
  }

  /** Selecting columns that are all present gives them back in the order asked for. */
  lemma SelectPresent<C(!new)>(columns: seq<C>, names: seq<C>)
    requires forall n :: n in names ==> n in columns
    ensures Select(columns, names) == Ok(names)
  {
  }

  /** `frame.rename(columns=mapping)`: each column that is a key takes its new name; other keys are ignored. */
  function Rename<C(==)>(columns: seq<C>, mapping: map<C, C>): (r: seq<C>)
    ensures |r| == |columns|
    ensures forall i :: 0 <= i < |columns| ==> r[i] == if columns[i] in mapping then mapping[columns[i]] else columns[i]
  {
    seq(|columns|, i requires 0 <= i < |columns| => if columns[i] in mapping then mapping[columns[i]] else columns[i])
  }

  /** `frame[name] = values`: a column that exists keeps its place; a new one is appended last. */
  function Assign<C(==)>(columns: seq<C>, name: C): (r: seq<C>)
    ensures name in r
    ensures name in columns <==> r == columns
    ensures name !in columns <==> r == columns + [name]
  {
    if name in columns then columns else columns + [name]
  }

  /** The columns not in `names`, in their order. */
  function Without<C(==)>(columns: seq<C>, names: seq<C>): seq<C>
  {
    if columns == [] then []
    else (if columns[0] in names then [] else [columns[0]]) + Without(columns[1..], names)
  }

  /** `Without` keeps exactly the columns that are not named. */
  lemma {:induction false} WithoutMembers<C(!new)>(columns: seq<C>, names: seq<C>)
    ensures forall n :: n in Without(columns, names) <==> n in columns && n !in names
  {
    if columns != [] {
      WithoutMembers(columns[1..], names);
      assert columns == [columns[0]] + columns[1..];
    }
  }

  /** `frame.drop(columns=names)`: a KeyError when some name is not a column. */
  function Drop<C(==, !new)>(columns: seq<C>, names: seq<C>): (r: Result<seq<C>, seq<C>>)
    ensures r.Ok? <==> forall n :: n in names ==> n in columns
    ensures r.Ok? ==> forall n :: n in r.value <==> n in columns && n !in names
    ensures r.Err? ==> r.error != [] && forall n :: n in r.error <==> n in names && n !in columns
  {
    var absent := Missing(columns, names);
    MissingMembers(columns, names);
    WithoutMembers(columns, names);
    if absent == [] then Ok(Without(columns, names))
    else
      assert absent[0] in absent;
      Err(absent)
  }

  /** Removing columns keeps the order of the ones that stay. */
  lemma {:induction false} WithoutAppend<C>(s: seq<C>, t: seq<C>, names: seq<C>)
    ensures Without(s + t, names) == Without(s, names) + Without(t, names)
  {
    if s == [] {
      assert s + t == t;
    } else {
      assert (s + t)[1..] == s[1..] + t;
      WithoutAppend(s[1..], t, names);
    }
  }

  /** A column that is not named stays, in front of what remains of the columns after it. */
  lemma WithoutKeep<C>(columns: seq<C>, k: nat, names: seq<C>)
    requires k < |columns| && columns[k] !in names
    ensures Without(columns[k..], names) == [columns[k]] + Without(columns[k + 1..], names)
  {
    assert columns[k..][1..] == columns[k + 1..];
  }

  /** A named column goes. */
  lemma WithoutSkip<C>(columns: seq<C>, k: nat, names: seq<C>)
    requires k < |columns| && columns[k] in names
    ensures Without(columns[k..], names) == Without(columns[k + 1..], names)
  {
    assert columns[k..][1..] == columns[k + 1..];
  }

  /** Dropping names none of which is a column changes nothing. */
  lemma {:induction false} WithoutNone<C>(columns: seq<C>, names: seq<C>)
    requires forall i :: 0 <= i < |columns| ==> columns[i] !in names
    ensures Without(columns, names) == columns
  {
    if columns != [] {
      WithoutNone(columns[1..], names);
    }
  }
}

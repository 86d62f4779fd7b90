/**
  In which order the locations of cache markers are collected (proxy/mod.rs): an
  object before what is inside it, and fields and items in the order they are stored in.
*/
module MarkerOrder {
  import opened Utf8Text
  import opened Json
  import opened MarkerPaths
  import opened MarkerPathLaws

  /** The place of a child among the children of its parent. */
  function Place(value: Value, part: Part): nat {
    match part
    case Index(index) => index
    case Key(key) =>
      if value.Object? && Find(value.fields, key, 0).Some? then Find(value.fields, key, 0).value else 0
  }

  /** The first path leads to a container of the second's end, or branches off before it. */
  predicate Before(value: Value, p: Path, q: Path)
    decreases |p|
  {
    if p == [] || q == [] then p == [] && q != []
    else if p[0] == q[0] then Child(value, p[0]).Some? && Before(Child(value, p[0]).value, p[1..], q[1..])
    else Place(value, p[0]) < Place(value, q[0])
  }

  predicate InOrder(value: Value, paths: seq<Path>) {
    forall i, j :: 0 <= i < j < |paths| ==> Before(value, paths[i], paths[j])
  }

  lemma {:induction false} UnderAt(part: Part, paths: seq<Path>)
    ensures |Under(part, paths)| == |paths|
    ensures forall i :: 0 <= i < |paths| ==> Under(part, paths)[i] == [part] + paths[i]
  {
    if paths != [] { UnderAt(part, paths[1..]); }
  }

  lemma UnderInOrder(value: Value, part: Part, paths: seq<Path>)
    requires Child(value, part).Some? && InOrder(Child(value, part).value, paths)
    ensures InOrder(value, Under(part, paths))
  {
    hide Child;
    UnderAt(part, paths);
    var under := Under(part, paths);
    forall i, j | 0 <= i < j < |under|
      ensures Before(value, under[i], under[j])
    {
      assert under[i][1..] == paths[i] && under[j][1..] == paths[j];
    }
  }

  /** All paths of this list start at a child in this place or behind it. */
  predicate StartsFrom(value: Value, paths: seq<Path>, place: nat) {
    forall i :: 0 <= i < |paths| ==> paths[i] != [] && Place(value, paths[i][0]) >= place
  }

  lemma BranchesBefore(value: Value, part: Part, p: Path, q: Path)
    requires q != [] && Place(value, part) < Place(value, q[0])
    ensures Before(value, [part] + p, q)
  {
  }

  lemma Joined(value: Value, part: Part, inner: seq<Path>, rest: seq<Path>)
    requires Child(value, part).Some? && InOrder(Child(value, part).value, inner)
    requires InOrder(value, rest) && StartsFrom(value, rest, Place(value, part) + 1)
    ensures InOrder(value, Under(part, inner) + rest)
    ensures StartsFrom(value, Under(part, inner) + rest, Place(value, part))
  {
    hide Child, Place, Before;
    UnderInOrder(value, part, inner);
    UnderAt(part, inner);
    var under := Under(part, inner);
    var all := under + rest;
    forall i, j | 0 <= i < j < |all|
      ensures Before(value, all[i], all[j])
    {
      if j < |under| {
        assert all[i] == under[i] && all[j] == under[j];
      } else if i >= |under| {
        assert all[i] == rest[i - |under|] && all[j] == rest[j - |under|];
      } else {
        assert all[i] == [part] + inner[i] && all[j] == rest[j - |under|];
        BranchesBefore(value, part, inner[i], all[j]);
      }
    }
    forall i | 0 <= i < |all|
      ensures all[i] != [] && Place(value, all[i][0]) >= Place(value, part)
    {
      if i < |under| { assert all[i] == [part] + inner[i]; } else { assert all[i] == rest[i - |under|]; }
    }
  }

  /** Locations are collected in the order of the text that the tree is written in. */
  lemma {:induction false} MarksInOrder(value: Value)
    requires WellFormed(value)
    ensures InOrder(value, Marks(value))
    decreases value, 1, 0
  {
    hide Marked, Before, StartsFrom, InOrder;
    if value.Object? {
      FieldMarksInOrder(value, 0);
      OwnFirst(value, FieldMarks(value, 0));
      assert [] + FieldMarks(value, 0) == FieldMarks(value, 0);
    } else if value.Array? {
      ItemMarksInOrder(value, 0);
    } else {
      NoneInOrder(value);
    }
  }

  lemma NoneInOrder(value: Value)
    ensures InOrder(value, []) && forall place: nat :: StartsFrom(value, [], place)
  {
  }

  lemma OwnFirst(value: Value, paths: seq<Path>)
    requires InOrder(value, paths) && StartsFrom(value, paths, 0)
    ensures InOrder(value, [[]] + paths)
  {
    var all := [[]] + paths;
    forall i, j | 0 <= i < j < |all|
      ensures Before(value, all[i], all[j])
    {
      assert all[j] == paths[j - 1];
      if i > 0 { assert all[i] == paths[i - 1]; }
    }
  }

  lemma {:induction false} FieldMarksInOrder(value: Value, i: nat)
    requires value.Object? && WellFormed(value) && i <= |value.fields|
    ensures InOrder(value, FieldMarks(value, i)) && StartsFrom(value, FieldMarks(value, i), i)
    decreases value, 0, |value.fields| - i
  {
    hide Marks, InOrder, StartsFrom;
    if i == |value.fields| {
      NoneInOrder(value);
    } else {
      var field := value.fields[i];
      assert field in value.fields;
      MarksInOrder(field.value);
      FieldMarksInOrder(value, i + 1);
      assert Find(value.fields, field.key, 0) == Some(i);
      Joined(value, Key(field.key), Marks(field.value), FieldMarks(value, i + 1));
    }
  }

  lemma {:induction false} ItemMarksInOrder(value: Value, i: nat)
    requires value.Array? && WellFormed(value) && i <= |value.items|
    ensures InOrder(value, ItemMarks(value, i)) && StartsFrom(value, ItemMarks(value, i), i)
    decreases value, 0, |value.items| - i
  {
    hide Marks, InOrder, StartsFrom;
    if i == |value.items| {
      NoneInOrder(value);
    } else {
      assert value.items[i] in value.items;
      MarksInOrder(value.items[i]);
      ItemMarksInOrder(value, i + 1);
      Joined(value, Index(i), Marks(value.items[i]), ItemMarks(value, i + 1));
    }
  }
}

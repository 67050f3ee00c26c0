/** The field-level difference of two snapshots, and what it is for: replaying it on the old
    snapshot gives the new one. Paths are structured, so no two places share one. */
module SnapshotDiff {
  import opened Wrappers
  import opened Order

  datatype Json =
    | Null
    | Bool(b: bool)
    | Number(n: int)
    | Text(s: string)
    | Arr(items: seq<Json>)
    | Obj(fields: map<string, Json>)

  datatype Key = Field(name: string) | Index(at: nat)

  type Path = seq<Key>

  datatype Change =
    | Added(path: Path, value: Json)
    | Removed(path: Path, value: Json)
    | Changed(path: Path, was: Json, now: Json)

  function Max(a: nat, b: nat): nat {
    if a < b then b else a
  }

  /** What `_diff` appends for two values found at `path`. */
  function Diff(old_: Json, new_: Json, path: Path): seq<Change>
    decreases old_, 1, 0
  {
    if old_.Obj? && new_.Obj? then DiffFields(old_, new_, Sorted(old_.fields.Keys + new_.fields.Keys), path)
    else if old_.Arr? && new_.Arr? then DiffItems(old_, new_, 0, path)
    else if old_ != new_ then [Changed(path, old_, new_)]
    else []
  }

  function DiffField(old_: Json, new_: Json, name: string, path: Path): seq<Change>
    requires old_.Obj? && new_.Obj? && name in old_.fields.Keys + new_.fields.Keys
    decreases old_, 0, 0
  {
    if name !in old_.fields then [Added(path + [Field(name)], new_.fields[name])]
    else if name !in new_.fields then [Removed(path + [Field(name)], old_.fields[name])]
    else Diff(old_.fields[name], new_.fields[name], path + [Field(name)])
  }

  function DiffFields(old_: Json, new_: Json, names: seq<string>, path: Path): seq<Change>
    requires old_.Obj? && new_.Obj? && forall n :: n in names ==> n in old_.fields.Keys + new_.fields.Keys
    decreases old_, 0, |names| + 1
  {
    if names == [] then []
    else
      assert forall n :: n in names[1..] ==> n in names;
      DiffField(old_, new_, names[0], path) + DiffFields(old_, new_, names[1..], path)
  }

  function DiffItem(old_: Json, new_: Json, k: nat, path: Path): seq<Change>
    requires old_.Arr? && new_.Arr? && k < Max(|old_.items|, |new_.items|)
    decreases old_, 0, 0
  {
    if k >= |old_.items| then [Added(path + [Index(k)], new_.items[k])]
    else if k >= |new_.items| then [Removed(path + [Index(k)], old_.items[k])]
    else Diff(old_.items[k], new_.items[k], path + [Index(k)])
  }

  function DiffItems(old_: Json, new_: Json, k: nat, path: Path): seq<Change>
    requires old_.Arr? && new_.Arr? && k <= Max(|old_.items|, |new_.items|)
    decreases old_, 0, Max(|old_.items|, |new_.items|) - k + 1
  {
    if k == Max(|old_.items|, |new_.items|) then []
    else DiffItem(old_, new_, k, path) + DiffItems(old_, new_, k + 1, path)
  }

  // ----- the difference, field by field: what is a change does not depend on how it is found -----

  /** The value at a place of a document, if the place exists. */
  function At(doc: Json, path: Path): Option<Json>
    decreases |path|
  {
    if path == [] then Some(doc)
    else
      match path[0]
      case Field(name) => if doc.Obj? && name in doc.fields then At(doc.fields[name], path[1..]) else None
      case Index(k) => if doc.Arr? && k < |doc.items| then At(doc.items[k], path[1..]) else None
  }

  /** Both are objects or both are lists, so that they are compared member by member. */
  predicate SameShape(a: Json, b: Json) {
    (a.Obj? && b.Obj?) || (a.Arr? && b.Arr?)
  }

  /** The place exists in `doc`, with this value, and not in `other`, which has the object or the
      list around it too. */
  ghost predicate OnlyIn(doc: Json, other: Json, place: Path, value: Json) {
    && place != []
    && At(doc, place) == Some(value) && At(other, place) == None
    && var around := place[..|place| - 1];
       At(doc, around).Some? && At(other, around).Some? && SameShape(At(doc, around).value, At(other, around).value)
  }

  /** What counts as a change between two values found `depth` keys down the path. */
  ghost predicate IsChange(old_: Json, new_: Json, depth: nat, c: Change) {
    && depth <= |c.path|
    && var place := c.path[depth..];
       match c
       case Added(_, value) => OnlyIn(new_, old_, place, value)
       case Removed(_, value) => OnlyIn(old_, new_, place, value)
       case Changed(_, was, now) =>
         At(old_, place) == Some(was) && At(new_, place) == Some(now) && was != now && !SameShape(was, now)
  }

  /** At or below the compared path, and a change between the two values. */
  ghost predicate IsChangeBelow(old_: Json, new_: Json, path: Path, c: Change) {
    |path| <= |c.path| && c.path[..|path|] == path && IsChange(old_, new_, |path|, c)
  }

  // ----- replay -----

  /** One change applied below `doc`, which stands `depth` keys down the path. A field is set or
      dropped; an element added at the end of a list extends it, and a removed one ends it there. */
  function Apply(doc: Json, c: Change, depth: nat): Json
    requires depth <= |c.path|
    decreases |c.path| - depth
  {
    if depth == |c.path| then (if c.Changed? then c.now else doc)
    else if depth == |c.path| - 1 && !c.Changed? then Put(doc, c.path[depth], c)
    else
      match c.path[depth]
      case Field(name) =>
        if doc.Obj? && name in doc.fields then Obj(doc.fields[name := Apply(doc.fields[name], c, depth + 1)]) else doc
      case Index(k) =>
        if doc.Arr? && k < |doc.items| then Arr(doc.items[k := Apply(doc.items[k], c, depth + 1)]) else doc
  }

  function Put(doc: Json, key: Key, c: Change): Json
    requires !c.Changed?
  {
    match key
    case Field(name) =>
      if !doc.Obj? then doc
      else if c.Added? then Obj(doc.fields[name := c.value])
      else Obj(doc.fields - {name})
    case Index(k) =>
      if !doc.Arr? then doc
      else if c.Added? then (if k == |doc.items| then Arr(doc.items + [c.value]) else doc)
      else if k <= |doc.items| then Arr(doc.items[..k]) else doc
  }

  ghost predicate Below(changes: seq<Change>, depth: nat) {
    forall c :: c in changes ==> depth <= |c.path|
  }

  function Replay(doc: Json, changes: seq<Change>, depth: nat): Json
    requires Below(changes, depth)
    decreases |changes|
  {
    if changes == [] then doc
    else
      assert changes[0] in changes && forall c :: c in changes[1..] ==> c in changes;
      Replay(Apply(doc, changes[0], depth), changes[1..], depth)
  }

  lemma {:induction false} ReplayAppend(doc: Json, a: seq<Change>, b: seq<Change>, depth: nat)
    requires Below(a, depth) && Below(b, depth)
    ensures Below(a + b, depth)
    ensures Replay(doc, a + b, depth) == Replay(Replay(doc, a, depth), b, depth)
    decreases |a|
  {
    if a == [] {
      assert a + b == b;
    } else {
      assert a[0] in a && forall c :: c in a[1..] ==> c in a;
      assert (a + b)[0] == a[0] && (a + b)[1..] == a[1..] + b;
      ReplayAppend(Apply(doc, a[0], depth), a[1..], b, depth);
    }
  }

  /** The change lies strictly inside the place the path names, or replaces that place. */
  ghost predicate Inside(c: Change, path: Path) {
    |path| <= |c.path| && c.path[..|path|] == path && (c.Changed? || |path| < |c.path|)
  }

  ghost predicate AllInside(changes: seq<Change>, path: Path) {
    forall c :: c in changes ==> Inside(c, path)
  }

  lemma Deeper(changes: seq<Change>, path: Path, key: Key)
    requires AllInside(changes, path + [key])
    ensures AllInside(changes, path) && Below(changes, |path|) && Below(changes, |path| + 1)
  {
    forall c | c in changes ensures Inside(c, path) {
      assert c.path[..|path|] == (path + [key])[..|path|];
    }
  }

  lemma {:induction false} DiffIsInside(old_: Json, new_: Json, path: Path)
    ensures AllInside(Diff(old_, new_, path), path) && Below(Diff(old_, new_, path), |path|)
    decreases old_, 1, 0
  {
    if old_.Obj? && new_.Obj? {
      FieldsAreInside(old_, new_, Sorted(old_.fields.Keys + new_.fields.Keys), path);
    } else if old_.Arr? && new_.Arr? {
      ItemsAreInside(old_, new_, 0, path);
    }
  }

  lemma {:induction false} FieldsAreInside(old_: Json, new_: Json, names: seq<string>, path: Path)
    requires old_.Obj? && new_.Obj? && forall n :: n in names ==> n in old_.fields.Keys + new_.fields.Keys
    ensures AllInside(DiffFields(old_, new_, names, path), path) && Below(DiffFields(old_, new_, names, path), |path|)
    decreases old_, 0, |names| + 1
  {
    if names != [] {
      assert forall n :: n in names[1..] ==> n in names;
      FieldsAreInside(old_, new_, names[1..], path);
      var name := names[0];
      if name in old_.fields && name in new_.fields {
        DiffIsInside(old_.fields[name], new_.fields[name], path + [Field(name)]);
        Deeper(DiffField(old_, new_, name, path), path, Field(name));
      } else {
        assert (path + [Field(name)])[..|path|] == path;
      }
    }
  }

  lemma {:induction false} ItemsAreInside(old_: Json, new_: Json, k: nat, path: Path)
    requires old_.Arr? && new_.Arr? && k <= Max(|old_.items|, |new_.items|)
    ensures AllInside(DiffItems(old_, new_, k, path), path) && Below(DiffItems(old_, new_, k, path), |path|)
    decreases old_, 0, Max(|old_.items|, |new_.items|) - k + 1
  {
    if k < Max(|old_.items|, |new_.items|) {
      ItemsAreInside(old_, new_, k + 1, path);
      if k < |old_.items| && k < |new_.items| {
        DiffIsInside(old_.items[k], new_.items[k], path + [Index(k)]);
        Deeper(DiffItem(old_, new_, k, path), path, Index(k));
      } else {
        assert (path + [Index(k)])[..|path|] == path;
      }
    }
  }

  // ----- changes that all lie under one child act on that child alone -----

  lemma {:induction false} ReplayUnderField(doc: Json, name: string, changes: seq<Change>, path: Path)
    requires doc.Obj? && name in doc.fields && AllInside(changes, path + [Field(name)])
    ensures Below(changes, |path|) && Below(changes, |path| + 1)
    ensures Replay(doc, changes, |path|)
         == Obj(doc.fields[name := Replay(doc.fields[name], changes, |path| + 1)])
    decreases |changes|
  {
    Deeper(changes, path, Field(name));
    if changes == [] {
      assert doc.fields[name := doc.fields[name]] == doc.fields;
    } else {
      var c := changes[0];
      assert c in changes && forall d :: d in changes[1..] ==> d in changes;
      assert c.path[|path|] == c.path[..|path| + 1][|path|] == Field(name);
      var next := Apply(doc, c, |path|);
      assert next == Obj(doc.fields[name := Apply(doc.fields[name], c, |path| + 1)]);
      ReplayUnderField(next, name, changes[1..], path);
    }
  }

  lemma {:induction false} ReplayUnderIndex(doc: Json, k: nat, changes: seq<Change>, path: Path)
    requires doc.Arr? && k < |doc.items| && AllInside(changes, path + [Index(k)])
    ensures Below(changes, |path|) && Below(changes, |path| + 1)
    ensures Replay(doc, changes, |path|)
         == Arr(doc.items[k := Replay(doc.items[k], changes, |path| + 1)])
    decreases |changes|
  {
    Deeper(changes, path, Index(k));
    if changes == [] {
      assert doc.items[k := doc.items[k]] == doc.items;
    } else {
      var c := changes[0];
      assert c in changes && forall d :: d in changes[1..] ==> d in changes;
      assert c.path[|path|] == c.path[..|path| + 1][|path|] == Index(k);
      var next := Apply(doc, c, |path|);
      assert next == Arr(doc.items[k := Apply(doc.items[k], c, |path| + 1)]);
      ReplayUnderIndex(next, k, changes[1..], path);
    }
  }

  // ----- replaying the difference gives the new snapshot -----

  ghost predicate AgreeAt(a: map<string, Json>, b: map<string, Json>, name: string) {
    (name in a <==> name in b) && (name in a ==> a[name] == b[name])
  }

  /** Halfway through the fields: those still to come are the old ones, the rest are the new ones. */
  ghost predicate FieldsSoFar(doc: Json, old_: Json, new_: Json, names: seq<string>)
    requires old_.Obj? && new_.Obj?
  {
    && doc.Obj?
    && (forall n :: n in names ==> AgreeAt(doc.fields, old_.fields, n))
    && (forall n :: n !in names ==> AgreeAt(doc.fields, new_.fields, n))
  }

  /** Halfway through the elements, including past the end of either list. */
  ghost predicate ItemsSoFar(doc: Json, old_: Json, new_: Json, k: nat)
    requires old_.Arr? && new_.Arr? && k <= Max(|old_.items|, |new_.items|)
  {
    && doc.Arr?
    && doc.items == if k > |new_.items| then new_.items
                    else if k > |old_.items| then new_.items[..k]
                    else new_.items[..k] + old_.items[k..]
  }

  lemma {:induction false} ReplayAt(old_: Json, new_: Json, path: Path)
    ensures Below(Diff(old_, new_, path), |path|)
    ensures Replay(old_, Diff(old_, new_, path), |path|) == new_
    decreases old_, 1, 0
  {
    DiffIsInside(old_, new_, path);
    if old_.Obj? && new_.Obj? {
      var names := Sorted(old_.fields.Keys + new_.fields.Keys);
      AscendingIsDistinct(names);
      ReplayFields(old_, old_, new_, names, path);
    } else if old_.Arr? && new_.Arr? {
      assert new_.items[..0] + old_.items[0..] == old_.items;
      ReplayItems(old_, old_, new_, 0, path);
    } else if old_ != new_ {
      var c := Changed(path, old_, new_);
      assert [c][1..] == [];
      assert Replay(old_, [c], |path|) == Replay(Apply(old_, c, |path|), [], |path|);
    }
  }

  lemma AscendingIsDistinct(names: seq<string>)
    requires Ascending(names)
    ensures Distinct(names)
  {
    forall i, j | 0 <= i < j < |names| ensures names[i] != names[j] {
      Total(names[i], names[j]);
    }
  }

  lemma {:induction false} ReplayFields(doc: Json, old_: Json, new_: Json, names: seq<string>, path: Path)
    requires old_.Obj? && new_.Obj? && forall n :: n in names ==> n in old_.fields.Keys + new_.fields.Keys
    requires Distinct(names) && FieldsSoFar(doc, old_, new_, names)
    ensures Below(DiffFields(old_, new_, names, path), |path|)
    ensures Replay(doc, DiffFields(old_, new_, names, path), |path|) == new_
    decreases old_, 0, |names| + 1
  {
    FieldsAreInside(old_, new_, names, path);
    if names == [] {
      assert doc.fields.Keys == new_.fields.Keys by {
        forall n ensures n in doc.fields.Keys <==> n in new_.fields.Keys { assert AgreeAt(doc.fields, new_.fields, n); }
      }
      forall n | n in doc.fields ensures doc.fields[n] == new_.fields[n] { assert AgreeAt(doc.fields, new_.fields, n); }
      assert doc.fields == new_.fields;
    } else {
      var name, rest := names[0], names[1..];
      assert forall n :: n in rest ==> n in names;
      assert Distinct(rest);
      var here := DiffField(old_, new_, name, path);
      FieldsAreInside(old_, new_, rest, path);
      var next := ReplayField(doc, old_, new_, name, path);
      ReplayAppend(doc, here, DiffFields(old_, new_, rest, path), |path|);
      forall n ensures n in rest ==> AgreeAt(next.fields, old_.fields, n)
               ensures n !in rest ==> AgreeAt(next.fields, new_.fields, n) {
        assert names == [name] + rest;
        if n != name {
          assert AgreeAt(next.fields, doc.fields, n);
          assert n in rest <==> n in names;
          assert n in names || AgreeAt(doc.fields, new_.fields, n);
        }
      }
      ReplayFields(next, old_, new_, rest, path);
    }
  }

  /** One field: afterwards it is the new one, and no other field has changed. */
  lemma {:induction false} ReplayField(doc: Json, old_: Json, new_: Json, name: string, path: Path) returns (next: Json)
    requires old_.Obj? && new_.Obj? && name in old_.fields.Keys + new_.fields.Keys
    requires doc.Obj? && AgreeAt(doc.fields, old_.fields, name)
    ensures Below(DiffField(old_, new_, name, path), |path|)
    ensures next == Replay(doc, DiffField(old_, new_, name, path), |path|) && next.Obj?
    ensures AgreeAt(next.fields, new_.fields, name)
    ensures forall n :: n != name ==> AgreeAt(next.fields, doc.fields, n)
    decreases old_, 0, 0
  {
    if name in old_.fields && name in new_.fields {
      hide Apply, Replay, Diff;
      ReplayChild(doc, old_.fields[name], new_.fields[name], name, path);
      next := Obj(doc.fields[name := new_.fields[name]]);
    } else {
      hide Apply, Replay, Diff;
      var c := DiffField(old_, new_, name, path)[0];
      ReplayOne(doc, c, path);
      next := Put(doc, Field(name), c);
    }
  }

  /** A field that is on both sides: its own difference, one level down. */
  lemma {:induction false} ReplayChild(doc: Json, a: Json, b: Json, name: string, path: Path)
    requires doc.Obj? && name in doc.fields && doc.fields[name] == a
    ensures var here := Diff(a, b, path + [Field(name)]);
      Below(here, |path|) && Replay(doc, here, |path|) == Obj(doc.fields[name := b])
    decreases a, 1, 1
  {
    hide Apply, Replay, Diff;
    DiffIsInside(a, b, path + [Field(name)]);
    ReplayUnderField(doc, name, Diff(a, b, path + [Field(name)]), path);
    ReplayAt(a, b, path + [Field(name)]);
  }

  lemma {:induction false} ReplayElement(doc: Json, a: Json, b: Json, k: nat, path: Path)
    requires doc.Arr? && k < |doc.items| && doc.items[k] == a
    ensures var here := Diff(a, b, path + [Index(k)]);
      Below(here, |path|) && Replay(doc, here, |path|) == Arr(doc.items[k := b])
    decreases a, 1, 1
  {
    hide Apply, Replay, Diff;
    DiffIsInside(a, b, path + [Index(k)]);
    ReplayUnderIndex(doc, k, Diff(a, b, path + [Index(k)]), path);
    ReplayAt(a, b, path + [Index(k)]);
  }

  /** A single change right below the path. */
  lemma ReplayOne(doc: Json, c: Change, path: Path)
    requires |c.path| == |path| + 1 && !c.Changed?
    ensures Below([c], |path|) && Replay(doc, [c], |path|) == Put(doc, c.path[|path|], c)
  {
    assert [c][1..] == [];
    assert Replay(doc, [c], |path|) == Replay(Apply(doc, c, |path|), [], |path|);
  }

  lemma {:induction false} ReplayItems(doc: Json, old_: Json, new_: Json, k: nat, path: Path)
    requires old_.Arr? && new_.Arr? && k <= Max(|old_.items|, |new_.items|)
    requires ItemsSoFar(doc, old_, new_, k)
    ensures Below(DiffItems(old_, new_, k, path), |path|)
    ensures Replay(doc, DiffItems(old_, new_, k, path), |path|) == new_
    decreases old_, 0, Max(|old_.items|, |new_.items|) - k + 1
  {
    ItemsAreInside(old_, new_, k, path);
    if k == Max(|old_.items|, |new_.items|) {
      assert doc.items == new_.items;
    } else {
      ItemsAreInside(old_, new_, k + 1, path);
      var next := ReplayItem(doc, old_, new_, k, path);
      ReplayAppend(doc, DiffItem(old_, new_, k, path), DiffItems(old_, new_, k + 1, path), |path|);
      ReplayItems(next, old_, new_, k + 1, path);
    }
  }

  lemma {:induction false} ReplayItem(doc: Json, old_: Json, new_: Json, k: nat, path: Path) returns (next: Json)
    requires old_.Arr? && new_.Arr? && k < Max(|old_.items|, |new_.items|)
    requires ItemsSoFar(doc, old_, new_, k)
    ensures Below(DiffItem(old_, new_, k, path), |path|)
    ensures next == Replay(doc, DiffItem(old_, new_, k, path), |path|)
    ensures ItemsSoFar(next, old_, new_, k + 1)
    decreases old_, 0, 0
  {
    hide Apply, Replay, Diff;
    if k < |old_.items| && k < |new_.items| {
      assert doc.items[k] == old_.items[k];
      ReplayElement(doc, old_.items[k], new_.items[k], k, path);
      assert doc.items[k := new_.items[k]] == new_.items[..k + 1] + old_.items[k + 1..];
      next := Arr(doc.items[k := new_.items[k]]);
    } else {
      var c := DiffItem(old_, new_, k, path)[0];
      ReplayOne(doc, c, path);
      next := Put(doc, Index(k), c);
      if k >= |old_.items| {
        assert doc.items == new_.items[..k];
        assert new_.items[..k] + [new_.items[k]] == new_.items[..k + 1];
      } else if k == |new_.items| {
        assert doc.items[..k] == new_.items;
      }
    }
  }

  /** The change list, replayed on the old snapshot, yields exactly the new one. */
  lemma ReplayGivesNew(old_: Json, new_: Json)
    ensures Below(Diff(old_, new_, []), 0)
    ensures Replay(old_, Diff(old_, new_, []), 0) == new_
  {
    ReplayAt(old_, new_, []);
  }

  // ----- two equal snapshots have no difference, and only they -----

  lemma {:induction false} SameHasNoDiff(doc: Json, path: Path)
    ensures Diff(doc, doc, path) == []
    decreases doc, 1, 0
  {
    if doc.Obj? {
      SameFields(doc, Sorted(doc.fields.Keys + doc.fields.Keys), path);
    } else if doc.Arr? {
      SameItems(doc, 0, path);
    }
  }

  lemma {:induction false} SameFields(doc: Json, names: seq<string>, path: Path)
    requires doc.Obj? && forall n :: n in names ==> n in doc.fields.Keys + doc.fields.Keys
    ensures DiffFields(doc, doc, names, path) == []
    decreases doc, 0, |names| + 1
  {
    if names != [] {
      assert forall n :: n in names[1..] ==> n in names;
      assert names[0] in names && names[0] in doc.fields;
      SameHasNoDiff(doc.fields[names[0]], path + [Field(names[0])]);
      SameFields(doc, names[1..], path);
    }
  }

  lemma {:induction false} SameItems(doc: Json, k: nat, path: Path)
    requires doc.Arr? && k <= |doc.items|
    ensures DiffItems(doc, doc, k, path) == []
    decreases doc, 0, |doc.items| - k + 1
  {
    if k < |doc.items| {
      SameHasNoDiff(doc.items[k], path + [Index(k)]);
      SameItems(doc, k + 1, path);
    }
  }

  lemma EmptyIffEqual(old_: Json, new_: Json, path: Path)
    ensures Diff(old_, new_, path) == [] <==> old_ == new_
  {
    ReplayAt(old_, new_, path);
    SameHasNoDiff(old_, path);
  }

  // ----- the difference the other way round -----

  function Flip(c: Change): Change {
    match c
    case Added(path, value) => Removed(path, value)
    case Removed(path, value) => Added(path, value)
    case Changed(path, was, now) => Changed(path, now, was)
  }

  function FlipAll(changes: seq<Change>): (r: seq<Change>)
    ensures |r| == |changes|
    ensures forall i :: 0 <= i < |r| ==> r[i] == Flip(changes[i]) && r[i].path == changes[i].path
  {
    seq(|changes|, i requires 0 <= i < |changes| => Flip(changes[i]))
  }

  lemma FlipAppend(a: seq<Change>, b: seq<Change>)
    ensures FlipAll(a + b) == FlipAll(a) + FlipAll(b)
  {
  }

  /** Swapping the arguments keeps every path and exchanges added with removed and old with new. */
  lemma {:induction false} SwapExchanges(old_: Json, new_: Json, path: Path)
    ensures Diff(new_, old_, path) == FlipAll(Diff(old_, new_, path))
    decreases old_, 1, 0
  {
    if old_.Obj? && new_.Obj? {
      assert old_.fields.Keys + new_.fields.Keys == new_.fields.Keys + old_.fields.Keys;
      SwapFields(old_, new_, Sorted(old_.fields.Keys + new_.fields.Keys), path);
    } else if old_.Arr? && new_.Arr? {
      SwapItems(old_, new_, 0, path);
    }
  }

  lemma {:induction false} SwapFields(old_: Json, new_: Json, names: seq<string>, path: Path)
    requires old_.Obj? && new_.Obj? && forall n :: n in names ==> n in old_.fields.Keys + new_.fields.Keys
    ensures DiffFields(new_, old_, names, path) == FlipAll(DiffFields(old_, new_, names, path))
    decreases old_, 0, |names| + 1
  {
    if names != [] {
      var name := names[0];
      assert forall n :: n in names[1..] ==> n in names;
      SwapFields(old_, new_, names[1..], path);
      if name in old_.fields && name in new_.fields {
        SwapExchanges(old_.fields[name], new_.fields[name], path + [Field(name)]);
      }
      FlipAppend(DiffField(old_, new_, name, path), DiffFields(old_, new_, names[1..], path));
    }
  }

  lemma {:induction false} SwapItems(old_: Json, new_: Json, k: nat, path: Path)
    requires old_.Arr? && new_.Arr? && k <= Max(|old_.items|, |new_.items|)
    ensures DiffItems(new_, old_, k, path) == FlipAll(DiffItems(old_, new_, k, path))
    decreases old_, 0, Max(|old_.items|, |new_.items|) - k + 1
  {
    if k < Max(|old_.items|, |new_.items|) {
      SwapItems(old_, new_, k + 1, path);
      if k < |old_.items| && k < |new_.items| {
        SwapExchanges(old_.items[k], new_.items[k], path + [Index(k)]);
      }
      FlipAppend(DiffItem(old_, new_, k, path), DiffItems(old_, new_, k + 1, path));
    }
  }

  // ----- the list holds exactly the changes, each once, in the order of their places -----

  predicate KeyBefore(a: Key, b: Key) {
    match (a, b)
    case (Field(m), Field(n)) => Less(m, n)
    case (Index(i), Index(k)) => i < k
    case _ => false
  }

  /** The places part at some key; neither is the same as the other or within it. */
  ghost predicate PlaceBefore(p: Path, q: Path) {
    exists d: nat :: d < |p| && d < |q| && p[..d] == q[..d] && KeyBefore(p[d], q[d])
  }

  ghost predicate InPlaceOrder(changes: seq<Change>) {
    forall i, j :: 0 <= i < j < |changes| ==> PlaceBefore(changes[i].path, changes[j].path)
  }

  lemma PartedPlaces(p: Path, q: Path)
    requires PlaceBefore(p, q)
    ensures p != q && !(p <= q) && !(q <= p)
  {
    var d: nat :| d < |p| && d < |q| && p[..d] == q[..d] && KeyBefore(p[d], q[d]);
    if p[d].Field? { Total(p[d].name, q[d].name); }
  }

  /** No two changes share a place, and none lies within another. */
  lemma PlacesAreApart(changes: seq<Change>)
    requires InPlaceOrder(changes)
    ensures forall i, j :: 0 <= i < |changes| && 0 <= j < |changes| && i != j ==> !(changes[i].path <= changes[j].path)
  {
    forall i, j | 0 <= i < |changes| && 0 <= j < |changes| && i != j ensures !(changes[i].path <= changes[j].path) {
      if i < j { PartedPlaces(changes[i].path, changes[j].path); } else { PartedPlaces(changes[j].path, changes[i].path); }
    }
  }

  /** A step into a document. */
  function Child(doc: Json, key: Key): Option<Json> {
    match key
    case Field(name) => if doc.Obj? && name in doc.fields then Some(doc.fields[name]) else None
    case Index(k) => if doc.Arr? && k < |doc.items| then Some(doc.items[k]) else None
  }

  lemma AtStep(doc: Json, place: Path)
    requires place != []
    ensures At(doc, place) == if Child(doc, place[0]).Some? then At(Child(doc, place[0]).value, place[1..]) else None
  {
  }

  lemma BothReach(a: Json, b: Json, key: Key)
    requires Child(a, key).Some? && Child(b, key).Some?
    ensures SameShape(a, b)
  {
  }

  /** A change strictly below two values: they have the same shape, and it is a change between the
      members under its first key, or that key is missing on one side. */
  ghost predicate IsChangeUnder(old_: Json, new_: Json, depth: nat, c: Change)
    requires depth < |c.path|
  {
    && SameShape(old_, new_)
    && match (Child(old_, c.path[depth]), Child(new_, c.path[depth]))
       case (None, None) => false
       case (None, Some(b)) => |c.path| == depth + 1 && c == Added(c.path, b)
       case (Some(a), None) => |c.path| == depth + 1 && c == Removed(c.path, a)
       case (Some(a), Some(b)) => IsChange(a, b, depth + 1, c)
  }

  lemma ChangeSteps(old_: Json, new_: Json, depth: nat, c: Change)
    requires depth < |c.path|
    ensures IsChange(old_, new_, depth, c) <==> IsChangeUnder(old_, new_, depth, c)
  {
    var place := c.path[depth..];
    AtStep(old_, place);
    AtStep(new_, place);
    assert place[1..] == c.path[depth + 1..] && place[0] == c.path[depth];
    if Child(old_, place[0]).Some? && Child(new_, place[0]).Some? { BothReach(old_, new_, place[0]); }
    match c {
      case Added(_, value) => OnlyInSteps(new_, old_, place, value);
      case Removed(_, value) => OnlyInSteps(old_, new_, place, value);
      case Changed(_, _, _) =>
    }
    hide At, Child, OnlyIn;
  }

  lemma OnlyInSteps(doc: Json, other: Json, place: Path, value: Json)
    requires place != []
    ensures OnlyIn(doc, other, place, value) <==>
      && SameShape(doc, other)
      && match (Child(doc, place[0]), Child(other, place[0]))
         case (Some(a), None) => |place| == 1 && a == value
         case (Some(a), Some(b)) => OnlyIn(a, b, place[1..], value)
         case _ => false
  {
    hide At, Child, SameShape;
    if |place| == 1 {
      OnlyInHere(doc, other, place, value);
    } else {
      AtStep(doc, place);
      AtStep(other, place);
      AroundSteps(doc, other, place);
      var rest := place[1..];
      assert rest != [];
    }
  }

  lemma OnlyInHere(doc: Json, other: Json, place: Path, value: Json)
    requires |place| == 1
    ensures OnlyIn(doc, other, place, value) <==>
      SameShape(doc, other) && Child(doc, place[0]) == Some(value) && Child(other, place[0]) == None
  {
    AtStep(doc, place);
    AtStep(other, place);
    assert place[..|place| - 1] == [] && place[1..] == [];
    assert At(doc, []) == Some(doc) && At(other, []) == Some(other);
    hide Child, SameShape;
    EmptyPlace(doc, other, place[0]);
  }

  lemma EmptyPlace(doc: Json, other: Json, key: Key)
    ensures Child(doc, key).Some? ==> At(Child(doc, key).value, []) == Child(doc, key)
    ensures Child(other, key).Some? ==> At(Child(other, key).value, []) == Child(other, key)
  {
    hide Child;
  }

  lemma AroundSteps(doc: Json, other: Json, place: Path)
    requires |place| > 1
    ensures var around, a, b := place[..|place| - 1], Child(doc, place[0]), Child(other, place[0]);
      && At(doc, around) == (if a.Some? then At(a.value, place[1..][..|place| - 2]) else None)
      && At(other, around) == (if b.Some? then At(b.value, place[1..][..|place| - 2]) else None)
      && (a.Some? && b.Some? ==> SameShape(doc, other))
  {
    var around := place[..|place| - 1];
    AtStep(doc, around);
    AtStep(other, around);
    assert around[0] == place[0] && around[1..] == place[1..][..|place| - 2];
    if Child(doc, place[0]).Some? && Child(other, place[0]).Some? { BothReach(doc, other, place[0]); }
    hide At, Child;
  }

  /** The difference holds exactly the changes. */
  lemma {:induction false} DiffIsExact(old_: Json, new_: Json, path: Path, c: Change)
    ensures c in Diff(old_, new_, path) <==> IsChangeBelow(old_, new_, path, c)
    decreases old_, 1, 0
  {
    hide IsChangeBelow, DiffFields, DiffItems, Sorted;
    if old_.Obj? && new_.Obj? {
      hide Reached, Child;
      var names := Sorted(old_.fields.Keys + new_.fields.Keys);
      FieldsAreExact(old_, new_, names, path, c);
      MembersOnly(old_, new_, path, c);
      if Reached(old_, new_, path, c) { ReachedField(old_, new_, names, path, c); }
    } else if old_.Arr? && new_.Arr? {
      ItemsAreExact(old_, new_, 0, path, c);
      MembersOnly(old_, new_, path, c);
    } else {
      LeafIsExact(old_, new_, path, c);
    }
  }

  predicate Reached(old_: Json, new_: Json, path: Path, c: Change) {
    |path| < |c.path| && (Child(old_, c.path[|path|]).Some? || Child(new_, c.path[|path|]).Some?)
  }

  lemma ReachedField(old_: Json, new_: Json, names: seq<string>, path: Path, c: Change)
    requires old_.Obj? && new_.Obj? && Reached(old_, new_, path, c)
    requires forall n :: n in names <==> n in old_.fields.Keys + new_.fields.Keys
    ensures exists n :: n in names && c.path[|path|] == Field(n)
  {
    assert c.path[|path|].Field? && c.path[|path|].name in names;
  }

  /** Two values of one shape differ in members of either alone. */
  lemma MembersOnly(old_: Json, new_: Json, path: Path, c: Change)
    requires SameShape(old_, new_)
    ensures IsChangeBelow(old_, new_, path, c) ==> Reached(old_, new_, path, c)
  {
    if |c.path| > |path| {
      ChangeSteps(old_, new_, |path|, c);
      hide At, OnlyIn, IsChange;
    }
  }

  lemma LeafIsExact(old_: Json, new_: Json, path: Path, c: Change)
    requires !SameShape(old_, new_)
    ensures IsChangeBelow(old_, new_, path, c) <==> old_ != new_ && c == Changed(path, old_, new_)
  {
    if |c.path| > |path| {
      ChangeSteps(old_, new_, |path|, c);
      hide At, OnlyIn, IsChange;
    } else if |c.path| == |path| {
      assert c.path[..|path|] == c.path && c.path[|path|..] == [];
    }
  }

  lemma {:induction false} FieldIsExact(old_: Json, new_: Json, name: string, path: Path, c: Change)
    requires old_.Obj? && new_.Obj? && name in old_.fields.Keys + new_.fields.Keys
    ensures c in DiffField(old_, new_, name, path) <==>
      IsChangeBelow(old_, new_, path, c) && |path| < |c.path| && c.path[|path|] == Field(name)
    decreases old_, 0, 0
  {
    OneDeeper(path, Field(name), c);
    if |path| < |c.path| { ChangeSteps(old_, new_, |path|, c); }
    if name in old_.fields && name in new_.fields {
      DiffIsExact(old_.fields[name], new_.fields[name], path + [Field(name)], c);
    }
    hide IsChange, Diff, At;
  }

  lemma OneDeeper(path: Path, key: Key, c: Change)
    ensures |path| + 1 <= |c.path| && c.path[..|path| + 1] == path + [key] <==>
      |path| < |c.path| && c.path[..|path|] == path && c.path[|path|] == key
    ensures |c.path| == |path| + 1 && c.path[..|path|] == path && c.path[|path|] == key <==> c.path == path + [key]
  {
    if |path| < |c.path| { assert c.path[..|path| + 1] == c.path[..|path|] + [c.path[|path|]]; }
    if |c.path| == |path| + 1 { assert c.path[..|path| + 1] == c.path; }
  }

  lemma {:induction false} FieldsAreExact(old_: Json, new_: Json, names: seq<string>, path: Path, c: Change)
    requires old_.Obj? && new_.Obj? && forall n :: n in names ==> n in old_.fields.Keys + new_.fields.Keys
    ensures c in DiffFields(old_, new_, names, path) <==>
      IsChangeBelow(old_, new_, path, c) && |path| < |c.path| && exists n :: n in names && c.path[|path|] == Field(n)
    decreases old_, 0, |names| + 1
  {
    hide IsChange, Diff, At, DiffField;
    if names != [] {
      assert forall n :: n in names[1..] ==> n in names;
      assert names == [names[0]] + names[1..];
      FieldIsExact(old_, new_, names[0], path, c);
      FieldsAreExact(old_, new_, names[1..], path, c);
    }
  }

  lemma {:induction false} ItemIsExact(old_: Json, new_: Json, k: nat, path: Path, c: Change)
    requires old_.Arr? && new_.Arr? && k < Max(|old_.items|, |new_.items|)
    ensures c in DiffItem(old_, new_, k, path) <==>
      IsChangeBelow(old_, new_, path, c) && |path| < |c.path| && c.path[|path|] == Index(k)
    decreases old_, 0, 0
  {
    OneDeeper(path, Index(k), c);
    if |path| < |c.path| { ChangeSteps(old_, new_, |path|, c); }
    if k < |old_.items| && k < |new_.items| {
      DiffIsExact(old_.items[k], new_.items[k], path + [Index(k)], c);
    }
    hide IsChange, Diff, At;
  }

  lemma {:induction false} ItemsAreExact(old_: Json, new_: Json, k: nat, path: Path, c: Change)
    requires old_.Arr? && new_.Arr? && k <= Max(|old_.items|, |new_.items|)
    ensures c in DiffItems(old_, new_, k, path) <==>
      IsChangeBelow(old_, new_, path, c) && |path| < |c.path| && c.path[|path|].Index? &&
      k <= c.path[|path|].at < Max(|old_.items|, |new_.items|)
    decreases old_, 0, Max(|old_.items|, |new_.items|) - k + 1
  {
    hide IsChange, Diff, At, DiffItem;
    if k < Max(|old_.items|, |new_.items|) {
      ItemIsExact(old_, new_, k, path, c);
      ItemsAreExact(old_, new_, k + 1, path, c);
    }
  }

  lemma AppendInPlaceOrder(a: seq<Change>, b: seq<Change>)
    requires InPlaceOrder(a) && InPlaceOrder(b)
    requires forall x, y :: x in a && y in b ==> PlaceBefore(x.path, y.path)
    ensures InPlaceOrder(a + b)
  {
  }

  lemma {:induction false} DiffInPlaceOrder(old_: Json, new_: Json, path: Path)
    ensures InPlaceOrder(Diff(old_, new_, path))
    decreases old_, 1, 0
  {
    if old_.Obj? && new_.Obj? {
      FieldsInPlaceOrder(old_, new_, Sorted(old_.fields.Keys + new_.fields.Keys), path);
    } else if old_.Arr? && new_.Arr? {
      ItemsInPlaceOrder(old_, new_, 0, path);
    }
  }

  lemma {:induction false} FieldsInPlaceOrder(old_: Json, new_: Json, names: seq<string>, path: Path)
    requires old_.Obj? && new_.Obj? && forall n :: n in names ==> n in old_.fields.Keys + new_.fields.Keys
    requires Ascending(names)
    ensures InPlaceOrder(DiffFields(old_, new_, names, path))
    decreases old_, 0, |names| + 1
  {
    hide Less, PlaceBefore, IsChangeBelow;
    if names != [] {
      var name, rest := names[0], names[1..];
      assert forall n :: n in rest ==> n in names;
      if name in old_.fields && name in new_.fields {
        DiffInPlaceOrder(old_.fields[name], new_.fields[name], path + [Field(name)]);
      }
      FieldsInPlaceOrder(old_, new_, rest, path);
      forall x, y | x in DiffField(old_, new_, name, path) && y in DiffFields(old_, new_, rest, path)
        ensures PlaceBefore(x.path, y.path)
      {
        FieldIsExact(old_, new_, name, path, x);
        FieldsAreExact(old_, new_, rest, path, y);
        PartAt(x, y, path, old_, new_);
      }
      AppendInPlaceOrder(DiffField(old_, new_, name, path), DiffFields(old_, new_, rest, path));
    }
  }

  lemma PartAt(x: Change, y: Change, path: Path, old_: Json, new_: Json)
    requires IsChangeBelow(old_, new_, path, x) && IsChangeBelow(old_, new_, path, y)
    requires |path| < |x.path| && |path| < |y.path| && KeyBefore(x.path[|path|], y.path[|path|])
    ensures PlaceBefore(x.path, y.path)
  {
    hide IsChange, KeyBefore;
  }

  lemma {:induction false} ItemsInPlaceOrder(old_: Json, new_: Json, k: nat, path: Path)
    requires old_.Arr? && new_.Arr? && k <= Max(|old_.items|, |new_.items|)
    ensures InPlaceOrder(DiffItems(old_, new_, k, path))
    decreases old_, 0, Max(|old_.items|, |new_.items|) - k + 1
  {
    hide PlaceBefore, IsChangeBelow;
    if k < Max(|old_.items|, |new_.items|) {
      if k < |old_.items| && k < |new_.items| {
        DiffInPlaceOrder(old_.items[k], new_.items[k], path + [Index(k)]);
      }
      ItemsInPlaceOrder(old_, new_, k + 1, path);
      forall x, y | x in DiffItem(old_, new_, k, path) && y in DiffItems(old_, new_, k + 1, path)
        ensures PlaceBefore(x.path, y.path)
      {
        ItemIsExact(old_, new_, k, path, x);
        ItemsAreExact(old_, new_, k + 1, path, y);
        PartAt(x, y, path, old_, new_);
      }
      AppendInPlaceOrder(DiffItem(old_, new_, k, path), DiffItems(old_, new_, k + 1, path));
    }
  }

  /** The list of one comparison: exactly the changes at or below the path, by their places. */
  ghost predicate ListsChanges(changes: seq<Change>, old_: Json, new_: Json, path: Path) {
    && (forall c :: c in changes <==> IsChangeBelow(old_, new_, path, c))
    && InPlaceOrder(changes)
  }

  lemma DiffListsChanges(old_: Json, new_: Json, path: Path)
    ensures ListsChanges(Diff(old_, new_, path), old_, new_, path)
  {
    hide Diff, IsChangeBelow, PlaceBefore;
    forall c ensures c in Diff(old_, new_, path) <==> IsChangeBelow(old_, new_, path, c) {
      DiffIsExact(old_, new_, path, c);
    }
    DiffInPlaceOrder(old_, new_, path);
  }

  /** One field that differs: the change is at the field. */
  lemma OneFieldDiffers()
    ensures Diff(Obj(map["x" := Number(1)]), Obj(map["x" := Number(2)]), []) == [Changed([Field("x")], Number(1), Number(2))]
  {
    var old_, new_ := Obj(map["x" := Number(1)]), Obj(map["x" := Number(2)]);
    var names := Sorted(old_.fields.Keys + new_.fields.Keys);
    assert old_.fields.Keys + new_.fields.Keys == {"x"};
    AscendingIsDistinct(names);
    assert "x" in names;
    var first, last := names[0], names[|names| - 1];
    assert first in names && last in names;
    assert names == ["x"];
    assert DiffFields(old_, new_, ["x"], []) == DiffField(old_, new_, "x", []) + DiffFields(old_, new_, [], []) by {
      assert ["x"][1..] == [];
    }
    assert [] + [Field("x")] == [Field("x")];
    assert DiffField(old_, new_, "x", []) == Diff(Number(1), Number(2), [Field("x")]);
    assert Diff(old_, new_, []) == DiffFields(old_, new_, names, []);
  }

  // ----- the recursion itself, which appends to one shared list -----

  class ChangeList {
    var items: seq<Change>

    constructor ()
      ensures items == []
    {
      items := [];
    }

    method Append(c: Change)
      modifies this
      ensures items == old(items) + [c]
    {
      items := items + [c];
    }
  }

  method DiffInto(old_: Json, new_: Json, path: Path, changes: ChangeList)
    modifies changes
    ensures changes.items == old(changes.items) + Diff(old_, new_, path)
    ensures ListsChanges(changes.items[|old(changes.items)|..], old_, new_, path)
    decreases old_, 1
  {
    DiffListsChanges(old_, new_, path);
    if old_.Obj? && new_.Obj? {
      DiffFieldsInto(old_, new_, Sorted(old_.fields.Keys + new_.fields.Keys), path, changes);
    } else if old_.Arr? && new_.Arr? {
      DiffItemsInto(old_, new_, path, changes);
    } else if old_ != new_ {
      changes.Append(Changed(path, old_, new_));
    }
  }

  lemma NextField(old_: Json, new_: Json, names: seq<string>, i: nat, path: Path)
    requires old_.Obj? && new_.Obj? && forall n :: n in names ==> n in old_.fields.Keys + new_.fields.Keys
    requires i < |names|
    ensures names[i] in names
    ensures forall n :: n in names[i..] || n in names[i + 1..] ==> n in names
    ensures DiffFields(old_, new_, names[i..], path)
         == DiffField(old_, new_, names[i], path) + DiffFields(old_, new_, names[i + 1..], path)
  {
    assert names[i..][0] == names[i] && names[i..][1..] == names[i + 1..];
  }

  method DiffFieldsInto(old_: Json, new_: Json, names: seq<string>, path: Path, changes: ChangeList)
    requires old_.Obj? && new_.Obj? && forall n :: n in names ==> n in old_.fields.Keys + new_.fields.Keys
    modifies changes
    ensures changes.items == old(changes.items) + DiffFields(old_, new_, names, path)
    decreases old_, 0, 1
  {
    ghost var done := [];
    assert names[0..] == names;
    for i := 0 to |names|
      invariant forall n :: n in names[i..] ==> n in names
      invariant changes.items == old(changes.items) + done
      invariant done + DiffFields(old_, new_, names[i..], path) == DiffFields(old_, new_, names, path)
    {
      NextField(old_, new_, names, i, path);
      ghost var here := DiffField(old_, new_, names[i], path);
      DiffFieldInto(old_, new_, names[i], path, changes);
      Regroup(old(changes.items), done, here);
      Regroup(done, here, DiffFields(old_, new_, names[i + 1..], path));
      done := done + here;
    }
    assert names[|names|..] == [] && done + [] == done;
  }

  method DiffFieldInto(old_: Json, new_: Json, name: string, path: Path, changes: ChangeList)
    requires old_.Obj? && new_.Obj? && name in old_.fields.Keys + new_.fields.Keys
    modifies changes
    ensures changes.items == old(changes.items) + DiffField(old_, new_, name, path)
    decreases old_, 0, 0
  {
    var child := path + [Field(name)];
    if name !in old_.fields {
      changes.Append(Added(child, new_.fields[name]));
    } else if name !in new_.fields {
      changes.Append(Removed(child, old_.fields[name]));
    } else {
      DiffInto(old_.fields[name], new_.fields[name], child, changes);
    }
  }

  lemma Regroup(a: seq<Change>, b: seq<Change>, c: seq<Change>)
    ensures (a + b) + c == a + (b + c)
  {
  }

  method DiffItemsInto(old_: Json, new_: Json, path: Path, changes: ChangeList)
    requires old_.Arr? && new_.Arr?
    modifies changes
    ensures changes.items == old(changes.items) + DiffItems(old_, new_, 0, path)
    decreases old_, 0
  {
    ghost var all := DiffItems(old_, new_, 0, path);
    ghost var done := [];
    for k := 0 to Max(|old_.items|, |new_.items|)
      invariant changes.items == old(changes.items) + done
      invariant done + DiffItems(old_, new_, k, path) == all
    {
      var child := path + [Index(k)];
      ghost var here := DiffItem(old_, new_, k, path);
      if k >= |old_.items| {
        changes.Append(Added(child, new_.items[k]));
      } else if k >= |new_.items| {
        changes.Append(Removed(child, old_.items[k]));
      } else {
        DiffInto(old_.items[k], new_.items[k], child, changes);
      }
      Regroup(old(changes.items), done, here);
      Regroup(done, here, DiffItems(old_, new_, k + 1, path));
      done := done + here;
    }
    assert done + [] == done;
  }

  method DiffSnapshots(old_: Json, new_: Json) returns (r: seq<Change>)
    ensures Below(r, 0) && Replay(old_, r, 0) == new_
    ensures forall c :: c in r <==> IsChange(old_, new_, 0, c)
    ensures InPlaceOrder(r) && forall i, j :: 0 <= i < |r| && 0 <= j < |r| && i != j ==> !(r[i].path <= r[j].path)
    ensures r == Diff(old_, new_, [])
  {
    var changes := new ChangeList();
    DiffInto(old_, new_, [], changes);
    ReplayGivesNew(old_, new_);
    assert [] + Diff(old_, new_, []) == Diff(old_, new_, []);
    r := changes.items;
    DiffListsChanges(old_, new_, []);
    PlacesAreApart(r);
    forall c ensures c in r <==> IsChange(old_, new_, 0, c) {
      assert IsChangeBelow(old_, new_, [], c) <==> c in r;
      assert c.path[..0] == [];
    }
  }
}

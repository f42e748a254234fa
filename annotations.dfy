/** The record types shared by the canvas and the application component
    (src/App.tsx), and the two list updates every handler is built from:
    "replace the record with this id" (`map`) and "drop the records with
    this id" (`filter`). */
module Annotations {
  import opened Wrappers
  import opened Seqs

  /** The four element kinds an annotation can be tagged with. */
  datatype Tag = Button | Input | Radio | Dropdown

  /** The tag list in declaration order; its first entry is the tag a newly
      drawn box receives. */
  const TAGS: seq<Tag> := [Button, Input, Radio, Dropdown]

  /** Who produced a record: the user by drawing, or the prediction service. */
  datatype Source = Manual | Llm

  /** Record identifiers are strings produced outside the model. */
  type Id = string

  /** An axis-aligned box. Width and height may be
      negative while a box is being drawn. */
  datatype Rect = Rect(x: real, y: real, width: real, height: real)

  datatype Annotation = Annotation(x: real, y: real, width: real, height: real,
                                   tag: Tag, id: Id, source: Source)

  /** JavaScript truthiness of a `string | null` value: null and "" are falsy. */
  predicate Truthy(s: Option<string>) {
    s.Some? && s.value != ""
  }

  function IdSet(s: seq<Annotation>): set<Id> {
    set a | a in s :: a.id
  }

  /** The store's key invariant: no two records share an id. */
  ghost predicate UniqueIds(s: seq<Annotation>) {
    forall i, j :: 0 <= i < j < |s| ==> s[i].id != s[j].id
  }

  lemma UniqueAppend(s: seq<Annotation>, t: seq<Annotation>)
    requires UniqueIds(s) && UniqueIds(t)
    requires IdSet(s) !! IdSet(t)
    ensures UniqueIds(s + t)
  {
    forall i, j | 0 <= i < j < |s + t| ensures (s + t)[i].id != (s + t)[j].id {
      if j >= |s| && i < |s| {
        assert s[i] in s && t[j - |s|] in t;
        assert s[i].id in IdSet(s) && t[j - |s|].id in IdSet(t);
      }
    }
  }

  /** Dropping records never creates a duplicate id. */
  lemma {:induction false} FilterKeepsUnique(s: seq<Annotation>, keep: Annotation -> bool)
    requires UniqueIds(s)
    ensures UniqueIds(Filter(s, keep))
    ensures IdSet(Filter(s, keep)) <= IdSet(s)
  {
    if s != [] {
      assert UniqueIds(s[1..]);
      FilterKeepsUnique(s[1..], keep);
      var rest := Filter(s[1..], keep);
      assert s[0].id !in IdSet(rest);
      if keep(s[0]) {
        assert IdSet([s[0]]) == {s[0].id};
        UniqueAppend([s[0]], rest);
      }
    }
  }

  /** The first record with id `id`, as `Array.prototype.find` gives it. */
  function FindById(s: seq<Annotation>, id: Id): (r: Option<Annotation>)
    ensures r.None? <==> id !in IdSet(s)
    ensures r.Some? ==> exists i :: 0 <= i < |s| && s[i] == r.value && r.value.id == id &&
                                     forall j :: 0 <= j < i ==> s[j].id != id
  {
    if s == [] then None
    else if s[0].id == id then Some(s[0])
    else
      assert IdSet(s) == {s[0].id} + IdSet(s[1..]) by {
        assert forall a :: a in s <==> a == s[0] || a in s[1..];
      }
      var r := FindById(s[1..], id);
      assert r.Some? ==> exists i :: 1 <= i < |s| && s[i] == r.value && r.value.id == id &&
                                     forall j :: 0 <= j < i ==> s[j].id != id by {
        if r.Some? {
          var i :| 0 <= i < |s[1..]| && s[1..][i] == r.value && r.value.id == id &&
                   forall j :: 0 <= j < i ==> s[1..][j].id != id;
          assert s[i + 1] == r.value;
          assert forall j :: 0 <= j < i + 1 ==> s[j].id != id by {
            forall j | 0 <= j < i + 1 ensures s[j].id != id {
              if j > 0 { assert s[j] == s[1..][j - 1]; }
            }
          }
        }
      }
      r
  }

  /** The id-guarded map of the drag, resize and retag handlers: every
      record with id `id` is replaced by `f` of it, every other record is
      kept. */
  function UpdateById(s: seq<Annotation>, id: Id, f: Annotation -> Annotation): (r: seq<Annotation>)
    ensures |r| == |s|
  {
    seq(|s|, i requires 0 <= i < |s| => if s[i].id == id then f(s[i]) else s[i])
  }

  /** An update that keeps each record's id keeps the id list of the store,
      hence its uniqueness; with no record carrying `id` it changes nothing. */
  lemma UpdateKeepsIds(s: seq<Annotation>, id: Id, f: Annotation -> Annotation)
    requires forall a :: f(a).id == a.id
    ensures forall i :: 0 <= i < |s| ==> UpdateById(s, id, f)[i].id == s[i].id
    ensures IdSet(UpdateById(s, id, f)) == IdSet(s)
    ensures UniqueIds(s) ==> UniqueIds(UpdateById(s, id, f))
    ensures id !in IdSet(s) ==> UpdateById(s, id, f) == s
  {
    var r := UpdateById(s, id, f);
    forall x | x in IdSet(r) ensures x in IdSet(s) {
      var a :| a in r && a.id == x;
      var i :| 0 <= i < |r| && r[i] == a;
      assert s[i] in s;
    }
    forall x | x in IdSet(s) ensures x in IdSet(r) {
      var a :| a in s && a.id == x;
      var i :| 0 <= i < |s| && s[i] == a;
      assert r[i] in r;
    }
    if id !in IdSet(s) {
      forall i | 0 <= i < |s| ensures r[i] == s[i] {
        assert s[i] in s;
      }
    }
  }

  /** The first match after an update is the update of the first match. */
  lemma {:induction false} UpdateThenFind(s: seq<Annotation>, id: Id, f: Annotation -> Annotation)
    requires forall a :: f(a).id == a.id
    ensures FindById(UpdateById(s, id, f), id) ==
            (if FindById(s, id).Some? then Some(f(FindById(s, id).value)) else None)
  {
    if s != [] {
      var r := UpdateById(s, id, f);
      assert r[1..] == UpdateById(s[1..], id, f);
      assert r[0].id == s[0].id;
      UpdateThenFind(s[1..], id, f);
    }
  }

  /** The delete handler's test: the record carries another id. */
  function OtherThan(id: Id): Annotation -> bool {
    (a: Annotation) => a.id != id
  }

  /** The records with another id than `id`, in their order. */
  function RemoveId(s: seq<Annotation>, id: Id): seq<Annotation> {
    Filter(s, OtherThan(id))
  }

  /** Deleting keeps exactly the records with another id, in their order,
      and leaves no record with the deleted id. */
  lemma RemoveIdSpec(s: seq<Annotation>, id: Id)
    ensures forall a :: a in RemoveId(s, id) <==> a in s && a.id != id
    ensures id !in IdSet(RemoveId(s, id))
    ensures FindById(RemoveId(s, id), id) == None
    ensures UniqueIds(s) ==> UniqueIds(RemoveId(s, id))
    ensures id !in IdSet(s) ==> RemoveId(s, id) == s
    ensures forall t :: RemoveId(s + t, id) == RemoveId(s, id) + RemoveId(t, id)
  {
    if UniqueIds(s) {
      FilterKeepsUnique(s, OtherThan(id));
    }
    if id !in IdSet(s) {
      forall i | 0 <= i < |s| ensures OtherThan(id)(s[i]) {
        assert s[i] in s;
      }
      FilterKeepsAll(s, OtherThan(id));
    }
    forall t ensures RemoveId(s + t, id) == RemoveId(s, id) + RemoveId(t, id) {
      FilterConcat(s, t, OtherThan(id));
    }
  }
}

/**
 * Plain JavaScript objects as the screens and the store handle them: a map
 * from field name to value, where an absent key reads as `undefined`.
 * Object spread `{...a, ...b}` is map union with `b` winning.
 */
module Records {
  import opened Wrappers
  import opened Text
  import Lists

  /** A field value: string, number, boolean, `null`, or an array/object shown by its `String()` text. */
  datatype Value = Str(s: string) | Num(n: int) | Bool(b: bool) | Null | Obj(text: string)

  type Record = map<string, Value>

  /** `r[field]`, with `None` for `undefined`. */
  function Get(r: Record, field: string): Option<Value> {
    if field in r then Some(r[field]) else None
  }

  predicate HasText(r: Record, field: string) { field in r && r[field].Str? }

  function TextOf(r: Record, field: string): string
    requires HasText(r, field)
  {
    r[field].s
  }

  /** `String(value)`; an absent field prints as "undefined". */
  function Stringify(v: Option<Value>): string {
    match v
    case None => "undefined"
    case Some(Str(s)) => s
    case Some(Num(n)) => IntToString(n)
    case Some(Bool(b)) => if b then "true" else "false"
    case Some(Null) => "null"
    case Some(Obj(t)) => t
  }

  /** `{...base, ...updates}`: every field of `updates` wins, every other field of `base` stays. */
  function Merge(base: Record, updates: Record): (r: Record)
    ensures r.Keys == base.Keys + updates.Keys
    ensures forall k :: k in updates ==> r[k] == updates[k]
    ensures forall k :: k in base && k !in updates ==> r[k] == base[k]
  {
    base + updates
  }

  /** `record.id === id` for a string id. */
  predicate HasId(r: Record, id: string) { Get(r, "id") == Some(Str(id)) }

  // ------------------------------------------------------------------ list updates

  /** `xs.map(x => x.id === id ? {...x, ...updates} : x)` */
  function UpdateById(xs: seq<Record>, id: string, updates: Record): (r: seq<Record>)
    ensures |r| == |xs|
    ensures forall i :: 0 <= i < |xs| && !HasId(xs[i], id) ==> r[i] == xs[i]
    ensures forall i :: 0 <= i < |xs| && HasId(xs[i], id) ==>
      r[i].Keys == xs[i].Keys + updates.Keys &&
      (forall k :: k in updates ==> r[i][k] == updates[k]) &&
      (forall k :: k in xs[i] && k !in updates ==> r[i][k] == xs[i][k])
  {
    seq(|xs|, i requires 0 <= i < |xs| => if HasId(xs[i], id) then Merge(xs[i], updates) else xs[i])
  }

  /** An update whose id matches no element leaves the list as it was. */
  lemma UpdateByIdAbsent(xs: seq<Record>, id: string, updates: Record)
    requires forall i :: 0 <= i < |xs| ==> !HasId(xs[i], id)
    ensures UpdateById(xs, id, updates) == xs
  {
  }

  /** An update never changes an element's id unless `updates` itself carries an `id`. */
  lemma UpdateByIdKeepsIds(xs: seq<Record>, id: string, updates: Record, i: int)
    requires "id" !in updates && 0 <= i < |xs|
    ensures Get(UpdateById(xs, id, updates)[i], "id") == Get(xs[i], "id")
  {
  }

  function NotId(id: string): Record -> bool { r => !HasId(r, id) }

  /** `xs.filter(x => x.id !== id)` */
  function DeleteById(xs: seq<Record>, id: string): (r: seq<Record>)
    ensures forall i :: 0 <= i < |r| ==> !HasId(r[i], id)
    ensures forall i :: 0 <= i < |xs| && !HasId(xs[i], id) ==> xs[i] in r
    ensures forall i :: 0 <= i < |r| ==> r[i] in xs
    ensures |r| == |xs| - Lists.CountIf(xs, (x: Record) => HasId(x, id))
  {
    Lists.FilterLength(xs, NotId(id));
    ComplementCount(xs, id);
    Lists.Filter(xs, NotId(id))
  }

  lemma {:induction false} ComplementCount(xs: seq<Record>, id: string)
    ensures Lists.CountIf(xs, NotId(id)) == |xs| - Lists.CountIf(xs, (x: Record) => HasId(x, id))
  {
    if xs != [] { ComplementCount(xs[1..], id); }
  }

  /** Deleting keeps the survivors in their order. */
  lemma DeleteByIdIsSubsequence(xs: seq<Record>, id: string)
    ensures Lists.IsSubsequence(DeleteById(xs, id), xs)
  {
    Lists.FilterIsSubsequence(xs, NotId(id));
  }

  /** Deleting an id that is absent changes nothing. */
  lemma DeleteByIdAbsent(xs: seq<Record>, id: string)
    requires forall i :: 0 <= i < |xs| ==> !HasId(xs[i], id)
    ensures DeleteById(xs, id) == xs
  {
    Lists.FilterKeepsAll(xs, NotId(id));
  }

  /** Deleting the id of a record just appended undoes the append, when no earlier record had that id. */
  lemma DeleteUndoesAdd(xs: seq<Record>, x: Record, id: string)
    requires HasId(x, id)
    requires forall i :: 0 <= i < |xs| ==> !HasId(xs[i], id)
    ensures DeleteById(xs + [x], id) == xs
  {
    Lists.FilterAppend(xs, [x], NotId(id));
    Lists.FilterKeepsAll(xs, NotId(id));
    assert Lists.Filter([x], NotId(id)) == [];
  }

  /** Applying the same update twice is applying it once, when the update keeps the id. */
  lemma UpdateByIdIdempotent(xs: seq<Record>, id: string, updates: Record)
    requires "id" !in updates
    ensures UpdateById(UpdateById(xs, id, updates), id, updates) == UpdateById(xs, id, updates)
  {
    var once := UpdateById(xs, id, updates);
    forall i | 0 <= i < |xs|
      ensures UpdateById(once, id, updates)[i] == once[i]
    {
      UpdateByIdKeepsIds(xs, id, updates, i);
      if HasId(xs[i], id) {
        assert Merge(once[i], updates) == once[i];
      }
    }
  }
}

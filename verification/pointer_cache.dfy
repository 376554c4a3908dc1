/**
 * The pointer cache: the last event of every pointer currently pressed on the
 * element, in the order the pointers went down. Lookup, update and removal
 * are by pointer id and act on the FIRST entry carrying that id.
 */
module PointerCache {

  import opened Optional
  import opened Geometry

  /** The fields of a `PointerEvent` the controller reads; `target` is a
      reference to the event's target element, None for `null`. */
  datatype Pointer = Pointer(
    id: int,
    clientX: real, clientY: real,
    screenX: real, screenY: real,
    target: Option<nat>)

  function Screen(p: Pointer, a: Axis): real {
    if a == X then p.screenX else p.screenY
  }

  function Client(p: Pointer): Point {
    Point(p.clientX, p.clientY)
  }

  /** Position of the first entry with the given id. */
  function IndexOf(cache: seq<Pointer>, id: int): (r: Option<nat>)
    ensures r.Some? ==> r.value < |cache| && cache[r.value].id == id
    ensures r.Some? ==> forall j :: 0 <= j < r.value ==> cache[j].id != id
    ensures r.None? <==> forall j :: 0 <= j < |cache| ==> cache[j].id != id
    decreases |cache|
  {
    if |cache| == 0 then None
    else if cache[0].id == id then Some(0)
    else match IndexOf(cache[1..], id)
      case None => None
      case Some(i) => Some(i + 1)
  }

  /** The first entry at or after which the id occurs is the one IndexOf finds. */
  lemma IndexOfIsFirst(cache: seq<Pointer>, id: int, i: nat)
    requires i < |cache| && cache[i].id == id
    requires forall j :: 0 <= j < i ==> cache[j].id != id
    ensures IndexOf(cache, id) == Some(i)
  {
  }

  /** `#updatePointerCache`: the first entry with the event's id is replaced
      by the event; with no such entry the cache is unchanged. */
  function Update(cache: seq<Pointer>, p: Pointer): (r: seq<Pointer>)
    ensures |r| == |cache|
    ensures IndexOf(cache, p.id).None? ==> r == cache
    ensures IndexOf(cache, p.id).Some? ==> r == cache[IndexOf(cache, p.id).value := p]
    decreases |cache|
  {
    if |cache| == 0 then []
    else if cache[0].id == p.id then [p] + cache[1..]
    else [cache[0]] + Update(cache[1..], p)
  }

  /** `#removeFromPointerCache` (without the pinch reset): the first entry
      with the id is cut out, the others keep their order. */
  function Remove(cache: seq<Pointer>, id: int): (r: seq<Pointer>)
    ensures IndexOf(cache, id).None? ==> r == cache
    ensures IndexOf(cache, id).Some? ==>
              var i := IndexOf(cache, id).value; r == cache[..i] + cache[i + 1..]
    decreases |cache|
  {
    if |cache| == 0 then []
    else if cache[0].id == id then cache[1..]
    else [cache[0]] + Remove(cache[1..], id)
  }

  /** The source's indexed loop for the update, with its early `break`. */
  method UpdateLoop(cache: seq<Pointer>, p: Pointer) returns (r: seq<Pointer>)
    ensures r == Update(cache, p)
  {
    r := cache;
    var i := 0;
    while i < |r|
      invariant 0 <= i <= |r|
      invariant r == cache
      invariant forall j :: 0 <= j < i ==> cache[j].id != p.id
    {
      if p.id == r[i].id {
        IndexOfIsFirst(cache, p.id, i);
        r := r[i := p];
        return;
      }
      i := i + 1;
    }
  }

  /** The source's indexed loop for the removal, splicing one entry out. */
  method RemoveLoop(cache: seq<Pointer>, id: int) returns (r: seq<Pointer>)
    ensures r == Remove(cache, id)
  {
    r := cache;
    var i := 0;
    while i < |r|
      invariant 0 <= i <= |r|
      invariant r == cache
      invariant forall j :: 0 <= j < i ==> cache[j].id != id
    {
      if r[i].id == id {
        IndexOfIsFirst(cache, id, i);
        r := r[..i] + r[i + 1..];
        return;
      }
      i := i + 1;
    }
  }

  /** Removing a freshly appended pointer gives back the cache it was appended to. */
  lemma {:induction false} RemoveAfterAppend(cache: seq<Pointer>, p: Pointer)
    requires IndexOf(cache, p.id).None?
    ensures Remove(cache + [p], p.id) == cache
  {
    var c := cache + [p];
    forall j | 0 <= j < |cache| ensures c[j].id != p.id {
      assert c[j] == cache[j];
    }
    IndexOfIsFirst(c, p.id, |cache|);
    assert c[..|cache|] == cache;
  }

}

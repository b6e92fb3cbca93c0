/**
  The store of saved designs (StorageService.swift): an in-memory list, newest
  first, written through to the persistent key-value store after every change.
  The persistent copy is a ghost field; the JSON encoding and the key-value
  store itself are not modelled.
 */
module Storage {
  import opened Wrappers
  import opened Design

  /**
    `removeAll { $0.id == id }`: the list without the designs carrying `id`,
    the others kept in their order.
   */
  function RemoveById(designs: seq<GeneratedDesign>, id: string): (rest: seq<GeneratedDesign>)
    ensures forall d :: d in rest <==> d in designs && d.id != id
    ensures |rest| <= |designs|
  {
    if designs == [] then []
    else (if designs[0].id == id then [] else [designs[0]]) + RemoveById(designs[1..], id)
  }

  /** No design of the list carries `id`. */
  predicate AbsentId(designs: seq<GeneratedDesign>, id: string) {
    forall d :: d in designs ==> d.id != id
  }

  /** Removal works element by element: it distributes over concatenation, so the order is kept. */
  lemma {:induction false} RemoveByIdAppend(a: seq<GeneratedDesign>, b: seq<GeneratedDesign>, id: string)
    ensures RemoveById(a + b, id) == RemoveById(a, id) + RemoveById(b, id)
  {
    if a == [] {
      assert a + b == b;
    } else {
      var ab := a + b;
      assert ab[0] == a[0] && ab[1..] == a[1..] + b;
      RemoveByIdAppend(a[1..], b, id);
    }
  }

  /** Removing an id nobody carries changes nothing. */
  lemma {:induction false} RemoveByIdAbsent(designs: seq<GeneratedDesign>, id: string)
    requires AbsentId(designs, id)
    ensures RemoveById(designs, id) == designs
  {
    if designs != [] {
      assert designs[0] in designs;
      assert AbsentId(designs[1..], id) by {
        forall d | d in designs[1..] ensures d.id != id {
          assert d in designs;
        }
      }
      RemoveByIdAbsent(designs[1..], id);
    }
  }

  /** Removing the same id twice removes nothing more. */
  lemma RemoveByIdIdempotent(designs: seq<GeneratedDesign>, id: string)
    ensures RemoveById(RemoveById(designs, id), id) == RemoveById(designs, id)
  {
    RemoveByIdAbsent(RemoveById(designs, id), id);
  }

  /** Deleting two designs gives the same list in either order. */
  lemma {:induction false} RemoveByIdCommutes(designs: seq<GeneratedDesign>, id: string, other: string)
    ensures RemoveById(RemoveById(designs, id), other) == RemoveById(RemoveById(designs, other), id)
  {
    if designs != [] {
      var d := designs[0];
      var tail := designs[1..];
      assert designs == [d] + tail;
      RemoveByIdAppend([d], tail, id);
      RemoveByIdAppend([d], tail, other);
      RemoveByIdAppend(RemoveById([d], id), RemoveById(tail, id), other);
      RemoveByIdAppend(RemoveById([d], other), RemoveById(tail, other), id);
      RemoveByIdCommutes(tail, id, other);
    }
  }

  /** Saving a design with a new id and then deleting it restores the list. */
  lemma SaveThenDelete(designs: seq<GeneratedDesign>, design: GeneratedDesign)
    requires AbsentId(designs, design.id)
    ensures RemoveById([design] + designs, design.id) == designs
  {
    RemoveByIdAppend([design], designs, design.id);
    RemoveByIdAbsent(designs, design.id);
  }

  class StorageService {
    /** `savedDesigns`, newest first. */
    var savedDesigns: seq<GeneratedDesign>
    /** The designs last written to the persistent store, or None while nothing has been written. */
    ghost var persisted: Option<seq<GeneratedDesign>>

    /** Every change has been written through: the persistent copy is the list. */
    ghost predicate Persisted()
      reads this
    {
      persisted == Some(savedDesigns)
    }

    /**
      `init` / `loadDesigns`: `stored` is what the persistent store decodes to
      (None when the key is missing or its data does not decode). The list
      starts from it, or empty; nothing is written.
     */
    constructor (stored: Option<seq<GeneratedDesign>>)
      ensures savedDesigns == stored.GetOr([])
      ensures persisted == stored
      ensures stored.Some? ==> Persisted()
    {
      savedDesigns := stored.GetOr([]);
      persisted := stored;
    }

    /** `save`: the design goes first, the rest follow unchanged, and the list is persisted. */
    method Save(design: GeneratedDesign)
      modifies this
      ensures savedDesigns == [design] + old(savedDesigns)
      ensures Persisted()
    {
      savedDesigns := [design] + savedDesigns;
      persisted := Some(savedDesigns);
    }

    /** `delete`: every design with the given design's id goes, the rest keep their order; persisted. */
    method Delete(design: GeneratedDesign)
      modifies this
      ensures savedDesigns == RemoveById(old(savedDesigns), design.id)
      ensures Persisted()
    {
      savedDesigns := RemoveById(savedDesigns, design.id);
      persisted := Some(savedDesigns);
    }

    /** `deleteAll`: the list is emptied and the empty list persisted. */
    method DeleteAll()
      modifies this
      ensures savedDesigns == []
      ensures Persisted()
    {
      savedDesigns := [];
      persisted := Some(savedDesigns);
    }
  }
}

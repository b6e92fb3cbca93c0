/**
  The gallery screen's state (GalleryViewModel.swift): a copy of the store's
  list and the design the user last selected. The shared store singleton is
  passed in as `storage`.
 */
module Gallery {
  import opened Wrappers
  import opened Design
  import opened Storage

  class GalleryViewModel {
    /** `designs`: the store's list as of the last reload. */
    var designs: seq<GeneratedDesign>
    /** `selectedDesign` */
    var selectedDesign: Option<GeneratedDesign>
    /** `StorageService.shared` */
    const storage: StorageService

    /** The gallery shows the store's current list. */
    ghost predicate InSync()
      reads this, storage
    {
      designs == storage.savedDesigns
    }

    /** `init`: loads the store's list; nothing is selected. */
    constructor (storage: StorageService)
      ensures this.storage == storage
      ensures InSync()
      ensures selectedDesign == None
    {
      this.storage := storage;
      designs := storage.savedDesigns;
      selectedDesign := None;
    }

    /** `loadDesigns`: copies the store's list; the selection is untouched. */
    method LoadDesigns()
      modifies this
      ensures InSync()
      ensures selectedDesign == old(selectedDesign)
    {
      designs := storage.savedDesigns;
    }

    /** `selectDesign`: the design becomes the selection; the list is untouched. */
    method SelectDesign(design: GeneratedDesign)
      modifies this
      ensures selectedDesign == Some(design)
      ensures designs == old(designs)
    {
      selectedDesign := Some(design);
    }

    /**
      `deleteDesign`: the store drops every design with this id and persists,
      then the gallery reloads. The selection is not cleared, even when it is
      the deleted design.
     */
    method DeleteDesign(design: GeneratedDesign)
      modifies this, storage
      ensures storage.savedDesigns == RemoveById(old(storage.savedDesigns), design.id)
      ensures storage.Persisted()
      ensures InSync()
      ensures selectedDesign == old(selectedDesign)
    {
      storage.Delete(design);
      LoadDesigns();
    }

    /** `deleteAll`: the store is emptied and persisted, then the gallery reloads, so it is empty too. */
    method DeleteAll()
      modifies this, storage
      ensures storage.savedDesigns == [] && designs == []
      ensures storage.Persisted()
      ensures selectedDesign == old(selectedDesign)
    {
      storage.DeleteAll();
      LoadDesigns();
    }
  }
}

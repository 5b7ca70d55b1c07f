/** The guard on changes to SD files, from the text that disk_change_begin compares to the
    paths that the disk machine reasons about (src/disk/disk.c, src/disk/sd.c). */
module DiskGuard {
  import opened Bytes
  import opened DiskCore
  import opened DiskMachine
  import opened SdPath
  import opened SdIdentity

  /** A mounted local image carries the short names on the way to the place it is at. */
  predicate NamedAfter(root: Node, slot: Slot, image: Place) {
    slot.mounted && !slot.remote ==> Exists(root, image) && image != [] && slot.canon == ShortNames(root, image)
  }

  /** What disk_change_begin tests of one slot, on the names as text. */
  predicate Hit(slot: Slot, canon: string) { slot.mounted && !slot.remote && CharTest(Join(slot.canon), canon) }

  /** The test on the text of the two names says what the machine's guard asks, which is
      whether the change is to the mounted image or to a folder on the way to it. */
  lemma HitIsTouch(root: Node, slot: Slot, image: Place, path: Place)
    requires Good(root) && Exists(root, path) && NamedAfter(root, slot, image)
    ensures Hit(slot, Join(ShortNames(root, path))) <==> Touches(slot, ShortNames(root, path))
    ensures Touches(slot, ShortNames(root, path)) <==> slot.mounted && !slot.remote && path <= image
  {
    if slot.mounted && !slot.remote {
      CharTestIsAncestry(root, image, path);
    }
  }

  /** The loop of disk_change_begin finds the drive that the machine's guard finds. */
  method FindHolder(drv: seq<Slot>, canon: string, ghost root: Node, ghost path: Place, ghost images: seq<Place>)
      returns (r: Option<nat>)
    requires Good(root) && Exists(root, path) && canon == Join(ShortNames(root, path)) && |images| == |drv|
    requires forall d :: 0 <= d < |drv| ==> NamedAfter(root, drv[d], images[d])
    ensures r == Holder(drv, ShortNames(root, path))
    ensures r.Some? <==> exists d :: 0 <= d < |drv| && drv[d].mounted && !drv[d].remote && path <= images[d]
  {
    ghost var p := ShortNames(root, path);
    for d := 0 to |drv|
      invariant Holder(drv, p) == Holder(drv, p, d)
      invariant forall e :: 0 <= e < d ==> !(drv[e].mounted && !drv[e].remote && path <= images[e])
    {
      HitIsTouch(root, drv[d], images[d], path);
      if !drv[d].mounted || drv[d].remote || Join(drv[d].canon) == "" {
        continue;
      }
      if CharTest(Join(drv[d].canon), canon) {
        return Some(d);
      }
    }
    return None;
  }
}

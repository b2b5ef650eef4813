/**
 * The tilt-driven photo gallery of src/components/sensor-gallery.js.
 *
 * An effect reacts to each new orientation label (unless the hook is still
 * settling or the label equals the last handled one) by moving the index over
 * the photo list, and every move raises the loading flag that only the
 * image's load callback lowers.
 */
module Gallery {
  import opened Common
  import opened Orientation

  /** The fields of a photo record the gallery reads by itself. */
  datatype Photo = Photo(id: string, imageUrl: string)

  /** The previous photo, wrapping from the first to the last.
      The operands are never negative, so JavaScript's `%` agrees with Dafny's. */
  function PrevIndex(i: nat, n: nat): (r: nat)
    requires n > 0
    ensures r < n
    ensures i < n ==> r == (if i == 0 then n - 1 else i - 1)
  {
    (i - 1 + n) % n
  }

  /** The next photo, wrapping from the last to the first. */
  function NextIndex(i: nat, n: nat): (r: nat)
    requires n > 0
    ensures r < n
    ensures i < n ==> r == (if i == n - 1 then 0 else i + 1)
  {
    (i + 1) % n
  }

  /** The two tilts undo each other on any index in range. */
  lemma TiltsAreInverse(i: nat, n: nat)
    requires 0 < n && i < n
    ensures PrevIndex(NextIndex(i, n), n) == i
    ensures NextIndex(PrevIndex(i, n), n) == i
  {
  }

  /** The gallery's React state besides the photo list. */
  datatype View = View(index: nat, isLoading: bool, last: Option<Label>)

  /** The view when the gallery mounts. */
  function Mounted(): (v: View)
    ensures v.index == 0 && v.isLoading && v.last == None
  {
    View(0, true, None)
  }

  /**
   * The effect on a new `orientation` over `n` photos. Tilts and horizontal move
   * the index and raise the loading flag; vertical moves nothing but is still
   * recorded as handled; while settling, or for the label handled last, nothing
   * changes at all.
   */
  function React(v: View, orientation: Label, settling: bool, n: nat): (r: View)
    requires n > 0
    ensures settling || v.last == Some(orientation) ==> r == v
    ensures !settling && v.last != Some(orientation) ==> r.last == Some(orientation)
    ensures orientation == RightTilt && !settling && v.last != Some(orientation) ==> r.index == PrevIndex(v.index, n) && r.isLoading
    ensures orientation == LeftTilt && !settling && v.last != Some(orientation) ==> r.index == NextIndex(v.index, n) && r.isLoading
    ensures orientation == Horizontal && !settling && v.last != Some(orientation) ==> r.index == 0 && r.isLoading
    ensures orientation == Vertical ==> r.index == v.index && r.isLoading == v.isLoading
    // the effect never lowers the loading flag, and every move raises it
    ensures v.isLoading ==> r.isLoading
    ensures r.index != v.index ==> r.isLoading
    // an index in range stays in range, and any move lands in range
    ensures v.index < n ==> r.index < n
    ensures r.index != v.index ==> r.index < n
  {
    if settling || v.last == Some(orientation) then v
    else
      var moved :=
        match orientation
        case RightTilt => v.(index := PrevIndex(v.index, n), isLoading := true)
        case LeftTilt => v.(index := NextIndex(v.index, n), isLoading := true)
        case Horizontal => v.(index := 0, isLoading := true)
        case Vertical => v;
      moved.(last := Some(orientation))
  }

  /** A left tilt followed by a right tilt (or the reverse), once settled,
      returns to the photo the gallery started from. */
  lemma TiltThereAndBack(v: View, first: Label, second: Label, n: nat)
    requires 0 < n && v.index < n
    requires (first == LeftTilt && second == RightTilt) || (first == RightTilt && second == LeftTilt)
    requires v.last != Some(first)
    ensures React(React(v, first, false, n), second, false, n).index == v.index
  {
    TiltsAreInverse(v.index, n);
  }

  /** Reset is idempotent: a second horizontal event changes nothing, and a
      horizontal event after any other label lands on index 0 again. */
  lemma ResetIsIdempotent(v: View, other: Label, n: nat)
    requires 0 < n
    ensures var once := React(v, Horizontal, false, n);
            React(once, Horizontal, false, n) == once
    ensures var once := React(v, Horizontal, false, n);
            other != Horizontal ==> React(React(once, other, false, n), Horizontal, false, n).index == 0
  {
  }

  /** The view after a stream of (label, settling) updates of the hook. */
  function Replay(v: View, updates: seq<(Label, bool)>, n: nat): (r: View)
    requires n > 0
    ensures v.index < n ==> r.index < n
    ensures v.isLoading ==> r.isLoading
    decreases |updates|
  {
    if updates == [] then v
    else Replay(React(v, updates[0].0, updates[0].1, n), updates[1..], n)
  }

  /** Settling suppresses every update: the view after any stream of updates
      received while the hook is settling is the view it started with. */
  lemma {:induction false} SettlingSuppressesAll(v: View, updates: seq<(Label, bool)>, n: nat)
    requires n > 0
    requires forall k :: 0 <= k < |updates| ==> updates[k].1
    ensures Replay(v, updates, n) == v
    decreases |updates|
  {
    if updates != [] {
      SettlingSuppressesAll(v, updates[1..], n);
    }
  }

  /** The photo on screen: nothing for an empty list (the component renders
      null) or for an index the list no longer reaches. */
  function Shown(photos: seq<Photo>, index: nat): (r: Option<Photo>)
    ensures r.Some? <==> index < |photos|
    ensures r.Some? ==> r.value == photos[index]
  {
    if index < |photos| then Some(photos[index]) else None
  }

  /** The gallery component. Its caller mounts it only with a non-empty list. */
  class SensorGallery {
    var photos: seq<Photo>
    var currentIndex: nat
    var isLoading: bool
    var lastOrientation: Option<Label>

    ghost predicate Valid()
      reads this
    {
      |photos| > 0
    }

    ghost function Current(): View
      reads this
    {
      View(currentIndex, isLoading, lastOrientation)
    }

    constructor (photos: seq<Photo>)
      requires |photos| > 0
      ensures Valid() && this.photos == photos && Current() == Mounted()
    {
      this.photos := photos;
      currentIndex := 0;
      isLoading := true;
      lastOrientation := None;
    }

    /** The effect run for a new `orientation` / `isInitialRender` pair. */
    method OnOrientation(orientation: Label, isInitialRender: bool)
      requires Valid()
      modifies this
      ensures Valid() && photos == old(photos)
      ensures Current() == React(old(Current()), orientation, isInitialRender, |photos|)
    {
      if isInitialRender || lastOrientation == Some(orientation) {
        return;
      }
      match orientation {
        case RightTilt =>
          isLoading := true;
          currentIndex := (currentIndex - 1 + |photos|) % |photos|;
        case LeftTilt =>
          isLoading := true;
          currentIndex := (currentIndex + 1) % |photos|;
        case Horizontal =>
          isLoading := true;
          currentIndex := 0;
        case Vertical =>
      }
      lastOrientation := Some(orientation);
    }

    /** The image's `onLoad` callback: the only way the loading flag goes down. */
    method HandleImageLoad()
      modifies this
      ensures !isLoading
      ensures photos == old(photos) && currentIndex == old(currentIndex) && lastOrientation == old(lastOrientation)
    {
      isLoading := false;
    }

    /** The parent passes a new non-empty list (after a refetch). The index is
        not clamped, so it may now lie past the end of the list. */
    method SetPhotos(newPhotos: seq<Photo>)
      requires |newPhotos| > 0
      modifies this
      ensures Valid() && photos == newPhotos && Current() == old(Current())
    {
      photos := newPhotos;
    }

    /** The vote button: the id handed to `onVote`, if it is called at all. */
    method HandleVote(hasOnVote: bool) returns (voted: Option<string>)
      ensures voted.Some? <==> hasOnVote && Shown(photos, currentIndex).Some?
      ensures voted.Some? ==> voted.value == photos[currentIndex].id
    {
      if hasOnVote && currentIndex < |photos| {
        voted := Some(photos[currentIndex].id);
      } else {
        voted := None;
      }
    }
  }
}

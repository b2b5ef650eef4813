/**
 * The "Mis Fotos" screen, src/screens/misFotos/misFotos.js: the user's own
 * photos, each with a per-photo loading flag that its image's load callback
 * clears, and the choice between list, empty message and spinner.
 */
module MisFotos {
  import opened Common

  /** A fetched photo document: its id together with the fields the screen reads. */
  datatype Doc = Doc(id: string, imageUrl: string, tipo: string, votes: Option<nat>)

  /** A listed photo: the document plus its `imageLoading` flag. */
  datatype Item = Item(doc: Doc, imageLoading: bool)

  /** The fetched documents, in order, each listed with its image still loading. */
  function FromDocs(docs: seq<Doc>): (r: seq<Item>)
    ensures |r| == |docs|
    ensures forall k :: 0 <= k < |r| ==> r[k].doc == docs[k] && r[k].imageLoading
    decreases |docs|
  {
    if docs == [] then [] else [Item(docs[0], true)] + FromDocs(docs[1..])
  }

  /** The list after the image of `id` has loaded: that item stops loading, the others are kept. */
  function MarkLoaded(items: seq<Item>, id: string): (r: seq<Item>)
    ensures |r| == |items|
    ensures forall k :: 0 <= k < |r| ==> r[k].doc == items[k].doc
    ensures forall k :: 0 <= k < |r| ==> r[k].imageLoading == (items[k].imageLoading && items[k].doc.id != id)
    decreases |items|
  {
    if items == [] then []
    else
      var head := if items[0].doc.id == id then items[0].(imageLoading := false) else items[0];
      [head] + MarkLoaded(items[1..], id)
  }

  /** Marking the same photo loaded twice is the same as once. */
  lemma {:induction false} MarkLoadedIdempotent(items: seq<Item>, id: string)
    ensures MarkLoaded(MarkLoaded(items, id), id) == MarkLoaded(items, id)
  {
    var once := MarkLoaded(items, id);
    var twice := MarkLoaded(once, id);
    assert |twice| == |once|;
    forall k | 0 <= k < |once| ensures twice[k] == once[k] {
      assert twice[k].doc == once[k].doc;
    }
  }

  /** Loads of different photos commute. */
  lemma {:induction false} MarkLoadedCommutes(items: seq<Item>, a: string, b: string)
    ensures MarkLoaded(MarkLoaded(items, a), b) == MarkLoaded(MarkLoaded(items, b), a)
  {
    var ab := MarkLoaded(MarkLoaded(items, a), b);
    var ba := MarkLoaded(MarkLoaded(items, b), a);
    forall k | 0 <= k < |ab| ensures ab[k] == ba[k] {
      assert ab[k].doc == ba[k].doc;
    }
  }

  /** What the screen shows below its title. */
  datatype Display = Spinner | List(items: seq<Item>) | NoPhotosMessage

  function DisplayOf(loading: bool, photos: seq<Item>, showNoPhotosMessage: bool): (d: Display)
    ensures d.List? <==> !loading && |photos| > 0
    ensures d.List? ==> d.items == photos
    ensures d.NoPhotosMessage? <==> !loading && photos == [] && showNoPhotosMessage
  {
    if loading then Spinner
    else if |photos| > 0 then List(photos)
    else if showNoPhotosMessage then NoPhotosMessage
    else Spinner
  }

  class MisFotosScreen {
    var photos: seq<Item>
    var loading: bool
    var showNoPhotosMessage: bool
    /** Whether the one-second timer for the empty message has been armed. */
    var messageTimerArmed: bool

    constructor ()
      ensures photos == [] && loading && !showNoPhotosMessage && !messageTimerArmed
    {
      photos := [];
      loading := true;
      showNoPhotosMessage := false;
      messageTimerArmed := false;
    }

    /**
     * The fetch effect for a user whose email is `email`; `fetched` is the
     * query's result, None when it throws. Without an email it returns at once,
     * before the `finally`, so nothing changes and the spinner stays.
     */
    method Fetch(email: Option<string>, fetched: Option<seq<Doc>>)
      modifies this
      ensures !Truthy(email) ==> photos == old(photos) && loading == old(loading) &&
                                 messageTimerArmed == old(messageTimerArmed)
      ensures Truthy(email) ==> !loading && messageTimerArmed &&
                                photos == (if fetched.Some? then FromDocs(fetched.value) else old(photos))
      ensures showNoPhotosMessage == old(showNoPhotosMessage)
    {
      if !Truthy(email) {
        return;
      }
      if fetched.Some? {
        photos := FromDocs(fetched.value);
      }
      loading := false;
      messageTimerArmed := true;
    }

    /** The one-second timer armed by a completed fetch fires. */
    method OnMessageTimer()
      modifies this
      ensures showNoPhotosMessage == (old(showNoPhotosMessage) || messageTimerArmed)
      ensures photos == old(photos) && loading == old(loading) && messageTimerArmed == old(messageTimerArmed)
    {
      if messageTimerArmed {
        showNoPhotosMessage := true;
      }
    }

    /** An image's `onLoad`: clear the flag of the items with that id. */
    method HandleImageLoad(id: string)
      modifies this
      ensures photos == MarkLoaded(old(photos), id)
      ensures loading == old(loading) && showNoPhotosMessage == old(showNoPhotosMessage)
      ensures messageTimerArmed == old(messageTimerArmed)
    {
      photos := MarkLoaded(photos, id);
    }
  }
}

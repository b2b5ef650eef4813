/**
 * The "Cosas Feas" screen, src/screens/cosasFeas/cosasFeas.js: the local vote
 * count update after a successful vote, confirming the pending photos (upload
 * and record each, then clear), rejecting them, and what the screen shows.
 */
module CosasFeas {
  import opened Common
  import opened ImgManager

  /** A confirmed photo as listed on the screen; `votes` may be absent in the document. */
  datatype Image = Image(id: string, imageUrl: string, votes: Option<nat>)

  /** The count shown for an image: its votes, or 0 when the field is absent or zero. */
  function ShownVotes(img: Image): nat {
    img.votes.GetOr(0)
  }

  /**
   * The listing after a successful vote: the images with the voted id show one
   * more vote than before, every other image is kept as it was.
   */
  function WithLocalVote(images: seq<Image>, photoId: string): (r: seq<Image>)
    ensures |r| == |images|
    ensures forall k :: 0 <= k < |r| && images[k].id != photoId ==> r[k] == images[k]
    ensures forall k :: 0 <= k < |r| && images[k].id == photoId ==>
      r[k].id == photoId && r[k].imageUrl == images[k].imageUrl && ShownVotes(r[k]) == ShownVotes(images[k]) + 1
    decreases |images|
  {
    if images == [] then []
    else
      var head := if images[0].id == photoId then images[0].(votes := Some(ShownVotes(images[0]) + 1)) else images[0];
      [head] + WithLocalVote(images[1..], photoId)
  }

  /** The list after `handleVote`: updated on success, untouched on failure. */
  function AfterVote(success: bool, images: seq<Image>, photoId: string): (r: seq<Image>)
    ensures !success ==> r == images
    ensures |r| == |images|
  {
    if success then WithLocalVote(images, photoId) else images
  }

  /** The listed counts agree with the store for every listed photo the store holds. */
  ghost predicate Mirrors(images: seq<Image>, t: Tables) {
    forall k :: 0 <= k < |images| && images[k].id in t.votes ==> ShownVotes(images[k]) == t.votes[images[k].id]
  }

  /** The local update mirrors the transaction: counts that agreed with the
      store before a vote still agree after it, whatever its outcome. */
  lemma LocalVoteMirrorsStore(images: seq<Image>, t: Tables, photoId: string, userId: string, storeUp: bool)
    requires Mirrors(images, t)
    ensures var r := Vote(t, photoId, userId, storeUp);
            Mirrors(AfterVote(r.result == Voted, images, photoId), r.after)
  {
    var r := Vote(t, photoId, userId, storeUp);
    var images' := AfterVote(r.result == Voted, images, photoId);
    forall k | 0 <= k < |images'| && images'[k].id in r.after.votes
      ensures ShownVotes(images'[k]) == r.after.votes[images'[k].id]
    {
      if r.result == Voted && images[k].id == photoId {
        assert images'[k].id == photoId;
      } else {
        assert images'[k] == images[k];
      }
    }
  }

  // ---------------------------------------------------------------------------
  // Confirming the pending photos

  /** What `uploadImage` gets back from storage for one photo: its download URL, or a throw. */
  datatype Upload = Url(url: string) | UploadThrows

  /** What one iteration of the confirm loop did to its photo. */
  datatype Outcome = Skipped | Wrote(record: PhotoRecord) | Failed

  /** One photo of the confirm loop: a photo without a path is passed over;
      otherwise a throwing upload, a user without any name or a failed add
      stops the loop; an empty URL or a missing user makes the save a no-op.
      `saved` says whether the store's `add` succeeded. A written record is
      the one the manager builds for this URL and user. */
  function ConfirmOne(photo: CapturedPhoto, user: Option<User>, tipo: string, upload: Upload, saved: bool): (r: Outcome)
    ensures r.Failed? <==>
      (photo.path != "" &&
       (upload.UploadThrows? || (upload.url != "" && user.Some? && (UserName(user.value).None? || !saved))))
    ensures r.Skipped? <==> photo.path == "" || (upload.Url? && (upload.url == "" || user.None?))
    ensures r.Wrote? ==> r.record.estado == "confirmada" && r.record.tipo == tipo && r.record.votes == 0
    ensures r.Wrote? ==> photo.path != "" && upload.Url? && r.record.imageUrl == upload.url
    ensures r.Wrote? ==> RecordFor(Some(upload.url), user, "confirmada", tipo) == Write(r.record)
  {
    if photo.path != "" && upload.UploadThrows? then Failed
    else
      var url := if photo.path == "" then None else Some(upload.url);
      match RecordFor(url, user, "confirmada", tipo)
      case Skip => Skipped
      case Throw => Failed
      case Write(rec) => if saved then Wrote(rec) else Failed
  }

  /** The records the loop writes, and whether it got through every photo. */
  datatype Run = Run(written: seq<PhotoRecord>, ok: bool)

  /** The confirm loop over all pending photos. Every record it writes is a
      confirmed photo of the screen's kind with no votes, and it writes no
      more records than there are photos. */
  function ConfirmAll(photos: seq<CapturedPhoto>, user: Option<User>, tipo: string,
                      uploads: seq<Upload>, saves: seq<bool>): (r: Run)
    requires |uploads| == |photos| && |saves| == |photos|
    ensures |r.written| <= |photos|
    ensures forall k :: 0 <= k < |r.written| ==>
              r.written[k].estado == "confirmada" && r.written[k].tipo == tipo && r.written[k].votes == 0
    decreases |photos|
  {
    if photos == [] then Run([], true)
    else
      match ConfirmOne(photos[0], user, tipo, uploads[0], saves[0])
      case Failed => Run([], false)
      case Skipped => ConfirmAll(photos[1..], user, tipo, uploads[1..], saves[1..])
      case Wrote(rec) =>
        var rest := ConfirmAll(photos[1..], user, tipo, uploads[1..], saves[1..]);
        Run([rec] + rest.written, rest.ok)
  }

  /** Every record the loop writes is attributed to the signed-in user: its
      owner field is the user's email (or "Usuario desconocido" without one)
      and its name is the user's fallback name. */
  lemma {:induction false} ConfirmedRecordsBelongToUser(photos: seq<CapturedPhoto>, user: Option<User>, tipo: string,
                                                        uploads: seq<Upload>, saves: seq<bool>)
    requires |uploads| == |photos| && |saves| == |photos|
    ensures var r := ConfirmAll(photos, user, tipo, uploads, saves);
            (|r.written| > 0 ==> user.Some? && UserName(user.value).Some?) &&
            forall k :: 0 <= k < |r.written| ==>
              r.written[k].userName == UserName(user.value).value &&
              r.written[k].user == (if Truthy(user.value.email) then user.value.email.value else "Usuario desconocido")
    decreases |photos|
  {
    if photos != [] {
      ConfirmedRecordsBelongToUser(photos[1..], user, tipo, uploads[1..], saves[1..]);
      ConfirmAllUnfold(photos, user, tipo, uploads, saves);
    }
  }

  /** The loop gets through every photo exactly when no photo's step fails. */
  lemma {:induction false} ConfirmAllOkIffNoFailure(photos: seq<CapturedPhoto>, user: Option<User>, tipo: string,
                                                    uploads: seq<Upload>, saves: seq<bool>)
    requires |uploads| == |photos| && |saves| == |photos|
    ensures ConfirmAll(photos, user, tipo, uploads, saves).ok <==>
            forall k :: 0 <= k < |photos| ==> !ConfirmOne(photos[k], user, tipo, uploads[k], saves[k]).Failed?
    decreases |photos|
  {
    if photos != [] {
      ConfirmAllOkIffNoFailure(photos[1..], user, tipo, uploads[1..], saves[1..]);
      assert forall k :: 0 <= k < |photos| - 1 ==>
        photos[1..][k] == photos[k + 1] && uploads[1..][k] == uploads[k + 1] && saves[1..][k] == saves[k + 1];
    }
  }

  /** When every upload and every write succeeds for a user who has a name,
      one record per photo is written, in order, each with its own URL. */
  lemma {:induction false} AllGoodWritesEveryPhoto(photos: seq<CapturedPhoto>, u: User, tipo: string,
                                                   uploads: seq<Upload>, saves: seq<bool>)
    requires |uploads| == |photos| && |saves| == |photos|
    requires UserName(u).Some?
    requires forall k :: 0 <= k < |photos| ==> photos[k].path != "" && uploads[k].Url? && uploads[k].url != "" && saves[k]
    ensures var r := ConfirmAll(photos, Some(u), tipo, uploads, saves);
            r.ok && |r.written| == |photos| &&
            forall k :: 0 <= k < |photos| ==> r.written[k].imageUrl == uploads[k].url
    decreases |photos|
  {
    if photos != [] {
      AllGoodWritesEveryPhoto(photos[1..], u, tipo, uploads[1..], saves[1..]);
      var rest := ConfirmAll(photos[1..], Some(u), tipo, uploads[1..], saves[1..]);
      var r := ConfirmAll(photos, Some(u), tipo, uploads, saves);
      assert ConfirmOne(photos[0], Some(u), tipo, uploads[0], saves[0]).Wrote?;
      forall k | 1 <= k < |photos| ensures r.written[k].imageUrl == uploads[k].url {
        assert r.written[k] == rest.written[k - 1];
      }
    }
  }

  /**
   * A failure part-way leaves behind the records of the photos before it: the
   * run up to some earlier photo succeeded and wrote exactly those records.
   */
  lemma {:induction false} FailureKeepsEarlierRecords(photos: seq<CapturedPhoto>, user: Option<User>, tipo: string,
                                                      uploads: seq<Upload>, saves: seq<bool>)
    requires |uploads| == |photos| && |saves| == |photos|
    requires !ConfirmAll(photos, user, tipo, uploads, saves).ok
    ensures exists i :: 0 <= i < |photos| &&
              ConfirmOne(photos[i], user, tipo, uploads[i], saves[i]).Failed? &&
              ConfirmAll(photos[..i], user, tipo, uploads[..i], saves[..i]) ==
              Run(ConfirmAll(photos, user, tipo, uploads, saves).written, true)
    decreases |photos|
  {
    assert photos != [];
    var r := ConfirmAll(photos, user, tipo, uploads, saves);
    var first := ConfirmOne(photos[0], user, tipo, uploads[0], saves[0]);
    ConfirmAllUnfold(photos, user, tipo, uploads, saves);
    if first.Failed? {
      assert photos[..0] == [] && uploads[..0] == [] && saves[..0] == [];
      assert ConfirmAll(photos[..0], user, tipo, uploads[..0], saves[..0]) == Run(r.written, true);
    } else {
      var rest := ConfirmAll(photos[1..], user, tipo, uploads[1..], saves[1..]);
      FailureKeepsEarlierRecords(photos[1..], user, tipo, uploads[1..], saves[1..]);
      var i :| 0 <= i < |photos[1..]| &&
               ConfirmOne(photos[1..][i], user, tipo, uploads[1..][i], saves[1..][i]).Failed? &&
               ConfirmAll(photos[1..][..i], user, tipo, uploads[1..][..i], saves[1..][..i]) == Run(rest.written, true);
      var ps, us, ss := photos[..i + 1], uploads[..i + 1], saves[..i + 1];
      assert ps[1..] == photos[1..][..i] && us[1..] == uploads[1..][..i] && ss[1..] == saves[1..][..i];
      assert ps[0] == photos[0] && us[0] == uploads[0] && ss[0] == saves[0];
      ConfirmAllUnfold(ps, user, tipo, us, ss);
      assert ConfirmAll(ps, user, tipo, us, ss) == Run(r.written, true);
      assert photos[i + 1] == photos[1..][i] && uploads[i + 1] == uploads[1..][i] && saves[i + 1] == saves[1..][i];
    }
  }

  /** One step of the confirm loop, as the loop below takes it. */
  lemma ConfirmAllUnfold(photos: seq<CapturedPhoto>, user: Option<User>, tipo: string,
                         uploads: seq<Upload>, saves: seq<bool>)
    requires |uploads| == |photos| && |saves| == |photos| && photos != []
    ensures var step := ConfirmOne(photos[0], user, tipo, uploads[0], saves[0]);
            var rest := ConfirmAll(photos[1..], user, tipo, uploads[1..], saves[1..]);
            ConfirmAll(photos, user, tipo, uploads, saves) ==
              if step.Failed? then Run([], false)
              else if step.Wrote? then Run([step.record] + rest.written, rest.ok)
              else rest
  {
  }

  /** The loop of `handleConfirmImage` over the manager's taken photos:
      stop at the first throw, otherwise write each record in turn. */
  method UploadAll(photos: seq<CapturedPhoto>, user: Option<User>, tipo: string,
                   uploads: seq<Upload>, saves: seq<bool>) returns (written: seq<PhotoRecord>, ok: bool)
    requires |uploads| == |photos| && |saves| == |photos|
    ensures Run(written, ok) == ConfirmAll(photos, user, tipo, uploads, saves)
  {
    written := [];
    var i := 0;
    while i < |photos|
      invariant 0 <= i <= |photos|
      invariant ConfirmAll(photos, user, tipo, uploads, saves) ==
                var rest := ConfirmAll(photos[i..], user, tipo, uploads[i..], saves[i..]);
                Run(written + rest.written, rest.ok)
    {
      var step := ConfirmOne(photos[i], user, tipo, uploads[i], saves[i]);
      ConfirmAllUnfold(photos[i..], user, tipo, uploads[i..], saves[i..]);
      assert photos[i..][1..] == photos[i + 1..] && uploads[i..][1..] == uploads[i + 1..] && saves[i..][1..] == saves[i + 1..];
      match step {
        case Failed =>
          return written, false;
        case Skipped =>
        case Wrote(rec) =>
          written := written + [rec];
      }
      i := i + 1;
    }
    ok := true;
  }

  // ---------------------------------------------------------------------------
  // The screen

  /** What the screen body shows. */
  datatype Body = Spinner | Preview(pending: seq<CapturedPhoto>) | Listing(images: seq<Image>) | FirstToUpload

  function BodyOf(loading: bool, pending: seq<CapturedPhoto>, confirmed: seq<Image>): (b: Body)
    ensures loading <==> b.Spinner?
    ensures b.Preview? <==> !loading && |pending| > 0
    ensures b.Listing? <==> !loading && pending == [] && |confirmed| > 0
    ensures b == FirstToUpload <==> !loading && pending == [] && confirmed == []
    ensures b.Preview? ==> b.pending == pending
    ensures b.Listing? ==> b.images == confirmed
  {
    if loading then Spinner
    else if |pending| > 0 then Preview(pending)
    else if |confirmed| > 0 then Listing(confirmed)
    else FirstToUpload
  }

  /** The camera button is drawn below the loading return, only while no
      photo is pending. */
  function CameraButtonShown(loading: bool, pending: seq<CapturedPhoto>): (r: bool)
    ensures r <==> !loading && pending == []
  {
    !loading && |pending| == 0
  }

  /** The camera button and the confirm/reject preview are never on screen
      together, and one of them always is once loading is over. */
  lemma CameraXorPreview(loading: bool, pending: seq<CapturedPhoto>, confirmed: seq<Image>)
    requires !loading
    ensures CameraButtonShown(loading, pending) <==> !BodyOf(loading, pending, confirmed).Preview?
  {
  }

  class FeasScreen {
    var loading: bool
    var confirmedImages: seq<Image>
    var pendingImages: seq<CapturedPhoto>

    constructor ()
      ensures loading && confirmedImages == [] && pendingImages == []
    {
      loading := true;
      confirmedImages := [];
      pendingImages := [];
    }

    /** The focus effect: `fetched` is the query's result, None when it throws. */
    method OnFocus(mgr: Manager, fetched: Option<seq<Image>>)
      modifies this
      ensures !loading
      ensures fetched.Some? ==> confirmedImages == fetched.value && pendingImages == mgr.fotosTomadas
      ensures fetched.None? ==> confirmedImages == old(confirmedImages) && pendingImages == old(pendingImages)
    {
      if fetched.Some? {
        confirmedImages := fetched.value;
        pendingImages := mgr.fotosTomadas;
      }
      loading := false;
    }

    /**
     * `handleConfirmImage`: upload and record every photo of the manager's
     * list; only when all of them went through, clear both lists and show the
     * refetched listing (`refetched` is None when that query throws).
     */
    method HandleConfirmImage(mgr: Manager, user: Option<User>, uploads: seq<Upload>, saves: seq<bool>,
                              refetched: Option<seq<Image>>)
      returns (written: seq<PhotoRecord>)
      requires |uploads| == |mgr.fotosTomadas| && |saves| == |mgr.fotosTomadas|
      requires mgr as object != this
      modifies this, mgr
      ensures !loading && mgr.hasCamera == old(mgr.hasCamera)
      ensures var r := ConfirmAll(old(mgr.fotosTomadas), user, "fea", uploads, saves);
        && written == r.written
        && (r.ok ==> mgr.fotosTomadas == [] && pendingImages == [])
        && (!r.ok ==> mgr.fotosTomadas == old(mgr.fotosTomadas) && pendingImages == old(pendingImages))
        && confirmedImages == (if r.ok && refetched.Some? then refetched.value else old(confirmedImages))
    {
      loading := true;
      var ok;
      written, ok := UploadAll(mgr.fotosTomadas, user, "fea", uploads, saves);
      if ok {
        mgr.ClearPhotos();
        pendingImages := [];
        if refetched.Some? {
          confirmedImages := refetched.value;
        }
      }
      loading := false;
    }

    /** `handleRejectImage`: drop every pending photo, in the manager and on screen. */
    method HandleRejectImage(mgr: Manager)
      requires mgr as object != this
      modifies this, mgr
      ensures mgr.fotosTomadas == [] && pendingImages == []
      ensures mgr.hasCamera == old(mgr.hasCamera)
      ensures loading == old(loading) && confirmedImages == old(confirmedImages)
    {
      mgr.ClearPhotos();
      pendingImages := [];
    }

    /** `handleVote`: run the transaction, then bump the local count on success. */
    method HandleVote(store: VoteStore, photoId: string, userId: string, storeUp: bool) returns (success: bool)
      requires store as object != this
      modifies this, store
      ensures var r := Vote(old(store.Snapshot()), photoId, userId, storeUp);
        && success == (r.result == Voted) && store.Snapshot() == r.after
        && confirmedImages == AfterVote(success, old(confirmedImages), photoId)
      ensures loading == old(loading) && pendingImages == old(pendingImages)
    {
      success := store.VoteForPhoto(photoId, userId, storeUp);
      confirmedImages := AfterVote(success, confirmedImages, photoId);
    }
  }
}

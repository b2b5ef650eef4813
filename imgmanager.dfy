/**
 * The `imgManager` singleton of src/functions/imgManager.js: the list of
 * photos taken but not yet confirmed, the storage name an upload gets, the
 * record a confirmed upload writes, and the body of the vote transaction.
 */
module ImgManager {
  import opened Common

  /** A photo as the camera returns it; only `path` is rewritten by the manager. */
  datatype CapturedPhoto = CapturedPhoto(path: string, width: nat, height: nat)

  // ---------------------------------------------------------------------------
  // File names

  /** The position of the last slash in `s`, or -1 when there is none. */
  function LastSlash(s: string): (r: int)
    ensures -1 <= r < |s|
    ensures r >= 0 ==> s[r] == '/'
    ensures forall k :: r < k < |s| ==> s[k] != '/'
    decreases |s|
  {
    if s == [] then -1
    else if s[|s| - 1] == '/' then |s| - 1
    else LastSlash(s[..|s| - 1])
  }

  /** The file name of a URI: the longest suffix without a
      slash, which is the whole string or follows a slash. */
  function FileName(uri: string): (name: string)
    ensures '/' !in name
    ensures |name| <= |uri| && name == uri[|uri| - |name|..]
    ensures |name| == |uri| || uri[|uri| - |name| - 1] == '/'
  {
    uri[LastSlash(uri) + 1..]
  }

  /** Splitting a path at its last slash and joining it again gives the path back. */
  lemma FileNameSplitsPath(uri: string)
    ensures var name := FileName(uri);
            uri == uri[..|uri| - |name|] + name
  {
  }

  /** The storage path `uploadImage` writes to, or nothing for an empty or
      absent URI (the function then returns null without uploading). */
  function UploadTarget(uri: Option<string>): (r: Option<string>)
    ensures r.Some? <==> Truthy(uri)
    ensures r.Some? ==> r.value == "/images/" + FileName(uri.value)
  {
    if Truthy(uri) then Some("/images/" + FileName(uri.value)) else None
  }

  /** The number a string of decimal digits denotes, most significant digit first. */
  function DigitValue(s: string): nat
    requires forall k :: 0 <= k < |s| ==> '0' <= s[k] <= '9'
    decreases |s|
  {
    if s == [] then 0
    else 10 * DigitValue(s[..|s| - 1]) + ((s[|s| - 1] as int) - ('0' as int))
  }

  /** The clock reading written in decimal in a generated file name: no
      leading zero, and the digits denote the reading. */
  function Decimal(n: nat): (r: string)
    ensures |r| > 0
    ensures forall k :: 0 <= k < |r| ==> '0' <= r[k] <= '9'
    ensures DigitValue(r) == n
    ensures |r| > 1 ==> r[0] != '0'
    decreases n
  {
    var d := (('0' as int) + n % 10) as char;
    if n < 10 then [d]
    else
      var r := Decimal(n / 10) + [d];
      assert r[..|r| - 1] == Decimal(n / 10);
      r
  }

  /** Where a taken photo is moved: the caches directory, a slash, then
      "photo_", the clock reading in decimal and ".jpg". */
  function LocalPath(cachesDir: string, now: nat): (r: string)
    ensures |r| > |cachesDir| && r[..|cachesDir|] == cachesDir && r[|cachesDir|] == '/'
    ensures r[|cachesDir| + 1..] == "photo_" + Decimal(now) + ".jpg"
  {
    cachesDir + "/" + "photo_" + Decimal(now) + ".jpg"
  }

  /** A slash-free name after the last slash of a path is what FileName gives back. */
  lemma FileNameAfterSlash(dir: string, name: string)
    requires '/' !in name
    ensures FileName(dir + "/" + name) == name
  {
    var t := dir + "/" + name;
    var r := LastSlash(t);
    assert t[|dir|] == '/';
    assert forall k :: |dir| < k < |t| ==> t[k] == name[k - |dir| - 1];
    assert r == |dir|;
    assert t[r + 1..] == name;
  }

  /** The generated name `photo_<now>.jpg` holds no slash. */
  lemma GeneratedNameHasNoSlash(now: nat)
    ensures '/' !in "photo_" + Decimal(now) + ".jpg"
  {
    var d := Decimal(now);
    assert '/' !in d by {
      forall k | 0 <= k < |d| ensures d[k] != '/' {
        assert '0' <= d[k] <= '9';
      }
    }
  }

  /** A photo taken at time `now` is uploaded under `/images/photo_<now>.jpg`. */
  lemma TakenPhotoUploadTarget(cachesDir: string, now: nat)
    ensures UploadTarget(Some(LocalPath(cachesDir, now))) == Some("/images/photo_" + Decimal(now) + ".jpg")
  {
    var name := "photo_" + Decimal(now) + ".jpg";
    GeneratedNameHasNoSlash(now);
    var path := LocalPath(cachesDir, now);
    assert path == cachesDir + "/" + name;
    assert path[|cachesDir|] == '/';
    FileNameAfterSlash(cachesDir, name);
    assert UploadTarget(Some(path)) == Some("/images/" + name);
    assert "/images/" + name == "/images/photo_" + Decimal(now) + ".jpg";
  }

  // ---------------------------------------------------------------------------
  // The record written for a confirmed photo

  /** The signed-in user as the auth context hands it over. */
  datatype User = User(uid: string, email: Option<string>, displayName: Option<string>)

  /**
   * The name stored with a record: the display name when it is non-empty,
   * otherwise the part of the email before its first '@' when that is
   * non-empty, otherwise "Usuario". Without a display name and without an
   * email the app throws a TypeError reading the missing email: the result
   * is then None.
   */
  function UserName(u: User): (r: Option<string>)
    ensures r.None? <==> !Truthy(u.displayName) && u.email.None?
    ensures r.Some? ==> r.value != ""
    ensures Truthy(u.displayName) ==> r == u.displayName
    ensures !Truthy(u.displayName) && u.email.Some? && BeforeFirst(u.email.value, '@') != "" ==>
      r == Some(BeforeFirst(u.email.value, '@')) && '@' !in r.value
    ensures !Truthy(u.displayName) && u.email.Some? && BeforeFirst(u.email.value, '@') == "" ==>
      r == Some("Usuario")
  {
    if Truthy(u.displayName) then u.displayName
    else if u.email.None? then None
    else if BeforeFirst(u.email.value, '@') != "" then Some(BeforeFirst(u.email.value, '@'))
    else Some("Usuario")
  }

  datatype PhotoRecord = PhotoRecord(imageUrl: string, user: string, userName: string,
                                     estado: string, tipo: string, votes: nat)

  /** What `saveImageUrlToFirestore` does before its write: skip (return null)
      when the URL or the user is missing, throw when no user name can be
      built, or build the record to add. */
  datatype SaveDecision = Skip | Throw | Write(record: PhotoRecord)

  function RecordFor(imageUrl: Option<string>, user: Option<User>,
                     estado: string := "confirmada", tipo: string := "linda"): (r: SaveDecision)
    ensures r.Skip? <==> !Truthy(imageUrl) || user.None?
    ensures r.Throw? <==> Truthy(imageUrl) && user.Some? && UserName(user.value).None?
    ensures r.Write? ==>
      && r.record.imageUrl == imageUrl.value
      && r.record.votes == 0 && r.record.estado == estado && r.record.tipo == tipo
      && r.record.userName == UserName(user.value).value
      && r.record.user == (if Truthy(user.value.email) then user.value.email.value else "Usuario desconocido")
  {
    if !Truthy(imageUrl) || user.None? then Skip
    else
      var u := user.value;
      match UserName(u)
      case None => Throw
      case Some(name) =>
        Write(PhotoRecord(imageUrl.value,
                          if Truthy(u.email) then u.email.value else "Usuario desconocido",
                          name, estado, tipo, 0))
  }

  /** Called with only a URL and a user, the record is a confirmed "linda" photo. */
  lemma DefaultRecordIsConfirmedLinda(url: string, u: User)
    requires url != "" && UserName(u).Some?
    ensures RecordFor(Some(url), Some(u)).Write?
    ensures RecordFor(Some(url), Some(u)).record.estado == "confirmada"
    ensures RecordFor(Some(url), Some(u)).record.tipo == "linda"
  {
  }

  // ---------------------------------------------------------------------------
  // The photos taken so far

  datatype TakeOutcome = NoCamera | Threw | Taken(photo: CapturedPhoto)

  class Manager {
    /** Whether `cameraRef` and `cameraRef.current` are set. */
    var hasCamera: bool
    var fotosTomadas: seq<CapturedPhoto>

    constructor ()
      ensures !hasCamera && fotosTomadas == []
    {
      hasCamera := false;
      fotosTomadas := [];
    }

    method SetCameraRef(ready: bool)
      modifies this
      ensures hasCamera == ready && fotosTomadas == old(fotosTomadas)
    {
      hasCamera := ready;
    }

    method ClearPhotos()
      modifies this
      ensures fotosTomadas == [] && hasCamera == old(hasCamera)
    {
      fotosTomadas := [];
    }

    /**
     * `takePhoto`: `shot` is what the camera returns (None when it throws) and
     * `moved` whether moving the file to the cache succeeded. Without a camera
     * it returns undefined and changes nothing; a taken photo is appended with
     * its new local path.
     */
    method TakePhoto(shot: Option<CapturedPhoto>, moved: bool, cachesDir: string, now: nat)
      returns (r: TakeOutcome)
      modifies this
      ensures hasCamera == old(hasCamera)
      ensures r.NoCamera? <==> !old(hasCamera)
      ensures r.Taken? <==> old(hasCamera) && shot.Some? && moved
      ensures r.Taken? ==> r.photo == shot.value.(path := LocalPath(cachesDir, now))
      ensures fotosTomadas == if r.Taken? then old(fotosTomadas) + [r.photo] else old(fotosTomadas)
    {
      if !hasCamera {
        return NoCamera;
      }
      if shot.None? || !moved {
        return Threw;
      }
      var newPhoto := shot.value.(path := LocalPath(cachesDir, now));
      fotosTomadas := fotosTomadas + [newPhoto];
      r := Taken(newPhoto);
    }
  }

  // ---------------------------------------------------------------------------
  // The vote transaction

  /** The two collections the transaction touches: photo id to vote count (a
      photo exists iff its id is a key), and user id to the set of photo ids
      the user has voted for (the `votes` object of a `userVotes` document). */
  datatype Tables = Tables(votes: map<string, nat>, userVotes: map<string, set<string>>)

  /** A missing `userVotes` document, or one without `votes`, is an empty set. */
  function VotedFor(t: Tables, userId: string): set<string> {
    if userId in t.userVotes then t.userVotes[userId] else {}
  }

  /** Why the transaction did not commit; `voteForPhoto` reports all of them as false. */
  datatype VoteResult = Voted | PhotoMissing | AlreadyVoted | StoreUnavailable

  datatype VoteOutcome = VoteOutcome(result: VoteResult, after: Tables)

  /**
   * The transaction body of `voteForPhoto(photoId, userId)`; `storeUp` is false
   * when the store fails, in which case nothing commits.
   */
  function Vote(t: Tables, photoId: string, userId: string, storeUp: bool): (r: VoteOutcome)
    ensures r.result == Voted <==> storeUp && photoId in t.votes && photoId !in VotedFor(t, userId)
    ensures r.result == PhotoMissing <==> storeUp && photoId !in t.votes
    ensures r.result == AlreadyVoted <==> storeUp && photoId in t.votes && photoId in VotedFor(t, userId)
    ensures r.result != Voted ==> r.after == t
    ensures r.result == Voted ==>
      && r.after.votes == t.votes[photoId := t.votes[photoId] + 1]
      && r.after.userVotes == t.userVotes[userId := VotedFor(t, userId) + {photoId}]
  {
    if !storeUp then VoteOutcome(StoreUnavailable, t)
    else if photoId !in t.votes then VoteOutcome(PhotoMissing, t)
    else if photoId in VotedFor(t, userId) then VoteOutcome(AlreadyVoted, t)
    else VoteOutcome(Voted, Tables(t.votes[photoId := t.votes[photoId] + 1],
                                   t.userVotes[userId := VotedFor(t, userId) + {photoId}]))
  }

  /** Voting twice for the same photo as the same user: success, then refusal,
      and the count went up by exactly one. */
  lemma VoteTwice(t: Tables, photoId: string, userId: string)
    requires photoId in t.votes && photoId !in VotedFor(t, userId)
    ensures var first := Vote(t, photoId, userId, true);
            var second := Vote(first.after, photoId, userId, true);
            first.result == Voted && second.result == AlreadyVoted &&
            second.after.votes[photoId] == t.votes[photoId] + 1
  {
  }

  /** Two users who have not voted for a photo both succeed, and its count rises by two. */
  lemma DistinctVoters(t: Tables, photoId: string, u1: string, u2: string)
    requires u1 != u2 && photoId in t.votes
    requires photoId !in VotedFor(t, u1) && photoId !in VotedFor(t, u2)
    ensures var first := Vote(t, photoId, u1, true);
            var second := Vote(first.after, photoId, u2, true);
            first.result == Voted && second.result == Voted &&
            second.after.votes[photoId] == t.votes[photoId] + 2
  {
  }

  /** A vote touches no other photo's count and no other user's set. */
  lemma VoteFrame(t: Tables, photoId: string, userId: string, storeUp: bool, p: string, u: string)
    requires p in t.votes && p != photoId && u != userId
    ensures var r := Vote(t, photoId, userId, storeUp);
            p in r.after.votes && r.after.votes[p] == t.votes[p] &&
            VotedFor(r.after, u) == VotedFor(t, u) &&
            VotedFor(t, userId) <= VotedFor(r.after, userId)
  {
  }

  datatype Request = Request(photoId: string, userId: string, storeUp: bool)

  /** The tables after a sequence of vote transactions, one after the other. */
  function RunVotes(t: Tables, reqs: seq<Request>): Tables
    decreases |reqs|
  {
    if reqs == [] then t
    else RunVotes(Vote(t, reqs[0].photoId, reqs[0].userId, reqs[0].storeUp).after, reqs[1..])
  }

  /** The users whose ledger records a vote for `photoId`. */
  function Voters(t: Tables, photoId: string): set<string> {
    set u | u in t.userVotes && photoId in t.userVotes[u]
  }

  /** After a successful vote by `userId` for `photoId`, the voters of `p` gain
      `userId` if `p` is that photo, and are unchanged otherwise. */
  lemma VotersAfterVote(t: Tables, photoId: string, userId: string, p: string)
    requires photoId in t.votes && photoId !in VotedFor(t, userId)
    ensures var t' := Vote(t, photoId, userId, true).after;
            Voters(t', p) == if p == photoId then Voters(t, p) + {userId} else Voters(t, p)
  {
    var t' := Vote(t, photoId, userId, true).after;
    forall u
      ensures u in Voters(t', p) <==> u in (if p == photoId then Voters(t, p) + {userId} else Voters(t, p))
    {
      if u == userId {
        assert VotedFor(t', u) == VotedFor(t, u) + {photoId};
      } else {
        assert (u in t'.userVotes <==> u in t.userVotes);
        assert u in t.userVotes ==> t'.userVotes[u] == t.userVotes[u];
      }
    }
  }

  /** One transaction: the photo's voters grow by at most the voting user,
      exactly when the count grows by one. */
  lemma VoteStepVoters(t: Tables, req: Request, p: string)
    requires p in t.votes
    ensures var t' := Vote(t, req.photoId, req.userId, req.storeUp).after;
            p in t'.votes && Voters(t, p) <= Voters(t', p) &&
            t'.votes[p] == t.votes[p] + |Voters(t', p) - Voters(t, p)|
  {
    var r := Vote(t, req.photoId, req.userId, req.storeUp);
    var t' := r.after;
    var a, b := Voters(t, p), Voters(t', p);
    if r.result == Voted {
      VotersAfterVote(t, req.photoId, req.userId, p);
      if p == req.photoId {
        assert req.userId !in a;
        assert b - a == {req.userId};
      } else {
        assert b - a == {};
      }
    } else {
      assert b - a == {};
    }
  }

  /**
   * At most once per (photo, user) pair: over any sequence of transactions, a
   * photo's count grows by exactly the number of distinct users newly recorded
   * as its voters, so no user's vote is ever counted twice.
   */
  lemma {:induction false} CountEqualsNewVoters(t: Tables, reqs: seq<Request>, p: string)
    requires p in t.votes
    ensures var t' := RunVotes(t, reqs);
            p in t'.votes && Voters(t, p) <= Voters(t', p) &&
            t'.votes[p] == t.votes[p] + |Voters(t', p) - Voters(t, p)|
    decreases |reqs|
  {
    if reqs != [] {
      var t1 := Vote(t, reqs[0].photoId, reqs[0].userId, reqs[0].storeUp).after;
      VoteStepVoters(t, reqs[0], p);
      CountEqualsNewVoters(t1, reqs[1..], p);
      assert RunVotes(t, reqs) == RunVotes(t1, reqs[1..]);
      DifferenceChain(Voters(t, p), Voters(t1, p), Voters(RunVotes(t, reqs), p));
    }
  }

  /** Removing a smaller set from a larger one in two steps. */
  lemma DifferenceChain<T>(a: set<T>, b: set<T>, c: set<T>)
    requires a <= b <= c
    ensures |c - a| == |c - b| + |b - a|
  {
    assert c - a == (c - b) + (b - a);
    assert (c - b) * (b - a) == {};
  }

  /** The vote store as the object the transaction mutates. */
  class VoteStore {
    var votes: map<string, nat>
    var userVotes: map<string, set<string>>

    ghost function Snapshot(): Tables
      reads this
    {
      Tables(votes, userVotes)
    }

    constructor (votes: map<string, nat>, userVotes: map<string, set<string>>)
      ensures Snapshot() == Tables(votes, userVotes)
    {
      this.votes := votes;
      this.userVotes := userVotes;
    }

    /** `voteForPhoto`: read both records, check, then write both. */
    method VoteForPhoto(photoId: string, userId: string, storeUp: bool) returns (ok: bool)
      modifies this
      ensures var r := Vote(old(Snapshot()), photoId, userId, storeUp);
              ok == (r.result == Voted) && Snapshot() == r.after
    {
      if !storeUp || photoId !in votes {
        return false;
      }
      var userVoted := if userId in userVotes then userVotes[userId] else {};
      if photoId in userVoted {
        return false;
      }
      votes := votes[photoId := votes[photoId] + 1];
      userVotes := userVotes[userId := userVoted + {photoId}];
      ok := true;
    }
  }
}

/**
 * Photo and comment records as the store returns them, the two reductions of
 * /user/photoUsage/:id, and the reshaping done by /photosOfUser/:id.
 * A photo's date_time is a timestamp in milliseconds.
 */
module Photos {
  import opened Common

  datatype Comment = Comment(id: ObjectId, comment: string, date_time: int, user_id: ObjectId)

  datatype Photo = Photo(id: ObjectId, user_id: ObjectId, file_name: string, date_time: int, comments: seq<Comment>)

  function DateTime(p: Photo): int
  {
    p.date_time
  }

  function CommentCount(p: Photo): int
  {
    |p.comments|
  }

  // ---------------------------------------------------------------------------
  // photoUsage: two reductions with strict >, seeded with the first photo
  // ---------------------------------------------------------------------------

  /** One step of either reducer: the next photo replaces the accumulator only when its key is strictly greater. */
  function KeepGreater(key: Photo -> int, acc: Photo, p: Photo): Photo
  {
    if key(p) > key(acc) then p else acc
  }

  /** photos.reduce(step, init): a left fold, unfolded here from the last photo. */
  function Reduce(key: Photo -> int, init: Photo, photos: seq<Photo>): Photo
    decreases |photos|
  {
    if photos == [] then init
    else KeepGreater(key, Reduce(key, init, photos[..|photos| - 1]), photos[|photos| - 1])
  }

  /** Index k holds a greatest key, and every photo before it has a strictly smaller one. */
  predicate IsFirstMax(key: Photo -> int, photos: seq<Photo>, k: int)
  {
    0 <= k < |photos| &&
    (forall j :: 0 <= j < |photos| ==> key(photos[j]) <= key(photos[k])) &&
    (forall j :: 0 <= j < k ==> key(photos[j]) < key(photos[k]))
  }

  /** Seeded with the first photo, the reduction picks the first photo whose key is greatest. */
  lemma {:induction false} ReduceIsFirstMax(key: Photo -> int, photos: seq<Photo>) returns (k: nat)
    requires photos != []
    ensures IsFirstMax(key, photos, k)
    ensures Reduce(key, photos[0], photos) == photos[k]
  {
    var n := |photos|;
    var init := photos[0];
    if n == 1 {
      assert photos[..0] == [];
      k := 0;
    } else {
      var front := photos[..n - 1];
      assert front[0] == init;
      var k0 := ReduceIsFirstMax(key, front);
      assert Reduce(key, init, photos) == KeepGreater(key, photos[k0], photos[n - 1]);
      if key(photos[n - 1]) > key(photos[k0]) {
        k := n - 1;
      } else {
        k := k0;
      }
      forall j | 0 <= j < n ensures key(photos[j]) <= key(photos[k]) {
        if j < n - 1 { assert photos[j] == front[j]; }
      }
      forall j | 0 <= j < k ensures key(photos[j]) < key(photos[k]) {
        assert photos[j] == front[j];
      }
    }
  }

  /** The first greatest index is unique, so "the first such photo" is well defined. */
  lemma FirstMaxUnique(key: Photo -> int, photos: seq<Photo>, k1: int, k2: int)
    requires IsFirstMax(key, photos, k1) && IsFirstMax(key, photos, k2)
    ensures k1 == k2
  {
    var a, b := key(photos[k1]), key(photos[k2]);
    assert a <= b && b <= a;
  }

  datatype RecentSummary = RecentSummary(id: ObjectId, file_name: string, date_time: int)

  datatype CommentedSummary = CommentedSummary(id: ObjectId, file_name: string, commentsCount: nat)

  datatype Usage = Usage(mostRecentPhoto: RecentSummary, photoWithMostComments: CommentedSummary)

  /** The response body of /user/photoUsage/:id built from the user's photos; None when there are none. */
  function PhotoUsage(photos: seq<Photo>): (r: Option<Usage>)
    ensures r.None? <==> photos == []
  {
    if photos == [] then None
    else
      var recent := Reduce(DateTime, photos[0], photos);
      var most := Reduce(CommentCount, photos[0], photos);
      Some(Usage(RecentSummary(recent.id, recent.file_name, recent.date_time),
                 CommentedSummary(most.id, most.file_name, |most.comments|)))
  }

  /**
   * The most recent photo is the first one with the latest date_time, the most
   * commented one is the first one with the most comments, and commentsCount
   * is that photo's number of comments.
   */
  lemma PhotoUsageSpec(photos: seq<Photo>) returns (recent: nat, most: nat)
    requires photos != []
    ensures PhotoUsage(photos).Some?
    ensures IsFirstMax(DateTime, photos, recent)
    ensures PhotoUsage(photos).value.mostRecentPhoto
         == RecentSummary(photos[recent].id, photos[recent].file_name, photos[recent].date_time)
    ensures IsFirstMax(CommentCount, photos, most)
    ensures PhotoUsage(photos).value.photoWithMostComments
         == CommentedSummary(photos[most].id, photos[most].file_name, |photos[most].comments|)
  {
    recent := ReduceIsFirstMax(DateTime, photos);
    most := ReduceIsFirstMax(CommentCount, photos);
  }

  // ---------------------------------------------------------------------------
  // photosOfUser: reshaping photos and their populated comments
  // ---------------------------------------------------------------------------

  /** The fields populate selects from the comment author's user document. */
  datatype UserName = UserName(first_name: string, last_name: string)

  /** comment.user_id?._id and friends: every field is undefined when the author could not be populated. */
  datatype Author = Author(id: Option<ObjectId>, first_name: Option<string>, last_name: Option<string>)

  datatype FormattedComment = FormattedComment(id: ObjectId, comment: string, date_time: int, user: Author)

  datatype FormattedPhoto = FormattedPhoto(id: ObjectId, user_id: ObjectId, file_name: string, date_time: int,
                                           comments: seq<FormattedComment>)

  function AuthorOf(authors: map<ObjectId, UserName>, userId: ObjectId): (a: Author)
    ensures userId in authors ==> a.id == Some(userId)
    ensures userId in authors ==> a.first_name == Some(authors[userId].first_name) &&
                                  a.last_name == Some(authors[userId].last_name)
    ensures userId !in authors ==> a == Author(None, None, None)
  {
    if userId in authors then Author(Some(userId), Some(authors[userId].first_name), Some(authors[userId].last_name))
    else Author(None, None, None)
  }

  /** photo.comments.map(...): one formatted comment per comment, in order. */
  function FormatComments(authors: map<ObjectId, UserName>, comments: seq<Comment>): (r: seq<FormattedComment>)
    ensures |r| == |comments|
    ensures forall i :: 0 <= i < |comments| ==>
              r[i].id == comments[i].id && r[i].comment == comments[i].comment &&
              r[i].date_time == comments[i].date_time && r[i].user == AuthorOf(authors, comments[i].user_id)
  {
    if comments == [] then []
    else
      var c := comments[0];
      [FormattedComment(c.id, c.comment, c.date_time, AuthorOf(authors, c.user_id))]
        + FormatComments(authors, comments[1..])
  }

  /** photos.map(...): one formatted photo per photo, in order, each with its comments reshaped. */
  function FormatPhotos(authors: map<ObjectId, UserName>, photos: seq<Photo>): (r: seq<FormattedPhoto>)
    ensures |r| == |photos|
    ensures forall i :: 0 <= i < |photos| ==>
              r[i].id == photos[i].id && r[i].user_id == photos[i].user_id &&
              r[i].file_name == photos[i].file_name && r[i].date_time == photos[i].date_time &&
              r[i].comments == FormatComments(authors, photos[i].comments)
  {
    if photos == [] then []
    else
      var p := photos[0];
      [FormattedPhoto(p.id, p.user_id, p.file_name, p.date_time, FormatComments(authors, p.comments))]
        + FormatPhotos(authors, photos[1..])
  }

  /** Every comment author of every photo is among the populated users. */
  predicate AuthorsKnown(authors: map<ObjectId, UserName>, photos: seq<Photo>)
  {
    forall i, j :: 0 <= i < |photos| && 0 <= j < |photos[i].comments| ==> photos[i].comments[j].user_id in authors
  }

  /** Reads a formatted comment back; the author id stands in for the populated user. */
  function UnformatComment(c: FormattedComment, fallback: ObjectId): Comment
  {
    Comment(c.id, c.comment, c.date_time, if c.user.id.Some? then c.user.id.value else fallback)
  }

  function UnformatPhoto(p: FormattedPhoto): Photo
  {
    Photo(p.id, p.user_id, p.file_name, p.date_time, seq(|p.comments|, j requires 0 <= j < |p.comments| => UnformatComment(p.comments[j], "")))
  }

  function Unformat(ps: seq<FormattedPhoto>): seq<Photo>
  {
    seq(|ps|, i requires 0 <= i < |ps| => UnformatPhoto(ps[i]))
  }

  /** When every author is found, formatting loses nothing: the photos, their comments and their order come back. */
  lemma FormatRoundTrip(authors: map<ObjectId, UserName>, photos: seq<Photo>)
    requires AuthorsKnown(authors, photos)
    ensures Unformat(FormatPhotos(authors, photos)) == photos
  {
    var r := FormatPhotos(authors, photos);
    forall i | 0 <= i < |photos| ensures UnformatPhoto(r[i]) == photos[i] {
      var cs := photos[i].comments;
      var fs := r[i].comments;
      forall j | 0 <= j < |cs| ensures UnformatComment(fs[j], "") == cs[j] {
        assert cs[j].user_id in authors;
      }
      assert UnformatPhoto(r[i]).comments == cs;
    }
  }
}

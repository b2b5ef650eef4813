/**
 * The statistics panel of src/screens/stats/photo-stats.js: the top photos of
 * one kind turned into chart points, the point the user tapped, and the title.
 */
module PhotoStats {
  import opened Common

  /** A fetched photo document, fields the panel reads; `userName` may be absent. */
  datatype StatDoc = StatDoc(id: string, imageUrl: Option<string>, userName: Option<string>, votes: Option<nat>)

  /** A chart point: the document plus `x` (the first word of the user name) and `y` (the votes). */
  datatype Point = Point(doc: StatDoc, x: string, y: nat)

  /** One document as a chart point: labelled with the first word of its user name,
      valued at its votes (0 when absent). */
  function PointOf(d: StatDoc): (p: Point)
    requires d.userName.Some?
    ensures p.doc == d
    ensures ' ' !in p.x && |p.x| <= |d.userName.value| && p.x == d.userName.value[..|p.x|]
    ensures |p.x| == |d.userName.value| || d.userName.value[|p.x|] == ' '
    ensures p.y == (if d.votes.Some? then d.votes.value else 0)
  {
    Point(d, BeforeFirst(d.userName.value, ' '), d.votes.GetOr(0))
  }

  /** The mapping over all documents; a document without `userName` makes the
      `split` throw, and the whole mapping yields nothing. */
  function ToPoints(docs: seq<StatDoc>): (r: Option<seq<Point>>)
    ensures r.Some? <==> forall k :: 0 <= k < |docs| ==> docs[k].userName.Some?
    ensures r.Some? ==> |r.value| == |docs| &&
                        forall k :: 0 <= k < |docs| ==> r.value[k] == PointOf(docs[k])
    decreases |docs|
  {
    if docs == [] then Some([])
    else if docs[0].userName.None? then None
    else match ToPoints(docs[1..])
      case None => None
      case Some(rest) => Some([PointOf(docs[0])] + rest)
  }

  /** A name starting with a space gives an empty label. */
  lemma LeadingSpaceEmptyLabel(d: StatDoc)
    requires d.userName.Some? && |d.userName.value| > 0 && d.userName.value[0] == ' '
    ensures PointOf(d).x == ""
  {
  }

  /** "Top 5 Fotos Lindas" for the "linda" panel, "Top 5 Fotos Feas" for any other. */
  function Title(kind: string): (t: string)
    ensures kind == "linda" ==> t == "Top 5 Fotos Lindas"
    ensures kind != "linda" ==> t == "Top 5 Fotos Feas"
  {
    "Top 5 Fotos " + (if kind == "linda" then "Lindas" else "Feas")
  }

  /** The two panels have different titles: a title names exactly one kind of panel. */
  lemma TitleTellsPanelsApart(kind: string)
    ensures Title(kind) == Title("linda") <==> kind == "linda"
  {
    if kind != "linda" {
      assert Title(kind)[12] == 'F' && Title("linda")[12] == 'L';
    }
  }

  /** What a chart press hands over: the tapped point's `datum`, if present, and the object itself. */
  datatype Press = Press(datum: Option<Point>, self: Point)

  class StatsPanel {
    var data: seq<Point>
    var selectedPhoto: Option<Point>
    var loading: bool

    constructor ()
      ensures data == [] && selectedPhoto == None && !loading
    {
      data := [];
      selectedPhoto := None;
      loading := false;
    }

    /** `fetchTopPhotos`: `fetched` is the query's result, None when it throws. */
    method FetchTopPhotos(fetched: Option<seq<StatDoc>>)
      modifies this
      ensures fetched.Some? && ToPoints(fetched.value).Some? ==> data == ToPoints(fetched.value).value
      ensures fetched.None? || ToPoints(fetched.value).None? ==> data == old(data)
      ensures selectedPhoto == old(selectedPhoto) && loading == old(loading)
    {
      if fetched.Some? {
        var points := ToPoints(fetched.value);
        if points.Some? {
          data := points.value;
        }
      }
    }

    /** `handleSelectDataPoint`: select the pressed point's inner datum when it has one, else the pressed object. */
    method HandleSelectDataPoint(press: Press)
      modifies this
      ensures selectedPhoto == Some(press.datum.GetOr(press.self))
      ensures ModalVisible() && !loading && data == old(data)
    {
      loading := true;
      selectedPhoto := Some(press.datum.GetOr(press.self));
      loading := false;
    }

    /** `closeModal` */
    method CloseModal()
      modifies this
      ensures selectedPhoto == None && !ModalVisible()
      ensures data == old(data) && loading == old(loading)
    {
      selectedPhoto := None;
    }

    /** The details modal is visible while a point is selected. */
    predicate ModalVisible()
      reads this
    {
      selectedPhoto.Some?
    }
  }
}

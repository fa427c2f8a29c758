/** The browser-side image store: the list the gallery page shows and the
    requests its actions send. Server answers are parameters: a fetch is the
    list the server returned, a delete is whether the request succeeded. */
module ClientImages {
  import opened Common
  import opened Sequences
  import opened Records
  import GalleryImages

  /** The fields of a listed image the store looks at. */
  datatype ListItem = ListItem(id: string, title: string, processingStatus: string, isPublic: bool)

  /** `isPublic.toString()`. */
  function BoolText(b: bool): string
  {
    if b then "true" else "false"
  }

  /** The multipart fields an upload sends next to the file. */
  datatype UploadForm = UploadForm(title: string, isPublic: string)

  function UploadFields(title: string, isPublic: bool): (f: UploadForm)
    ensures f.title == title
    ensures f.isPublic == "true" <==> isPublic
  {
    UploadForm(title, BoolText(isPublic))
  }

  /** The flag survives the trip through the form: the server's `=== "true"`
      reads back exactly the boolean the client sent, and a non-empty title
      is kept as typed. */
  lemma UploadFlagRoundTrip(title: string, isPublic: bool, newId: string, userId: string,
                            file: GalleryImages.UploadedFile, now: int)
    ensures var form := UploadFields(title, isPublic);
      var row := GalleryImages.NewRecord(newId, userId, file, Some(form.title), Some(form.isPublic), now);
      && row.isPublic == isPublic
      && (title != "" ==> row.title == title)
      && (title == "" ==> row.title == file.originalname)
  {
    var form := UploadFields(title, isPublic);
    assert form.isPublic == "false" ==> Some(form.isPublic) != Some("true");
  }

  datatype PatchBody = VisibilityBody(isPublic: bool) | TitleBody(title: string)

  datatype Patch = Patch(path: string, body: PatchBody)

  /** The PATCH requests `updateImage` sends, in order: visibility first, then
      the title, each only when the caller gave that field. */
  function UpdateRequests(id: string, title: Option<string>, isPublic: Option<bool>): (r: seq<Patch>)
    ensures |r| == (if title.Some? then 1 else 0) + (if isPublic.Some? then 1 else 0)
    ensures isPublic.Some? ==> r[0] == Patch("/images/" + id + "/visibility", VisibilityBody(isPublic.value))
    ensures title.Some? ==> r[|r| - 1] == Patch("/images/" + id, TitleBody(title.value))
    ensures forall i :: 0 <= i < |r| ==>
      (r[i].body.VisibilityBody? ==> isPublic.Some?) && (r[i].body.TitleBody? ==> title.Some?)
  {
    (if isPublic.Some? then [Patch("/images/" + id + "/visibility", VisibilityBody(isPublic.value))] else [])
    + (if title.Some? then [Patch("/images/" + id, TitleBody(title.value))] else [])
  }

  /** A title change is never sent before a visibility change. */
  lemma VisibilityBeforeTitle(id: string, title: Option<string>, isPublic: Option<bool>, i: nat, j: nat)
    requires var r := UpdateRequests(id, title, isPublic);
      i < |r| && j < |r| && r[i].body.TitleBody? && r[j].body.VisibilityBody?
    ensures j < i
  {
  }

  function IsUnfinished(item: ListItem): bool
  {
    item.processingStatus == "pending" || item.processingStatus == "processing"
  }

  /** `getProcessingImages`: the pending and processing items, in list order. */
  function ProcessingItems(list: seq<ListItem>): (r: seq<ListItem>)
    ensures forall x :: x in r <==> x in list && IsUnfinished(x)
    ensures forall x :: multiset(r)[x] == if IsUnfinished(x) then multiset(list)[x] else 0
  {
    var r := Filter(list, IsUnfinished);
    assert forall x :: multiset(r)[x] == if IsUnfinished(x) then multiset(list)[x] else 0 by {
      forall x ensures multiset(r)[x] == if IsUnfinished(x) then multiset(list)[x] else 0 {
        FilterMultiset(list, IsUnfinished, x);
      }
    }
    r
  }

  /** The selection keeps list order: selecting from two lists joined is
      joining the two selections. */
  lemma ProcessingItemsKeepOrder(front: seq<ListItem>, back: seq<ListItem>)
    ensures ProcessingItems(front + back) == ProcessingItems(front) + ProcessingItems(back)
  {
    FilterConcat(front, back, IsUnfinished);
  }

  /** `getImageById`: the first item with that id. */
  function FindById(list: seq<ListItem>, id: string): (r: Option<ListItem>)
    ensures r.None? <==> forall i :: 0 <= i < |list| ==> list[i].id != id
    ensures r.Some? ==> exists i :: 0 <= i < |list| && list[i] == r.value && r.value.id == id
                                    && forall j :: 0 <= j < i ==> list[j].id != id
  {
    if list == [] then None
    else if list[0].id == id then Some(list[0])
    else
      var rest := FindById(list[1..], id);
      assert rest.Some? ==> exists i :: 0 < i < |list| && list[i] == rest.value && rest.value.id == id
                                        && forall j :: 0 <= j < i ==> list[j].id != id by {
        if rest.Some? {
          var k :| 0 <= k < |list[1..]| && list[1..][k] == rest.value && rest.value.id == id
                   && forall j :: 0 <= j < k ==> list[1..][j].id != id;
          assert list[k + 1] == rest.value;
          assert forall j :: 0 <= j < k + 1 ==> list[j].id != id by {
            forall j | 0 <= j < k + 1 ensures list[j].id != id {
              if j > 0 {
                assert list[j] == list[1..][j - 1];
              }
            }
          }
        }
      }
      assert rest.None? ==> forall i :: 0 <= i < |list| ==> list[i].id != id by {
        if rest.None? {
          forall i | 0 <= i < |list| ensures list[i].id != id {
            if i > 0 {
              assert list[i] == list[1..][i - 1];
            }
          }
        }
      }
      rest
  }

  function OtherId(id: string): ListItem -> bool
  {
    (item: ListItem) => item.id != id
  }

  class ImageListStore {
    var list: seq<ListItem>

    constructor ()
      ensures list == []
    {
      list := [];
    }

    /** `fetchAll`: the list becomes what the server returned. */
    method FetchAll(data: seq<ListItem>)
      modifies this
      ensures list == data
    {
      list := data;
    }

    /** `updateImage`: the requests are awaited one after the other, so the
        first refused one throws; the requests after it and the refetch are
        skipped and the list keeps its old value. `accepted[j]` says whether
        the server accepted the j-th request. */
    method UpdateImage(id: string, title: Option<string>, isPublic: Option<bool>,
                       accepted: seq<bool>, data: seq<ListItem>)
      returns (sent: seq<Patch>)
      requires |accepted| == |UpdateRequests(id, title, isPublic)|
      modifies this
      ensures (forall j :: 0 <= j < |accepted| ==> accepted[j]) ==>
                sent == UpdateRequests(id, title, isPublic) && list == data
      ensures forall k :: (0 <= k < |accepted| && !accepted[k] &&
                           (forall j :: 0 <= j < k ==> accepted[j])) ==>
                sent == UpdateRequests(id, title, isPublic)[..k + 1] && list == old(list)
    {
      sent := [];
      if isPublic.Some? {
        sent := sent + [Patch("/images/" + id + "/visibility", VisibilityBody(isPublic.value))];
        if !accepted[0] {
          return;
        }
      }
      if title.Some? {
        sent := sent + [Patch("/images/" + id, TitleBody(title.value))];
        if !accepted[|sent| - 1] {
          return;
        }
      }
      FetchAll(data);
    }

    /** `remove`: after a successful delete the item leaves the list and the
        others keep their order; a failed delete throws before the list is
        touched. */
    method Remove(id: string, deleted: bool)
      modifies this
      ensures !deleted ==> list == old(list)
      ensures deleted ==> list == Filter(old(list), OtherId(id))
      ensures deleted ==> FindById(list, id).None?
      ensures deleted ==> forall x: ListItem :: x.id != id ==> multiset(list)[x] == multiset(old(list))[x]
    {
      if !deleted {
        return;
      }
      ghost var before := list;
      list := Filter(list, OtherId(id));
      forall x: ListItem | x.id != id
        ensures multiset(list)[x] == multiset(before)[x]
      {
        FilterMultiset(before, OtherId(id), x);
      }
    }

    function GetProcessingImages(): seq<ListItem>
      reads this
    {
      ProcessingItems(list)
    }

    function GetImageById(id: string): Option<ListItem>
      reads this
    {
      FindById(list, id)
    }
  }
}

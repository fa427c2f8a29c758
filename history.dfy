/** The image history tracker: an append-only log of events about images with a
    single write entry point (RecordAction, which never lets a store failure
    escape), a fixed description template per action, convenience wrappers for
    the common actions, and the read-side queries (per-image history, per-owner
    history, aggregate statistics). */
module ImageHistory {
  import opened Common
  import opened Sequences

  // ------------------------------------------------------------- actions

  datatype ImageAction =
    | Upload | View | Download | Share | Rename | Delete | PrivacyChange
    | ProcessingStart | ProcessingComplete | ProcessingFailed
    | ThumbnailGenerated | EncryptionApplied
    | ShareLinkCreated | ShareLinkAccessed | LikeAdded | LikeRemoved

  /** The string each action is stored as. */
  function ActionName(a: ImageAction): string
  {
    match a
    case Upload => "upload"
    case View => "view"
    case Download => "download"
    case Share => "share"
    case Rename => "rename"
    case Delete => "delete"
    case PrivacyChange => "privacy_change"
    case ProcessingStart => "processing_start"
    case ProcessingComplete => "processing_complete"
    case ProcessingFailed => "processing_failed"
    case ThumbnailGenerated => "thumbnail_generated"
    case EncryptionApplied => "encryption_applied"
    case ShareLinkCreated => "share_link_created"
    case ShareLinkAccessed => "share_link_accessed"
    case LikeAdded => "like_added"
    case LikeRemoved => "like_removed"
  }

  /** Which action, if any, a stored action string names. Action strings come
      from request bodies too, so any string may arrive here. */
  function ParseAction(s: string): Option<ImageAction>
  {
    if s == "upload" then Some(Upload)
    else if s == "view" then Some(View)
    else if s == "download" then Some(Download)
    else if s == "share" then Some(Share)
    else if s == "rename" then Some(Rename)
    else if s == "delete" then Some(Delete)
    else if s == "privacy_change" then Some(PrivacyChange)
    else if s == "processing_start" then Some(ProcessingStart)
    else if s == "processing_complete" then Some(ProcessingComplete)
    else if s == "processing_failed" then Some(ProcessingFailed)
    else if s == "thumbnail_generated" then Some(ThumbnailGenerated)
    else if s == "encryption_applied" then Some(EncryptionApplied)
    else if s == "share_link_created" then Some(ShareLinkCreated)
    else if s == "share_link_accessed" then Some(ShareLinkAccessed)
    else if s == "like_added" then Some(LikeAdded)
    else if s == "like_removed" then Some(LikeRemoved)
    else None
  }

  lemma ActionNameRoundTrip(a: ImageAction)
    ensures ParseAction(ActionName(a)) == Some(a)
  {
  }

  /** The generated description of a known action is its template. */
  lemma DescribeAction(a: ImageAction, md: Option<Metadata>)
    ensures Describe(ActionName(a), md) == Template(a, md)
  {
    ActionNameRoundTrip(a);
  }

  /** The row written for a known action without an explicit description. */
  lemma KnownEvent(imageId: string, a: ImageAction, userId: Option<string>, md: Option<Metadata>, now: int)
    ensures NewEvent(imageId, ActionName(a), userId, md, None, now)
         == Event(imageId, ActorOf(userId), ActionName(a), md, Template(a, md), now)
  {
    DescribeAction(a, md);
  }

  lemma ParseActionInverse(s: string)
    ensures ParseAction(s).Some? ==> ActionName(ParseAction(s).value) == s
  {
    if s == "upload" {
    } else if s == "view" {
    } else if s == "download" {
    } else if s == "share" {
    } else if s == "rename" {
    } else if s == "delete" {
    } else if s == "privacy_change" {
    } else if s == "processing_start" {
    } else if s == "processing_complete" {
    } else if s == "processing_failed" {
    } else if s == "thumbnail_generated" {
    } else if s == "encryption_applied" {
    } else if s == "share_link_created" {
    } else if s == "share_link_accessed" {
    } else if s == "like_added" {
    } else if s == "like_removed" {
    }
  }

  // ------------------------------------------------------------ metadata

  /** A metadata value as JavaScript sees it; numbers are integers here. */
  datatype JsValue = Undefined | Null | Bool(b: bool) | Num(n: int) | Str(s: string)

  type Metadata = map<string, JsValue>

  /** JavaScript truthiness. */
  predicate Truthy(v: JsValue)
  {
    match v
    case Undefined => false
    case Null => false
    case Bool(b) => b
    case Num(n) => n != 0
    case Str(s) => s != ""
  }

  /** What `${v}` inserts into a template literal. */
  function JsString(v: JsValue): string
  {
    match v
    case Undefined => "undefined"
    case Null => "null"
    case Bool(b) => if b then "true" else "false"
    case Num(n) => IntToDecimal(n)
    case Str(s) => s
  }

  /** `metadata?.key`: undefined when there is no metadata or no such key. */
  function Field(md: Option<Metadata>, key: string): JsValue
  {
    if md.Some? && key in md.value then md.value[key] else Undefined
  }

  function OptStr(o: Option<string>): JsValue
  {
    if o.Some? then Str(o.value) else Undefined
  }

  // -------------------------------------------------------- descriptions

  /** `Math.round(n / 1024)` for an integer byte count: the nearest integer,
      halves rounded up. */
  function RoundKB(n: int): int
  {
    (n + 512) / 1024
  }

  lemma RoundKBIsNearest(n: int)
    ensures 1024 * RoundKB(n) - 512 <= n < 1024 * RoundKB(n) + 512
  {
  }

  /** The size part of the upload description. */
  function SizeLabel(v: JsValue): string
  {
    if !Truthy(v) then "unknown size"
    else
      match v
      case Num(n) => IntToDecimal(RoundKB(n)) + "KB"
      case Bool(_) => "0KB"   // true / 1024 rounds to 0
      case _ => "NaNKB"     // a string or an object; numeric strings are not converted
  }

  function Template(a: ImageAction, md: Option<Metadata>): string
  {
    match a
    case Upload => "Image uploaded (" + SizeLabel(Field(md, "fileSize")) + ")"
    case View => "Image viewed"
    case Download => "Image downloaded"
    case Share => "Image shared with user"
    case Rename =>
      "Renamed from \"" + JsString(Field(md, "oldValue")) + "\" to \""
        + JsString(Field(md, "newValue")) + "\""
    case Delete => "Image deleted"
    case PrivacyChange =>
      "Privacy changed to " + (if Truthy(Field(md, "newValue")) then "public" else "private")
    case ProcessingStart => "Image processing started"
    case ProcessingComplete =>
      "Processing completed in " + JsString(Field(md, "processingTime")) + "ms"
    case ProcessingFailed =>
      "Processing failed: "
        + (if Truthy(Field(md, "error")) then JsString(Field(md, "error")) else "Unknown error")
    case ThumbnailGenerated => "Thumbnail generated"
    case EncryptionApplied => "Encryption applied to image"
    case ShareLinkCreated => "Share link created"
    case ShareLinkAccessed => "Share link accessed"
    case LikeAdded => "Image liked"
    case LikeRemoved => "Like removed"
  }

  /** The description generated for an action string: the action's template,
      or a generic sentence for a string that names no action. */
  function Describe(action: string, md: Option<Metadata>): (d: string)
    ensures d != ""
  {
    match ParseAction(action)
    case Some(a) => Template(a, md)
    case None => "Action performed: " + action
  }

  lemma UploadDescription(md: Option<Metadata>)
    ensures var size := Field(md, "fileSize");
      && (!Truthy(size) ==> Describe("upload", md) == "Image uploaded (unknown size)")
      && (size.Num? && size.n != 0 ==>
            Describe("upload", md) == "Image uploaded (" + IntToDecimal(RoundKB(size.n)) + "KB)")
  {
  }

  lemma RenameDescription(oldTitle: string, newTitle: string)
    ensures Describe("rename", Some(map["oldValue" := Str(oldTitle), "newValue" := Str(newTitle)]))
         == "Renamed from \"" + oldTitle + "\" to \"" + newTitle + "\""
  {
  }

  lemma PrivacyDescription(md: Option<Metadata>)
    ensures Truthy(Field(md, "newValue")) ==> Describe("privacy_change", md) == "Privacy changed to public"
    ensures !Truthy(Field(md, "newValue")) ==> Describe("privacy_change", md) == "Privacy changed to private"
  {
    assert ParseAction("privacy_change") == Some(PrivacyChange);
  }

  lemma FailureDescription(md: Option<Metadata>)
    ensures var e := Field(md, "error");
      Describe("processing_failed", md)
        == "Processing failed: " + (if Truthy(e) then JsString(e) else "Unknown error")
  {
  }

  lemma FallbackDescription(action: string, md: Option<Metadata>)
    requires ParseAction(action).None?
    ensures Describe(action, md) == "Action performed: " + action
  {
  }

  // -------------------------------------------------------------- events

  datatype Event = Event(
    imageId: string,
    actor: Option<string>,      // null for system-generated events
    action: string,
    metadata: Option<Metadata>,
    description: string,
    timestamp: int)

  /** `userId || undefined`: an empty user id records no actor. */
  function ActorOf(userId: Option<string>): (r: Option<string>)
    ensures r.Some? <==> userId.Some? && userId.value != ""
    ensures r.Some? ==> r == userId
  {
    if userId.Some? && userId.value != "" then userId else None
  }

  /** The row RecordAction writes: the given image, action and metadata, the
      caller as actor, and the explicit description unless it is missing or
      empty, in which case the generated one. */
  function NewEvent(imageId: string, action: string, userId: Option<string>,
                    metadata: Option<Metadata>, description: Option<string>, now: int): (e: Event)
    ensures e.imageId == imageId && e.action == action && e.metadata == metadata
    ensures e.timestamp == now && e.actor == ActorOf(userId)
    ensures description.Some? && description.value != "" ==> e.description == description.value
    ensures description.None? || description.value == "" ==> e.description == Describe(action, metadata)
  {
    var text := if description.Some? && description.value != "" then description.value
                else Describe(action, metadata);
    Event(imageId, ActorOf(userId), action, metadata, text, now)
  }

  function UploadMetadata(fileSize: nat, fileName: string): Metadata
  {
    map["fileSize" := Num(fileSize), "fileName" := Str(fileName)]
  }

  function ViewMetadata(ipAddress: Option<string>, userAgent: Option<string>): Metadata
  {
    map["ipAddress" := OptStr(ipAddress), "userAgent" := OptStr(userAgent)]
  }

  function RenameMetadata(oldTitle: string, newTitle: Option<string>): Metadata
  {
    map["oldValue" := Str(oldTitle), "newValue" := OptStr(newTitle)]
  }

  function CompleteMetadata(processingTime: int, processedSize: Option<nat>): Metadata
  {
    map["processingTime" := Num(processingTime),
        "processedSize" := if processedSize.Some? then Num(processedSize.value) else Undefined]
  }

  /** The event log. `events` is the table of rows in insertion order; the store
      stamps each row with the time given to the call. */
  class HistoryLog {
    var events: seq<Event>

    constructor ()
      ensures events == []
    {
      events := [];
    }

    /** Deleting an image deletes its rows along with it. */
    method ForgetImage(imageId: string)
      modifies this
      ensures events == WithoutImage(old(events), imageId)
    {
      events := WithoutImage(events, imageId);
    }

    /** The single write path. `accepted` is whether the record store takes the
        row; when it does not, the failure is logged and swallowed, so the log
        is unchanged and nothing reaches the caller. */
    method RecordAction(imageId: string, action: string, userId: Option<string>,
                        metadata: Option<Metadata>, description: Option<string>,
                        now: int, accepted: bool)
      modifies this
      ensures accepted ==> events == old(events) + [NewEvent(imageId, action, userId, metadata, description, now)]
      ensures !accepted ==> events == old(events)
    {
      if accepted {
        events := events + [NewEvent(imageId, action, userId, metadata, description, now)];
      }
    }

    method TrackUpload(imageId: string, userId: string, fileSize: nat, fileName: string,
                       now: int, accepted: bool)
      modifies this
      ensures accepted ==>
        events == old(events) + [NewEvent(imageId, "upload", Some(userId), Some(UploadMetadata(fileSize, fileName)), None, now)]
      ensures accepted ==> events == old(events) + [Event(imageId, ActorOf(Some(userId)), "upload",
        Some(UploadMetadata(fileSize, fileName)),
        "Image uploaded (" + (if fileSize == 0 then "unknown size"
                              else IntToDecimal(RoundKB(fileSize)) + "KB") + ")", now)]
      ensures !accepted ==> events == old(events)
    {
      RecordAction(imageId, "upload", Some(userId), Some(UploadMetadata(fileSize, fileName)), None, now, accepted);
    }

    method TrackView(imageId: string, userId: Option<string>, ipAddress: Option<string>,
                     userAgent: Option<string>, now: int, accepted: bool)
      modifies this
      ensures accepted ==>
        events == old(events) + [NewEvent(imageId, "view", userId, Some(ViewMetadata(ipAddress, userAgent)), None, now)]
      ensures accepted ==> events == old(events) + [Event(imageId, ActorOf(userId), "view",
        Some(ViewMetadata(ipAddress, userAgent)), "Image viewed", now)]
      ensures !accepted ==> events == old(events)
    {
      RecordAction(imageId, "view", userId, Some(ViewMetadata(ipAddress, userAgent)), None, now, accepted);
    }

    method TrackDownload(imageId: string, userId: Option<string>, ipAddress: Option<string>,
                         now: int, accepted: bool)
      modifies this
      ensures accepted ==> events == old(events) + [Event(imageId, ActorOf(userId), "download",
        Some(map["ipAddress" := OptStr(ipAddress)]), "Image downloaded", now)]
      ensures !accepted ==> events == old(events)
    {
      RecordAction(imageId, "download", userId, Some(map["ipAddress" := OptStr(ipAddress)]), None, now, accepted);
    }

    /** `newTitle` is None when the request carried no title: the description
        then reads `to "undefined"`. */
    method TrackRename(imageId: string, userId: string, oldTitle: string, newTitle: Option<string>,
                       now: int, accepted: bool)
      modifies this
      ensures accepted ==>
        events == old(events) + [NewEvent(imageId, "rename", Some(userId), Some(RenameMetadata(oldTitle, newTitle)), None, now)]
      ensures accepted ==> events == old(events) + [Event(imageId, ActorOf(Some(userId)), "rename",
        Some(RenameMetadata(oldTitle, newTitle)),
        "Renamed from \"" + oldTitle + "\" to \""
          + (if newTitle.Some? then newTitle.value else "undefined") + "\"", now)]
      ensures !accepted ==> events == old(events)
    {
      RecordAction(imageId, "rename", Some(userId), Some(RenameMetadata(oldTitle, newTitle)), None, now, accepted);
    }

    method TrackPrivacyChange(imageId: string, userId: string, oldPublic: bool, newPublic: bool,
                              now: int, accepted: bool)
      modifies this
      ensures accepted ==> events == old(events) + [Event(imageId, ActorOf(Some(userId)), "privacy_change",
        Some(map["oldValue" := Bool(oldPublic), "newValue" := Bool(newPublic)]),
        if newPublic then "Privacy changed to public" else "Privacy changed to private", now)]
      ensures !accepted ==> events == old(events)
    {
      var md := map["oldValue" := Bool(oldPublic), "newValue" := Bool(newPublic)];
      KnownEvent(imageId, PrivacyChange, Some(userId), Some(md), now);
      assert ActionName(PrivacyChange) == "privacy_change";
      assert Field(Some(md), "newValue") == Bool(newPublic);
      assert Template(PrivacyChange, Some(md))
          == if newPublic then "Privacy changed to public" else "Privacy changed to private";
      RecordAction(imageId, ActionName(PrivacyChange), Some(userId), Some(md), None, now, accepted);
    }

    method TrackProcessingComplete(imageId: string, processingTime: int, processedSize: Option<nat>,
                                   now: int, accepted: bool)
      modifies this
      ensures accepted ==> events == old(events) + [Event(imageId, None, "processing_complete",
        Some(CompleteMetadata(processingTime, processedSize)),
        "Processing completed in " + IntToDecimal(processingTime) + "ms", now)]
      ensures !accepted ==> events == old(events)
    {
      var md := CompleteMetadata(processingTime, processedSize);
      KnownEvent(imageId, ProcessingComplete, None, Some(md), now);
      assert ActionName(ProcessingComplete) == "processing_complete";
      assert Field(Some(md), "processingTime") == Num(processingTime);
      RecordAction(imageId, ActionName(ProcessingComplete), None, Some(md), None, now, accepted);
    }

    method TrackProcessingFailed(imageId: string, error: string, now: int, accepted: bool)
      modifies this
      ensures accepted ==> events == old(events) + [Event(imageId, None, "processing_failed",
        Some(map["error" := Str(error)]),
        "Processing failed: " + (if error != "" then error else "Unknown error"), now)]
      ensures !accepted ==> events == old(events)
    {
      var md := map["error" := Str(error)];
      KnownEvent(imageId, ProcessingFailed, None, Some(md), now);
      assert ActionName(ProcessingFailed) == "processing_failed";
      assert Field(Some(md), "error") == Str(error);
      RecordAction(imageId, ActionName(ProcessingFailed), None, Some(md), None, now, accepted);
    }

    method TrackShareLinkCreated(imageId: string, userId: string, token: string, now: int, accepted: bool)
      modifies this
      ensures accepted ==> events == old(events) + [Event(imageId, ActorOf(Some(userId)), "share_link_created",
        Some(map["shareToken" := Str(token)]), "Share link created", now)]
      ensures !accepted ==> events == old(events)
    {
      KnownEvent(imageId, ShareLinkCreated, Some(userId), Some(map["shareToken" := Str(token)]), now);
      RecordAction(imageId, ActionName(ShareLinkCreated), Some(userId), Some(map["shareToken" := Str(token)]),
                   None, now, accepted);
    }

    method TrackShareLinkAccessed(imageId: string, token: string, ipAddress: Option<string>,
                                  now: int, accepted: bool)
      modifies this
      ensures accepted ==> events == old(events) + [Event(imageId, None, "share_link_accessed",
        Some(map["shareToken" := Str(token), "ipAddress" := OptStr(ipAddress)]), "Share link accessed", now)]
      ensures !accepted ==> events == old(events)
    {
      var md := map["shareToken" := Str(token), "ipAddress" := OptStr(ipAddress)];
      KnownEvent(imageId, ShareLinkAccessed, None, Some(md), now);
      RecordAction(imageId, ActionName(ShareLinkAccessed), None,
                   Some(map["shareToken" := Str(token), "ipAddress" := OptStr(ipAddress)]), None, now, accepted);
    }

    method TrackLike(imageId: string, userId: string, isLiked: bool, now: int, accepted: bool)
      modifies this
      ensures accepted && isLiked ==>
        events == old(events) + [Event(imageId, ActorOf(Some(userId)), "like_added", None, "Image liked", now)]
      ensures accepted && !isLiked ==>
        events == old(events) + [Event(imageId, ActorOf(Some(userId)), "like_removed", None, "Like removed", now)]
      ensures !accepted ==> events == old(events)
    {
      var action := if isLiked then LikeAdded else LikeRemoved;
      KnownEvent(imageId, action, Some(userId), None, now);
      RecordAction(imageId, ActionName(action), Some(userId), None, None, now, accepted);
    }
  }

  // ------------------------------------------------------------- queries

  function Timestamp(e: Event): int
  {
    e.timestamp
  }

  /** The rows of one image, in insertion order. */
  function EventsOf(log: seq<Event>, imageId: string): (r: seq<Event>)
    ensures forall i :: 0 <= i < |r| ==> r[i].imageId == imageId && r[i] in log
    ensures forall i :: 0 <= i < |log| && log[i].imageId == imageId ==> log[i] in r
  {
    Filter(log, (e: Event) => e.imageId == imageId)
  }

  /** The log once an image's rows have been deleted with it, order kept. */
  function WithoutImage(log: seq<Event>, imageId: string): (r: seq<Event>)
    ensures forall i :: 0 <= i < |r| ==> r[i].imageId != imageId && r[i] in log
    ensures forall i :: 0 <= i < |log| && log[i].imageId != imageId ==> log[i] in r
  {
    Filter(log, (e: Event) => e.imageId != imageId)
  }

  /** `getImageHistory`: one image's events, newest first, at most `limit`. */
  function GetImageHistory(log: seq<Event>, imageId: string, limit: Option<nat>): (r: seq<Event>)
    ensures forall i :: 0 <= i < |r| ==> r[i].imageId == imageId && r[i] in log
    ensures NonIncreasing(r, Timestamp)
    ensures limit.None? ==> multiset(r) == multiset(EventsOf(log, imageId))
    ensures limit.Some? ==> |r| == Min(limit.value, |EventsOf(log, imageId)|)
    ensures multiset(r) <= multiset(EventsOf(log, imageId))
    ensures forall x, y :: x in r && y in multiset(EventsOf(log, imageId)) - multiset(r)
              ==> Timestamp(x) >= Timestamp(y)
  {
    var own := EventsOf(log, imageId);
    var r := TopBy(own, Timestamp, limit);
    SubMultisetMembers(r, own);
    r
  }

  /** Appending one event adds it to its own image's history and to no other. */
  lemma {:induction false} HistoryAfterAppend(log: seq<Event>, e: Event, imageId: string)
    ensures |GetImageHistory(log + [e], imageId, None)|
         == |GetImageHistory(log, imageId, None)| + (if e.imageId == imageId then 1 else 0)
    ensures e.imageId == imageId ==> e in GetImageHistory(log + [e], imageId, None)
  {
    var p := (x: Event) => x.imageId == imageId;
    FilterConcat(log, [e], p);
    assert EventsOf(log + [e], imageId) == EventsOf(log, imageId) + Filter([e], p);
    assert Filter([e], p) == if e.imageId == imageId then [e] else [];
    var full := GetImageHistory(log + [e], imageId, None);
    assert |full| == |EventsOf(log + [e], imageId)| by {
      assert multiset(full) == multiset(EventsOf(log + [e], imageId));
    }
    if e.imageId == imageId {
      assert e in multiset(EventsOf(log + [e], imageId));
      assert e in multiset(full);
    }
  }

  /** A row about the image that is written just before the image's rows are
      deleted is deleted with them. */
  lemma ForgetLastRow(log: seq<Event>, e: Event, imageId: string)
    requires e.imageId == imageId
    ensures WithoutImage(log + [e], imageId) == WithoutImage(log, imageId)
  {
    FilterConcat(log, [e], (x: Event) => x.imageId != imageId);
    assert Filter([e], (x: Event) => x.imageId != imageId) == [];
  }

  /** Once an image's rows are deleted its history is empty, and every other
      image's history is what it was. */
  lemma ForgetImageHistory(log: seq<Event>, imageId: string, other: string, limit: Option<nat>)
    ensures other == imageId ==> GetImageHistory(WithoutImage(log, imageId), other, limit) == []
    ensures other != imageId ==>
      GetImageHistory(WithoutImage(log, imageId), other, limit) == GetImageHistory(log, other, limit)
  {
    if other != imageId {
      FilterFilter(log, (e: Event) => e.imageId != imageId, (e: Event) => e.imageId == other);
    }
  }

  /** Every event recorded for an image is returned by an unlimited history
      query, and only those. */
  lemma HistoryIsExactlyTheImagesEvents(log: seq<Event>, imageId: string, e: Event)
    ensures e in GetImageHistory(log, imageId, None) <==> e in log && e.imageId == imageId
  {
    var r := GetImageHistory(log, imageId, None);
    var own := EventsOf(log, imageId);
    assert e in r <==> e in multiset(r);
    assert e in own <==> e in multiset(own);
    if e in log && e.imageId == imageId {
      var i :| 0 <= i < |log| && log[i] == e;
      assert e in own;
    }
  }

  // ---------------------------------------------- history of a user's images

  datatype ImageSummary = ImageSummary(id: string, ownerId: string, title: string, mimeType: string)

  datatype HistoryEntry = HistoryEntry(event: Event, image: ImageSummary)

  function EntryTimestamp(h: HistoryEntry): int
  {
    h.event.timestamp
  }

  /** The events whose image belongs to `userId`, each joined with its image. */
  function OwnedEntries(log: seq<Event>, images: map<string, ImageSummary>, userId: string): (r: seq<HistoryEntry>)
    ensures forall i :: 0 <= i < |r| ==>
      r[i].event in log && r[i].event.imageId in images
      && r[i].image == images[r[i].event.imageId] && r[i].image.ownerId == userId
    ensures forall i :: 0 <= i < |log| && log[i].imageId in images && images[log[i].imageId].ownerId == userId ==>
              HistoryEntry(log[i], images[log[i].imageId]) in r
  {
    if log == [] then []
    else
      var e := log[0];
      var rest := OwnedEntries(log[1..], images, userId);
      assert forall i :: 1 <= i < |log| ==> log[i] == log[1..][i - 1];
      if e.imageId in images && images[e.imageId].ownerId == userId then
        [HistoryEntry(e, images[e.imageId])] + rest
      else rest
  }

  /** `getUserImageHistory`: events on images the user owns, newest first, at most `limit`. */
  function GetUserImageHistory(log: seq<Event>, images: map<string, ImageSummary>, userId: string,
                               limit: Option<nat>): (r: seq<HistoryEntry>)
    ensures forall i :: 0 <= i < |r| ==>
      r[i].event in log && r[i].image.ownerId == userId
      && r[i].event.imageId in images && r[i].image == images[r[i].event.imageId]
    ensures NonIncreasing(r, EntryTimestamp)
    ensures limit.Some? ==> |r| == Min(limit.value, |OwnedEntries(log, images, userId)|)
    ensures limit.None? ==> multiset(r) == multiset(OwnedEntries(log, images, userId))
    ensures multiset(r) <= multiset(OwnedEntries(log, images, userId))
    ensures forall x, y :: x in r && y in multiset(OwnedEntries(log, images, userId)) - multiset(r)
              ==> EntryTimestamp(x) >= EntryTimestamp(y)
  {
    var owned := OwnedEntries(log, images, userId);
    var r := TopBy(owned, EntryTimestamp, limit);
    SubMultisetMembers(r, owned);
    r
  }

  // ------------------------------------------------------------ statistics

  datatype Stats = Stats(
    totalActions: nat,
    uniqueUsers: nat,
    actionBreakdown: map<string, nat>,
    lastActivity: Option<Event>)

  function CountAction(evs: seq<Event>, action: string): nat
  {
    if evs == [] then 0
    else (if evs[0].action == action then 1 else 0) + CountAction(evs[1..], action)
  }

  /** One `groupBy` row per action present: the action and how many events carry it. */
  type Group = (string, nat)

  function Lookup(g: seq<Group>, action: string): nat
  {
    if g == [] then 0 else if g[0].0 == action then g[0].1 else Lookup(g[1..], action)
  }

  function SumCounts(g: seq<Group>): nat
  {
    if g == [] then 0 else g[0].1 + SumCounts(g[1..])
  }

  ghost predicate Positive(g: seq<Group>)
  {
    forall i :: 0 <= i < |g| ==> g[i].1 > 0
  }

  ghost predicate DistinctKeys(g: seq<Group>)
  {
    forall i, j :: 0 <= i < j < |g| ==> g[i].0 != g[j].0
  }

  /** Counts one more event carrying `action`. */
  function Bump(g: seq<Group>, action: string): (r: seq<Group>)
    ensures SumCounts(r) == SumCounts(g) + 1
    ensures forall a :: Lookup(r, a) == Lookup(g, a) + (if a == action then 1 else 0)
  {
    if g == [] then [(action, 1)]
    else if g[0].0 == action then [(action, g[0].1 + 1)] + g[1..]
    else [g[0]] + Bump(g[1..], action)
  }

  /** Bumping adds no key but the bumped one. */
  lemma {:induction false} BumpKeys(g: seq<Group>, action: string)
    ensures forall i :: 0 <= i < |Bump(g, action)| ==> Bump(g, action)[i].0 == action || Bump(g, action)[i].0 in KeysOf(g)
  {
    if g != [] && g[0].0 != action {
      BumpKeys(g[1..], action);
      assert KeysOf(g) == {g[0].0} + KeysOf(g[1..]);
      assert Bump(g, action) == [g[0]] + Bump(g[1..], action);
    }
  }

  /** Bumping keeps the rows positive and their keys distinct. */
  lemma {:induction false} BumpKeepsShape(g: seq<Group>, action: string)
    ensures DistinctKeys(g) ==> DistinctKeys(Bump(g, action))
    ensures Positive(g) ==> Positive(Bump(g, action))
  {
    if g != [] && g[0].0 != action {
      BumpKeepsShape(g[1..], action);
      BumpKeys(g[1..], action);
      var rest := Bump(g[1..], action);
      assert Bump(g, action) == [g[0]] + rest;
      if DistinctKeys(g) {
        forall i | 0 <= i < |rest| ensures rest[i].0 != g[0].0 {
          if rest[i].0 != action {
            var k :| 0 <= k < |g[1..]| && g[1..][k].0 == rest[i].0;
            assert g[k + 1].0 == rest[i].0;
          }
        }
      }
    }
  }

  function KeysOf(g: seq<Group>): (ks: set<string>)
    ensures forall i :: 0 <= i < |g| ==> g[i].0 in ks
    ensures forall a :: a in ks ==> exists i :: 0 <= i < |g| && g[i].0 == a
  {
    if g == [] then {}
    else
      var rest := KeysOf(g[1..]);
      assert forall a :: a in rest ==> exists i :: 1 <= i < |g| && g[i].0 == a by {
        forall a | a in rest
          ensures exists i :: 1 <= i < |g| && g[i].0 == a
        {
          var k :| 0 <= k < |g[1..]| && g[1..][k].0 == a;
          assert g[k + 1].0 == a;
        }
      }
      {g[0].0} + rest
  }

  function Groups(evs: seq<Event>): (g: seq<Group>)
    ensures DistinctKeys(g) && Positive(g)
    ensures SumCounts(g) == |evs|
    ensures forall a :: Lookup(g, a) == CountAction(evs, a)
  {
    if evs == [] then []
    else
      BumpKeepsShape(Groups(evs[1..]), evs[0].action);
      Bump(Groups(evs[1..]), evs[0].action)
  }

  /** The `reduce` that turns the group rows into a map from action to count. */
  function Breakdown(g: seq<Group>): (m: map<string, nat>)
    ensures m.Keys == KeysOf(g)
    ensures forall a :: a in m ==> m[a] == Lookup(g, a)
  {
    if g == [] then map[] else Breakdown(g[1..])[g[0].0 := g[0].1]
  }

  ghost function SumValues(m: map<string, nat>): nat
    decreases |m|
  {
    if m == map[] then 0
    else
      var k :| k in m;
      m[k] + SumValues(m - {k})
  }

  lemma {:induction false} SumValuesRemove(m: map<string, nat>, k: string)
    requires k in m
    ensures SumValues(m) == m[k] + SumValues(m - {k})
    decreases |m|
  {
    var k' :| k' in m && SumValues(m) == m[k'] + SumValues(m - {k'});
    if k' != k {
      var m1 := m - {k'};
      var m2 := m - {k};
      assert |m1| < |m| && |m2| < |m|;
      SumValuesRemove(m1, k);
      SumValuesRemove(m2, k');
      assert m1 - {k} == m2 - {k'};
    }
  }

  lemma {:induction false} BreakdownSum(g: seq<Group>)
    requires DistinctKeys(g)
    ensures SumValues(Breakdown(g)) == SumCounts(g)
  {
    if g != [] {
      var rest := Breakdown(g[1..]);
      assert DistinctKeys(g[1..]);
      BreakdownSum(g[1..]);
      assert g[0].0 !in rest;
      var m := rest[g[0].0 := g[0].1];
      SumValuesRemove(m, g[0].0);
      assert m - {g[0].0} == rest;
    }
  }

  /** Distinct non-null actors of a sequence of events. */
  function Actors(evs: seq<Event>): (us: set<string>)
    ensures forall i :: 0 <= i < |evs| && evs[i].actor.Some? ==> evs[i].actor.value in us
    ensures forall u :: u in us ==> exists i :: 0 <= i < |evs| && evs[i].actor == Some(u)
  {
    if evs == [] then {}
    else
      var rest := Actors(evs[1..]);
      assert forall u :: u in rest ==> exists i :: 1 <= i < |evs| && evs[i].actor == Some(u) by {
        forall u | u in rest
          ensures exists i :: 1 <= i < |evs| && evs[i].actor == Some(u)
        {
          var k :| 0 <= k < |evs[1..]| && evs[1..][k].actor == Some(u);
          assert evs[k + 1].actor == Some(u);
        }
      }
      if evs[0].actor.Some? then {evs[0].actor.value} + rest else rest
  }

  /** There are at most as many distinct actors as events. */
  lemma {:induction false} ActorsBound(evs: seq<Event>)
    ensures |Actors(evs)| <= |evs|
  {
    if evs != [] {
      ActorsBound(evs[1..]);
      var rest := Actors(evs[1..]);
      if evs[0].actor.Some? {
        var u := evs[0].actor.value;
        if u in rest {
          assert {u} + rest == rest;
        } else {
          assert |{u} + rest| == 1 + |rest|;
        }
      }
    }
  }

  /** `getImageStats` for one image. */
  function ImageStats(log: seq<Event>, imageId: string): (st: Stats)
    ensures st.totalActions == |EventsOf(log, imageId)|
    ensures st.lastActivity.None? <==> st.totalActions == 0
  {
    var evs := EventsOf(log, imageId);
    var newest := SortDesc(evs, Timestamp);
    Stats(|evs|, |Actors(evs)|, Breakdown(Groups(evs)),
          if newest == [] then None else Some(newest[0]))
  }

  /** The breakdown values add up to the total number of actions. */
  lemma BreakdownAddsUp(log: seq<Event>, imageId: string)
    ensures var st := ImageStats(log, imageId);
      SumValues(st.actionBreakdown) == st.totalActions
  {
    BreakdownSum(Groups(EventsOf(log, imageId)));
  }

  /** The breakdown names exactly the actions that occur, each with its count. */
  lemma BreakdownCounts(log: seq<Event>, imageId: string, action: string)
    ensures var st := ImageStats(log, imageId);
      var n := CountAction(EventsOf(log, imageId), action);
      && (action in st.actionBreakdown <==> n > 0)
      && (action in st.actionBreakdown ==> st.actionBreakdown[action] == n)
  {
    var g := Groups(EventsOf(log, imageId));
    LookupPositive(g, action);
  }

  /** In rows with positive counts, an action has a row exactly when its count is positive. */
  lemma {:induction false} LookupPositive(g: seq<Group>, a: string)
    requires Positive(g)
    ensures a in KeysOf(g) <==> Lookup(g, a) > 0
  {
    if g != [] {
      LookupPositive(g[1..], a);
    }
  }

  /** `uniqueUsers` counts distinct non-null actors and never exceeds `totalActions`. */
  lemma UniqueUsersBound(log: seq<Event>, imageId: string)
    ensures ImageStats(log, imageId).uniqueUsers <= ImageStats(log, imageId).totalActions
  {
    ActorsBound(EventsOf(log, imageId));
  }

  /** `lastActivity` is null exactly when the image has no events, and otherwise
      one of its events that no other event is newer than. */
  lemma LastActivityIsNewest(log: seq<Event>, imageId: string)
    ensures var st := ImageStats(log, imageId);
      var evs := EventsOf(log, imageId);
      && (st.lastActivity.None? <==> evs == [])
      && (st.lastActivity.Some? ==>
            st.lastActivity.value in evs
            && forall i :: 0 <= i < |evs| ==> evs[i].timestamp <= st.lastActivity.value.timestamp)
  {
    var evs := EventsOf(log, imageId);
    var newest := SortDesc(evs, Timestamp);
    if newest != [] {
      assert newest[0] in multiset(evs);
      forall i | 0 <= i < |evs|
        ensures evs[i].timestamp <= newest[0].timestamp
      {
        assert evs[i] in multiset(newest);
        var j :| 0 <= j < |newest| && newest[j] == evs[i];
        if j > 0 { assert Timestamp(newest[0]) >= Timestamp(newest[j]); }
      }
    }
  }
}

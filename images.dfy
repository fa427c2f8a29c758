/** The image request handlers: upload, background processing of one upload,
    serving an image, renaming and deleting it, the top-liked ranking and the
    per-owner history feed. Responses are reduced to what the handler decides:
    a status and the payload that matters. */
module GalleryImages {
  import opened Common
  import opened Sequences
  import opened Paths
  import opened FileSystem
  import opened ImageHistory
  import opened ImageProcessing
  import opened Records

  /** What the upload middleware hands the handler. */
  datatype UploadedFile = UploadedFile(originalname: string, mimetype: string, size: nat, path: string)

  /** The row an upload creates: pending, not yet encrypted, no thumbnail, the
      body's title unless it is missing or empty, and public only for the
      literal string "true". */
  function NewRecord(id: string, ownerId: string, file: UploadedFile, title: Option<string>,
                     isPublic: Option<string>, now: int): (r: ImageRecord)
    ensures r.id == id && r.ownerId == ownerId
    ensures r.status == Pending && !r.encrypted && !r.thumbnailExists
    ensures r.size == file.size && r.originalSize == file.size && r.path == file.path
    ensures r.mimeType == file.mimetype
    ensures title.Some? && title.value != "" ==> r.title == title.value
    ensures title.None? || title.value == "" ==> r.title == file.originalname
    ensures r.isPublic <==> isPublic == Some("true")
  {
    ImageRecord(id, ownerId,
                if title.Some? && title.value != "" then title.value else file.originalname,
                file.mimetype, file.size, file.size, None, file.path,
                isPublic == Some("true"), Pending, false, false, None, now)
  }

  /** The row after a processing run: completed with the run's figures and the
      path moved to the encrypted copy, or failed with everything else kept.
      Either way the fields the worker does not own are left alone. */
  function AfterProcessing(r: ImageRecord, filePath: string, result: Result<ProcessingResult>): (s: ImageRecord)
    ensures s.id == r.id && s.ownerId == r.ownerId && s.title == r.title
    ensures s.mimeType == r.mimeType && s.size == r.size && s.originalSize == r.originalSize
    ensures s.isPublic == r.isPublic && s.createdAt == r.createdAt
    ensures result.Failure? ==> s == r.(status := Failed)
    ensures result.Success? ==>
      && s.status == Completed
      && s.encrypted == result.value.encrypted
      && s.thumbnailExists == result.value.thumbnailCreated
      && s.processedSize == Some(result.value.processedSize)
      && s.processingTime == Some(result.value.processingTime)
      && (s.path == filePath + ".enc" <==> result.value.encrypted)
      && (!result.value.encrypted ==> s.path == filePath)
  {
    match result
    case Failure(_) => r.(status := Failed)
    case Success(res) =>
      r.(processedSize := Some(res.processedSize), encrypted := res.encrypted,
         thumbnailExists := res.thumbnailCreated, status := Completed,
         processingTime := Some(res.processingTime),
         path := if res.encrypted then filePath + ".enc" else filePath)
  }

  /** The history rows one processing run appends, in order. */
  function ProcessingEvents(imageId: string, result: Result<ProcessingResult>, started: int, finished: int): seq<Event>
  {
    [NewEvent(imageId, "processing_start", None, None, None, started)] + OutcomeEvents(imageId, result, finished)
  }

  /** The rows written once the pipeline has returned. */
  function OutcomeEvents(imageId: string, result: Result<ProcessingResult>, finished: int): seq<Event>
  {
    match result
      case Success(res) =>
        [NewEvent(imageId, "processing_complete", None,
                  Some(CompleteMetadata(res.processingTime, Some(res.processedSize))), None, finished)]
        + (if res.encrypted then [NewEvent(imageId, "encryption_applied", None, None, None, finished)] else [])
        + (if res.thumbnailCreated then [NewEvent(imageId, "thumbnail_generated", None, None, None, finished)] else [])
      case Failure(e) =>
        [NewEvent(imageId, "processing_failed", None, Some(map["error" := Str(e)]), None, finished)]
  }

  lemma StartThenOutcome(before: seq<Event>, imageId: string, result: Result<ProcessingResult>,
                          started: int, finished: int)
    ensures before + [NewEvent(imageId, "processing_start", None, None, None, started)]
              + OutcomeEvents(imageId, result, finished)
            == before + ProcessingEvents(imageId, result, started, finished)
  {
  }

  function Action(e: Event): string
  {
    e.action
  }

  /** The events of a run come in a fixed order: start, then completion followed
      by encryption when applied and the thumbnail when made, or else the
      failure; a failed run never records encryption. */
  lemma ProcessingEventOrder(imageId: string, result: Result<ProcessingResult>, started: int, finished: int)
    ensures var actions := MapSeq(ProcessingEvents(imageId, result, started, finished), Action);
      && (result.Success? ==>
            actions == ["processing_start", "processing_complete"]
                       + (if result.value.encrypted then ["encryption_applied"] else [])
                       + (if result.value.thumbnailCreated then ["thumbnail_generated"] else []))
      && (result.Failure? ==> actions == ["processing_start", "processing_failed"])
      && (result.Failure? ==> "encryption_applied" !in actions)
  {
    var start := [NewEvent(imageId, "processing_start", None, None, None, started)];
    var out := OutcomeEvents(imageId, result, finished);
    MapSeqConcat(start, out, Action);
    assert MapSeq(start, Action) == ["processing_start"];
    match result {
      case Success(res) =>
        var c := [NewEvent(imageId, "processing_complete", None,
                           Some(CompleteMetadata(res.processingTime, Some(res.processedSize))), None, finished)];
        var e := if res.encrypted then [NewEvent(imageId, "encryption_applied", None, None, None, finished)] else [];
        var t := if res.thumbnailCreated then [NewEvent(imageId, "thumbnail_generated", None, None, None, finished)]
                 else [];
        assert out == c + e + t;
        MapSeqConcat(c, e, Action);
        MapSeqConcat(c + e, t, Action);
        assert MapSeq(c, Action) == ["processing_complete"];
        assert MapSeq(e, Action) == if res.encrypted then ["encryption_applied"] else [];
        assert MapSeq(t, Action) == if res.thumbnailCreated then ["thumbnail_generated"] else [];
      case Failure(_) =>
        assert MapSeq(out, Action) == ["processing_failed"];
    }
  }

  /** After a successful run the record's path names a file the run left in
      place: the encrypted copy of the upload. The thumbnail's encrypted name
      must not be that same name, or encrypting the thumbnail would consume it. */
  lemma RecordPathExistsAfterSuccess(files: Files, filePath: string, filename: string, cfg: Config,
                                     tk: Toolkit, elapsed: int, r: ImageRecord)
    requires Pipeline(files, filePath, filename, cfg, tk, elapsed).result.Success?
    requires ThumbnailPath(filePath, filename) != filePath + ".enc"
    ensures var o := Pipeline(files, filePath, filename, cfg, tk, elapsed);
      AfterProcessing(r, filePath, o.result).path in o.files
  {
    PipelineSuccess(files, filePath, filename, cfg, tk, elapsed);
  }

  // ---------------------------------------------------------------- serving

  /** What `getImage` answers. */
  datatype ImageResponse =
    | Refused                               // 403
    | ThumbnailServed(bytes: Bytes)         // 200, image/jpeg
    | StillProcessing(status: ProcessingStatus) // 202
    | FailedImage                           // 500, processing failed
    | FileMissing                           // 404
    | ImageServed(mimeType: string, bytes: Bytes) // 200, decrypted
    | DecryptionFailed                      // 500
    | FileServed(path: string)              // 200, sent from disk

  function ResponseStatus(r: ImageResponse): Status
  {
    match r
    case Refused => Forbidden
    case ThumbnailServed(_) => Ok
    case StillProcessing(_) => Accepted
    case FailedImage => ServerError
    case FileMissing => NotFound
    case ImageServed(_, _) => Ok
    case DecryptionFailed => ServerError
    case FileServed(_) => Ok
  }

  /** The owner and the users the image was shared with may view it. */
  predicate CanView(image: ImageRecord, shares: set<(string, string)>, userId: string)
  {
    image.ownerId == userId || (image.id, userId) in shares
  }

  /** The decision `getImage` makes for a lookup result. */
  function ServeImage(image: Option<ImageRecord>, shares: set<(string, string)>, userId: string,
                      thumbnail: Option<string>, files: Files, tk: Toolkit): (resp: ImageResponse)
    ensures resp == Refused <==> image.None? || !CanView(image.value, shares, userId)
    ensures resp.ImageServed? || resp.FileServed? ==> image.Some? && image.value.status == Completed
    ensures resp.ThumbnailServed? ==> thumbnail == Some("true")
    ensures resp.ImageServed? ==>
      && image.value.encrypted && resp.mimeType == image.value.mimeType
      && DecryptFile(files, image.value.path, tk.unseal) == Success(resp.bytes)
    ensures resp.DecryptionFailed? ==>
      image.Some? && image.value.encrypted && DecryptFile(files, image.value.path, tk.unseal).Failure?
    ensures resp.FileServed? ==>
      image.Some? && !image.value.encrypted && image.value.path in files && resp.path == image.value.path
  {
    if image.None? || !CanView(image.value, shares, userId) then Refused
    else
      var img := image.value;
      var thumb := if thumbnail == Some("true")
                   then GetDecryptedThumbnail(files, img.id, Dirname(img.path), tk) else None;
      if thumb.Some? then ThumbnailServed(thumb.value)
      else if img.status.Pending? || img.status.Processing? then StillProcessing(img.status)
      else if img.status.Failed? then FailedImage
      else if img.path !in files then FileMissing
      else if img.encrypted then
        match DecryptFile(files, img.path, tk.unseal)
        case Success(b) => ImageServed(img.mimeType, b)
        case Failure(_) => DecryptionFailed
      else FileServed(img.path)
  }

  /** For a viewer, a thumbnail hit is served before the status is looked at;
      otherwise an unfinished image gets 202, a failed one 500, and a finished
      one whose file is missing 404. A finished image whose file is there is
      decrypted and sent with its own content type when it is encrypted (500
      when decryption fails), and sent from disk when it is not. */
  lemma ServeImageOrder(img: ImageRecord, shares: set<(string, string)>, userId: string,
                        thumbnail: Option<string>, files: Files, tk: Toolkit)
    requires CanView(img, shares, userId)
    ensures var resp := ServeImage(Some(img), shares, userId, thumbnail, files, tk);
      var hit := thumbnail == Some("true") && GetDecryptedThumbnail(files, img.id, Dirname(img.path), tk).Some?;
      && (hit ==> resp.ThumbnailServed?)
      && (!hit && (img.status == Pending || img.status == Processing) ==> Code(ResponseStatus(resp)) == 202)
      && (!hit && img.status == Failed ==> Code(ResponseStatus(resp)) == 500)
      && (!hit && img.status == Completed && img.path !in files ==> Code(ResponseStatus(resp)) == 404)
      && (!hit && img.status == Completed && img.path in files && img.encrypted ==>
            var d := DecryptFile(files, img.path, tk.unseal);
            && (d.Success? ==> resp == ImageServed(img.mimeType, d.value) && Code(ResponseStatus(resp)) == 200)
            && (d.Failure? ==> resp == DecryptionFailed && Code(ResponseStatus(resp)) == 500))
      && (!hit && img.status == Completed && img.path in files && !img.encrypted ==>
            resp == FileServed(img.path) && Code(ResponseStatus(resp)) == 200)
  {
  }

  // ----------------------------------------------------------- top liked

  datatype LikedImage = LikedImage(id: string, title: string, likes: nat)

  /** A user with their public images and each image's like count. */
  datatype LikedUser = LikedUser(id: string, email: string, images: seq<LikedImage>)

  datatype LikedUserSummary = LikedUserSummary(id: string, email: string, totalLikes: nat, publicImageCount: nat)

  function Likes(i: LikedImage): nat
  {
    i.likes
  }

  function TotalLikes(s: LikedUserSummary): int
  {
    s.totalLikes
  }

  function Summarize(u: LikedUser): (s: LikedUserSummary)
    ensures s.id == u.id && s.publicImageCount == |u.images|
    ensures s.totalLikes == SumNat(MapSeq(u.images, Likes))
  {
    LikedUserSummary(u.id, u.email, SumNat(MapSeq(u.images, Likes)), |u.images|)
  }

  /** One more image adds its likes to the user's total. */
  lemma {:induction false} TotalLikesAppend(images: seq<LikedImage>, extra: LikedImage)
    ensures SumNat(MapSeq(images + [extra], Likes)) == SumNat(MapSeq(images, Likes)) + extra.likes
  {
    if images == [] {
      assert MapSeq(images + [extra], Likes) == [extra.likes];
    } else {
      TotalLikesAppend(images[1..], extra);
      assert (images + [extra])[1..] == images[1..] + [extra];
    }
  }

  /** `getTopLikedUsers`: users by total likes, largest first, at most ten. */
  function TopLikedUsers(users: seq<LikedUser>): (r: seq<LikedUserSummary>)
    ensures |r| == Min(10, |users|)
    ensures NonIncreasing(r, TotalLikes)
    ensures multiset(r) <= multiset(MapSeq(users, Summarize))
    ensures forall i :: 0 <= i < |r| ==> r[i] in MapSeq(users, Summarize)
  {
    var r := TopBy(MapSeq(users, Summarize), TotalLikes, Some(10));
    SubMultisetMembers(r, MapSeq(users, Summarize));
    r
  }

  /** No user left out of the ranking has more likes than one in it. */
  lemma TopLikedDominates(users: seq<LikedUser>, inRanking: LikedUserSummary, leftOut: LikedUserSummary)
    requires inRanking in TopLikedUsers(users)
    requires leftOut in multiset(MapSeq(users, Summarize)) - multiset(TopLikedUsers(users))
    ensures inRanking.totalLikes >= leftOut.totalLikes
  {
    var all := MapSeq(users, Summarize);
    assert TopLikedUsers(users) == TopBy(all, TotalLikes, Some(10));
  }

  // ---------------------------------------------------------- history feed

  datatype Owner = Owner(id: Option<string>, email: string)

  /** One row of the owner's history feed. */
  datatype FeedItem = FeedItem(
    id: string, title: string, mimeType: string, owner: Owner,
    lastViewedAt: int, action: string, description: string, likeCount: nat)

  /** The actor of the event, or a placeholder "System" owner when there is none. */
  function ToFeedItem(entry: HistoryEntry, emails: map<string, string>): (item: FeedItem)
    ensures item.id == entry.image.id && item.title == entry.image.title
    ensures item.lastViewedAt == entry.event.timestamp
    ensures item.action == entry.event.action && item.description == entry.event.description
    ensures item.likeCount == 0
    ensures entry.event.actor.None? ==> item.owner == Owner(None, "System")
    ensures entry.event.actor.Some? && entry.event.actor.value in emails ==>
      item.owner == Owner(entry.event.actor, emails[entry.event.actor.value])
  {
    var owner := if entry.event.actor.Some? && entry.event.actor.value in emails
                 then Owner(entry.event.actor, emails[entry.event.actor.value])
                 else Owner(None, "System");
    FeedItem(entry.image.id, entry.image.title, entry.image.mimeType, owner,
             entry.event.timestamp, entry.event.action, entry.event.description, 0)
  }

  function FeedTime(f: FeedItem): int
  {
    f.lastViewedAt
  }

  function Summaries(images: map<string, ImageRecord>): (m: map<string, ImageSummary>)
    ensures m.Keys == images.Keys
    ensures forall k :: k in m ==> m[k].ownerId == images[k].ownerId && m[k].id == images[k].id
  {
    map k | k in images :: ImageSummary(images[k].id, images[k].ownerId, images[k].title, images[k].mimeType)
  }

  /** The ids of the rows a user owns. */
  function OwnedIds(images: map<string, ImageRecord>, userId: string): set<string>
  {
    set k | k in images && images[k].ownerId == userId :: images[k].id
  }

  function ItemOf(emails: map<string, string>): HistoryEntry -> FeedItem
  {
    (e: HistoryEntry) => ToFeedItem(e, emails)
  }

  /** Feed items keep the order of the history entries they come from. */
  lemma FeedKeepsOrder(entries: seq<HistoryEntry>, emails: map<string, string>)
    requires NonIncreasing(entries, EntryTimestamp)
    ensures NonIncreasing(MapSeq(entries, ItemOf(emails)), FeedTime)
  {
    var r := MapSeq(entries, ItemOf(emails));
    forall i, j | 0 <= i < j < |r| ensures FeedTime(r[i]) >= FeedTime(r[j]) {
      assert FeedTime(r[i]) == EntryTimestamp(entries[i]);
      assert FeedTime(r[j]) == EntryTimestamp(entries[j]);
    }
  }

  /** Feed items name only images of the owner the entries belong to. */
  lemma FeedKeepsOwner(log: seq<Event>, entries: seq<HistoryEntry>, emails: map<string, string>,
                       images: map<string, ImageRecord>, summaries: map<string, ImageSummary>, userId: string)
    requires summaries.Keys == images.Keys
    requires forall k :: k in summaries ==> summaries[k].ownerId == images[k].ownerId && summaries[k].id == images[k].id
    requires forall i :: 0 <= i < |entries| ==>
      entries[i].event in log && entries[i].image.ownerId == userId
      && entries[i].event.imageId in summaries && entries[i].image == summaries[entries[i].event.imageId]
    ensures var r := MapSeq(entries, ItemOf(emails));
      forall i :: 0 <= i < |r| ==> r[i].id in OwnedIds(images, userId)
  {
    var r := MapSeq(entries, ItemOf(emails));
    forall i | 0 <= i < |r|
      ensures r[i].id in OwnedIds(images, userId)
    {
      var k := entries[i].event.imageId;
      assert k in images && images[k].ownerId == userId && images[k].id == r[i].id;
    }
  }

  /** The feed built from the user's `n` newest history entries: one item per
      entry, newest first, each about one of the user's images. */
  lemma FeedFromEntries(log: seq<Event>, images: map<string, ImageRecord>, emails: map<string, string>,
                        userId: string, n: nat, summaries: map<string, ImageSummary>, entries: seq<HistoryEntry>)
    requires summaries == Summaries(images)
    requires entries == GetUserImageHistory(log, summaries, userId, Some(n))
    ensures var r := MapSeq(entries, ItemOf(emails));
      && |r| == Min(n, |OwnedEntries(log, summaries, userId)|)
      && NonIncreasing(r, FeedTime)
      && forall i :: 0 <= i < |r| ==> r[i].id in OwnedIds(images, userId)
  {
    FeedKeepsOrder(entries, emails);
    FeedKeepsOwner(log, entries, emails, images, summaries, userId);
  }

  /** The owner's history feed: events on the user's images, newest first, as
      many as the limit allows (20 when the query gives none) and the owner has. */
  function HistoryFeed(log: seq<Event>, images: map<string, ImageRecord>, emails: map<string, string>,
                       userId: string, limit: Option<nat>): (r: seq<FeedItem>)
    ensures |r| == Min(if limit.Some? then limit.value else 20, |OwnedEntries(log, Summaries(images), userId)|)
    ensures NonIncreasing(r, FeedTime)
    ensures forall i :: 0 <= i < |r| ==> r[i].id in OwnedIds(images, userId)
  {
    var n: nat := if limit.Some? then limit.value else 20;
    var summaries := Summaries(images);
    var entries := GetUserImageHistory(log, summaries, userId, Some(n));
    FeedFromEntries(log, images, emails, userId, n, summaries, entries);
    MapSeq(entries, ItemOf(emails))
  }

  // --------------------------------------------------------------- handlers

  /** The image rows, the share rows (image id, user id) and the services the
      handlers use. */
  class Gallery {
    var images: map<string, ImageRecord>
    var shares: set<(string, string)>
    const log: HistoryLog
    const processor: ImageProcessor

    constructor (images: map<string, ImageRecord>, shares: set<(string, string)>,
                 log: HistoryLog, processor: ImageProcessor)
      ensures this.images == images && this.shares == shares
      ensures this.log == log && this.processor == processor
    {
      this.images := images;
      this.shares := shares;
      this.log := log;
      this.processor := processor;
    }

    /** `uploadImage`: without a file, 400 and nothing happens. Otherwise the
        pending row is created, the file is queued for processing and the
        upload is recorded; a row id that is already taken makes the insert
        fail (500) with nothing changed. */
    method UploadImage(userId: string, file: Option<UploadedFile>, title: Option<string>,
                       isPublic: Option<string>, newId: string, now: int, arrivals: seq<seq<Job>>)
      returns (status: Status, created: Option<ImageRecord>)
      modifies this, log, processor, processor.store
      ensures shares == old(shares)
      ensures file.None? || newId in old(images) ==>
        && status == (if file.None? then BadRequest else ServerError) && created == None
        && images == old(images) && log.events == old(log.events)
        && processor.queue == old(processor.queue) && processor.store.files == old(processor.store.files)
      ensures file.Some? && newId !in old(images) ==>
        var f := file.value;
        var job := Job(f.path, f.originalname, newId);
        && status == Created
        && created == Some(NewRecord(newId, userId, f, title, isPublic, now))
        && images == old(images)[newId := created.value]
        && log.events == old(log.events)
             + [NewEvent(newId, "upload", Some(userId), Some(UploadMetadata(f.size, f.originalname)), None, now)]
        && processor.isProcessing == old(processor.isProcessing)
        && (old(processor.isProcessing) ==>
              processor.queue == old(processor.queue) + [job]
              && processor.store.files == old(processor.store.files))
        && (!old(processor.isProcessing) ==>
              processor.queue == []
              && processor.store.files == DrainFiles(old(processor.store.files),
                   DrainOrder(old(processor.queue) + [job], arrivals), processor.config, processor.toolkit))
    {
      if file.None? {
        return BadRequest, None;
      }
      if newId in images {
        return ServerError, None;
      }
      var f := file.value;
      var record := NewRecord(newId, userId, f, title, isPublic, now);
      images := images[newId := record];
      processor.AddToProcessingQueue(Job(f.path, f.originalname, newId), arrivals);
      log.TrackUpload(newId, userId, f.size, f.originalname, now, true);
      status, created := Created, Some(record);
    }

    /** `processImageInBackground` run on its own: mark the row processing,
        record the start, run the pipeline, then record the outcome and update
        the row. For a row that does not exist the first update throws and
        nothing changes. `started` and `finished` are the times the history
        rows get before and after the pipeline, `elapsed` the time the pipeline
        measures for itself. */
    method ProcessImageInBackground(imageId: string, filePath: string, filename: string,
                                    started: int, elapsed: int, finished: int)
      returns (result: Result<ProcessingResult>)
      modifies this, log, processor.store
      ensures shares == old(shares)
      ensures imageId !in old(images) ==>
        images == old(images) && log.events == old(log.events)
        && processor.store.files == old(processor.store.files)
      ensures imageId in old(images) ==>
        var o := Pipeline(old(processor.store.files), filePath, filename, processor.config, processor.toolkit,
                          elapsed);
        processor.store.files == o.files && result == o.result
      ensures imageId in old(images) ==>
        images == old(images)[imageId := AfterProcessing(old(images)[imageId], filePath, result)]
      ensures imageId in old(images) ==>
        log.events == old(log.events) + ProcessingEvents(imageId, result, started, finished)
    {
      if imageId !in images {
        return Failure("image not found");
      }
      var rows := images;
      var row := rows[imageId];
      ghost var before := log.events;
      images := rows[imageId := row.(status := Processing)];
      log.RecordAction(imageId, "processing_start", None, None, None, started, true);
      result := processor.ProcessImage(filePath, filename, elapsed);
      RecordOutcome(imageId, result, finished);
      StartThenOutcome(before, imageId, result, started, finished);
      images := rows[imageId := AfterProcessing(row, filePath, result)];
    }

    /** The rows written after the pipeline returns, through the same
        `recordAction` calls the tracking helpers make. */
    method RecordOutcome(imageId: string, result: Result<ProcessingResult>, finished: int)
      modifies log
      ensures log.events == old(log.events) + OutcomeEvents(imageId, result, finished)
    {
      match result {
        case Success(res) =>
          log.RecordAction(imageId, "processing_complete", None,
                           Some(CompleteMetadata(res.processingTime, Some(res.processedSize))), None, finished, true);
          if res.encrypted {
            log.RecordAction(imageId, "encryption_applied", None, None, None, finished, true);
          }
          if res.thumbnailCreated {
            log.RecordAction(imageId, "thumbnail_generated", None, None, None, finished, true);
          }
        case Failure(e) =>
          log.RecordAction(imageId, "processing_failed", None, Some(map["error" := Str(e)]), None, finished, true);
      }
    }

    /** `getImage`: the decision above, and a view recorded for every viewer. */
    method GetImage(userId: string, id: string, thumbnail: Option<string>,
                    ipAddress: Option<string>, userAgent: Option<string>, now: int)
      returns (resp: ImageResponse)
      modifies log
      ensures resp == ServeImage(if id in images then Some(images[id]) else None, shares, userId,
                                 thumbnail, processor.store.files, processor.toolkit)
      ensures resp == Refused ==> log.events == old(log.events)
      ensures resp != Refused ==>
        log.events == old(log.events) + [NewEvent(id, "view", Some(userId),
                                                  Some(ViewMetadata(ipAddress, userAgent)), None, now)]
    {
      var image := if id in images then Some(images[id]) else None;
      resp := ServeImage(image, shares, userId, thumbnail, processor.store.files, processor.toolkit);
      if resp != Refused {
        log.TrackView(id, Some(userId), ipAddress, userAgent, now, true);
      }
    }

    /** `updateTitle`: only the owner may rename; a missing title leaves the
        row's title as it was. */
    method UpdateTitle(userId: string, id: string, title: Option<string>, now: int)
      returns (status: Status, updated: Option<ImageRecord>)
      modifies this, log
      ensures shares == old(shares)
      ensures id !in old(images) || old(images)[id].ownerId != userId ==>
        status == Forbidden && updated == None && images == old(images) && log.events == old(log.events)
      ensures id in old(images) && old(images)[id].ownerId == userId ==>
        var before := old(images)[id];
        var after := if title.Some? then before.(title := title.value) else before;
        && status == Ok && updated == Some(after)
        && images == old(images)[id := after]
        && log.events == old(log.events)
             + [NewEvent(id, "rename", Some(userId), Some(RenameMetadata(before.title, title)), None, now)]
    {
      if id !in images || images[id].ownerId != userId {
        return Forbidden, None;
      }
      var oldTitle := images[id].title;
      var after := if title.Some? then images[id].(title := title.value) else images[id];
      images := images[id := after];
      log.TrackRename(id, userId, oldTitle, title, now, true);
      status, updated := Ok, Some(after);
    }

    /** `deleteImage`: only the owner may delete; the deletion is recorded
        while the row still exists, then the row and its file are removed, and
        the store deletes the image's history rows and shares along with it,
        the delete row included. */
    method DeleteImage(userId: string, id: string, now: int) returns (status: Status)
      modifies this, log, processor.store
      ensures id !in old(images) || old(images)[id].ownerId != userId ==>
        status == Forbidden && images == old(images) && shares == old(shares)
        && log.events == old(log.events) && processor.store.files == old(processor.store.files)
      ensures id in old(images) && old(images)[id].ownerId == userId ==>
        var gone := old(images)[id];
        && status == Ok
        && images == old(images) - {id}
        && shares == set s | s in old(shares) && s.0 != id
        && log.events == WithoutImage(old(log.events), id)
        && processor.store.files == old(processor.store.files) - {gone.path}
    {
      if id !in images || images[id].ownerId != userId {
        return Forbidden;
      }
      var image := images[id];
      ghost var before := log.events;
      var deleted := NewEvent(id, "delete", Some(userId),
                              Some(map["fileName" := Str(image.title), "fileSize" := Num(image.size)]), None, now);
      log.RecordAction(id, "delete", Some(userId),
                       Some(map["fileName" := Str(image.title), "fileSize" := Num(image.size)]), None, now,
                       id in images);
      images := images - {id};
      shares := set s | s in shares && s.0 != id;
      log.ForgetImage(id);
      ForgetLastRow(before, deleted, id);
      var present := processor.store.Exists(image.path);
      if present {
        var removed := processor.store.Unlink(image.path);
      }
      status := Ok;
    }
  }
}

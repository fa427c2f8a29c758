/** Public share links: a token names an image row and an expiry time; the
    link serves the image's metadata and its file until it expires. */
module Shared {
  import opened Common
  import opened FileSystem
  import opened Records

  /** A share-token row with its image joined in. */
  datatype ShareRow = ShareRow(expiresAt: int, image: ImageRecord)

  type ShareTokens = map<string, ShareRow>

  /** A link has expired once its expiry lies strictly before now: at the
      expiry instant itself it still works. */
  predicate Expired(row: ShareRow, now: int)
  {
    row.expiresAt < now
  }

  /** What the metadata endpoint reveals of the image. */
  datatype SharedView = SharedView(id: string, title: string, mimeType: string, size: nat,
                                   createdAt: int, expiresAt: int)

  datatype SharedImageReply =
    | ShareNotFound        // 404
    | ShareExpired         // 410
    | SharedImage(view: SharedView)

  function SharedImageStatus(r: SharedImageReply): Status
  {
    match r
    case ShareNotFound => NotFound
    case ShareExpired => Gone
    case SharedImage(_) => Ok
  }

  /** `getSharedImage`. */
  function GetSharedImage(tokens: ShareTokens, token: string, now: int): (r: SharedImageReply)
    ensures r.ShareNotFound? <==> token !in tokens
    ensures r.ShareExpired? <==> token in tokens && Expired(tokens[token], now)
    ensures r.SharedImage? ==>
      var row := tokens[token];
      && r.view.id == row.image.id && r.view.title == row.image.title
      && r.view.mimeType == row.image.mimeType && r.view.size == row.image.size
      && r.view.createdAt == row.image.createdAt && r.view.expiresAt == row.expiresAt
  {
    if token !in tokens then ShareNotFound
    else
      var row := tokens[token];
      if Expired(row, now) then ShareExpired
      else SharedImage(SharedView(row.image.id, row.image.title, row.image.mimeType, row.image.size,
                                  row.image.createdAt, row.expiresAt))
  }

  /** A live link answers 200 up to and including its expiry instant and 410
      from the next instant on. */
  lemma ExpiryBoundary(tokens: ShareTokens, token: string, now: int)
    requires token in tokens
    ensures now <= tokens[token].expiresAt ==> Code(SharedImageStatus(GetSharedImage(tokens, token, now))) == 200
    ensures now > tokens[token].expiresAt ==> Code(SharedImageStatus(GetSharedImage(tokens, token, now))) == 410
  {
  }

  /** Only the projected fields leave the server: two rows that agree on them
      give the same reply, whatever their owner, path or flags. */
  lemma ProjectionHidesTheRest(row1: ShareRow, row2: ShareRow, token: string, now: int)
    requires row1.expiresAt == row2.expiresAt
    requires row1.image.id == row2.image.id && row1.image.title == row2.image.title
    requires row1.image.mimeType == row2.image.mimeType && row1.image.size == row2.image.size
    requires row1.image.createdAt == row2.image.createdAt
    ensures GetSharedImage(map[token := row1], token, now) == GetSharedImage(map[token := row2], token, now)
  {
  }

  datatype SharedFileReply =
    | FileShareNotFound    // 404, no such token
    | FileShareExpired     // 410
    | SharedFileMissing    // 404, the file is gone
    | SharedFileUnreadable // 500, the stored file does not decrypt
    | SharedFile(contentType: string, contentLength: string, body: Bytes)

  function SharedFileStatus(r: SharedFileReply): Status
  {
    match r
    case FileShareNotFound => NotFound
    case FileShareExpired => Gone
    case SharedFileMissing => NotFound
    case SharedFileUnreadable => ServerError
    case SharedFile(_, _, _) => Ok
  }

  /** `getSharedImageFile` as written: the stored file is streamed as it is,
      announced with the image's recorded size. */
  function GetSharedImageFile(tokens: ShareTokens, token: string, now: int, files: Files): (r: SharedFileReply)
    ensures r.FileShareNotFound? <==> token !in tokens
    ensures r.FileShareExpired? <==> token in tokens && Expired(tokens[token], now)
    ensures r.SharedFileMissing? <==> token in tokens && !Expired(tokens[token], now)
                                      && tokens[token].image.path !in files
    ensures r.SharedFile? ==>
      var image := tokens[token].image;
      && r.body == files[image.path]
      && r.contentType == image.mimeType
      && r.contentLength == NatToDecimal(image.size)
  {
    if token !in tokens then FileShareNotFound
    else
      var row := tokens[token];
      if Expired(row, now) then FileShareExpired
      else if row.image.path !in files then SharedFileMissing
      else SharedFile(row.image.mimeType, NatToDecimal(row.image.size), files[row.image.path])
  }

  /** For a processed image the stored file is the encrypted copy, so the link
      streams ciphertext and announces the plaintext's size: here a
      two-byte image sealed into three bytes is sent as three bytes under a
      Content-Length of 2. */
  lemma SharedFileSendsCiphertext()
    ensures var image := ImageRecord("img", "owner", "t", "image/png", 2, 2, Some(2), "u/a.png.enc",
                                     true, Completed, true, false, Some(1), 0);
      var r := GetSharedImageFile(map["tok" := ShareRow(10, image)], "tok", 5, map["u/a.png.enc" := [9, 9, 9]]);
      && r.SharedFile?
      && r.contentLength == "2"
      && |r.body| == 3
  {
    var image := ImageRecord("img", "owner", "t", "image/png", 2, 2, Some(2), "u/a.png.enc",
                             true, Completed, true, false, Some(1), 0);
    var r := GetSharedImageFile(map["tok" := ShareRow(10, image)], "tok", 5, map["u/a.png.enc" := [9, 9, 9]]);
    assert NatToDecimal(2) == "2";
  }

  /** The link serving what `getImage` serves: an encrypted file is
      decrypted first (a file that does not decrypt gives 500), and the
      announced length is the length of the body actually sent. */
  function GetSharedImageFileDecrypted(tokens: ShareTokens, token: string, now: int, files: Files,
                                       unseal: Bytes -> Result<Bytes>): (r: SharedFileReply)
    ensures r.FileShareNotFound? <==> token !in tokens
    ensures r.FileShareExpired? <==> token in tokens && Expired(tokens[token], now)
    ensures r.SharedFileMissing? <==> token in tokens && !Expired(tokens[token], now)
                                      && tokens[token].image.path !in files
    ensures r.SharedFileUnreadable? <==>
      token in tokens && !Expired(tokens[token], now)
      && tokens[token].image.path in files && tokens[token].image.encrypted
      && unseal(files[tokens[token].image.path]).Failure?
    ensures r.SharedFile? ==>
      var image := tokens[token].image;
      && image.path in files
      && r.contentType == image.mimeType
      && r.contentLength == NatToDecimal(|r.body|)
      && (image.encrypted ==> unseal(files[image.path]) == Success(r.body))
      && (!image.encrypted ==> r.body == files[image.path])
  {
    if token !in tokens then FileShareNotFound
    else
      var row := tokens[token];
      if Expired(row, now) then FileShareExpired
      else if row.image.path !in files then SharedFileMissing
      else if !row.image.encrypted then
        SharedFile(row.image.mimeType, NatToDecimal(|files[row.image.path]|), files[row.image.path])
      else
        match unseal(files[row.image.path])
        case Success(plain) => SharedFile(row.image.mimeType, NatToDecimal(|plain|), plain)
        case Failure(_) => SharedFileUnreadable
  }

  /** The corrected handler returns the image an upload was sealed from. */
  lemma DecryptedShareReturnsPlaintext(tokens: ShareTokens, token: string, now: int, files: Files,
                                       seal: Bytes -> Bytes, unseal: Bytes -> Result<Bytes>, plain: Bytes)
    requires token in tokens && !Expired(tokens[token], now)
    requires tokens[token].image.encrypted
    requires tokens[token].image.path in files && files[tokens[token].image.path] == seal(plain)
    requires unseal(seal(plain)) == Success(plain)
    ensures GetSharedImageFileDecrypted(tokens, token, now, files, unseal)
            == SharedFile(tokens[token].image.mimeType, NatToDecimal(|plain|), plain)
  {
  }
}

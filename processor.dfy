/** The background image processor: a FIFO job queue with a busy flag, and the
    per-file pipeline (measure, shrink if too large, make a thumbnail, encrypt
    both) run against the upload directory. The image library and the cipher are
    opaque functions handed in as a Toolkit; what is modelled is which files are
    read, written, renamed and removed, in which order, and when the pipeline
    fails. */
module ImageProcessing {
  import opened Common
  import opened Paths
  import opened FileSystem
  import opened Sequences

  /** What the image library reports; 0 stands for an unknown dimension. */
  datatype Dimensions = Dimensions(width: nat, height: nat)

  /** Largest stored size and thumbnail edge, read from the environment at start-up. */
  datatype Config = Config(maxWidth: nat, maxHeight: nat, thumbnailSize: nat)

  /** The library calls the pipeline makes, as opaque functions. `seal` is the
      passphrase encryption of a file's bytes under the configured key, and
      `unseal` its reading back. As a function, `seal` gives the same ciphertext
      for the same bytes every time; the fresh salt the cipher draws per call is
      not modelled. */
  datatype Toolkit = Toolkit(
    probe: Bytes -> Result<Dimensions>,         // read the image header
    shrink: (Bytes, nat, nat) -> Result<Bytes>, // fit inside w x h, re-encode as JPEG
    thumbnail: (Bytes, nat) -> Result<Bytes>,   // cover an n x n square, re-encode as JPEG
    seal: Bytes -> Bytes,
    unseal: Bytes -> Result<Bytes>)

  datatype ProcessingResult = ProcessingResult(
    originalSize: nat,
    processedSize: nat,
    encrypted: bool,
    thumbnailCreated: bool,
    processingTime: int)

  /** The directory after a step, and what the step produced or the error it threw. */
  datatype Outcome<T> = Outcome(files: Files, result: Result<T>)

  datatype Job = Job(filePath: string, filename: string, imageId: string)

  // ------------------------------------------------------------- decisions

  /** Shrink only when both dimensions are known and one of them is too large. */
  predicate NeedsResizing(d: Dimensions, cfg: Config)
    ensures !NeedsResizing(d, cfg) <==>
      d.width == 0 || d.height == 0 || (d.width <= cfg.maxWidth && d.height <= cfg.maxHeight)
  {
    d.width != 0 && d.height != 0 && (d.width > cfg.maxWidth || d.height > cfg.maxHeight)
  }

  /** `<dir of input>/<basename>_processed<ext>` of the uploaded file name. */
  function ProcessedPath(inputPath: string, filename: string): (r: string)
    ensures EndsWith(r, Stem(filename) + "_processed" + Extname(filename))
    ensures Dirname(inputPath) != "." ==> Dirname(inputPath) <= r
  {
    JoinPlacesName(Dirname(inputPath), Stem(filename) + "_processed" + Extname(filename));
    Join(Dirname(inputPath), Stem(filename) + "_processed" + Extname(filename))
  }

  /** `<dir of input>/<basename>_thumb<ext>` of the uploaded file name. */
  function ThumbnailPath(inputPath: string, filename: string): (r: string)
    ensures EndsWith(r, Stem(filename) + "_thumb" + Extname(filename))
    ensures Dirname(inputPath) != "." ==> Dirname(inputPath) <= r
  {
    JoinPlacesName(Dirname(inputPath), Stem(filename) + "_thumb" + Extname(filename));
    Join(Dirname(inputPath), Stem(filename) + "_thumb" + Extname(filename))
  }

  /** The name the thumbnail reader looks for. */
  function ThumbnailLookupPath(imageId: string, uploadsDir: string): string
  {
    Join(uploadsDir, imageId + "_thumb.jpg.enc")
  }

  /** The processed copy and the thumbnail never share a name, and both names
      keep the upload's base name and extension around their suffix. */
  lemma DerivedNamesDiffer(inputPath: string, filename: string)
    ensures ProcessedPath(inputPath, filename) != ThumbnailPath(inputPath, filename)
  {
    var a := Stem(filename) + "_processed" + Extname(filename);
    var b := Stem(filename) + "_thumb" + Extname(filename);
    if ProcessedPath(inputPath, filename) == ThumbnailPath(inputPath, filename) {
      JoinInjective(Dirname(inputPath), a, b);
    }
  }

  /** Two names that agree once the same suffix is appended are the same name. */
  lemma SameSuffixSameName(a: string, b: string, suffix: string)
    requires a + suffix == b + suffix
    ensures a == b
  {
    assert a == (a + suffix)[..|a|];
    assert b == (b + suffix)[..|b|];
  }

  /** A '.' in a string lies at or before any position after which there is none. */
  lemma DotBeforeDotFreeTail(s: string, k: nat, i: nat)
    requires k <= |s|
    requires forall j :: k < j < |s| ==> s[j] != '.'
    requires i < |s| && s[i] == '.'
    ensures i <= k
  {
  }

  /** If `<id>_thumb.jpg` is `<stem>_thumb<ext>` for an extension as `Extname`
      returns it, the extension is ".jpg" and the stem is the id. */
  lemma {:induction false} ThumbNameForcesJpg(imageId: string, stem: string, ext: string)
    requires ext == "" || (ext[0] == '.' && '.' !in ext[1..])
    requires imageId + "_thumb.jpg" == stem + "_thumb" + ext
    ensures ext == ".jpg" && imageId == stem
  {
    var s := imageId + "_thumb.jpg";
    var n := |s|;
    assert s[n - 4..] == ".jpg";
    assert ext == s[n - |ext|..];
    assert s[n - 1] == 'g' && s[n - |ext| - 1] == 'b';
    assert ext != "";
    forall j | n - |ext| < j < n
      ensures s[j] != '.'
    {
      assert s[j] == ext[1..][j - (n - |ext|) - 1];
    }
    DotBeforeDotFreeTail(s, n - |ext|, n - 4);
    assert s[n - 3..] == "jpg";
    DotBeforeDotFreeTail(s, n - 4, n - |ext|);
    assert ext == ".jpg";
    SameSuffixSameName(imageId, stem, "_thumb.jpg");
  }

  /** Within one directory, the looked-up name is the written name plus ".enc"
      exactly when the written stem is the id and the extension is ".jpg". */
  lemma LookupNameMatches(dir: string, imageId: string, stem: string, ext: string)
    requires ext == "" || (ext[0] == '.' && '.' !in ext[1..])
    ensures Join(dir, imageId + "_thumb.jpg.enc") == Join(dir, stem + "_thumb" + ext) + ".enc"
        <==> stem == imageId && ext == ".jpg"
  {
    var written := stem + "_thumb" + ext;
    JoinAppend(dir, written, ".enc");
    if Join(dir, imageId + "_thumb.jpg.enc") == Join(dir, written) + ".enc" {
      JoinInjective(dir, imageId + "_thumb.jpg" + ".enc", written + ".enc");
      SameSuffixSameName(imageId + "_thumb.jpg", written, ".enc");
      ThumbNameForcesJpg(imageId, stem, ext);
    }
  }

  /** The thumbnail reader finds the encrypted thumbnail the pipeline wrote for
      an upload exactly when the upload's base name is the image id and its
      extension is ".jpg"; the pipeline names files after the uploaded name, so
      for every other upload the lookup misses. */
  lemma ThumbnailLookupMatches(imageId: string, inputPath: string, filename: string)
    ensures ThumbnailLookupPath(imageId, Dirname(inputPath)) == ThumbnailPath(inputPath, filename) + ".enc"
        <==> Stem(filename) == imageId && Extname(filename) == ".jpg"
  {
    LookupNameMatches(Dirname(inputPath), imageId, Stem(filename), Extname(filename));
  }

  // --------------------------------------------------------- file effects

  /** `encryptFile`: refuses a missing file; otherwise writes the sealed bytes
      next to it under `.enc` and removes the plain file. */
  function EncryptFileSpec(files: Files, path: string, seal: Bytes -> Bytes): (o: Outcome<()>)
    ensures path !in files ==> o == Outcome(files, Failure("File not found: " + path))
    ensures path in files ==>
      && o.result.Success?
      && path !in o.files && path + ".enc" in o.files
      && o.files[path + ".enc"] == seal(files[path])
    ensures path in files ==> forall q :: q != path && q != path + ".enc" ==>
      (q in o.files <==> q in files) && (q in files ==> o.files[q] == files[q])
  {
    if path !in files then Outcome(files, Failure("File not found: " + path))
    else
      assert |path + ".enc"| != |path|;
      Outcome(files[path + ".enc" := seal(files[path])] - {path}, Success(()))
  }

  /** The resize step of `processImage`: write the shrunk image beside the input, take its size,
      remove the input and rename the shrunk file onto the input's name. */
  function ResizeSpec(files: Files, inputPath: string, processedPath: string, shrunk: Result<Bytes>): Outcome<nat>
    requires inputPath in files
  {
    match shrunk
    case Failure(e) => Outcome(files, Failure(e))
    case Success(out) =>
      // the input was measured before, so removing it succeeds
      var unlinked := files[processedPath := out] - {inputPath};
      if processedPath !in unlinked then Outcome(unlinked, Failure(Enoent("rename", processedPath)))
      else Outcome(Moved(unlinked, processedPath, inputPath), Success(|out|))
  }

  /** After a successful shrink the input's name holds the shrunk bytes, the
      intermediate name is gone, and nothing else changed. */
  lemma ResizeReplacesInput(files: Files, inputPath: string, processedPath: string, out: Bytes)
    requires inputPath in files && inputPath != processedPath
    ensures ResizeSpec(files, inputPath, processedPath, Success(out))
         == Outcome(files[inputPath := out] - {processedPath}, Success(|out|))
  {
    var unlinked := files[processedPath := out] - {inputPath};
    assert Moved(unlinked, processedPath, inputPath) == files[inputPath := out] - {processedPath};
  }

  datatype Thumb = Thumb(files: Files, created: bool)

  /** The thumbnail step of `processImage`: render the thumbnail from what the input name holds now;
      any failure only leaves `created` false. */
  function ThumbnailSpec(files: Files, src: string, dst: string, tk: Toolkit, size: nat): (t: Thumb)
    ensures !t.created ==> t.files == files
    ensures t.created ==>
      src in files && tk.thumbnail(files[src], size).Success?
      && t.files == files[dst := tk.thumbnail(files[src], size).value]
  {
    if src !in files then Thumb(files, false)
    else
      match tk.thumbnail(files[src], size)
      case Failure(_) => Thumb(files, false)
      case Success(t) => Thumb(files[dst := t], true)
  }

  /** `processImage` as a function of the directory before it runs: the
      directory after it, and its result or the error it threw. */
  function Pipeline(files: Files, inputPath: string, filename: string, cfg: Config, tk: Toolkit,
                    elapsed: int): (o: Outcome<ProcessingResult>)
    ensures inputPath !in files ==> o.result.Failure? && o.files == files
    ensures inputPath in files && tk.probe(files[inputPath]).Failure? ==> o.result.Failure? && o.files == files
  {
    if inputPath !in files then Outcome(files, Failure(Enoent("stat", inputPath)))
    else
      var original := files[inputPath];
      match tk.probe(original)
      case Failure(e) => Outcome(files, Failure(e))
      case Success(dim) =>
        var resized :=
          if NeedsResizing(dim, cfg)
          then ResizeSpec(files, inputPath, ProcessedPath(inputPath, filename),
                          tk.shrink(original, cfg.maxWidth, cfg.maxHeight))
          else Outcome(files, Success(|original|));
        match resized.result
        case Failure(e) => Outcome(resized.files, Failure(e))
        case Success(processedSize) =>
          Finish(resized.files, inputPath, ThumbnailPath(inputPath, filename), |original|, processedSize,
                 cfg, tk, elapsed)
  }

  /** The steps of `processImage` after the resize: the thumbnail, the image's
      encryption, then the thumbnail's encryption when one was made. */
  function Finish(files: Files, inputPath: string, thumbPath: string, originalSize: nat, processedSize: nat,
                  cfg: Config, tk: Toolkit, elapsed: int): Outcome<ProcessingResult>
  {
    var thumb := ThumbnailSpec(files, inputPath, thumbPath, tk, cfg.thumbnailSize);
    var enc := EncryptFileSpec(thumb.files, inputPath, tk.seal);
    if enc.result.Failure? then Outcome(enc.files, Failure(enc.result.error))
    else if !thumb.created then
      Outcome(enc.files, Success(ProcessingResult(originalSize, processedSize, true, false, elapsed)))
    else
      var encThumb := EncryptFileSpec(enc.files, thumbPath, tk.seal);
      if encThumb.result.Failure? then Outcome(encThumb.files, Failure(encThumb.result.error))
      else Outcome(encThumb.files, Success(ProcessingResult(originalSize, processedSize, true, true, elapsed)))
  }

  /** Once the input is in place the remaining steps succeed unless a made
      thumbnail cannot be sealed; the thumbnail is made exactly when it can be
      rendered from what the input's name holds, it is sealed only when made,
      and the image's sealed copy holds the input's bytes unless a thumbnail
      overwrote them first. */
  lemma FinishSteps(files: Files, inputPath: string, thumbPath: string, originalSize: nat, processedSize: nat,
                    cfg: Config, tk: Toolkit, elapsed: int)
    requires inputPath in files
    ensures var o := Finish(files, inputPath, thumbPath, originalSize, processedSize, cfg, tk, elapsed);
      var made := tk.thumbnail(files[inputPath], cfg.thumbnailSize).Success?;
      && (!made ==> o.result == Success(ProcessingResult(originalSize, processedSize, true, false, elapsed)))
      && (made && thumbPath != inputPath ==>
            o.result == Success(ProcessingResult(originalSize, processedSize, true, true, elapsed)))
      && (o.result.Success? ==>
            && o.result.value == ProcessingResult(originalSize, processedSize, true, made, elapsed)
            && (made ==> thumbPath !in o.files && thumbPath + ".enc" in o.files)
            && (!made ==> inputPath !in o.files && inputPath + ".enc" in o.files)
            && (thumbPath != inputPath + ".enc" ==> inputPath + ".enc" in o.files))
      && (!made && thumbPath != inputPath && thumbPath + ".enc" != inputPath ==>
            var tp := thumbPath + ".enc";
            (tp in o.files <==> tp in files) && (tp in files ==> o.files[tp] == files[tp]))
      && ((!made || (thumbPath != inputPath && thumbPath != inputPath + ".enc")) ==>
            inputPath + ".enc" in o.files && o.files[inputPath + ".enc"] == tk.seal(files[inputPath]))
  {
    var thumb := ThumbnailSpec(files, inputPath, thumbPath, tk, cfg.thumbnailSize);
    assert thumb.created == tk.thumbnail(files[inputPath], cfg.thumbnailSize).Success?;
    assert inputPath in thumb.files;
    var enc := EncryptFileSpec(thumb.files, inputPath, tk.seal);
    if thumbPath + ".enc" == inputPath + ".enc" {
      SameSuffixSameName(thumbPath, inputPath, ".enc");
    }
    if thumb.created && thumbPath != inputPath {
      assert thumb.files[inputPath] == files[inputPath];
      assert thumbPath in enc.files;
    }
  }

  /** A successful run reports encryption, the input's size before processing,
      an unchanged size when no shrinking was needed, and leaves the image's
      encrypted copy in place of the plain file, with the thumbnail's when one
      was made. */
  lemma PipelineSuccess(files: Files, inputPath: string, filename: string, cfg: Config, tk: Toolkit, elapsed: int)
    requires Pipeline(files, inputPath, filename, cfg, tk, elapsed).result.Success?
    ensures var o := Pipeline(files, inputPath, filename, cfg, tk, elapsed);
      var res := o.result.value;
      && inputPath in files && tk.probe(files[inputPath]).Success?
      && res.encrypted
      && res.originalSize == |files[inputPath]|
      && res.processingTime == elapsed
      && (!NeedsResizing(tk.probe(files[inputPath]).value, cfg) ==> res.processedSize == res.originalSize)
      && (res.thumbnailCreated ==>
            ThumbnailPath(inputPath, filename) !in o.files
            && ThumbnailPath(inputPath, filename) + ".enc" in o.files)
      && (!res.thumbnailCreated ==> inputPath !in o.files && inputPath + ".enc" in o.files)
      && (ThumbnailPath(inputPath, filename) != inputPath + ".enc" ==> inputPath + ".enc" in o.files)
      // the thumbnail is rendered from the shrunk bytes after a resize, from the upload otherwise
      && (!NeedsResizing(tk.probe(files[inputPath]).value, cfg) ==>
            (res.thumbnailCreated <==> tk.thumbnail(files[inputPath], cfg.thumbnailSize).Success?))
      && (NeedsResizing(tk.probe(files[inputPath]).value, cfg) ==>
            && inputPath != ProcessedPath(inputPath, filename)
            && tk.shrink(files[inputPath], cfg.maxWidth, cfg.maxHeight).Success?
            && (res.thumbnailCreated <==>
                  tk.thumbnail(tk.shrink(files[inputPath], cfg.maxWidth, cfg.maxHeight).value,
                               cfg.thumbnailSize).Success?))
      // no thumbnail made, so nothing is sealed under the thumbnail's name
      && (!res.thumbnailCreated
          && ThumbnailPath(inputPath, filename) != inputPath
          && ThumbnailPath(inputPath, filename) + ".enc" != inputPath
          && ThumbnailPath(inputPath, filename) + ".enc" != ProcessedPath(inputPath, filename) ==>
            var tp := ThumbnailPath(inputPath, filename) + ".enc";
            (tp in o.files <==> tp in files) && (tp in files ==> o.files[tp] == files[tp]))
  {
    var original := files[inputPath];
    var dim := tk.probe(original).value;
    var processedPath := ProcessedPath(inputPath, filename);
    var thumbPath := ThumbnailPath(inputPath, filename);
    if NeedsResizing(dim, cfg) {
      var out := tk.shrink(original, cfg.maxWidth, cfg.maxHeight).value;
      ResizeReplacesInput(files, inputPath, processedPath, out);
      var resized := files[inputPath := out] - {processedPath};
      FinishSteps(resized, inputPath, thumbPath, |original|, |out|, cfg, tk, elapsed);
    } else {
      FinishSteps(files, inputPath, thumbPath, |original|, |original|, cfg, tk, elapsed);
    }
  }

  /** A thumbnail that cannot be made does not fail the pipeline: with nothing
      to shrink, the image is still encrypted and the result says no thumbnail. */
  lemma ThumbnailFailureIsNotFatal(files: Files, inputPath: string, filename: string, cfg: Config,
                                   tk: Toolkit, elapsed: int)
    requires inputPath in files
    requires tk.probe(files[inputPath]).Success? && !NeedsResizing(tk.probe(files[inputPath]).value, cfg)
    requires tk.thumbnail(files[inputPath], cfg.thumbnailSize).Failure?
    ensures var original := files[inputPath];
      Pipeline(files, inputPath, filename, cfg, tk, elapsed)
        == Outcome(files[inputPath + ".enc" := tk.seal(original)] - {inputPath},
                   Success(ProcessingResult(|original|, |original|, true, false, elapsed)))
  {
  }

  /** A shrunk upload reports the shrunk size, and it is the shrunk bytes that
      get encrypted under the input's name: whether or not a thumbnail was
      made, unless the thumbnail's own name is that sealed name. */
  lemma ShrunkImageIsWhatGetsEncrypted(files: Files, inputPath: string, filename: string, cfg: Config,
                                       tk: Toolkit, elapsed: int)
    requires inputPath in files && inputPath != ProcessedPath(inputPath, filename)
    requires inputPath != ThumbnailPath(inputPath, filename)
    requires tk.probe(files[inputPath]).Success? && NeedsResizing(tk.probe(files[inputPath]).value, cfg)
    requires tk.shrink(files[inputPath], cfg.maxWidth, cfg.maxHeight).Success?
    ensures var out := tk.shrink(files[inputPath], cfg.maxWidth, cfg.maxHeight).value;
      var o := Pipeline(files, inputPath, filename, cfg, tk, elapsed);
      && o.result.Success?
      && o.result.value.processedSize == |out|
      && ((!tk.thumbnail(out, cfg.thumbnailSize).Success?
           || ThumbnailPath(inputPath, filename) != inputPath + ".enc") ==>
            inputPath + ".enc" in o.files && o.files[inputPath + ".enc"] == tk.seal(out))
  {
    var out := tk.shrink(files[inputPath], cfg.maxWidth, cfg.maxHeight).value;
    ResizeReplacesInput(files, inputPath, ProcessedPath(inputPath, filename), out);
    var resized := files[inputPath := out] - {ProcessedPath(inputPath, filename)};
    FinishSteps(resized, inputPath, ThumbnailPath(inputPath, filename), |files[inputPath]|, |out|,
                cfg, tk, elapsed);
  }


  // ------------------------------------------------------------- reading

  /** `decryptFile`: read the file and undo the passphrase encryption. */
  function DecryptFile(files: Files, path: string, unseal: Bytes -> Result<Bytes>): (r: Result<Bytes>)
    ensures path !in files ==> r == Failure(Enoent("open", path))
    ensures path in files ==> r == unseal(files[path])
  {
    if path !in files then Failure(Enoent("open", path)) else unseal(files[path])
  }

  /** `getDecryptedThumbnail`: the decrypted thumbnail stored under the image
      id, or nothing when it is missing or cannot be decrypted. */
  function GetDecryptedThumbnail(files: Files, imageId: string, uploadsDir: string, tk: Toolkit): (r: Option<Bytes>)
    ensures var path := ThumbnailLookupPath(imageId, uploadsDir);
      && (r.Some? <==> path in files && tk.unseal(files[path]).Success?)
      && (r.Some? ==> r.value == tk.unseal(files[path]).value)
  {
    match DecryptFile(files, ThumbnailLookupPath(imageId, uploadsDir), tk.unseal)
    case Success(b) => Some(b)
    case Failure(_) => None
  }

  // --------------------------------------------------------------- queue

  function TotalLength(batches: seq<seq<Job>>): nat
  {
    if batches == [] then 0 else |batches[0]| + TotalLength(batches[1..])
  }

  function Flatten(batches: seq<seq<Job>>): seq<Job>
  {
    if batches == [] then [] else batches[0] + Flatten(batches[1..])
  }

  /** The order in which one drain hands jobs to the pipeline: the queued jobs
      from the head, where `arrivals[k]` are the jobs enqueued while the k-th
      job of the drain was being processed. */
  function DrainOrder(queue: seq<Job>, arrivals: seq<seq<Job>>): (r: seq<Job>)
    ensures |r| >= |queue|
    decreases |queue| + TotalLength(arrivals)
  {
    if queue == [] then []
    else if arrivals == [] then [queue[0]] + DrainOrder(queue[1..], [])
    else [queue[0]] + DrainOrder(queue[1..] + arrivals[0], arrivals[1..])
  }

  /** A drain is first-in first-out and handles every job exactly once: first
      the jobs queued when it starts, in queue order, then each batch enqueued
      while one of its jobs was being processed, in arrival order. Only
      `arrivals[k]` with k below the number of jobs handled can have happened;
      all of those are handled, and with no more batches than queued jobs the
      drain handles them all (`DrainTakesEveryArrival`). */
  lemma {:induction false} DrainIsFifo(queue: seq<Job>, arrivals: seq<seq<Job>>)
    ensures var d := DrainOrder(queue, arrivals);
      d == queue + Flatten(arrivals[..Min(|arrivals|, |d|)])
    ensures queue <= DrainOrder(queue, arrivals)
    decreases |queue| + TotalLength(arrivals)
  {
    var d := DrainOrder(queue, arrivals);
    if queue == [] {
      assert arrivals[..0] == [];
    } else if arrivals == [] {
      DrainIsFifo(queue[1..], []);
      assert arrivals[..0] == [];
      assert d == [queue[0]] + DrainOrder(queue[1..], []);
      assert queue == [queue[0]] + queue[1..];
    } else {
      var next := queue[1..] + arrivals[0];
      var rest := DrainOrder(next, arrivals[1..]);
      DrainIsFifo(next, arrivals[1..]);
      var m := Min(|arrivals|, |rest| + 1);
      var tail := Flatten(arrivals[1..][..m - 1]);
      assert arrivals[..m] == [arrivals[0]] + arrivals[1..][..m - 1];
      assert Flatten(arrivals[..m]) == arrivals[0] + tail;
      assert d == [queue[0]] + (next + tail);
      assert queue == [queue[0]] + queue[1..];
    }
  }

  /** With no more batches than queued jobs, every batch arrives while the
      drain is still running, and the drain handles all of them. */
  lemma DrainTakesEveryArrival(queue: seq<Job>, arrivals: seq<seq<Job>>)
    requires |arrivals| <= |queue|
    ensures DrainOrder(queue, arrivals) == queue + Flatten(arrivals)
  {
    DrainIsFifo(queue, arrivals);
    assert arrivals[..|arrivals|] == arrivals;
  }

  /** With nothing arriving meanwhile, a drain handles exactly the queued jobs, in order. */
  lemma DrainWithoutArrivals(queue: seq<Job>)
    ensures DrainOrder(queue, []) == queue
  {
    DrainIsFifo(queue, []);
    assert queue + Flatten([]) == queue;
  }

  /** The directory after the pipeline has run on each job in turn; a job that
      fails leaves whatever it had done so far. */
  function DrainFiles(files: Files, jobs: seq<Job>, cfg: Config, tk: Toolkit): Files
    decreases |jobs|
  {
    if jobs == [] then files
    else DrainFiles(Pipeline(files, jobs[0].filePath, jobs[0].filename, cfg, tk, 0).files, jobs[1..], cfg, tk)
  }

  /** The processor's shared state: the job queue, the busy flag and the upload
      directory it works on. `processed` records, for the proof, every job
      handed to the pipeline, in order. */
  class ImageProcessor {
    const store: FileStore
    const config: Config
    const toolkit: Toolkit
    var queue: seq<Job>
    var isProcessing: bool
    ghost var processed: seq<Job>

    constructor (store: FileStore, config: Config, toolkit: Toolkit)
      ensures this.store == store && this.config == config && this.toolkit == toolkit
      ensures queue == [] && !isProcessing && processed == []
    {
      this.store := store;
      this.config := config;
      this.toolkit := toolkit;
      queue := [];
      isProcessing := false;
      processed := [];
    }

    /** `encryptFile` step by step. */
    method EncryptFile(path: string) returns (r: Result<()>)
      modifies store
      ensures var o := EncryptFileSpec(old(store.files), path, toolkit.seal);
        store.files == o.files && r == o.result
    {
      var present := store.Exists(path);
      if !present {
        return Failure("File not found: " + path);
      }
      var data := store.ReadFile(path);
      store.WriteFile(path + ".enc", toolkit.seal(data.value));
      var stillThere := store.Exists(path);
      if stillThere {
        var removed := store.Unlink(path);
      }
      r := Success(());
    }

    /** `processImage` step by step; `elapsed` is the clock difference it reports. */
    method ProcessImage(inputPath: string, filename: string, elapsed: int) returns (r: Result<ProcessingResult>)
      modifies store
      ensures var o := Pipeline(old(store.files), inputPath, filename, config, toolkit, elapsed);
        store.files == o.files && r == o.result
    {
      var stat := store.Size(inputPath);
      if stat.Failure? {
        return Failure(stat.error);
      }
      var originalSize := stat.value;
      var original := store.files[inputPath];
      var metadata := toolkit.probe(original);
      if metadata.Failure? {
        return Failure(metadata.error);
      }
      var processedPath := ProcessedPath(inputPath, filename);
      var thumbnailPath := ThumbnailPath(inputPath, filename);

      var needsResizing := false;
      if metadata.value.width != 0 && metadata.value.height != 0 {
        needsResizing := metadata.value.width > config.maxWidth || metadata.value.height > config.maxHeight;
      }

      var processedSize := 0;
      if needsResizing {
        var shrunk := toolkit.shrink(original, config.maxWidth, config.maxHeight);
        if shrunk.Failure? {
          return Failure(shrunk.error);
        }
        store.WriteFile(processedPath, shrunk.value);
        var processedStat := store.Size(processedPath);
        processedSize := processedStat.value;
        // the input was measured above, so removing it succeeds
        var unlinked := store.Unlink(inputPath);
        var renamed := store.Rename(processedPath, inputPath);
        if renamed.Failure? {
          return Failure(renamed.error);
        }
      } else {
        processedSize := originalSize;
      }

      var thumbnailCreated := false;
      var source := store.ReadFile(inputPath);
      if source.Success? {
        var thumb := toolkit.thumbnail(source.value, config.thumbnailSize);
        if thumb.Success? {
          store.WriteFile(thumbnailPath, thumb.value);
          thumbnailCreated := true;
        }
      }

      var sealed := EncryptFile(inputPath);
      if sealed.Failure? {
        return Failure(sealed.error);
      }
      if thumbnailCreated {
        var sealedThumb := EncryptFile(thumbnailPath);
        if sealedThumb.Failure? {
          return Failure(sealedThumb.error);
        }
      }
      r := Success(ProcessingResult(originalSize, processedSize, true, thumbnailCreated, elapsed));
    }

    /** `addToProcessingQueue`: append at the tail, then try to start a drain.
        While a drain is running this only enqueues. */
    method AddToProcessingQueue(job: Job, arrivals: seq<seq<Job>>)
      modifies this, store
      decreases if isProcessing then 0 else 2, 1
      ensures isProcessing == old(isProcessing)
      ensures old(isProcessing) ==>
        queue == old(queue) + [job] && processed == old(processed) && store.files == old(store.files)
      ensures !old(isProcessing) ==>
        && queue == []
        && processed == old(processed) + DrainOrder(old(queue) + [job], arrivals)
        && store.files == DrainFiles(old(store.files), DrainOrder(old(queue) + [job], arrivals), config, toolkit)
    {
      queue := queue + [job];
      ProcessQueue(arrivals);
    }

    /** The jobs enqueued while a drain is busy: each goes through
        `addToProcessingQueue`, which only appends it. */
    method EnqueueArrivals(batch: seq<Job>)
      requires isProcessing
      modifies this, store
      decreases 0, 2
      ensures isProcessing
      ensures queue == old(queue) + batch && processed == old(processed) && store.files == old(store.files)
    {
      var i := 0;
      while i < |batch|
        invariant 0 <= i <= |batch|
        invariant isProcessing
        invariant queue == old(queue) + batch[..i]
        invariant processed == old(processed) && store.files == old(store.files)
      {
        AddToProcessingQueue(batch[i], []);
        assert batch[..i + 1] == batch[..i] + [batch[i]];
        i := i + 1;
      }
      assert batch[..|batch|] == batch;
    }

    /** `processQueue`: does nothing while a drain is running or when there is
        nothing queued; otherwise marks the processor busy and takes jobs from
        the head until the queue is empty, going on past jobs that fail. */
    method ProcessQueue(arrivals: seq<seq<Job>>)
      modifies this, store
      decreases if isProcessing then 0 else 1, 0
      ensures isProcessing == old(isProcessing)
      ensures old(isProcessing) ==>
        queue == old(queue) && processed == old(processed) && store.files == old(store.files)
      ensures !old(isProcessing) ==>
        && queue == []
        && processed == old(processed) + DrainOrder(old(queue), arrivals)
        && store.files == DrainFiles(old(store.files), DrainOrder(old(queue), arrivals), config, toolkit)
    {
      if isProcessing || |queue| == 0 {
        return;
      }
      isProcessing := true;
      var pending := arrivals;
      while |queue| > 0
        invariant isProcessing
        invariant processed + DrainOrder(queue, pending) == old(processed) + DrainOrder(old(queue), arrivals)
        invariant DrainFiles(store.files, DrainOrder(queue, pending), config, toolkit)
               == DrainFiles(old(store.files), DrainOrder(old(queue), arrivals), config, toolkit)
        decreases |queue| + TotalLength(pending)
      {
        var item := queue[0];
        ghost var rest;
        if pending == [] {
          rest := DrainOrder(queue[1..], []);
        } else {
          rest := DrainOrder(queue[1..] + pending[0], pending[1..]);
        }
        assert DrainOrder(queue, pending) == [item] + rest;
        ghost var before := store.files;
        ghost var done := processed;
        queue := queue[1..];
        // a job that fails is logged and skipped
        var outcome := ProcessImage(item.filePath, item.filename, 0);
        assert DrainFiles(before, [item] + rest, config, toolkit) == DrainFiles(store.files, rest, config, toolkit);
        processed := processed + [item];
        if pending != [] {
          EnqueueArrivals(pending[0]);
          pending := pending[1..];
        }
        assert DrainOrder(queue, pending) == rest;
        AppendAssoc(done, [item], rest);
      }
      isProcessing := false;
    }
  }
}

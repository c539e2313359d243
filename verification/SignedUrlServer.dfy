/** The upload server of a local cluster: a PUT to a signed URL, and the checksum that is read back for the object. */
module SignedUrlServer {
  import opened Basics
  import opened Checksums
  import BucketUrls

  /******* Cleaned file paths *******/

  datatype Path = Path(rooted: bool, segments: seq<string>)

  function Split(s: string): seq<string>
    decreases |s|
  {
    var k := BucketUrls.Find(s, '/');
    if k == |s| then [s] else [s[..k]] + Split(s[k + 1..])
  }

  /** Empty and dot segments vanish, dot-dot takes one away, and nothing is above the root. */
  function Walk(rooted: bool, segments: seq<string>, stack: seq<string>): seq<string> {
    if segments == [] then stack
    else
      var segment, rest := segments[0], segments[1..];
      if segment == "" || segment == "." then Walk(rooted, rest, stack)
      else if segment != ".." then Walk(rooted, rest, stack + [segment])
      else if stack != [] && stack[|stack| - 1] != ".." then Walk(rooted, rest, stack[..|stack| - 1])
      else if rooted then Walk(rooted, rest, stack)
      else Walk(rooted, rest, stack + [".."])
  }

  predicate Rooted(s: string) {
    s != "" && s[0] == '/'
  }

  function Clean(s: string): Path {
    Path(Rooted(s), Walk(Rooted(s), Split(s), []))
  }

  function Dir(s: string): Path {
    Clean(s[..BucketUrls.FindLast(s, '/') + 1])
  }

  /** The file beside the object that holds its checksum. */
  function ChecksumFile(object_: string): Path {
    var dir := Dir(object_);
    dir.(segments := dir.segments + ["md5.txt"])
  }

  /******* What cleaning does, segment by segment *******/

  lemma SplitOne(f: string)
    requires '/' !in f
    ensures Split(f) == [f]
  {
    BucketUrls.FindAt(f, '/', |f|);
  }

  lemma SplitFirst(segment: string, rest: string)
    requires '/' !in segment
    ensures Split(segment + "/" + rest) == [segment] + Split(rest)
  {
    var s := segment + "/" + rest;
    BucketUrls.FindAt(s, '/', |segment|);
    assert s[..|segment|] == segment && s[|segment| + 1..] == rest;
  }

  lemma {:induction false} SplitAppend(d: string, f: string)
    requires '/' !in f
    ensures Split(d + "/" + f) == Split(d) + [f]
    decreases |d|
  {
    hide Split;
    var k := BucketUrls.Find(d, '/');
    SplitOne(f);
    if k == |d| {
      SplitOne(d);
      SplitFirst(d, f);
    } else {
      var segment, rest := d[..k], d[k + 1..];
      assert d == segment + "/" + rest && d + "/" + f == segment + "/" + (rest + "/" + f);
      SplitFirst(segment, rest);
      SplitFirst(segment, rest + "/" + f);
      SplitAppend(rest, f);
    }
  }

  lemma {:induction false} WalkAppend(rooted: bool, segments: seq<string>, f: string, stack: seq<string>)
    ensures Walk(rooted, segments + [f], stack) == Walk(rooted, [f], Walk(rooted, segments, stack))
    decreases |segments|
  {
    if segments == [] {
      assert segments + [f] == [f];
    } else {
      var segment, rest := segments[0], segments[1..];
      assert (segments + [f])[0] == segment && (segments + [f])[1..] == rest + [f];
      if segment == "" || segment == "." {
        WalkAppend(rooted, rest, f, stack);
      } else if segment != ".." {
        WalkAppend(rooted, rest, f, stack + [segment]);
      } else if stack != [] && stack[|stack| - 1] != ".." {
        WalkAppend(rooted, rest, f, stack[..|stack| - 1]);
      } else if rooted {
        WalkAppend(rooted, rest, f, stack);
      } else {
        WalkAppend(rooted, rest, f, stack + [".."]);
      }
    }
  }

  /** The last segment of a path decides how its clean form comes from that of its directory: an ordinary name is added,
      an empty one and a dot change nothing, and dot-dot takes the last ordinary name away, stays below the root, and is
      kept where a relative path leaves its beginning. */
  lemma CleanAppend(d: string, f: string)
    requires '/' !in f && d != ""
    ensures var above, path := Clean(d), Clean(d + "/" + f);
            path.rooted == above.rooted
            && (f == "" || f == "." ==> path == above)
            && (f !in {"", ".", ".."} ==> path.segments == above.segments + [f])
            && (f == ".." && above.segments != [] && above.segments[|above.segments| - 1] != ".." ==>
                  path.segments == above.segments[..|above.segments| - 1])
            && (f == ".." && (above.segments == [] || above.segments[|above.segments| - 1] == "..") ==>
                  path.segments == if above.rooted then above.segments else above.segments + [".."])
  {
    SplitAppend(d, f);
    WalkAppend(Rooted(d), Split(d), f, []);
  }

  /** A single segment, below nothing and below the root. */
  lemma CleanSegment(f: string)
    requires '/' !in f && f !in {".", ".."}
    ensures Clean(f) == Path(false, if f == "" then [] else [f])
    ensures Clean("/" + f) == Path(true, if f == "" then [] else [f])
  {
    SplitOne(f);
    SplitFirst("", f);
    assert "" + "/" + f == "/" + f && (f != "" ==> f[0] in f);
    WalkAppend(false, [], f, []);
    WalkAppend(true, [""], f, []);
  }

  /** The checksum file of an object lies in its directory. */
  lemma BesideObject(d: string, f: string)
    requires '/' !in f
    ensures ChecksumFile(d + "/" + f) == Clean(d + "/md5.txt")
  {
    hide Clean, Walk, Split;
    BucketUrls.LastSplits(d, '/', f);
    assert (d + "/" + f)[..|d| + 1] == d + "/";
    assert d + "/" == d + "/" + "" && d + "/md5.txt" == d + "/" + "md5.txt";
    if d != "" {
      CleanAppend(d, "");
      CleanAppend(d, "md5.txt");
    } else {
      CleanSegment("");
      CleanSegment("md5.txt");
      assert "" + "/" == "/" + "" && "" + "/md5.txt" == "/" + "md5.txt";
    }
  }

  /** Objects of two directories have two checksum files. */
  lemma TwoDirectories(d: string, f: string, d': string, f': string)
    requires '/' !in f && '/' !in f' && d != "" && d' != ""
    ensures ChecksumFile(d + "/" + f) == ChecksumFile(d' + "/" + f') <==> Clean(d) == Clean(d')
  {
    hide Clean, Walk, Split, ChecksumFile;
    BesideObject(d, f);
    BesideObject(d', f');
    assert d + "/md5.txt" == d + "/" + "md5.txt" && d' + "/md5.txt" == d' + "/" + "md5.txt";
    CleanAppend(d, "md5.txt");
    CleanAppend(d', "md5.txt");
    var s, s' := Clean(d).segments, Clean(d').segments;
    assert (s + ["md5.txt"])[..|s|] == s && (s' + ["md5.txt"])[..|s'|] == s';
  }

  lemma ExtraSlash(s: string)
    requires Rooted(s)
    ensures Clean("/" + s) == Clean(s)
  {
    assert ("/" + s)[0..][1..] == s;
    assert Split("/" + s) == [""] + Split(s);
  }

  lemma LastSlashShifts(s: string)
    requires Rooted(s)
    ensures BucketUrls.FindLast("/" + s, '/') == BucketUrls.FindLast(s, '/') + 1
  {
    var k, j := BucketUrls.FindLast("/" + s, '/'), BucketUrls.FindLast(s, '/');
    assert ("/" + s)[j + 1] == '/';
    assert k == 0 || s[k - 1] == '/';
  }

  /** The path of a signed URL is the object name behind one more slash: client and controller mean the same checksum
      file exactly when the object name is absolute, as it is below the default bucket. */
  lemma PathsAgree(object_: string)
    ensures ChecksumFile("/" + object_) == ChecksumFile(object_) <==> Rooted(object_)
  {
    if Rooted(object_) {
      LastSlashShifts(object_);
      var k := BucketUrls.FindLast(object_, '/') + 1;
      assert ("/" + object_)[..k + 1] == "/" + object_[..k];
      if object_[..k] != "" {
        ExtraSlash(object_[..k]);
      }
    } else {
      assert BucketUrls.FindLast("/" + object_, '/') >= 0 by {
        assert ("/" + object_)[0] == '/';
      }
    }
  }

  /******* White space around a stored checksum *******/

  predicate Space(c: char) {
    c == ' ' || '\t' <= c <= '\r'
  }

  function TrimSpace(s: string): string {
    if s == "" then ""
    else if Space(s[0]) then TrimSpace(s[1..])
    else if Space(s[|s| - 1]) then TrimSpace(s[..|s| - 1])
    else s
  }

  /** Trimming takes away all white space around a text that neither begins nor ends with any, and nothing else. */
  lemma {:induction false} TrimmedText(before: string, s: string, after: string)
    requires forall i :: 0 <= i < |before| ==> Space(before[i])
    requires forall i :: 0 <= i < |after| ==> Space(after[i])
    requires s != "" && !Space(s[0]) && !Space(s[|s| - 1])
    ensures TrimSpace(before + s + after) == s
    decreases |before| + |after|
  {
    var t := before + s + after;
    if before != "" {
      assert t[0] == before[0] && t[1..] == before[1..] + s + after;
      TrimmedText(before[1..], s, after);
    } else if after != "" {
      assert t[0] == s[0] && t[|t| - 1] == after[|after| - 1] && t[..|t| - 1] == before + s + after[..|after| - 1];
      TrimmedText(before, s, after[..|after| - 1]);
    } else {
      assert t == s;
    }
  }

  lemma SpacesAre()
    ensures forall c: char :: Space(c) <==> c in {' ', '\t', '\n', '\U{0B}', '\U{0C}', '\r'}
  {
  }

  lemma {:induction false} NoSpaceInHex(data: seq<Byte>)
    ensures forall i :: 0 <= i < |HexEncode(data)| ==> !Space(HexEncode(data)[i])
  {
    if data != [] {
      NoSpaceInHex(data[1..]);
    }
  }

  /******* The server *******/

  const OCTETS := "application/octet-stream"

  predicate Acceptable(contentType: string, contentMd5: string) {
    contentType == OCTETS && contentMd5 != "" && FromHeader(contentMd5).Ok?
  }

  type Files = map<Path, string>

  /** What may go wrong on the disk. A file that cannot be opened is left as it was (None); one that cannot be
      written to the end keeps the first `kept` characters. */
  datatype Fault = Fine | NoDirectory | NoChecksum(kept: Option<nat>) | NoBody(kept: Option<nat>)

  function Partly(files: Files, file: Path, text: string, kept: Option<nat>): Files {
    if kept.None? then files else files[file := if kept.value < |text| then text[..kept.value] else text]
  }

  /** The disk after an upload: directory, checksum and body, in this order, until something goes wrong. */
  function Saved(files: Files, path: string, md5: string, body: string, fault: Fault): Files {
    match fault
    case Fine => files[ChecksumFile(path) := md5][Clean(path) := body]
    case NoDirectory => files
    case NoChecksum(kept) => Partly(files, ChecksumFile(path), md5, kept)
    case NoBody(kept) => Partly(files[ChecksumFile(path) := md5], Clean(path), body, kept)
  }

  /** An upload, however it goes, leaves the checksums of objects in other directories alone, unless it uploads one. */
  lemma OthersUndisturbed(files: Files, path: string, md5: string, body: string, fault: Fault, d: string, f: string)
    requires ChecksumFile(d + "/" + f) !in {ChecksumFile(path), Clean(path)}
    ensures SameAt(files, Saved(files, path, md5, body, fault), ChecksumFile(d + "/" + f))
  {
    hide ChecksumFile, Clean;
  }

  predicate HasText(files: Files, file: Path, text: string) {
    file in files && files[file] == text
  }

  /** A first upload leaves a checksum behind that claims a body which is not there exactly when the disk fails between
      the end of the checksum and the end of the body. */
  lemma TornUpload(files: Files, path: string, md5: string, body: string, fault: Fault)
    requires ChecksumFile(path) !in files && Clean(path) !in files && Clean(path) != ChecksumFile(path)
    ensures var after := Saved(files, path, md5, body, fault);
            (HasText(after, ChecksumFile(path), md5) && !HasText(after, Clean(path), body))
            <==> (fault.NoChecksum? && fault.kept.Some? && fault.kept.value >= |md5|)
                 || (fault.NoBody? && (fault.kept.None? || fault.kept.value < |body|))
  {
    hide ChecksumFile, Clean;
  }

  class Server {
    const address: string
    var files: Files

    constructor (address: string)
      ensures this.address == address && files == map[]
    {
      this.address := address;
      files := map[];
    }

    /** A request that is refused leaves no trace; an accepted PUT writes the checksum and then the body, or fails on
        the way. Every other method is answered with success and does nothing. */
    method ServeHTTP(put: bool, contentType: string, contentMd5: string, path: string, body: string, fault: Fault)
        returns (status: nat)
      modifies this
      ensures status == if put && !Acceptable(contentType, contentMd5) then 400
                        else if put && fault != Fine then 500 else 200
      ensures files == if put && Acceptable(contentType, contentMd5)
                       then Saved(old(files), path, FromHeader(contentMd5).value, body, fault) else old(files)
      ensures status == 400 <==> put && (contentType != "application/octet-stream" || contentMd5 == ""
                                         || Base64Decode(contentMd5).Error?)
      ensures put && status == 200 ==>
                var md5 := HexEncode(Base64Decode(contentMd5).value);
                files == old(files)[ChecksumFile(path) := md5][Clean(path) := body]
    {
      if put {
        if contentType != OCTETS {
          return 400;
        }
        if contentMd5 == "" {
          return 400;
        }
        var raw := Base64Decode(contentMd5);
        if raw.Error? {
          return 400;
        }
        var md5 := HexEncode(raw.value);
        var ok := SaveUpload(body, path, md5, fault);
        if !ok {
          return 500;
        }
      }
      return 200;
    }

    method SaveUpload(body: string, path: string, md5: string, fault: Fault) returns (ok: bool)
      modifies this
      ensures ok == fault.Fine?
      ensures files == Saved(old(files), path, md5, body, fault)
    {
      if fault.NoDirectory? {
        return false;
      }
      if fault.NoChecksum? {
        files := Partly(files, ChecksumFile(path), md5, fault.kept);
        return false;
      }
      files := files[ChecksumFile(path) := md5];
      if fault.NoBody? {
        files := Partly(files, Clean(path), body, fault.kept);
        return false;
      }
      files := files[Clean(path) := body];
      return true;
    }

    method CreateSignedURL(object_: string) returns (url: string)
      ensures url == address + "/" + object_
    {
      url := address + "/" + object_;
    }

    method GetObjectMd5(object_: string) returns (r: Result<string>)
      ensures r.Ok? <==> ChecksumFile(object_) in files
      ensures r.Ok? ==> r.value == TrimSpace(files[ChecksumFile(object_)])
    {
      var path := ChecksumFile(object_);
      if path !in files {
        return Error("read md5 file: no such file");
      }
      return Ok(TrimSpace(files[path]));
    }
  }

  /** The fate of a request: answered, never arrived, or served with its answer lost. */
  datatype Transport = Answered | Unsent | Unheard

  /** The client's half: a tarball that can be opened is sent with its checksum, and only an answer 200 is a success. A
      failure the client sees says nothing about the server if the request was served. */
  method UploadTarball(server: Server, url: string, path: string, md5: string, tarball: Option<string>,
                       transport: Transport, fault: Fault)
      returns (ok: bool)
    requires url == server.address + path
    modifies server
    ensures ok <==> md5 != "" && HexDecode(md5).Ok? && tarball.Some? && transport.Answered? && fault.Fine?
    ensures server.files ==
            if md5 != "" && HexDecode(md5).Ok? && tarball.Some? && !transport.Unsent?
            then Saved(old(server.files), path, Lower(md5), tarball.value, fault) else old(server.files)
  {
    hide Saved;
    var data := HexDecode(md5);
    if data.Error? {
      return false;
    }
    var encoded := Base64Encode(data.value);
    if tarball.None? || transport.Unsent? {
      return false;
    }
    RecordedAsSpecified(md5);
    var status := server.ServeHTTP(true, OCTETS, encoded, path, tarball.value, fault);
    ok := transport.Answered? && status == 200;
  }

  /** One whole exchange: sign, upload, look up. When the upload succeeds, the controller reads back the checksum in
      lower case, so for a lower-case checksum exactly the one in the spec, and the body is there. */
  method Exchange(server: Server, object_: string, md5: string, tarball: Option<string>, transport: Transport,
                  fault: Fault)
      returns (ok: bool, recorded: Result<string>)
    requires Rooted(object_) && Clean("/" + object_) != ChecksumFile("/" + object_)
    modifies server
    ensures ok <==> md5 != "" && HexDecode(md5).Ok? && tarball.Some? && transport.Answered? && fault.Fine?
    ensures ok ==> recorded == Ok(Lower(md5)) && HasText(server.files, Clean(object_), tarball.value)
  {
    var url := server.CreateSignedURL(object_);
    ok := UploadTarball(server, url, "/" + object_, md5, tarball, transport, fault);
    recorded := server.GetObjectMd5(object_);
    if ok {
      PathsAgree(object_);
      ExtraSlash(object_);
      HexNormalises(md5);
      NoSpaceInHex(HexDecode(md5).value);
      assert TrimSpace(Lower(md5)) == Lower(md5);
    }
  }
}

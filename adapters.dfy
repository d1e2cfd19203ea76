/**
  The five upload adapters of `QRCodeGenerator` (`_upload_to_catbox`,
  `_upload_to_pixeldrain`, `_upload_to_0x0`, `_upload_to_gofile`,
  `_upload_to_fileio`). Each builds its request(s), sends them through the
  network and reads the reply. An adapter does not catch anything itself:
  a failed request, a body that is not JSON, `.get` on something that is not a
  JSON object or a missing key under `[...]` all make it raise, and the chain
  that calls it decides what that means.
 */
module Adapters {
  import opened Basics
  import opened PyValues
  import opened Http

  /** The hosting services, in the order the chain tries them. */
  datatype Service = Catbox | Pixeldrain | ZeroX0 | Gofile | FileIo

  /** Most durable link first. */
  const SERVICES: seq<Service> := [Catbox, Pixeldrain, ZeroX0, Gofile, FileIo]

  /** One adapter run: what it returned (or that it raised) and the requests it sent, in order. */
  datatype Try = Try(result: Eval, sent: seq<Request>)

  /** What the chain accepts as a link: a returned value that is truthy. */
  predicate Usable(e: Eval) {
    e.Returned? && Truthy(e.value)
  }

  const HTTPS := "https://"

  // catbox.moe

  const CATBOX_ENDPOINT := "https://catbox.moe/user/api.php"

  function CatboxRequest(content: Bytes, filename: string): Request {
    PostFile(CATBOX_ENDPOINT, map["reqtype" := "fileupload"], "fileToUpload", filename, content, 60)
  }

  /**
    A link comes back exactly when the reply is 200 and its raw text starts with
    `https://`; the link is the stripped text, which still starts with `https://`.
   */
  function UploadToCatbox(net: Network, content: Bytes, filename: string): (t: Try)
    ensures t.sent == [CatboxRequest(content, filename)]
    ensures var resp := net(t.sent[0]);
      && (t.result.Raised? <==> resp.RequestFailed?)
      && (Usable(t.result) <==> resp.Reply? && resp.status == 200 && StartsWith(resp.text, HTTPS))
      && (Usable(t.result) ==> t.result.value == Str(Strip(resp.text)) && StartsWith(t.result.value.s, HTTPS))
      && (t.result.Returned? && !Usable(t.result) ==> t.result.value == Null)
  {
    var req := CatboxRequest(content, filename);
    Try(CatboxResult(net(req)), [req])
  }

  function CatboxResult(resp: Response): (r: Eval)
    ensures r.Raised? <==> resp.RequestFailed?
    ensures Usable(r) <==> resp.Reply? && resp.status == 200 && StartsWith(resp.text, HTTPS)
    ensures Usable(r) ==> r.value == Str(Strip(resp.text)) && StartsWith(r.value.s, HTTPS)
    ensures r.Returned? && !Usable(r) ==> r.value == Null
  {
    match resp
    case RequestFailed => Raised
    case Reply(status, text, _) =>
      if status == 200 && StartsWith(text, HTTPS) then
        CatboxLinkKeepsScheme(text);
        Returned(Str(Strip(text)))
      else
        Returned(Null)
  }

  /** catbox's raw text starts with `https://`, so its stripped text is a non-empty link that still does. */
  lemma CatboxLinkKeepsScheme(text: string)
    requires StartsWith(text, HTTPS)
    ensures Strip(text) != [] && StartsWith(Strip(text), HTTPS)
  {
    StripKeepsPrefix(text, HTTPS);
  }

  // pixeldrain.com

  const PIXELDRAIN_ENDPOINT := "https://pixeldrain.com/api/file"
  const PIXELDRAIN_VIEW := "https://pixeldrain.com/u/"

  function PixeldrainRequest(content: Bytes, filename: string): Request {
    PostFile(PIXELDRAIN_ENDPOINT, map[], "file", filename, content, 60)
  }

  /**
    A link comes back exactly when the reply is 201 and its JSON object has a
    truthy `id`; the link is the viewing page for that id. A 201 whose body is
    not a JSON object raises.
   */
  function UploadToPixeldrain(net: Network, content: Bytes, filename: string): (t: Try)
    ensures t.sent == [PixeldrainRequest(content, filename)]
    ensures var resp := net(t.sent[0]);
      && (t.result.Raised? <==> resp.RequestFailed? || (resp.status == 201 && !HasJsonObject(resp)))
      && (Usable(t.result) <==> resp.Reply? && resp.status == 201 && HasJsonObject(resp) && Truthy(JsonGet(resp, "id")))
      && (Usable(t.result) ==> t.result.value == Str(PIXELDRAIN_VIEW + PyStr(JsonGet(resp, "id"))))
      && (t.result.Returned? && !Usable(t.result) ==> t.result.value == Null)
  {
    var req := PixeldrainRequest(content, filename);
    Try(PixeldrainResult(net(req)), [req])
  }

  function PixeldrainResult(resp: Response): Eval {
    match resp
    case RequestFailed => Raised
    case Reply(status, _, json) =>
      if status != 201 then Returned(Null)
      else
        var data :- ParseJson(json);
        var id :- DictGet(data, "id");
        if Truthy(id) then Returned(Str(PIXELDRAIN_VIEW + PyStr(id))) else Returned(Null)
  }

  // 0x0.st

  const ZEROX0_ENDPOINT := "https://0x0.st"

  function ZeroX0Request(content: Bytes, filename: string): Request {
    PostFile(ZEROX0_ENDPOINT, map[], "file", filename, content, 30)
  }

  /**
    Any 200 reply gives its stripped text, which the chain accepts unless the
    text is blank; nothing checks that the text is a URL.
   */
  function UploadToZeroX0(net: Network, content: Bytes, filename: string): (t: Try)
    ensures t.sent == [ZeroX0Request(content, filename)]
    ensures var resp := net(t.sent[0]);
      && (t.result.Raised? <==> resp.RequestFailed?)
      && (Usable(t.result) <==> resp.Reply? && resp.status == 200 && !AllSpace(resp.text))
      && (resp.Reply? && resp.status == 200 ==> t.result == Returned(Str(Strip(resp.text))))
      && (resp.Reply? && resp.status != 200 ==> t.result == Returned(Null))
  {
    var req := ZeroX0Request(content, filename);
    var result :=
      match net(req)
      case RequestFailed => Raised
      case Reply(status, text, _) => if status == 200 then Returned(Str(Strip(text))) else Returned(Null);
    Try(result, [req])
  }

  // gofile.io

  const GOFILE_LOOKUP := Get("https://api.gofile.io/getServer", 10)

  function GofileUploadRequest(server: Value, content: Bytes, filename: string): Request {
    PostFile("https://" + PyStr(server) + ".gofile.io/uploadFile", map[], "file", filename, content, 60)
  }

  /** The outcome of the server lookup: give up with a result, or go on to upload to `server`. */
  datatype Lookup = Stop(result: Eval) | Continue(server: Value)

  /** The lookup reply is good: 200, a JSON object with `status == "ok"`. */
  predicate GofileOk(resp: Response) {
    resp.Reply? && resp.status == 200 && HasJsonObject(resp) && JsonGet(resp, "status") == Str("ok")
  }

  /**
    First step of gofile: the upload goes ahead only after a good reply that
    names a server under `data.server`; stopping never yields a link.
   */
  function GofileLookup(resp: Response): (l: Lookup)
    ensures l.Continue? <==> GofileOk(resp) && Field(JsonGet(resp, "data"), "server").Some?
    ensures l.Continue? ==> Field(JsonGet(resp, "data"), "server") == Some(l.server)
    ensures l.Stop? ==> !Usable(l.result)
    ensures l == Stop(Returned(Null)) <==>
      resp.Reply? && (resp.status != 200 || (HasJsonObject(resp) && JsonGet(resp, "status") != Str("ok")))
  {
    match resp
    case RequestFailed => Stop(Raised)
    case Reply(status, _, json) =>
      if status != 200 then Stop(Returned(Null))
      else
        match ParseJson(json)
        case Raised => Stop(Raised)
        case Returned(serverData) =>
          match DictGet(serverData, "status")
          case Raised => Stop(Raised)
          case Returned(st) =>
            if st != Str("ok") then Stop(Returned(Null))
            else
              match ServerOf(serverData)
              case Raised => Stop(Raised)
              case Returned(server) => Continue(server)
  }

  /** `server_data['data']['server']`. */
  function ServerOf(serverData: Value): Eval {
    var data :- Subscript(serverData, "data");
    Subscript(data, "server")
  }

  /**
    Second step of gofile: a link comes back only from a 200 reply whose JSON
    object has `status == "ok"`, and it is `data.downloadPage`.
   */
  function GofileUploadResult(resp: Response): (r: Eval)
    ensures resp.RequestFailed? ==> r.Raised?
    ensures resp.Reply? && resp.status != 200 ==> r == Returned(Null)
    ensures r.Returned? && r.value != Null ==> GofileOk(resp)
    ensures r.Returned? && GofileOk(resp) ==> Field(JsonGet(resp, "data"), "downloadPage") == Some(r.value)
    ensures GofileOk(resp) && Field(JsonGet(resp, "data"), "downloadPage").Some? ==> r.Returned?
  {
    match resp
    case RequestFailed => Raised
    case Reply(status, _, json) =>
      if status != 200 then Returned(Null)
      else
        var data :- ParseJson(json);
        var st :- DictGet(data, "status");
        if st != Str("ok") then Returned(Null)
        else
          var d :- Subscript(data, "data");
          Subscript(d, "downloadPage")
  }

  /**
    Both steps together: one request when the lookup stops, two when it goes
    on, the second one to the server the lookup named.
   */
  function UploadToGofile(net: Network, content: Bytes, filename: string): (t: Try)
    ensures 1 <= |t.sent| <= 2 && t.sent[0] == GOFILE_LOOKUP
    ensures var lookup := GofileLookup(net(GOFILE_LOOKUP));
      && (|t.sent| == 2 <==> lookup.Continue?)
      && (lookup.Stop? ==> t.result == lookup.result)
      && (lookup.Continue? ==> t.sent[1] == GofileUploadRequest(lookup.server, content, filename)
                               && t.result == GofileUploadResult(net(t.sent[1])))
  {
    match GofileLookup(net(GOFILE_LOOKUP))
    case Stop(result) => Try(result, [GOFILE_LOOKUP])
    case Continue(server) =>
      var req := GofileUploadRequest(server, content, filename);
      Try(GofileUploadResult(net(req)), [GOFILE_LOOKUP, req])
  }

  /**
    gofile yields a link only when both steps succeed: the lookup was good and
    named a server, and the upload to that server answered 200 with
    `status == "ok"`.
   */
  lemma GofileNeedsBothSteps(net: Network, content: Bytes, filename: string)
    requires Usable(UploadToGofile(net, content, filename).result)
    ensures var lookup := GofileLookup(net(GOFILE_LOOKUP));
      && GofileOk(net(GOFILE_LOOKUP))
      && lookup.Continue?
      && GofileOk(net(GofileUploadRequest(lookup.server, content, filename)))
  {
  }

  // file.io

  const FILEIO_ENDPOINT := "https://file.io"

  function FileIoRequest(content: Bytes, filename: string): Request {
    PostFile(FILEIO_ENDPOINT, map[], "file", filename, content, 30)
  }

  /**
    A link comes back exactly when the reply is 200, its JSON object has a
    truthy `success` and a truthy `link`; the link is that value, whatever its
    JSON type. A 200 whose body is not a JSON object raises.
   */
  function UploadToFileIo(net: Network, content: Bytes, filename: string): (t: Try)
    ensures t.sent == [FileIoRequest(content, filename)]
    ensures var resp := net(t.sent[0]);
      && (t.result.Raised? <==> resp.RequestFailed? || (resp.status == 200 && !HasJsonObject(resp)))
      && (Usable(t.result) <==> resp.Reply? && resp.status == 200 && HasJsonObject(resp)
                                && Truthy(JsonGet(resp, "success")) && Truthy(JsonGet(resp, "link")))
      && (Usable(t.result) ==> t.result.value == JsonGet(resp, "link"))
  {
    var req := FileIoRequest(content, filename);
    Try(FileIoResult(net(req)), [req])
  }

  function FileIoResult(resp: Response): Eval {
    match resp
    case RequestFailed => Raised
    case Reply(status, _, json) =>
      if status != 200 then Returned(Null)
      else
        var data :- ParseJson(json);
        var success :- DictGet(data, "success");
        if Truthy(success) then DictGet(data, "link") else Returned(Null)
  }

  /** Runs the adapter of service `s`. */
  function TryService(s: Service, net: Network, content: Bytes, filename: string): Try {
    match s
    case Catbox => UploadToCatbox(net, content, filename)
    case Pixeldrain => UploadToPixeldrain(net, content, filename)
    case ZeroX0 => UploadToZeroX0(net, content, filename)
    case Gofile => UploadToGofile(net, content, filename)
    case FileIo => UploadToFileIo(net, content, filename)
  }
}

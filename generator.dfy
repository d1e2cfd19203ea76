/**
  `QRCodeGenerator`: the settings it keeps (`box_size`, `border`), the input
  check in front of the QR encoder, the upload chain and the file flow that
  uploads first and encodes the link. The QR library itself is a function
  parameter (`Encoder`); every call made to it is returned, so "the encoder is
  not called" is a statement about that list.
 */
module Generator {
  import opened Basics
  import opened PyValues
  import opened Http
  import opened Adapters
  import opened Fallback

  /** The exceptions the generator lets escape, with their messages. */
  datatype QrError =
    | ValueError(message: string)
    | AttributeError(message: string)
    | Exception(message: string)

  const EMPTY_DATA_MESSAGE := "Data cannot be empty"
  const GENERATION_FAILED_PREFIX := "Failed to generate QR code: "

  datatype ErrorCorrection = L | M | Q | H

  /** What is handed to the QR library: the payload and the rendering options. */
  datatype EncodeRequest = EncodeRequest(
    data: string, version: nat, errorCorrection: ErrorCorrection, fit: bool,
    boxSize: int, border: int, fillColor: string, backColor: string)

  /** The library renders a PNG, or raises with a message. */
  datatype Encoding = Png(png: Bytes) | EncodeFailed(cause: string)

  type Encoder = EncodeRequest -> Encoding

  /** Version 1 with low error correction, grown to fit the payload. */
  function EncodeRequestFor(data: string, boxSize: int, border: int, fillColor: string, backColor: string): EncodeRequest {
    EncodeRequest(data, 1, L, true, boxSize, border, fillColor, backColor)
  }

  /**
    The guard of `generate_qr_code`: falsy data and blank strings are a
    `ValueError`; a truthy value that is not a string has no `strip` and
    raises `AttributeError`; any other string is accepted as it is.
   */
  function Validate(data: Value): (r: Result<string, QrError>)
    ensures r.Success? <==> data.Str? && !AllSpace(data.s)
    ensures r.Success? ==> r.value == data.s
    ensures r == Failure(ValueError(EMPTY_DATA_MESSAGE)) <==> !Truthy(data) || (data.Str? && AllSpace(data.s))
    ensures r.Failure? && r.error.AttributeError? <==> Truthy(data) && !data.Str?
  {
    if !Truthy(data) then Failure(ValueError(EMPTY_DATA_MESSAGE))
    else if !data.Str? then Failure(AttributeError("'" + TypeName(data) + "' object has no attribute 'strip'"))
    else if Strip(data.s) == "" then Failure(ValueError(EMPTY_DATA_MESSAGE))
    else Success(data.s)
  }

  /**
    A usable result from catbox, pixeldrain or 0x0 is a string with a
    non-space character, so the guard passes it through unchanged.
   */
  lemma EarlyAdapterLinksEncodable(s: Service, net: Network, content: Bytes, filename: string)
    requires s == Catbox || s == Pixeldrain || s == ZeroX0
    requires Usable(TryService(s, net, content, filename).result)
    ensures TryService(s, net, content, filename).result.value.Str?
    ensures var url := TryService(s, net, content, filename).result.value;
      Validate(url) == Success(url.s)
  {
    var url := TryService(s, net, content, filename).result.value;
    assert url.Str? && url.s != [] && !IsSpace(url.s[0]);
  }

  /**
    Links won from catbox, pixeldrain and 0x0 always pass the guard; catbox's
    starts with `https://`.
   */
  lemma EarlyServicesGiveEncodableLinks(net: Network, content: Bytes, filename: string)
    requires Upload(net, content, filename).success
    requires Upload(net, content, filename).service in {Some(Name(Catbox)), Some(Name(Pixeldrain)), Some(Name(ZeroX0))}
    ensures Upload(net, content, filename).url.Str?
    ensures Validate(Upload(net, content, filename).url) == Success(Upload(net, content, filename).url.s)
    ensures Upload(net, content, filename).service == Some(Name(Catbox))
            ==> StartsWith(Upload(net, content, filename).url.s, HTTPS)
  {
    var a := Attempts(net, content, filename);
    var k := FirstUsable(a, 0);
    var up := Upload(net, content, filename);
    assert k < |a| && up == Succeeded(SERVICES[k], a[k].value);
    forall s | up.service == Some(Name(s)) ensures s == SERVICES[k] {
      ServiceLabelsDistinct(s, SERVICES[k]);
    }
    assert k < 3;
    EarlyAdapterLinksEncodable(SERVICES[k], net, content, filename);
  }

  /**
    gofile and file.io hand back whatever JSON value they find: a file.io reply
    with `link: 7` is a successful upload whose link is not a string, and the
    guard then raises `AttributeError` instead of encoding it.
   */
  lemma NonStringLinkAccepted(content: Bytes, filename: string)
    ensures var net: Network := (req: Request) =>
              if req == FileIoRequest(content, filename)
              then Reply(200, "", Some(Dict(map["success" := Bool(true), "link" := Num(7)])))
              else RequestFailed;
            && Upload(net, content, filename) == Succeeded(FileIo, Num(7))
            && Validate(Num(7)).Failure? && Validate(Num(7)).error.AttributeError?
  {
    var net: Network := (req: Request) =>
      if req == FileIoRequest(content, filename)
      then Reply(200, "", Some(Dict(map["success" := Bool(true), "link" := Num(7)])))
      else RequestFailed;
    var a := Attempts(net, content, filename);
    assert !Usable(a[0]) && !Usable(a[1]) && !Usable(a[2]) && !Usable(a[3]);
    assert a[4] == Returned(Num(7));
    FirstUsableWins(a, 4);
  }

  class QRCodeGenerator {
    var boxSize: int
    var border: int

    constructor (boxSize: int := 10, border: int := 4)
      ensures this.boxSize == boxSize && this.border == border
    {
      this.boxSize := boxSize;
      this.border := border;
    }

    /**
      `generate_qr_code`: rejected input never reaches the encoder; accepted
      input is encoded exactly once, with the current settings, and an encoder
      failure is reported under a fixed prefix.
     */
    method GenerateQrCode(data: Value, encoder: Encoder, fillColor: string := "black", backColor: string := "white")
      returns (r: Result<Bytes, QrError>, calls: seq<EncodeRequest>)
      ensures Validate(data).Failure? ==> calls == [] && r == Failure(Validate(data).error)
      ensures Validate(data).Success? ==>
        && calls == [EncodeRequestFor(data.s, boxSize, border, fillColor, backColor)]
        && (r.Success? <==> encoder(calls[0]).Png?)
        && (r.Success? ==> r.value == encoder(calls[0]).png)
        && (r.Failure? ==> r.error == Exception(GENERATION_FAILED_PREFIX + encoder(calls[0]).cause))
    {
      var checked := Validate(data);
      if checked.Failure? {
        return Failure(checked.error), [];
      }
      var req := EncodeRequestFor(checked.value, boxSize, border, fillColor, backColor);
      calls := [req];
      match encoder(req)
      case Png(png) => r := Success(png);
      case EncodeFailed(cause) => r := Failure(Exception(GENERATION_FAILED_PREFIX + cause));
    }

    /**
      `upload_file_and_get_link`: tries the services in order and stops at the
      first usable link. The record is `Upload`'s, exactly the adapters up to
      the winner ran (all five when none wins), and `sent` is their requests.
     */
    method UploadFileAndGetLink(net: Network, content: Bytes, filename: string)
      returns (outcome: UploadOutcome, invoked: nat, sent: seq<Request>)
      ensures outcome == Upload(net, content, filename)
      ensures invoked == Invoked(Attempts(net, content, filename))
      ensures sent == SentBy(net, content, filename, invoked)
    {
      ghost var a := Attempts(net, content, filename);
      var i := 0;
      sent := [];
      while i < |SERVICES|
        invariant 0 <= i <= |SERVICES|
        invariant forall j :: 0 <= j < i ==> !Usable(a[j])
        invariant sent == SentBy(net, content, filename, i)
      {
        var t := TryService(SERVICES[i], net, content, filename);
        sent := sent + t.sent;
        if Usable(t.result) {
          FirstUsableWins(a, i);
          return Succeeded(SERVICES[i], t.result.value), i + 1, sent;
        }
        i := i + 1;
      }
      outcome, invoked := ALL_FAILED, |SERVICES|;
    }

    /**
      `generate_qr_from_file`: a failed upload raises with the upload's message
      and never reaches the encoder; a successful one encodes exactly the link
      and returns the upload record unchanged beside the image, or lets the
      encoder's failure escape under the fixed prefix.
     */
    method GenerateQrFromFile(net: Network, content: Bytes, filename: string, encoder: Encoder,
                              fillColor: string := "black", backColor: string := "white")
      returns (r: Result<(Bytes, UploadOutcome), QrError>, calls: seq<EncodeRequest>, sent: seq<Request>)
      ensures var up := Upload(net, content, filename);
        && (!up.success ==> r == Failure(Exception(up.message)) && calls == [])
        && (up.success && Validate(up.url).Failure? ==> r == Failure(Validate(up.url).error) && calls == [])
        && (up.success && Validate(up.url).Success? ==>
              && calls == [EncodeRequestFor(up.url.s, boxSize, border, fillColor, backColor)]
              && (r.Success? <==> encoder(calls[0]).Png?)
              && (r.Success? ==> r.value == (encoder(calls[0]).png, up))
              && (r.Failure? ==> r.error == Exception(GENERATION_FAILED_PREFIX + encoder(calls[0]).cause)))
      ensures sent == SentBy(net, content, filename, Invoked(Attempts(net, content, filename)))
    {
      var upload, _, s := UploadFileAndGetLink(net, content, filename);
      sent := s;
      if !upload.success {
        return Failure(Exception(upload.message)), [], sent;
      }
      var image;
      image, calls := GenerateQrCode(upload.url, encoder, fillColor, backColor);
      match image
      case Success(png) => r := Success((png, upload));
      case Failure(e) => r := Failure(e);
    }

    /** `update_settings`: an absent argument leaves its field alone, a present one (even 0) replaces it. */
    method UpdateSettings(boxSize: Option<int> := None, border: Option<int> := None)
      modifies this
      ensures this.boxSize == (if boxSize.Some? then boxSize.value else old(this.boxSize))
      ensures this.border == (if border.Some? then border.value else old(this.border))
    {
      if boxSize.Some? {
        this.boxSize := boxSize.value;
      }
      if border.Some? {
        this.border := border.value;
      }
    }
  }
}

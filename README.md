# QR-Code backend: the upload fallback chain, modelled in Dafny

The backend of the QR-Code app (`backend.py`, class `QRCodeGenerator`) turns text into a QR code. For a file, it first uploads the file to a public file host and then encodes the resulting link. Five hosts are tried in a fixed order: catbox.moe, pixeldrain.com, 0x0.st, gofile.io and file.io. The first one that yields a truthy link wins. A host that raises counts the same as one that returns nothing, and the chain moves on to the next host. If all five fail, the result is a fixed failure record.

This project models that core and proves its properties:

- `PyValues`: the Python values a decoded JSON body can hold, together with truthiness, `str()`, `str.strip()`, `str.startswith()`, `dict.get` and `dict[key]`. Of these, only `.get` on a value that is not a dict and `[key]` on a missing key can raise, as can `response.json()` on a body that is not JSON (in `Http`); the outcome of such an evaluation is `Eval = Raised | Returned(v)`. Truthiness, `str()`, `.strip()` on a string and `startswith` never raise.
- `Http`: requests are plain values. The network is a total function `Request -> Response` passed in as a parameter. A `Response` is either a failed request (a connection error or timeout) or a reply with a status, a body text and the body's JSON value. That JSON value is `None` when `response.json()` would raise.
- `Adapters`: the five `_upload_to_*` methods as pure functions of the network. Each returns its result and the requests it sent. gofile is split into its two steps: `GofileLookup` and `GofileUploadResult`.
- `Fallback`: the record `{success, url, service, message}` and the fixed name and message of each service. `Resolve` is the rule that the first usable result, in service order, decides the record. Lemmas cover that rule and the well-formedness of the record.
- `Generator`: the class `QRCodeGenerator` and its fields `boxSize` and `border`.
  - Its constructor and `UpdateSettings` change those fields in place.
  - `Validate` is the input guard of `generate_qr_code`.
  - `UploadFileAndGetLink` is the chain, written as a loop over the services. It is proved against `Fallback.Upload` and counts the services it invoked.
  - `GenerateQrFromFile` runs the upload first and then calls the encoder.
  - The QR library is an `Encoder` function parameter. Each method returns the list of calls it made to the encoder, which serves as a call counter.

Behaviour of `backend.py` worth noting:

- The adapters themselves raise: on a failed request, on a body that is not JSON, on `.get` applied to a non-object, and on a missing key under `[...]`. It is the chain that catches the exception.
- The hosts check exact status codes: 200 for catbox, 0x0, gofile and file.io, and 201 for pixeldrain. They do not accept any 2xx status.
- gofile and file.io return whatever JSON value they find, so a "successful" `url` need not be a string. `NonStringLinkAccepted` exhibits such a case. For that case, `generate_qr_from_file` then raises `AttributeError` from `.strip()` rather than encoding anything.
- An upload failure and an encoder failure are both raised as a plain `Exception` carrying a message, not as distinct error types.

## Model

| member | source | states |
|---|---|---|
| `Generator.QRCodeGenerator.constructor` | backend.py:13-22 | the new generator holds the given `box_size` and `border` (10 and 4 by default) |
| `Generator.Validate` | backend.py:40-41 | accepts exactly the strings that contain a non-space character, and returns them unchanged; falsy data and blank strings give `ValueError("Data cannot be empty")`; a truthy non-string gives `AttributeError` |
| `Generator.QRCodeGenerator.GenerateQrCode` | backend.py:24-63 | rejected data never reaches the encoder; accepted data is encoded once, with version 1, error correction L, fit on and the current settings; an encoder failure becomes `Exception("Failed to generate QR code: " + cause)` |
| `Generator.QRCodeGenerator.UploadFileAndGetLink` | backend.py:65-148 | returns `Upload`'s record; exactly the services up to and including the winner run (all five when none wins); the requests sent are theirs, in order |
| `Generator.QRCodeGenerator.GenerateQrFromFile` | backend.py:217-241 | a failed upload raises with the upload's message and makes no encoder call; a successful one encodes exactly the link with the current settings and returns the upload record unchanged beside the image; an encoder failure escapes as `Exception("Failed to generate QR code: " + cause)` |
| `Generator.QRCodeGenerator.UpdateSettings` | backend.py:243-248 | each field changes only when its argument is present (including 0), to that argument; otherwise it keeps its old value |
| `Generator.EarlyAdapterLinksEncodable` | backend.py:150-179 | a usable result from the catbox, pixeldrain or 0x0 adapter is a string that the guard passes through unchanged |
| `Generator.EarlyServicesGiveEncodableLinks` | backend.py:150-179 | a link won from catbox, pixeldrain or 0x0 is a string with a non-space character, so it always passes the guard; catbox's starts with `https://` |
| `Generator.NonStringLinkAccepted` | backend.py:206-215 | a file.io reply `{success: true, link: 7}` after four failing hosts makes the chain succeed with the non-string link 7, which the guard rejects with `AttributeError` |
| `Adapters.UploadToCatbox` | backend.py:150-158 | sends one POST to catbox with `reqtype=fileupload`; returns a link exactly when the status is 200 and the raw, unstripped text starts with `https://`; the link is the stripped text and still starts with `https://`; otherwise it returns None, or raises when the request failed |
| `Adapters.CatboxLinkKeepsScheme` | backend.py:156-157 | a raw catbox text that starts with `https://` strips to a non-empty text that still starts with `https://` |
| `Adapters.UploadToPixeldrain` | backend.py:160-170 | returns a link exactly when the status is 201 and the JSON object has a truthy `id`; the link is `https://pixeldrain.com/u/` + `str(id)`; a 201 whose body is not a JSON object raises |
| `Adapters.UploadToZeroX0` | backend.py:172-179 | any 200 reply yields its stripped text, which is usable exactly when the text is not blank; any other status yields None |
| `Adapters.GofileLookup` | backend.py:183-191 | the upload goes ahead exactly when the lookup reply is 200 with `status == "ok"` and names `data.server`; stopping never yields a usable value, and a non-200 status or a `status` other than "ok" yields None |
| `Adapters.GofileUploadResult` | backend.py:194-204 | a non-None value comes only from a 200 reply with `status == "ok"`, and it is `data.downloadPage`; a non-200 status gives None |
| `Adapters.UploadToGofile` | backend.py:181-204 | sends the lookup first, and the upload (to `https://<server>.gofile.io/uploadFile`) only when the lookup goes ahead; the result is the lookup's stop value or the upload's result |
| `Adapters.GofileNeedsBothSteps` | backend.py:181-204 | a usable gofile link implies that both the lookup and the upload answered 200 with `status == "ok"`, so no partial URL leaks through |
| `Adapters.UploadToFileIo` | backend.py:206-215 | returns a link exactly when the status is 200 and the JSON object has a truthy `success` and a truthy `link`; the link is that value; a 200 whose body is not a JSON object raises |
| `Fallback.FirstUsable` | backend.py:77-140 | the first index whose result is usable, with every earlier result unusable |
| `Fallback.Resolve` | backend.py:77-148 | the record is well formed (success iff a truthy url and a service's own name and message, otherwise exactly the fixed failure record); it succeeds iff some service gave a usable result |
| `Fallback.Invoked` | backend.py:77-140 | the number of services run is between 1 and 5; every service before the last one run failed; the last one succeeded iff the record is a success, and all five ran otherwise |
| `Fallback.FirstUsableWins` | backend.py:77-140 | if service k is the first with a usable result, the record is service k's success with exactly that link, and k + 1 services ran |
| `Fallback.FailuresInterchangeable` | backend.py:78-88 | replacing one failed result by another (raised, None, "" or any falsy value) changes neither the record nor the number of services run |
| `Fallback.LaterServicesIgnored` | backend.py:77-140 | once service k has won, the results of the later services change neither the record nor the count of services run |
| `Fallback.ServiceLabelsDistinct` | backend.py:81-147 | the service names and the durability messages each identify their service, and no durability message equals the failure message |
| `Fallback.SentByLength` | backend.py:150-209 | n services that ran sent between n and n + 1 requests, and exactly n when gofile was not among them |
| `PyValues.Strip` | backend.py:157 | the result is the slice of the string left between an all-space head and an all-space tail, and it neither starts nor ends with a space; so it is empty iff the string is blank |
| `PyValues.StripMargins` | backend.py:157 | cutting a string just before its first non-space character and just after its last one leaves all-space margins, and leaves nothing exactly when the string is blank |
| `PyValues.Decimal` | backend.py:169 | `str()` of a natural number is a non-empty run of digits with no leading zero (except "0" itself) |
| `PyValues.DecimalValue` | backend.py:169 | reading back the digits `str()` writes for a natural number gives that number |
| `PyValues.StripKeepsPrefix` | backend.py:156-157 | stripping a string that starts with a prefix whose first and last characters are not spaces keeps that prefix |

## Left out

- QR matrix construction and PNG rendering (`qrcode`, `BytesIO`) are left out. They come from a foreign library, which the model treats as the `Encoder` parameter. That parameter may return an image or fail with a message.
- The real HTTP calls, multipart encoding and the waiting on timeouts are network I/O. The model replaces them with the `Network` parameter. Endpoints, form fields and timeout values are kept in the requests.
- JSON decoding itself is left out. A reply carries the decoded value, or `None` when the body is not JSON.
- The network is deterministic: the same request always gets the same answer. No request is sent twice within one run of the chain.
- The `print` logging in the chain is left out. An exception's message is not kept (`Raised` carries none), because only the log uses it.
- `save_to_file` (file I/O), `create_qr_code` (a thin wrapper), the `__main__` demo and all of `app.py` (the user interface) are not part of this model.
- PyStr: a list or object id (pixeldrain's `id`, gofile's `server`) is rendered as `[...]` or `{...}` rather than with Python's full `repr`.
- JSON numbers are modelled as integers. Fractional numbers, and their `str()` and truthiness, are not modelled.
- The colours and the settings values are passed to the encoder unchecked, as the source does. The library's own validation of them is not modelled.

/**
  The outcome of `upload_file_and_get_link`: the record it returns, the fixed
  name and durability message of each service, and the rule that decides the
  record from the services' results — the first usable link, in service
  order, wins.
 */
module Fallback {
  import opened Basics
  import opened PyValues
  import opened Http
  import opened Adapters

  /** The dict `{success, url, service, message}`; `url` is `Null` and `service` is `None` on failure. */
  datatype UploadOutcome = UploadOutcome(success: bool, url: Value, service: Option<string>, message: string)

  function Name(s: Service): string {
    match s
    case Catbox => "catbox.moe"
    case Pixeldrain => "pixeldrain.com"
    case ZeroX0 => "0x0.st"
    case Gofile => "gofile.io"
    case FileIo => "file.io"
  }

  /** The durability message reported with a link from each service. */
  function Message(s: Service): string {
    match s
    case Catbox => "\U{2713} PERMANENT link - Never expires!"
    case Pixeldrain => "\U{2713} Link available for 90+ days"
    case ZeroX0 => "\U{2713} Link available for 365 days (1 year)"
    case Gofile => "\U{2713} Link expires after 10 days of inactivity"
    case FileIo => "\U{26A0}\U{FE0F} Link expires after FIRST download or 14 days"
  }

  const ALL_FAILED_MESSAGE := "\U{274C} All upload services failed. Please try again or use Google Drive/Dropbox."

  const ALL_FAILED := UploadOutcome(false, Null, None, ALL_FAILED_MESSAGE)

  /** The record for a link `url` obtained from service `s`. */
  function Succeeded(s: Service, url: Value): UploadOutcome {
    UploadOutcome(true, url, Some(Name(s)), Message(s))
  }

  /**
    The shape every returned record has: a success carries a truthy link and
    the name and message of one service; a failure is the fixed failure record.
   */
  predicate WellFormed(o: UploadOutcome) {
    if o.success then
      Truthy(o.url) && exists s: Service :: o.service == Some(Name(s)) && o.message == Message(s)
    else
      o == ALL_FAILED
  }

  /** Names and messages identify the service, and no message is the failure message. */
  lemma ServiceLabelsDistinct(s: Service, t: Service)
    ensures Name(s) == Name(t) ==> s == t
    ensures Message(s) == Message(t) ==> s == t
    ensures Message(s) != ALL_FAILED_MESSAGE
  {
  }

  /** The results of all five adapters, in service order. */
  function Attempts(net: Network, content: Bytes, filename: string): (a: seq<Eval>)
    ensures |a| == |SERVICES|
    ensures forall j :: 0 <= j < |a| ==> a[j] == TryService(SERVICES[j], net, content, filename).result
  {
    seq(|SERVICES|, j requires 0 <= j < |SERVICES| => TryService(SERVICES[j], net, content, filename).result)
  }

  /** The first index from `i` on whose result is usable, or `|a|` when there is none. */
  function FirstUsable(a: seq<Eval>, i: nat): (k: nat)
    requires i <= |a|
    ensures i <= k <= |a|
    ensures forall j :: i <= j < k ==> !Usable(a[j])
    ensures k < |a| ==> Usable(a[k])
    decreases |a| - i
  {
    if i == |a| then i
    else if Usable(a[i]) then i
    else FirstUsable(a, i + 1)
  }

  /** The record the chain returns for the adapters' results `a`. */
  function Resolve(a: seq<Eval>): (o: UploadOutcome)
    requires |a| == |SERVICES|
    ensures WellFormed(o)
    ensures o.success <==> exists k :: 0 <= k < |a| && Usable(a[k])
    ensures !o.success ==> o == ALL_FAILED
  {
    var k := FirstUsable(a, 0);
    if k < |a| then Succeeded(SERVICES[k], a[k].value) else ALL_FAILED
  }

  /** How many adapters the chain runs: up to and including the winner, or all of them. */
  function Invoked(a: seq<Eval>): (n: nat)
    requires |a| == |SERVICES|
    ensures 1 <= n <= |a|
    ensures forall j :: 0 <= j < n - 1 ==> !Usable(a[j])
    ensures Resolve(a).success <==> Usable(a[n - 1])
    ensures !Resolve(a).success ==> n == |a|
  {
    var k := FirstUsable(a, 0);
    if k < |a| then k + 1 else |a|
  }

  /** The record `upload_file_and_get_link` returns for a file, given the network. */
  function Upload(net: Network, content: Bytes, filename: string): UploadOutcome {
    Resolve(Attempts(net, content, filename))
  }

  /** The requests sent by the first `n` adapters, in order. */
  function SentBy(net: Network, content: Bytes, filename: string, n: nat): seq<Request>
    requires n <= |SERVICES|
  {
    if n == 0 then []
    else SentBy(net, content, filename, n - 1) + TryService(SERVICES[n - 1], net, content, filename).sent
  }

  /**
    Each adapter that runs sends at least one request and only gofile sends a
    second, so the trace of `n` adapters holds `n` or `n + 1` requests.
   */
  lemma {:induction false} SentByLength(net: Network, content: Bytes, filename: string, n: nat)
    requires n <= |SERVICES|
    ensures n <= |SentBy(net, content, filename, n)| <= n + 1
    ensures n <= 3 ==> |SentBy(net, content, filename, n)| == n
  {
    if n > 0 {
      SentByLength(net, content, filename, n - 1);
    }
  }

  /**
    If every service before `k` failed and service `k` gave a link, the record
    is service `k`'s success with exactly that link, and `k + 1` services ran.
   */
  lemma FirstUsableWins(a: seq<Eval>, k: nat)
    requires |a| == |SERVICES| && k < |a|
    requires forall j :: 0 <= j < k ==> !Usable(a[j])
    requires Usable(a[k])
    ensures Resolve(a) == Succeeded(SERVICES[k], a[k].value)
    ensures Invoked(a) == k + 1
  {
  }

  /**
    A service that raises and one that returns an unusable value (None, "" or
    any falsy value) have the same effect on the chain.
   */
  lemma FailuresInterchangeable(a: seq<Eval>, b: seq<Eval>, j: nat)
    requires |a| == |b| == |SERVICES| && j < |a|
    requires forall i :: 0 <= i < |a| && i != j ==> a[i] == b[i]
    requires !Usable(a[j]) && !Usable(b[j])
    ensures Resolve(a) == Resolve(b)
    ensures Invoked(a) == Invoked(b)
  {
  }

  /** Once service `k` gave the winning link, what the later services would have done does not matter. */
  lemma LaterServicesIgnored(a: seq<Eval>, b: seq<Eval>, k: nat)
    requires |a| == |b| == |SERVICES| && k < |a|
    requires a[..k + 1] == b[..k + 1]
    requires Usable(a[k])
    ensures Resolve(a) == Resolve(b)
    ensures Invoked(a) == Invoked(b) <= k + 1
  {
    var w := FirstUsable(a, 0);
    assert w <= k;
    forall j | 0 <= j <= w ensures a[j] == b[j] {
      assert a[j] == a[..k + 1][j] && b[j] == b[..k + 1][j];
    }
    FirstUsableWins(a, w);
    FirstUsableWins(b, w);
  }
}

/**
 * The record-store client (src/data/api_client.py): URL preparation and the
 * paginated read of one table view, plus the result shapes of the create and
 * update calls.  The HTTP exchange itself is an oracle: `fetch(offset)` is the
 * store's answer to the page request at that offset.
 */
module Api {
  import opened Wrappers
  import opened Json
  import opened Tickets
  import opened Config
  import Text

  /** Records asked for per page. */
  const PageLimit: nat := 100

  const HostPath: string := "server.host"
  const PortPath: string := "server.port"
  const DefaultHost: string := "localhost"
  const DefaultPort: int := 8080

  const RequestErrorPrefix: string := "Lỗi get_data: "
  const UnexpectedErrorPrefix: string := "Lỗi không xác định trong get_data: "
  const PostErrorPrefix: string := "Lỗi khi gửi dữ liệu (post): "
  const PatchErrorPrefix: string := "Lỗi khi cập nhật dữ liệu (patch): "

  /** A Python computation that either yields a value or raises with an error text. */
  datatype Attempt<T> = Done(value: T) | Raised(error: string)

  /** Python's name for the type of a JSON value. */
  function TypeName(v: Json): string
  {
    match v
    case JNull => "NoneType"
    case JBool(_) => "bool"
    case JNum(_) => "int"
    case JStr(_) => "str"
    case JArray(_) => "list"
    case JObject(_) => "dict"
  }

  /** `str(v)` / `f"{v}"` for the scalar values the URL is built from; containers get a placeholder. */
  function Format(v: Json): string
  {
    match v
    case JNull => "None"
    case JBool(b) => if b then "True" else "False"
    case JNum(n) => Text.IntToString(n)
    case JStr(s) => s
    case JArray(_) => "[...]"
    case JObject(_) => "{...}"
  }

  /** The host starts with `http://` or `https://`. */
  predicate HasScheme(h: string)
  {
    (|h| >= 7 && h[..7] == "http://") || (|h| >= 8 && h[..8] == "https://")
  }

  /** The host with `http://` put in front unless it already names a scheme. */
  function NormalizeHost(h: string): string
  {
    if HasScheme(h) then h else "http://" + h
  }

  /** The `:{port}/{endpoint}` part of a URL. */
  function UrlTail(port: Json, endpoint: string): string
  {
    ":" + Format(port) + "/" + endpoint
  }

  /** `_prepare_url(endpoint)` for the configured host and port. */
  function PrepareUrl(host: Json, port: Json, endpoint: string): Attempt<string>
  {
    match host
    case JStr(h) => Done(NormalizeHost(h) + UrlTail(port, endpoint))
    case _ => Raised("'" + TypeName(host) + "' object has no attribute 'startswith'")
  }

  /** A scheme at the front survives anything appended after it. */
  lemma SchemeKept(h: string, tail: string)
    requires HasScheme(h)
    ensures HasScheme(h + tail)
  {
    if |h| >= 7 && h[..7] == "http://" {
      assert (h + tail)[..7] == h[..7];
    } else {
      assert (h + tail)[..8] == h[..8];
    }
  }

  /** `http://` in front of any text is a scheme. */
  lemma PlainScheme(h: string)
    ensures HasScheme("http://" + h)
  {
    assert ("http://" + h)[..7] == "http://";
  }

  /**
   * A string host always yields a URL with a scheme that keeps the host text
   * and ends in `:port/endpoint`; any other host value raises AttributeError.
   */
  lemma PrepareUrlShape(host: Json, port: Json, endpoint: string)
    ensures host.JStr? <==> PrepareUrl(host, port, endpoint).Done?
    ensures host.JStr? ==>
              var u := PrepareUrl(host, port, endpoint).value;
              var tail := UrlTail(port, endpoint);
              HasScheme(u) &&
              (HasScheme(host.s) ==> u == host.s + tail) &&
              (!HasScheme(host.s) ==> u == "http://" + host.s + tail)
  {
    if host.JStr? {
      var h := host.s;
      var tail := UrlTail(port, endpoint);
      assert PrepareUrl(host, port, endpoint).value == NormalizeHost(h) + tail;
      if HasScheme(h) {
        SchemeKept(h, tail);
      } else {
        PlainScheme(h);
        SchemeKept("http://" + h, tail);
        assert "http://" + h + tail == ("http://" + h) + tail;
      }
    }
  }

  /** Preparing a host that already carries its scheme changes nothing: normalising is idempotent. */
  lemma NormalizeHostIdempotent(h: string)
    ensures NormalizeHost(NormalizeHost(h)) == NormalizeHost(h)
  {
    if !HasScheme(h) {
      PlainScheme(h);
    }
  }

  /** `f"api/v2/tables/{table_id}/records"`. */
  function RecordsEndpoint(tableId: Json): string
  {
    "api/v2/tables/" + Format(tableId) + "/records"
  }

  /**
   * The store's answer to one page request: the page's `list` (a missing
   * `list` reads as an empty page), a failed request or HTTP error status
   * (requests' RequestException), or a body that cannot be read as a page
   * (any other exception), each failure with its exception text.
   */
  datatype PageResult = Page(records: seq<Record>) | RequestFailed(detail: string) | Malformed(detail: string)

  /** The loop ends at this page: it failed, or it holds fewer than a full page. */
  predicate Stops(p: PageResult)
  {
    !p.Page? || |p.records| < PageLimit
  }

  function PageRecords(p: PageResult): seq<Record>
  {
    if p.Page? then p.records else []
  }

  /** The records of the first `n` pages, in order. */
  function Collected(fetch: nat -> PageResult, n: nat): seq<Record>
  {
    if n == 0 then [] else Collected(fetch, n - 1) + PageRecords(fetch(PageLimit * (n - 1)))
  }

  /** Pages that did not end the loop hold at least a full page each. */
  lemma {:induction false} CollectedLength(fetch: nat -> PageResult, n: nat)
    requires forall j: nat :: j < n ==> !Stops(fetch(PageLimit * j))
    ensures |Collected(fetch, n)| >= PageLimit * n
  {
    if n > 0 {
      CollectedLength(fetch, n - 1);
      assert !Stops(fetch(PageLimit * (n - 1)));
    }
  }

  /**
   * What the pagination loop gives for the offsets `requested`: the pages at
   * offsets 0, 100, 200, ... were asked for in turn, every one of them full
   * except the last, which ends the loop; a short last page gives the
   * records of all the pages (at least a full page from each before it), a
   * failed one no records and its error text.
   */
  predicate Paginated(fetch: nat -> PageResult, records: Option<seq<Record>>, error: Option<string>, requested: seq<nat>)
  {
    (records.Some? <==> error.None?) &&
    |requested| > 0 &&
    (forall j :: 0 <= j < |requested| ==> requested[j] == PageLimit * j) &&
    (forall j :: 0 <= j < |requested| - 1 ==> !Stops(fetch(requested[j]))) &&
    var last := fetch(requested[|requested| - 1]);
    Stops(last) &&
    (last.Page? ==> records == Some(Collected(fetch, |requested|)) &&
                    |records.value| >= PageLimit * (|requested| - 1) + |last.records|) &&
    (last.RequestFailed? ==> error == Some(RequestErrorPrefix + last.detail)) &&
    (last.Malformed? ==> error == Some(UnexpectedErrorPrefix + last.detail))
  }

  /** The records URL of a table on the configured server (`server.host`, `server.port`, with their defaults). */
  function TableUrl(config: ConfigManager, tableId: Json): Attempt<string>
    reads config
  {
    PrepareUrl(config.Get(HostPath, JStr(DefaultHost)), config.Get(PortPath, JNum(DefaultPort)), RecordsEndpoint(tableId))
  }

  /**
   * The pagination loop of `get_data`: pages of 100 at offsets 0, 100, 200,
   * ... until a page comes back short or a request fails; a failure gives no
   * records and the error text.  `requested` lists the offsets asked for.
   */
  method FetchPages(fetch: nat -> PageResult) returns (records: Option<seq<Record>>, error: Option<string>, requested: seq<nat>)
    requires exists k: nat :: Stops(fetch(PageLimit * k))
    ensures Paginated(fetch, records, error, requested)
  {
    ghost var stop: nat :| Stops(fetch(PageLimit * stop));
    requested := [];
    var all: seq<Record> := [];
    var offset: nat := 0;
    while true
      invariant offset == PageLimit * |requested|
      invariant forall j :: 0 <= j < |requested| ==> requested[j] == PageLimit * j
      invariant forall j :: 0 <= j < |requested| ==> !Stops(fetch(requested[j]))
      invariant |requested| <= stop
      invariant all == Collected(fetch, |requested|)
      decreases stop - |requested|
    {
      var page := fetch(offset);
      requested := requested + [offset];
      match page {
        case RequestFailed(d) =>
          records, error := None, Some(RequestErrorPrefix + d);
          return;
        case Malformed(d) =>
          records, error := None, Some(UnexpectedErrorPrefix + d);
          return;
        case Page(rs) =>
          all := all + rs;
          if |rs| < PageLimit {
            forall j: nat | j < |requested| - 1
              ensures !Stops(fetch(PageLimit * j))
            {
              assert requested[j] == PageLimit * j;
            }
            CollectedLength(fetch, |requested| - 1);
            records, error := Some(all), None;
            return;
          }
          offset := offset + PageLimit;
      }
    }
  }

  /**
   * `get_data(table_id, view_id)`: the URL is prepared first, and a host that
   * is not a string ends the call before any request with the unexpected-error
   * text; otherwise the pages are fetched from that URL.
   */
  method GetData(config: ConfigManager, tableId: Json, fetch: nat -> PageResult)
    returns (records: Option<seq<Record>>, error: Option<string>, url: Option<string>, requested: seq<nat>)
    requires exists k: nat :: Stops(fetch(PageLimit * k))
    ensures records.Some? <==> error.None?
    ensures TableUrl(config, tableId).Raised? ==>
              url.None? && requested == [] && error == Some(UnexpectedErrorPrefix + TableUrl(config, tableId).error)
    ensures TableUrl(config, tableId).Done? ==>
              url == Some(TableUrl(config, tableId).value) && Paginated(fetch, records, error, requested)
  {
    match TableUrl(config, tableId) {
      case Raised(msg) =>
        records, error, url, requested := None, Some(UnexpectedErrorPrefix + msg), None, [];
      case Done(u) =>
        url := Some(u);
        records, error, requested := FetchPages(fetch);
    }
  }

  /** What an HTTP exchange of `post`/`patch` gave: a JSON body, or a RequestException's text. */
  datatype Transport = Responded(body: Json) | TransportFailed(detail: string)

  /** `(response.json(), None)` on success, `(None, prefix + str(e))` on a request failure. */
  function CallResult(prefix: string, t: Transport): (r: (Json, Option<string>))
    ensures r.1.None? <==> t.Responded?
    ensures t.Responded? ==> r.0 == t.body
    ensures t.TransportFailed? ==> r == (JNull, Some(prefix + t.detail))
  {
    match t
    case Responded(body) => (body, None)
    case TransportFailed(d) => (JNull, Some(prefix + d))
  }

  /** `create_record(table_id, data)`: a POST of the ticket to the table's records endpoint. */
  function CreateRecord(t: Transport): (Json, Option<string>)
  {
    CallResult(PostErrorPrefix, t)
  }

  /** `update_record(table_id, data)`: a PATCH of the ticket to the table's records endpoint. */
  function UpdateRecord(t: Transport): (Json, Option<string>)
  {
    CallResult(PatchErrorPrefix, t)
  }
}

/**
 * The client for the remote product API. In a browser the device-local storage entry
 * `"local-products"` is the catalog's source of truth: listing, creating, updating,
 * deleting and attaching a thumbnail work on it. Reading and updating ask the remote
 * service only when the entry has no product with the id; deleting always sends the remote
 * request after the local removal and returns its answer when it succeeds. Outside a
 * browser reads, updates, deletes and uploads go to the remote service. Everything the
 * remote side does is an input: a `Response` per request.
 */
module Api {
  import opened Outcomes
  import opened Entities
  import Lists

  const ApiBaseUrl := "https://api-teste-front-production.up.railway.app"

  /** The owner recorded on products and thumbnails created locally. */
  const LocalUser := "local-user"

  datatype Ack = Ack(codeIntern: string, message: string)

  const LocalDelete := Ack("LOCAL_DELETE", "Produto removido localmente")
  const LocalUpload := Ack("LOCAL_UPLOAD", "Thumbnail atualizada localmente")

  /** The rejection message for a thumbnail on an unknown product, byte for byte as the source spells it. */
  const NotFoundMessage := "Produto nÃ£o encontrado"
  const ReadErrorMessage := "Erro ao processar imagem"

  /**
   * What one remote request yields: a 2xx response with its decoded body, a non-2xx response
   * whose error body carries an optional `message`, or a rejection of `fetch` or of the body
   * decoding, with its reason.
   */
  datatype Response<T> = Ok(body: T) | ErrorBody(message: Option<string>) | Unreachable(reason: string)

  /** An outgoing request as the model records it: verb, full URL and headers (bodies are left out). */
  datatype HttpRequest = HttpRequest(verb: string, url: string, headers: map<string, string>)

  /** `error.message || "API Error"` */
  function ErrorMessage(message: Option<string>): (r: string)
    ensures r != ""
    ensures message.Some? && message.value != "" ==> r == message.value
    ensures message.None? || message.value == "" ==> r == "API Error"
  {
    if message.Some? && message.value != "" then message.value else "API Error"
  }

  /** How `request` turns a response into its resolved value or its error message. */
  function Outcome<T>(resp: Response<T>): (r: Result<T, string>)
    ensures r.Success? <==> resp.Ok?
    ensures resp.Ok? ==> r.value == resp.body
    ensures resp.ErrorBody? ==> r.error == ErrorMessage(resp.message) && r.error != ""
    ensures resp.Unreachable? ==> r.error == resp.reason
  {
    match resp
    case Ok(body) => Success(body)
    case ErrorBody(message) => Failure(ErrorMessage(message))
    case Unreachable(reason) => Failure(reason)
  }

  /** `if (token) headers.Authorization = "Bearer " + token`: only a non-empty token is sent. */
  function Authorize(h: map<string, string>, token: Option<string>): (r: map<string, string>)
    ensures ("Authorization" in r) <==> ("Authorization" in h || (token.Some? && token.value != ""))
    ensures token.Some? && token.value != "" ==> r["Authorization"] == "Bearer " + token.value
    ensures forall k :: k in h && k != "Authorization" ==> k in r && r[k] == h[k]
    ensures forall k :: k in r ==> k in h || k == "Authorization"
  {
    if token.Some? && token.value != "" then h["Authorization" := "Bearer " + token.value] else h
  }

  /** The clock readings a local thumbnail record takes: two `Date.now()` and two ISO timestamps. */
  datatype ThumbnailStamps = ThumbnailStamps(idNow: string, keyNow: string, createdAt: string, updatedAt: string)

  /** The thumbnail record attached locally for `file`, whose content was read as `dataUrl`. */
  function LocalThumbnail(file: FileInfo, dataUrl: string, st: ThumbnailStamps): (t: Thumbnail)
    ensures t.url == dataUrl && t.size == file.size && t.originalName == file.name && t.mimeType == file.mimeType
    ensures t.userId == LocalUser && t.idModule == "local" && t.key == "local-" + st.keyNow
    ensures t.id == st.idNow && t.createdAt == st.createdAt && t.updatedAt == st.updatedAt
  {
    Thumbnail(st.idNow, LocalUser, dataUrl, file.size, file.name, file.mimeType,
              "local-" + st.keyNow, "local", st.createdAt, st.updatedAt)
  }

  class ApiClient {
    /** Whether the client runs in a browser (`typeof window !== "undefined"`). */
    const browser: bool
    const baseUrl: string
    var token: Option<string>
    /** The storage entry `"token"`. */
    var storedToken: Option<string>
    /** The storage entry `"local-products"`, as the catalog it serialises. */
    var localProducts: Option<seq<Product>>

    /** A client over the given device storage; in a browser it picks up the saved token. */
    constructor (browser: bool, storedToken: Option<string>, localProducts: Option<seq<Product>>)
      ensures this.browser == browser && baseUrl == ApiBaseUrl
      ensures token == (if browser then storedToken else None)
      ensures this.storedToken == storedToken && this.localProducts == localProducts
    {
      this.browser, baseUrl := browser, ApiBaseUrl;
      this.storedToken, this.localProducts := storedToken, localProducts;
      token := if browser then storedToken else None;
    }

    /** The catalog a read of the entry gives: `JSON.parse(getItem("local-products") || "[]")`. */
    function Stored(): (ps: seq<Product>)
      reads this
      ensures localProducts.Some? ==> ps == localProducts.value
      ensures localProducts.None? ==> ps == []
    {
      localProducts.GetOr([])
    }

    /** The JSON request `request` sends for `endpoint`, with the bearer header when a token is set. */
    function Outgoing(verb: string, endpoint: string): (r: HttpRequest)
      reads this
      ensures r.verb == verb && r.url == baseUrl + endpoint
      ensures "Content-Type" in r.headers && r.headers["Content-Type"] == "application/json"
      ensures ("Authorization" in r.headers) <==> token.Some? && token.value != ""
      ensures "Authorization" in r.headers ==> r.headers["Authorization"] == "Bearer " + token.value
      ensures forall k :: k in r.headers ==> k == "Content-Type" || k == "Authorization"
    {
      HttpRequest(verb, baseUrl + endpoint, Authorize(map["Content-Type" := "application/json"], token))
    }

    method SetToken(t: string)
      modifies this`token, this`storedToken
      ensures token == Some(t)
      ensures storedToken == if browser then Some(t) else old(storedToken)
    {
      token := Some(t);
      if browser {
        storedToken := Some(t);
      }
    }

    method ClearToken()
      modifies this`token, this`storedToken
      ensures token == None
      ensures storedToken == if browser then None else old(storedToken)
    {
      token := None;
      if browser {
        storedToken := None;
      }
    }

    /** Sends one JSON request and reports what it resolved with or the message it rejected with. */
    method Request<T>(verb: string, endpoint: string, resp: Response<T>) returns (r: Result<T, string>, sent: HttpRequest)
      ensures sent == Outgoing(verb, endpoint)
      ensures r.Success? <==> resp.Ok?
      ensures resp.Ok? ==> r.value == resp.body
      ensures resp.ErrorBody? ==> r.error == ErrorMessage(resp.message)
      ensures resp.Unreachable? ==> r.error == resp.reason
    {
      sent := Outgoing(verb, endpoint);
      r := Outcome(resp);
    }

    /** The locally stored catalog; nothing is stored outside a browser. */
    method GetProducts() returns (ps: seq<Product>)
      ensures !browser || localProducts.None? ==> ps == []
      ensures browser && localProducts.Some? ==> ps == localProducts.value
    {
      if browser && localProducts.Some? {
        ps := localProducts.value;
      } else {
        ps := [];
      }
    }

    /** The first stored product with the id; only when there is none is the remote service asked. */
    method GetProduct(id: string, remote: Response<Product>) returns (r: Result<Product, string>, sent: Option<HttpRequest>)
      ensures var local := if browser then Lists.FindFirst(Stored(), ProductId, id) else None;
        if local.Some? then r == Success(local.value) && sent == None
        else r == Outcome(remote) && sent == Some(Outgoing("GET", "/products/" + id))
      ensures browser && (exists j :: 0 <= j < |Stored()| && Stored()[j].id == id) ==>
        sent == None && r.Success? && r.value in Stored() && r.value.id == id
    {
      if browser {
        var product := Lists.FindFirst(Stored(), ProductId, id);
        if product.Some? {
          return Success(product.value), None;
        }
      }
      var req;
      r, req := Request("GET", "/products/" + id, remote);
      sent := Some(req);
    }

    /**
     * Creates a product from the form data with the given id and timestamps, appending it to
     * the stored catalog; the owner and `idThumbnail` always take the local defaults.
     */
    method CreateProduct(data: ProductDraft, id: string, createdAt: string, updatedAt: string) returns (p: Product)
      modifies this`localProducts
      ensures p == Product(id, LocalUser, data.title, data.description, data.status, "", createdAt, updatedAt, data.thumbnail)
      ensures localProducts == if browser then Some(old(Stored()) + [p]) else old(localProducts)
    {
      p := Product(id, LocalUser, data.title, data.description, data.status, "", createdAt, updatedAt, data.thumbnail);
      if browser {
        var products := Stored();
        products := products + [p];
        localProducts := Some(products);
      }
    }

    /**
     * Merges `data` into the first stored product with the id, stamping `updatedAt` with `now`,
     * and returns the stored record; without a local match the update goes to the remote service.
     */
    method UpdateProduct(id: string, data: ProductPatch, now: string, remote: Response<Product>)
      returns (r: Result<Product, string>, sent: Option<HttpRequest>)
      modifies this`localProducts
      ensures var ps, i := old(Stored()), Lists.IndexOf(old(Stored()), ProductId, id);
        if browser && i >= 0 then
          && localProducts == Some(ps[i := Merge(ps[i], data).(updatedAt := now)])
          && r == Success(Stored()[i]) && sent == None
        else
          localProducts == old(localProducts) && r == Outcome(remote) && sent == Some(Outgoing("PUT", "/products/" + id))
    {
      if browser {
        var products := Stored();
        var index := Lists.IndexOf(products, ProductId, id);
        if index != -1 {
          products := products[index := Merge(products[index], data).(updatedAt := now)];
          localProducts := Some(products);
          return Success(products[index]), None;
        }
      }
      var req;
      r, req := Request("PUT", "/products/" + id, remote);
      sent := Some(req);
    }

    /**
     * Removes every stored product with the id, then asks the remote service; a remote
     * failure of any kind is answered with the local acknowledgement.
     */
    method DeleteProduct(id: string, remote: Response<Ack>) returns (ack: Ack, sent: HttpRequest)
      modifies this`localProducts
      ensures localProducts == if browser then Some(Lists.Without(old(Stored()), ProductId, id)) else old(localProducts)
      ensures ack == if remote.Ok? then remote.body else LocalDelete
      ensures sent == Outgoing("DELETE", "/products/" + id)
    {
      if browser {
        var filtered := Lists.Without(Stored(), ProductId, id);
        localProducts := Some(filtered);
      }
      var r;
      r, sent := Request("DELETE", "/products/" + id, remote);
      ack := if r.Success? then r.value else LocalDelete;
    }

    /**
     * Attaches `file` as the thumbnail of the first stored product with the id. In a browser,
     * `reading` is the data URL the file reader produced, or None when reading failed; outside
     * a browser the file goes to the remote service as a multipart upload.
     */
    method UpdateProductThumbnail(id: string, file: FileInfo, reading: Option<string>, stamps: ThumbnailStamps, remote: Response<Ack>)
      returns (r: Result<Ack, string>, sent: Option<HttpRequest>)
      modifies this`localProducts
      ensures browser ==> sent == None
      ensures browser && reading.None? ==> r == Failure(ReadErrorMessage) && localProducts == old(localProducts)
      ensures browser && reading.Some? ==>
        var ps, i := old(Stored()), Lists.IndexOf(old(Stored()), ProductId, id);
        if i >= 0 then
          && r == Success(LocalUpload)
          && localProducts == Some(ps[i := ps[i].(thumbnail := Some(LocalThumbnail(file, reading.value, stamps)))])
        else
          r == Failure(NotFoundMessage) && localProducts == old(localProducts)
      ensures !browser ==>
        && localProducts == old(localProducts) && r == Outcome(remote)
        && sent == Some(HttpRequest("PATCH", baseUrl + "/products/thumbnail/" + id, Authorize(map[], token)))
    {
      if browser {
        sent := None;
        if reading.None? {
          return Failure(ReadErrorMessage), None;
        }
        var products := Stored();
        var index := Lists.IndexOf(products, ProductId, id);
        if index != -1 {
          products := products[index := products[index].(thumbnail := Some(LocalThumbnail(file, reading.value, stamps)))];
          localProducts := Some(products);
          r := Success(LocalUpload);
        } else {
          r := Failure(NotFoundMessage);
        }
        return;
      }
      sent := Some(HttpRequest("PATCH", baseUrl + "/products/thumbnail/" + id, Authorize(map[], token)));
      r := Outcome(remote);
    }
  }

  /** A product created with an id no stored product has is what looking that id up returns. */
  method CreateThenGet(api: ApiClient, data: ProductDraft, id: string, createdAt: string, updatedAt: string, remote: Response<Product>)
    returns (p: Product, r: Result<Product, string>, sent: Option<HttpRequest>)
    requires api.browser
    requires forall j :: 0 <= j < |api.Stored()| ==> api.Stored()[j].id != id
    modifies api`localProducts
    ensures r == Success(p) && sent == None && p.id == id
    ensures api.Stored() == old(api.Stored()) + [p]
  {
    p := api.CreateProduct(data, id, createdAt, updatedAt);
    Lists.FindAppended(old(api.Stored()), p, ProductId);
    r, sent := api.GetProduct(id, remote);
  }
}

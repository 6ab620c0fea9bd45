/** The endpoint addresses of one RESTCONF server (client/client.go, `Address` and `NewAddress`). */
module ClientAddress {
  import opened Wrappers
  import opened Restconf

  datatype Address = Address(
    base: string,
    data: string,
    stream: string,
    ui: string,
    operations: string,
    schema: string,
    deviceId: string,
    host: string,
    origin: string)

  /** The base URL: the given URL with a '/' appended unless it already ends in one. */
  function BaseUrl(url: string): (b: string)
    requires |url| > 0
    ensures |b| > 0 && b[|b| - 1] == '/'
    ensures |url| <= |b| <= |url| + 1 && b[..|url|] == url
    ensures url[|url| - 1] == '/' ==> b == url
  {
    if url[|url| - 1] != '/' then url + "/" else url
  }

  /** Every endpoint is the base URL extended by its resource name. */
  ghost predicate DerivedFromBase(a: Address)
  {
    && |a.base| > 0 && a.base[|a.base| - 1] == '/'
    && a.data == a.base + "data/"
    && a.schema == a.base + "schema/"
    && a.ui == a.base + "ui/"
    && a.operations == a.base + "operations/"
  }

  /** `NewAddress(urlAddr)`. `url.Parse` and `restconf.FindDeviceIdInUrl` are not part of this
      model: `parseHost` gives the host `url.Parse` finds (or its error) and `deviceIdIn` the
      device id found in the URL. The Go code indexes `urlAddr[len(urlAddr)-1]`, so the URL
      must not be empty. `Stream` and `Host` are never filled in. */
  function NewAddress(url: string, parseHost: string -> Result<string, string>,
                      deviceIdIn: string -> string): (r: Result<Address, Error>)
    requires |url| > 0
    ensures r.Failure? <==> parseHost(BaseUrl(url)).Failure?
    ensures r.Failure? ==> r.error == BadUrl(parseHost(BaseUrl(url)).error)
    ensures r.Success? ==> DerivedFromBase(r.value) && r.value.base == BaseUrl(url)
    ensures r.Success? ==> r.value.origin == "http://" + parseHost(BaseUrl(url)).value
    ensures r.Success? ==> r.value.deviceId == deviceIdIn(BaseUrl(url))
    ensures r.Success? ==> r.value.stream == "" && r.value.host == ""
  {
    var base := BaseUrl(url);
    match parseHost(base)
    case Failure(reason) => Failure(BadUrl(reason))
    case Success(host) =>
      Success(Address(
        base := base,
        data := base + "data/",
        stream := "",
        ui := base + "ui/",
        operations := base + "operations/",
        schema := base + "schema/",
        deviceId := deviceIdIn(base),
        host := "",
        origin := "http://" + host))
  }

  /** Normalising the base URL a second time changes nothing. */
  lemma BaseUrlIdempotent(url: string)
    requires |url| > 0
    ensures BaseUrl(BaseUrl(url)) == BaseUrl(url)
  {
  }

  /** Building an address from an address's own base reproduces the same endpoints. */
  lemma NewAddressFromBase(url: string, parseHost: string -> Result<string, string>,
                           deviceIdIn: string -> string)
    requires |url| > 0
    requires NewAddress(url, parseHost, deviceIdIn).Success?
    ensures NewAddress(NewAddress(url, parseHost, deviceIdIn).value.base, parseHost, deviceIdIn)
            == NewAddress(url, parseHost, deviceIdIn)
  {
  }

  /** All endpoints share the base as a prefix, and no two of them extend one another: the data,
      operations, schema and UI resources never alias. */
  lemma EndpointsDistinct(a: Address)
    requires DerivedFromBase(a)
    ensures a.base <= a.data && a.base <= a.operations && a.base <= a.schema && a.base <= a.ui
    ensures !(a.data <= a.operations) && !(a.operations <= a.data)
    ensures !(a.data <= a.schema) && !(a.schema <= a.data)
    ensures !(a.data <= a.ui) && !(a.ui <= a.data)
    ensures !(a.operations <= a.schema) && !(a.schema <= a.operations)
    ensures !(a.operations <= a.ui) && !(a.ui <= a.operations)
    ensures !(a.schema <= a.ui) && !(a.ui <= a.schema)
  {
    var n := |a.base|;
    assert a.data[n] == 'd';
    assert a.operations[n] == 'o';
    assert a.schema[n] == 's';
    assert a.ui[n] == 'u';
  }
}
